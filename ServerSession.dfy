/** The router's session manager (Server/SessionManager.php): the realm
    table, the per-connection session state and bound realm, and the guard
    that lets routing messages through only on an established session. */
module ServerSession {
  import opened Values
  import opened Messages
  import opened Session
  import Broker
  import Dealer
  import R = Realm

  /** One entry of the constructor's argument: a realm name, a realm
      instance, or any other value (which is refused). */
  datatype RealmSpec = Named(name: string) | Given(realm: R.Realm) | Other(value: Value)

  /** The realm name an accepted entry is filed under. */
  function SpecName(spec: RealmSpec): string
    requires !spec.Other?
  {
    if spec.Named? then spec.name else spec.realm.name
  }

  predicate AllAccepted(specs: seq<RealmSpec>) {
    forall i :: 0 <= i < |specs| ==> !specs[i].Other?
  }

  /** The entry at i is the last one filed under its name. */
  predicate LastFor(specs: seq<RealmSpec>, i: nat)
    requires i < |specs| && AllAccepted(specs)
  {
    forall j :: i < j < |specs| ==> SpecName(specs[j]) != SpecName(specs[i])
  }

  /** The realm table once each realm has been filed under its name in
      turn, a later realm replacing an earlier one of the same name. */
  function Filed(realms: seq<R.Realm>): map<string, R.Realm> {
    if realms == [] then map[]
    else Filed(realms[..|realms| - 1])[realms[|realms| - 1].name := realms[|realms| - 1]]
  }

  /** Every realm filed is one of the sequence, under its own name, and
      every name of the sequence is filed. */
  lemma {:induction false} FiledFrom(realms: seq<R.Realm>)
    ensures Filed(realms).Keys == set k | 0 <= k < |realms| :: realms[k].name
    ensures forall n :: n in Filed(realms) ==> Filed(realms)[n] in realms && Filed(realms)[n].name == n
  {
    if realms != [] {
      var init := realms[..|realms| - 1];
      FiledFrom(init);
      assert forall k :: 0 <= k < |init| ==> init[k] == realms[k];
    }
  }

  /** A realm no later realm shares its name with is the one filed under
      that name. */
  lemma {:induction false} FiledLast(realms: seq<R.Realm>, k: nat)
    requires k < |realms| && forall j :: k < j < |realms| ==> realms[j].name != realms[k].name
    ensures realms[k].name in Filed(realms) && Filed(realms)[realms[k].name] == realms[k]
  {
    if k < |realms| - 1 {
      var init := realms[..|realms| - 1];
      assert init[k] == realms[k];
      FiledLast(init, k);
    }
  }

  /** One accepted entry: a name becomes a new realm with a new broker and
      a new dealer; a realm instance is taken as is. */
  method RealmFor(spec: RealmSpec) returns (realm: R.Realm)
    requires !spec.Other? && (spec.Given? ==> spec.realm.Valid())
    ensures realm.name == SpecName(spec) && realm.Valid()
    ensures spec.Given? ==> realm == spec.realm
    ensures spec.Named? ==> fresh(realm) && realm.broker != null && realm.dealer != null
  {
    if spec.Named? {
      realm := new R.Realm(spec.name, R.Create, R.Create);
    } else {
      realm := spec.realm;
    }
  }

  /** The constructor's loop, entry by entry: every name becomes a new
      realm with a new broker and a new dealer and every realm instance is
      taken as is. Any other entry makes the constructor throw (None). */
  method MakeRealms(specs: seq<RealmSpec>) returns (r: Option<seq<R.Realm>>)
    requires forall i :: 0 <= i < |specs| && specs[i].Given? ==> specs[i].realm.Valid()
    ensures r.Some? <==> AllAccepted(specs)
    ensures r.Some? ==> |r.value| == |specs|
    ensures r.Some? ==> forall k :: 0 <= k < |specs| ==> r.value[k].name == SpecName(specs[k]) && r.value[k].Valid()
    ensures r.Some? ==> forall k :: 0 <= k < |specs| && specs[k].Given? ==> r.value[k] == specs[k].realm
    ensures r.Some? ==> forall k :: 0 <= k < |specs| && specs[k].Named? ==>
                          fresh(r.value[k]) && r.value[k].broker != null && r.value[k].dealer != null
  {
    var made: seq<R.Realm> := [];
    var i := 0;
    while i < |specs|
      invariant 0 <= i <= |specs| && |made| == i
      invariant forall k :: 0 <= k < i ==> !specs[k].Other? && made[k].name == SpecName(specs[k]) && made[k].Valid()
      invariant forall k :: 0 <= k < i && specs[k].Given? ==> made[k] == specs[k].realm
      invariant forall k :: 0 <= k < i && specs[k].Named? ==>
                  fresh(made[k]) && made[k].broker != null && made[k].dealer != null
    {
      if specs[i].Other? {
        assert !AllAccepted(specs);
        return None;
      }
      var realm := RealmFor(specs[i]);
      made := made + [realm];
      i := i + 1;
    }
    r := Some(made);
  }

  /** The realm table the constructor builds: each realm filed under its
      name, so each name keeps the realm of its last entry. */
  method BuildRealms(specs: seq<RealmSpec>) returns (r: Option<map<string, R.Realm>>)
    requires forall i :: 0 <= i < |specs| && specs[i].Given? ==> specs[i].realm.Valid()
    ensures r.Some? <==> AllAccepted(specs)
    ensures r.Some? ==> r.value.Keys == set i | 0 <= i < |specs| :: SpecName(specs[i])
    ensures r.Some? ==> forall n :: n in r.value ==> r.value[n].name == n && r.value[n].Valid()
    ensures r.Some? ==> forall i :: 0 <= i < |specs| && specs[i].Given? && LastFor(specs, i) ==>
                          r.value[SpecName(specs[i])] == specs[i].realm
    ensures r.Some? ==> forall i :: 0 <= i < |specs| && specs[i].Named? && LastFor(specs, i) ==>
                          var realm := r.value[specs[i].name];
                          fresh(realm) && realm.broker != null && realm.dealer != null
  {
    var made := MakeRealms(specs);
    if made.None? {
      return None;
    }
    var realms := made.value;
    FiledFrom(realms);
    forall k | 0 <= k < |specs| && LastFor(specs, k)
      ensures Filed(realms)[SpecName(specs[k])] == realms[k]
    {
      FiledLast(realms, k);
    }
    r := Some(Filed(realms));
  }

  class SessionManager {
    /** realm name => realm */
    const realms: map<string, R.Realm>
    /** `$conn->WAMP2->sessionState`, absent once unset */
    var states: map<ConnId, SessionState>
    /** `$conn->WAMP2->realm`, absent while unset */
    var bound: map<ConnId, R.Realm>
    /** `$conn->WAMP2->sessionId`, assigned when the connection is decorated */
    var sessionIds: map<ConnId, Value>

    /** The engines of every realm. */
    ghost function Engines(): set<object> {
      (set r | r in realms.Values && r.broker != null :: r.broker as object)
        + (set r | r in realms.Values && r.dealer != null :: r.dealer as object)
    }

    ghost predicate Valid()
      reads this, Engines()
    {
      && (forall r :: r in realms.Values ==> r.Valid())
      && (forall c :: c in bound ==> bound[c] in realms.Values)
      && (forall c :: c in states && states[c] == Established ==> c in bound)
    }

    function StateOf(conn: ConnId): Option<SessionState>
      reads this
    {
      if conn in states then Some(states[conn]) else None
    }

    /** The broker of the realm bound to the connection, if any. */
    ghost function BrokerOf(conn: ConnId): set<object>
      reads this
    {
      if conn in bound && bound[conn].broker != null then {bound[conn].broker} else {}
    }

    /** The dealer of the realm bound to the connection, if any. */
    ghost function DealerOf(conn: ConnId): set<object>
      reads this
    {
      if conn in bound && bound[conn].dealer != null then {bound[conn].dealer} else {}
    }

    constructor(realms: map<string, R.Realm>)
      requires forall n :: n in realms ==> realms[n].name == n && realms[n].Valid()
      ensures this.realms == realms && states == map[] && bound == map[] && sessionIds == map[]
      ensures Valid()
    {
      this.realms := realms;
      states := map[];
      bound := map[];
      sessionIds := map[];
    }

    /** Sends ABORT unless the session is already closed, then marks it
        closed and closes the connection. */
    method Abort(conn: ConnId, message: string, reason: string) returns (out: seq<Effect>)
      requires Valid()
      modifies this
      ensures Valid()
      ensures states == old(states)[conn := Closed] && bound == old(bound) && sessionIds == old(sessionIds)
      ensures out == AbortEffects(conn, old(StateOf(conn)), message, reason)
    {
      out := if StateOf(conn) != Some(Closed) then [Send(conn, AbortMessage(message, reason))] else [];
      states := states[conn := Closed];
      out := out + [Close(conn)];
    }

    /** Aborts with a protocol violation unless the session is in the
        expected state. */
    method CheckProtocolViolation(conn: ConnId, expected: SessionState) returns (violated: bool, out: seq<Effect>)
      requires Valid()
      modifies this
      ensures Valid()
      ensures violated <==> old(StateOf(conn)) != Some(expected)
      ensures bound == old(bound) && sessionIds == old(sessionIds)
      ensures violated ==> states == old(states)[conn := Closed]
                           && out == AbortEffects(conn, old(StateOf(conn)),
                                                  ViolationMessage(expected, old(StateOf(conn))), PROTOCOL_VIOLATION)
      ensures !violated ==> states == old(states) && out == []
    {
      var actual := StateOf(conn);
      if actual != Some(expected) {
        out := Abort(conn, ViolationMessage(expected, actual), PROTOCOL_VIOLATION);
        return true, out;
      }
      return false, [];
    }

    /** A new connection, decorated with its session id, starts establishing. */
    method OnOpen(conn: ConnId, sessionId: Value)
      requires Valid()
      modifies this
      ensures Valid()
      ensures states == old(states)[conn := Establishing] && bound == old(bound)
      ensures sessionIds == old(sessionIds)[conn := sessionId]
    {
      sessionIds := sessionIds[conn := sessionId];
      states := states[conn := Establishing];
    }

    /** HELLO: only while establishing; a known realm name binds the realm,
        establishes the session and answers WELCOME with the realm's roles;
        an unknown name aborts. Only a string can name a realm. */
    method OnHello(conn: ConnId, realm: Value, details: Value) returns (out: seq<Effect>)
      requires Valid()
      modifies this
      ensures Valid() && sessionIds == old(sessionIds)
      ensures old(StateOf(conn)) != Some(Establishing) ==>
                && states == old(states)[conn := Closed] && bound == old(bound)
                && out == AbortEffects(conn, old(StateOf(conn)),
                                       ViolationMessage(Establishing, old(StateOf(conn))), PROTOCOL_VIOLATION)
      ensures old(StateOf(conn)) == Some(Establishing) && !(realm.Str? && realm.s in realms) ==>
                && states == old(states)[conn := Closed] && bound == old(bound)
                && out == AbortEffects(conn, Some(Establishing), "The realm does not exist.", "wamp.error.no_such_realm")
      ensures old(StateOf(conn)) == Some(Establishing) && realm.Str? && realm.s in realms ==>
                var r := realms[realm.s];
                && states == old(states)[conn := Established] && bound == old(bound)[conn := r]
                && out == [Send(conn, Welcome(if conn in sessionIds then sessionIds[conn] else Null, r.Session()))]
    {
      var violated;
      violated, out := CheckProtocolViolation(conn, Establishing);
      if violated {
        return;
      }
      if !(realm.Str? && realm.s in realms) {
        out := Abort(conn, "The realm does not exist.", "wamp.error.no_such_realm");
        return;
      }
      var r := realms[realm.s];
      states := states[conn := Established];
      bound := bound[conn := r];
      var sessionId := if conn in sessionIds then sessionIds[conn] else Null;
      out := [Send(conn, Welcome(sessionId, r.Session()))];
    }

    /** ABORT from the peer closes the session from any state. */
    method OnAbort(conn: ConnId, details: Value, reason: Value) returns (out: seq<Effect>)
      requires Valid()
      modifies this
      ensures Valid()
      ensures states == old(states)[conn := Closed] && bound == old(bound) && sessionIds == old(sessionIds)
      ensures out == [Close(conn)]
    {
      states := states[conn := Closed];
      out := [Close(conn)];
    }

    /** GOODBYE: on an established session it is answered and the session
        closed; otherwise it is a protocol violation. */
    method OnGoodbye(conn: ConnId, details: Value, reason: Value) returns (out: seq<Effect>)
      requires Valid()
      modifies this
      ensures Valid()
      ensures states == old(states)[conn := Closed] && bound == old(bound) && sessionIds == old(sessionIds)
      ensures old(StateOf(conn)) != Some(Established) ==>
                out == AbortEffects(conn, old(StateOf(conn)),
                                    ViolationMessage(Established, old(StateOf(conn))), PROTOCOL_VIOLATION)
      ensures old(StateOf(conn)) == Some(Established) ==>
                out == [Send(conn, Goodbye(EmptyArray, Str("wamp.close.goodbye_and_out"))), Close(conn)]
    {
      var violated;
      violated, out := CheckProtocolViolation(conn, Established);
      if violated {
        return;
      }
      out := [Send(conn, Goodbye(EmptyArray, Str("wamp.close.goodbye_and_out")))];
      states := states[conn := Closed];
      out := out + [Close(conn)];
    }

    /** The abort a routing message gets outside an established session. */
    twostate predicate Refused(conn: ConnId, out: seq<Effect>)
      reads this
    {
      && old(StateOf(conn)) != Some(Established)
      && states == old(states)[conn := Closed]
      && out == AbortEffects(conn, old(StateOf(conn)),
                             ViolationMessage(Established, old(StateOf(conn))), PROTOCOL_VIOLATION)
    }

    /** What a message does on an established session: GOODBYE is answered
        and the session closed; each routing message reaches the engine of
        the bound realm that owns it, the other engine untouched, and with
        no such engine the call on null is fatal. No other message is
        handed on from an established session. */
    twostate predicate Dispatched(conn: ConnId, m: Msg, out: seq<Effect>)
      reads this, BrokerOf(conn), DealerOf(conn)
    {
      && conn in bound && bound == old(bound) && sessionIds == old(sessionIds)
      && var b := bound[conn].broker;
      && var d := bound[conn].dealer;
      && (m.Goodbye? ==>
            && states == old(states)[conn := Closed]
            && out == [Send(conn, Goodbye(EmptyArray, Str("wamp.close.goodbye_and_out"))), Close(conn)]
            && unchanged(BrokerOf(conn), DealerOf(conn)))
      && (m.Publish? || m.Subscribe? || m.Unsubscribe? ==>
            && states == old(states) && unchanged(DealerOf(conn))
            && (b == null ==> out == [Crash])
            && (b != null && m.Publish? ==> b.PublishDone(conn, m.requestId, m.options, m.topic, Trailing(ArgumentsOf(m.tail), KeywordsOf(m.tail)), out))
            && (b != null && m.Subscribe? ==> b.SubscribeDone(conn, m.requestId, m.options, m.topic, out))
            && (b != null && m.Unsubscribe? ==> b.UnsubscribeDone(conn, m.requestId, m.subscription, out)))
      && (m.Register? || m.Unregister? || m.Call? || m.Yield? ==>
            && states == old(states) && unchanged(BrokerOf(conn))
            && (d == null ==> out == [Crash])
            && (d != null && m.Register? ==> d.RegisterDone(conn, m.requestId, m.options, m.procedure, out))
            && (d != null && m.Unregister? ==> d.UnregisterDone(conn, m.requestId, m.registration, out))
            && (d != null && m.Call? ==> d.CallDone(conn, m.requestId, m.options, m.procedure, Trailing(ArgumentsOf(m.tail), KeywordsOf(m.tail)), out))
            && (d != null && m.Yield? ==> d.YieldDone(conn, m.requestId, Trailing(ArgumentsOf(m.tail), KeywordsOf(m.tail)), out)))
      && (m.Goodbye? || m.Publish? || m.Subscribe? || m.Unsubscribe?
          || m.Register? || m.Unregister? || m.Call? || m.Yield?)
    }

    method OnPublish(conn: ConnId, requestId: Value, options: Value, topic: Value, arguments: Value, keywords: Value)
      returns (out: seq<Effect>)
      requires Valid() && IsArray(arguments)
      modifies this, BrokerOf(conn)
      ensures Valid() && bound == old(bound) && sessionIds == old(sessionIds)
      ensures old(StateOf(conn)) != Some(Established) ==> Refused(conn, out) && unchanged(BrokerOf(conn))
      ensures old(StateOf(conn)) == Some(Established) ==>
                var b := bound[conn].broker;
                && states == old(states)
                && (b == null ==> out == [Crash])
                && (b != null ==> b.PublishDone(conn, requestId, options, topic, Trailing(arguments, keywords), out))
    {
      var violated;
      violated, out := CheckProtocolViolation(conn, Established);
      if violated {
        return;
      }
      out := bound[conn].OnPublish(conn, requestId, options, topic, arguments, keywords);
    }

    method OnSubscribe(conn: ConnId, requestId: Value, options: Value, topic: Value) returns (out: seq<Effect>)
      requires Valid()
      modifies this, BrokerOf(conn)
      ensures Valid() && bound == old(bound) && sessionIds == old(sessionIds)
      ensures old(StateOf(conn)) != Some(Established) ==> Refused(conn, out) && unchanged(BrokerOf(conn))
      ensures old(StateOf(conn)) == Some(Established) ==>
                var b := bound[conn].broker;
                && states == old(states)
                && (b == null ==> out == [Crash])
                && (b != null ==> b.SubscribeDone(conn, requestId, options, topic, out))
    {
      var violated;
      violated, out := CheckProtocolViolation(conn, Established);
      if violated {
        return;
      }
      out := bound[conn].OnSubscribe(conn, requestId, options, topic);
    }

    method OnUnsubscribe(conn: ConnId, requestId: Value, subscriptionId: Value) returns (out: seq<Effect>)
      requires Valid()
      modifies this, BrokerOf(conn)
      ensures Valid() && bound == old(bound) && sessionIds == old(sessionIds)
      ensures old(StateOf(conn)) != Some(Established) ==> Refused(conn, out) && unchanged(BrokerOf(conn))
      ensures old(StateOf(conn)) == Some(Established) ==>
                var b := bound[conn].broker;
                && states == old(states)
                && (b == null ==> out == [Crash])
                && (b != null ==> b.UnsubscribeDone(conn, requestId, subscriptionId, out))
    {
      var violated;
      violated, out := CheckProtocolViolation(conn, Established);
      if violated {
        return;
      }
      out := bound[conn].OnUnsubscribe(conn, requestId, subscriptionId);
    }

    method OnRegister(conn: ConnId, requestId: Value, options: Value, procedure: Value) returns (out: seq<Effect>)
      requires Valid()
      modifies this, DealerOf(conn)
      ensures Valid() && bound == old(bound) && sessionIds == old(sessionIds)
      ensures old(StateOf(conn)) != Some(Established) ==> Refused(conn, out) && unchanged(DealerOf(conn))
      ensures old(StateOf(conn)) == Some(Established) ==>
                var d := bound[conn].dealer;
                && states == old(states)
                && (d == null ==> out == [Crash])
                && (d != null ==> d.RegisterDone(conn, requestId, options, procedure, out))
    {
      var violated;
      violated, out := CheckProtocolViolation(conn, Established);
      if violated {
        return;
      }
      out := bound[conn].OnRegister(conn, requestId, options, procedure);
    }

    method OnUnregister(conn: ConnId, requestId: Value, registrationId: Value) returns (out: seq<Effect>)
      requires Valid()
      modifies this, DealerOf(conn)
      ensures Valid() && bound == old(bound) && sessionIds == old(sessionIds)
      ensures old(StateOf(conn)) != Some(Established) ==> Refused(conn, out) && unchanged(DealerOf(conn))
      ensures old(StateOf(conn)) == Some(Established) ==>
                var d := bound[conn].dealer;
                && states == old(states)
                && (d == null ==> out == [Crash])
                && (d != null ==> d.UnregisterDone(conn, requestId, registrationId, out))
    {
      var violated;
      violated, out := CheckProtocolViolation(conn, Established);
      if violated {
        return;
      }
      out := bound[conn].OnUnregister(conn, requestId, registrationId);
    }

    method OnCall(conn: ConnId, requestId: Value, options: Value, procedure: Value, arguments: Value, keywords: Value)
      returns (out: seq<Effect>)
      requires Valid() && IsArray(arguments)
      modifies this, DealerOf(conn)
      ensures Valid() && bound == old(bound) && sessionIds == old(sessionIds)
      ensures old(StateOf(conn)) != Some(Established) ==> Refused(conn, out) && unchanged(DealerOf(conn))
      ensures old(StateOf(conn)) == Some(Established) ==>
                var d := bound[conn].dealer;
                && states == old(states)
                && (d == null ==> out == [Crash])
                && (d != null ==> d.CallDone(conn, requestId, options, procedure, Trailing(arguments, keywords), out))
    {
      var violated;
      violated, out := CheckProtocolViolation(conn, Established);
      if violated {
        return;
      }
      out := bound[conn].OnCall(conn, requestId, options, procedure, arguments, keywords);
    }

    method OnYield(conn: ConnId, requestId: Value, options: Value, arguments: Value, keywords: Value)
      returns (out: seq<Effect>)
      requires Valid() && IsArray(arguments)
      modifies this, DealerOf(conn)
      ensures Valid() && bound == old(bound) && sessionIds == old(sessionIds)
      ensures old(StateOf(conn)) != Some(Established) ==> Refused(conn, out) && unchanged(DealerOf(conn))
      ensures old(StateOf(conn)) == Some(Established) ==>
                var d := bound[conn].dealer;
                && states == old(states)
                && (d == null ==> out == [Crash])
                && (d != null ==> d.YieldDone(conn, requestId, Trailing(arguments, keywords), out))
    {
      var violated;
      violated, out := CheckProtocolViolation(conn, Established);
      if violated {
        return;
      }
      out := bound[conn].OnYield(conn, requestId, options, arguments, keywords);
    }

    /** ERROR from a peer goes to the bound realm whatever the session state;
        with no realm bound the call on null is a fatal error. */
    method OnErrorMessage(conn: ConnId, requestType: Value, requestId: Value, details: Value, error: Value,
                          arguments: Value, keywords: Value)
      returns (out: seq<Effect>)
      requires IsArray(arguments)
      ensures out == [] <==> conn in bound && (var r := bound[conn];
                (R.ErrorTarget(requestType) == R.ToBroker && r.broker != null)
                || (R.ErrorTarget(requestType) == R.ToDealer && r.dealer != null))
      ensures out != [] ==> out == [Crash]
    {
      if conn !in bound {
        return [Crash];
      }
      out := bound[conn].OnErrorMessage(conn, requestType, requestId, details, error, arguments, keywords);
    }

    /** The connection is gone: its realm is cleaned up (a no-op) and
        unbound, and its session state unset. */
    method OnClose(conn: ConnId)
      requires Valid()
      modifies this
      ensures Valid()
      ensures states == old(states) - {conn} && bound == old(bound) - {conn} && sessionIds == old(sessionIds)
    {
      bound := bound - {conn};
      states := states - {conn};
    }
  }
}
