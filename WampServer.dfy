/** The router endpoint (Server/WampServer.php): the sub-protocols it
    offers, the decorated connections it tracks, and the envelope decoder
    that turns a decoded frame into a typed message for the session manager. */
module WampServer {
  import opened Values
  import opened Messages
  import opened Session
  import R = Realm
  import opened ServerSession

  /** The `switch` labels of the router's decoder, in source order. */
  const SERVER_CASES: seq<nat> :=
    [HELLO, ABORT, GOODBYE, REGISTER, UNREGISTER, CALL, YIELD, ERROR, PUBLISH, SUBSCRIBE, UNSUBSCRIBE]

  /** The messages a peer sends to the router. */
  predicate ToRouter(m: Msg) {
    m.Hello? || m.Abort? || m.Goodbye? || m.Register? || m.Unregister? || m.Call? || m.Yield?
    || m.Error? || m.Publish? || m.Subscribe? || m.Unsubscribe?
  }

  /** The fields of the message filed under a switch label. */
  function ServerFields(code: nat, xs: seq<Value>): Option<Msg> {
    if code == HELLO then Some(Hello(At(xs, 1), At(xs, 2)))
    else if code == ABORT then Some(Abort(At(xs, 1), At(xs, 2)))
    else if code == GOODBYE then Some(Goodbye(At(xs, 1), At(xs, 2)))
    else if code == REGISTER then Some(Register(At(xs, 1), At(xs, 2), At(xs, 3)))
    else if code == UNREGISTER then Some(Unregister(At(xs, 1), At(xs, 2)))
    else if code == CALL then
      (match TailAt(xs, 4)
       case Some(t) => Some(Call(At(xs, 1), At(xs, 2), At(xs, 3), t))
       case None => None)
    else if code == YIELD then
      (match TailAt(xs, 3)
       case Some(t) => Some(Yield(At(xs, 1), At(xs, 2), t))
       case None => None)
    else if code == ERROR then
      (match TailAt(xs, 5)
       case Some(t) => Some(Error(At(xs, 1), At(xs, 2), At(xs, 3), At(xs, 4), t))
       case None => None)
    else if code == PUBLISH then
      (match TailAt(xs, 4)
       case Some(t) => Some(Publish(At(xs, 1), At(xs, 2), At(xs, 3), t))
       case None => None)
    else if code == SUBSCRIBE then Some(Subscribe(At(xs, 1), At(xs, 2), At(xs, 3)))
    else if code == UNSUBSCRIBE then Some(Unsubscribe(At(xs, 1), At(xs, 2)))
    else None
  }

  /** `onMessage`'s decoding: only a sequential list is a message, its first
      element picks the case of the switch (in closed form; see
      `SwitchCaseIsFirstMatch`), missing elements read as null, and a missing
      argument list reads as an empty one. A non-array argument list is
      refused by the handlers' `array` parameter. */
  function DecodeServer(json: Value): (r: Option<Msg>)
    ensures r.Some? ==> json.List? && ToRouter(r.value)
    ensures r.Some? ==> LooseEquals(At(json.items, 0), Tag(r.value))
    ensures r.Some? && r.value.HasTail() ==> !r.value.tail.NoArgs? && IsArray(r.value.tail.args)
  {
    if !json.List? then None
    else
      var xs := json.items;
      var taken := SwitchCase(At(xs, 0), SERVER_CASES);
      if taken.None? then None else ServerFields(taken.value, xs)
  }

  /** A frame whose first element is an integer takes the case of that
      integer, if there is one. */
  lemma DecodeServerByTag(xs: seq<Value>, code: nat)
    requires |xs| >= 1 && xs[0] == Int(code)
    ensures DecodeServer(List(xs)) == if code in SERVER_CASES then ServerFields(code, xs) else None
  {
  }

  /** Every message a peer sends to the router, with an argument tail the
      handlers accept, decodes to the message as the router sees it. */
  lemma DecodeServerEncode(m: Msg)
    requires ToRouter(m) && Sendable(m)
    ensures DecodeServer(Encode(m)) == Some(Inbound(m))
  {
    if m.HasTail() {
      DecodeServerEncodeTail(m);
    } else {
      DecodeServerByTag(Encode(m).items, Tag(m));
    }
  }

  lemma {:induction false} DecodeServerEncodeTail(m: Msg)
    requires ToRouter(m) && m.HasTail() && Decodable(m.tail)
    ensures DecodeServer(Encode(m)) == Some(Inbound(m))
  {
    DecodeServerByTag(Encode(m).items, Tag(m));
    match m
    case Call(rid, options, procedure, tail) =>
      TailAtWire([Int(CALL), rid, options, procedure], tail);
    case Yield(rid, options, tail) =>
      TailAtWire([Int(YIELD), rid, options], tail);
    case Error(rt, rid, details, error, tail) =>
      TailAtWire([Int(ERROR), rt, rid, details, error], tail);
    case Publish(rid, options, topic, tail) =>
      TailAtWire([Int(PUBLISH), rid, options, topic], tail);
  }

  /** The router refuses what only a router sends: none of these tags is a
      case of its switch. */
  lemma DecodeServerRefuses(m: Msg)
    requires !ToRouter(m)
    ensures DecodeServer(Encode(m)) == None
  {
    DecodeServerByTag(Encode(m).items, Tag(m));
  }

  /** Positional defaults: CALL and PUBLISH without elements 4 and 5, YIELD
      without 3 and 4, and ERROR without 5 and 6 carry an empty argument
      list and no keyword arguments. */
  lemma ServerDefaultsCallPublish(a: Value, b: Value, c: Value)
    ensures DecodeServer(List([Int(CALL), a, b, c])) == Some(Call(a, b, c, Pos(EmptyArray)))
    ensures DecodeServer(List([Int(PUBLISH), a, b, c])) == Some(Publish(a, b, c, Pos(EmptyArray)))
  {
    DecodeServerByTag([Int(CALL), a, b, c], CALL);
    DecodeServerByTag([Int(PUBLISH), a, b, c], PUBLISH);
  }

  lemma ServerDefaultsYieldError(a: Value, b: Value, c: Value, d: Value)
    ensures DecodeServer(List([Int(YIELD), a, b])) == Some(Yield(a, b, Pos(EmptyArray)))
    ensures DecodeServer(List([Int(ERROR), a, b, c, d])) == Some(Error(a, b, c, d, Pos(EmptyArray)))
  {
    DecodeServerByTag([Int(YIELD), a, b], YIELD);
    DecodeServerByTag([Int(ERROR), a, b, c, d], ERROR);
  }

  /** The sub-protocol names a server offers when none are configured. */
  const DEFAULT_PROTOCOLS: seq<string> := ["__internal__", "wamp.2.json"]

  class WampServer {
    /** The keys of the protocol table. */
    const protocols: seq<string>
    /** The connections attached so far and not yet closed. */
    var connections: set<ConnId>
    const session: SessionManager
    /** The next session id a decorated connection draws */
    var nextSessionId: nat

    /** Every session id was drawn below the counter, and no two
        connections share one. */
    ghost predicate Valid()
      reads this, session, session.Engines()
    {
      && session.Valid()
      && (forall c :: c in session.sessionIds ==>
            session.sessionIds[c].Int? && 0 <= session.sessionIds[c].i < nextSessionId)
      && (forall c, d :: c in session.sessionIds && d in session.sessionIds && c != d ==>
            session.sessionIds[c] != session.sessionIds[d])
    }

    /** An empty or absent protocol table falls back to the two default
        formatters. */
    constructor(realms: map<string, R.Realm>, configured: seq<string>)
      requires forall n :: n in realms ==> realms[n].name == n && realms[n].Valid()
      ensures configured != [] ==> protocols == configured
      ensures configured == [] ==> protocols == DEFAULT_PROTOCOLS
      ensures connections == {} && fresh(session) && session.realms == realms && session.states == map[]
      ensures Valid()
    {
      protocols := if configured == [] then DEFAULT_PROTOCOLS else configured;
      session := new SessionManager(realms);
      connections := {};
      nextSessionId := 0;
    }

    /** `array_keys($this->_protocols)` */
    function GetSubProtocols(): seq<string> {
      protocols
    }

    /** Attaches the decorated connection and opens its session. Decorating
        the connection draws its session id, one no other connection holds. */
    method OnOpen(conn: ConnId)
      requires Valid()
      modifies this, session
      ensures Valid()
      ensures connections == old(connections) + {conn}
      ensures session.states == old(session.states)[conn := Establishing]
      ensures session.bound == old(session.bound)
      ensures nextSessionId == old(nextSessionId) + 1
      ensures session.sessionIds == old(session.sessionIds)[conn := Int(old(nextSessionId))]
      ensures forall c :: c in old(session.sessionIds) ==> old(session.sessionIds)[c] != session.sessionIds[conn]
    {
      var sessionId := Int(nextSessionId);
      nextSessionId := nextSessionId + 1;
      connections := connections + {conn};
      session.OnOpen(conn, sessionId);
    }

    /** Detaches the connection and closes its session. Looking up a
        connection that is not attached throws, uncaught, before anything
        changes. */
    method OnClose(conn: ConnId) returns (out: seq<Effect>)
      requires Valid()
      modifies this, session
      ensures Valid()
      ensures conn !in old(connections) ==> out == [Crash] && unchanged(this) && unchanged(session)
      ensures conn in old(connections) ==>
                && out == []
                && connections == old(connections) - {conn}
                && session.states == old(session.states) - {conn} && session.bound == old(session.bound) - {conn}
                && session.sessionIds == old(session.sessionIds)
    {
      if conn !in connections {
        return [Crash];
      }
      connections := connections - {conn};
      session.OnClose(conn);
      out := [];
    }

    /** Decodes a frame and hands the message to the session manager. A
        frame from a connection that is not attached, an undecodable frame,
        one with an unknown type, and an ERROR (whose handler name,
        `onErrorjson`, the session manager does not define) end the handler
        in the error path with nothing changed; a routing message on a
        session that is not established is aborted and reaches no engine. */
    method OnMessage(from: ConnId, json: Value) returns (out: seq<Effect>)
      requires Valid()
      modifies session, session.Engines()
      ensures Valid()
      ensures from !in connections || DecodeServer(json).None? || DecodeServer(json).value.Error? ==>
                out == [Crash] && unchanged(session) && unchanged(session.Engines())
      ensures var m := DecodeServer(json);
              from in connections && m.Some? && !(m.value.Hello? || m.value.Abort? || m.value.Error?)
              && old(session.StateOf(from)) != Some(Established) ==>
                && out == AbortEffects(from, old(session.StateOf(from)),
                                       ViolationMessage(Established, old(session.StateOf(from))), PROTOCOL_VIOLATION)
                && session.states == old(session.states)[from := Closed]
                && unchanged(session.Engines())
      ensures var m := DecodeServer(json);
              from in connections && m.Some? && !(m.value.Hello? || m.value.Abort? || m.value.Error?)
              && old(session.StateOf(from)) == Some(Established) ==>
                session.Dispatched(from, m.value, out)
      ensures var m := DecodeServer(json);
              from in connections && m.Some? && m.value.Hello? ==>
                && session.sessionIds == old(session.sessionIds) && unchanged(session.Engines())
                && (old(session.StateOf(from)) != Some(Establishing) ==>
                      && session.states == old(session.states)[from := Closed] && session.bound == old(session.bound)
                      && out == AbortEffects(from, old(session.StateOf(from)),
                                             ViolationMessage(Establishing, old(session.StateOf(from))), PROTOCOL_VIOLATION))
                && (old(session.StateOf(from)) == Some(Establishing) && !(m.value.realm.Str? && m.value.realm.s in session.realms) ==>
                      && session.states == old(session.states)[from := Closed] && session.bound == old(session.bound)
                      && out == AbortEffects(from, Some(Establishing), "The realm does not exist.", "wamp.error.no_such_realm"))
                && (old(session.StateOf(from)) == Some(Establishing) && m.value.realm.Str? && m.value.realm.s in session.realms ==>
                      var r := session.realms[m.value.realm.s];
                      && session.states == old(session.states)[from := Established]
                      && session.bound == old(session.bound)[from := r]
                      && out == [Send(from, Welcome(if from in session.sessionIds then session.sessionIds[from] else Null,
                                                    r.Session()))])
      ensures var m := DecodeServer(json);
              from in connections && m.Some? && m.value.Abort? ==>
                && session.states == old(session.states)[from := Closed] && session.bound == old(session.bound)
                && session.sessionIds == old(session.sessionIds) && unchanged(session.Engines())
                && out == [Close(from)]
      ensures from in connections && DecodeServer(json).Some? ==>
                unchanged(session.Engines() - session.BrokerOf(from) - session.DealerOf(from))
    {
      var decoded := DecodeServer(json);
      if from !in connections || decoded.None? || decoded.value.Error? {
        return [Crash];
      }
      var m := decoded.value;
      if m.Hello? {
        out := session.OnHello(from, m.realm, m.details);
      } else if m.Abort? {
        out := session.OnAbort(from, m.details, m.reason);
      } else {
        out := Route(from, m);
      }
    }

    /** The messages of an established session: GOODBYE and the routing
        messages, each handed to its handler, which aborts the session when
        it is not established. */
    method Route(from: ConnId, m: Msg) returns (out: seq<Effect>)
      requires Valid() && ToRouter(m) && !(m.Hello? || m.Abort? || m.Error?)
      requires m.HasTail() ==> !m.tail.NoArgs? && IsArray(m.tail.args)
      modifies session, session.Engines()
      ensures Valid()
      ensures old(session.StateOf(from)) != Some(Established) ==>
                && out == AbortEffects(from, old(session.StateOf(from)),
                                       ViolationMessage(Established, old(session.StateOf(from))), PROTOCOL_VIOLATION)
                && session.states == old(session.states)[from := Closed]
                && unchanged(session.Engines())
      ensures old(session.StateOf(from)) == Some(Established) ==> session.Dispatched(from, m, out)
      ensures unchanged(session.Engines() - session.BrokerOf(from) - session.DealerOf(from))
    {
      if m.Goodbye? {
        out := session.OnGoodbye(from, m.details, m.reason);
      } else if m.Publish? || m.Subscribe? || m.Unsubscribe? {
        out := RouteBroker(from, m);
      } else {
        out := RouteDealer(from, m);
      }
    }

    /** The broker's messages, handed to the session manager. */
    method RouteBroker(from: ConnId, m: Msg) returns (out: seq<Effect>)
      requires session.Valid() && (m.Publish? || m.Subscribe? || m.Unsubscribe?)
      requires m.Publish? ==> !m.tail.NoArgs? && IsArray(m.tail.args)
      modifies session, session.BrokerOf(from)
      ensures session.Valid() && session.sessionIds == old(session.sessionIds)
      ensures old(session.StateOf(from)) != Some(Established) ==>
                && out == AbortEffects(from, old(session.StateOf(from)),
                                       ViolationMessage(Established, old(session.StateOf(from))), PROTOCOL_VIOLATION)
                && session.states == old(session.states)[from := Closed]
                && unchanged(session.Engines())
      ensures old(session.StateOf(from)) == Some(Established) ==> session.Dispatched(from, m, out)
    {
      match m {
        case Publish(rid, options, topic, tail) =>
          out := session.OnPublish(from, rid, options, topic, tail.args, KeywordsOf(tail));
        case Subscribe(rid, options, topic) =>
          out := session.OnSubscribe(from, rid, options, topic);
        case Unsubscribe(rid, subscription) =>
          out := session.OnUnsubscribe(from, rid, subscription);
      }
    }

    /** The dealer's messages, handed to the session manager. */
    method RouteDealer(from: ConnId, m: Msg) returns (out: seq<Effect>)
      requires session.Valid() && (m.Register? || m.Unregister? || m.Call? || m.Yield?)
      requires m.Call? || m.Yield? ==> !m.tail.NoArgs? && IsArray(m.tail.args)
      modifies session, session.DealerOf(from)
      ensures session.Valid() && session.sessionIds == old(session.sessionIds)
      ensures old(session.StateOf(from)) != Some(Established) ==>
                && out == AbortEffects(from, old(session.StateOf(from)),
                                       ViolationMessage(Established, old(session.StateOf(from))), PROTOCOL_VIOLATION)
                && session.states == old(session.states)[from := Closed]
                && unchanged(session.Engines())
      ensures old(session.StateOf(from)) == Some(Established) ==> session.Dispatched(from, m, out)
    {
      match m {
        case Register(rid, options, procedure) =>
          out := session.OnRegister(from, rid, options, procedure);
        case Unregister(rid, registration) =>
          out := session.OnUnregister(from, rid, registration);
        case Call(rid, options, procedure, tail) =>
          out := session.OnCall(from, rid, options, procedure, tail.args, KeywordsOf(tail));
        case Yield(rid, options, tail) =>
          out := session.OnYield(from, rid, options, tail.args, KeywordsOf(tail));
      }
    }
  }
}
