/** The peer endpoint (Client/WampClient.php): the realm it joins, the
    sub-protocols it offers, the one connection it holds, the envelope
    decoder for what a router sends, and the application's entry points
    (HELLO, CALL, PUBLISH). */
module WampClient {
  import opened Values
  import opened Messages
  import opened Session
  import Ce = Callee
  import opened ClientSession

  /** The `switch` labels of the peer's decoder, in source order. */
  const CLIENT_CASES: seq<nat> :=
    [WELCOME, ABORT, GOODBYE, REGISTERED, UNREGISTERED, RESULT, INVOCATION, ERROR, PUBLISHED, SUBSCRIBED, UNSUBSCRIBED]

  /** The messages the peer's decoder has a case for. EVENT is not one of
      them. */
  predicate ToPeer(m: Msg) {
    m.Welcome? || m.Abort? || m.Goodbye? || m.Registered? || m.Unregistered? || m.Result? || m.Invocation?
    || m.Error? || m.Published? || m.Subscribed? || m.Unsubscribed?
  }

  /** The fields of the message filed under a switch label. */
  function ClientFields(code: nat, xs: seq<Value>): Option<Msg> {
    if code == WELCOME then Some(Welcome(At(xs, 1), At(xs, 2)))
    else if code == ABORT then Some(Abort(At(xs, 1), At(xs, 2)))
    else if code == GOODBYE then Some(Goodbye(At(xs, 1), At(xs, 2)))
    else if code == REGISTERED then Some(Registered(At(xs, 1), At(xs, 2)))
    else if code == UNREGISTERED then Some(Unregistered(At(xs, 1)))
    else if code == RESULT then
      (match TailAt(xs, 3)
       case Some(t) => Some(Result(At(xs, 1), At(xs, 2), t))
       case None => None)
    else if code == INVOCATION then
      (match TailAt(xs, 4)
       case Some(t) => Some(Invocation(At(xs, 1), At(xs, 2), At(xs, 3), t))
       case None => None)
    else if code == ERROR then
      (match TailAt(xs, 5)
       case Some(t) => Some(Error(At(xs, 1), At(xs, 2), At(xs, 3), At(xs, 4), t))
       case None => None)
    else if code == PUBLISHED then Some(Published(At(xs, 1), At(xs, 2)))
    else if code == SUBSCRIBED then Some(Subscribed(At(xs, 1), At(xs, 2)))
    else if code == UNSUBSCRIBED then Some(Unsubscribed(At(xs, 1)))
    else None
  }

  /** `onMessage`'s decoding, the same way the router's is done: only a
      sequential list is a message, its first element picks the case,
      missing elements read as null and a missing argument list as an empty
      one; a non-array argument list is refused by the `array` parameter. */
  function DecodeClient(json: Value): (r: Option<Msg>)
    ensures r.Some? ==> json.List? && ToPeer(r.value)
    ensures r.Some? ==> LooseEquals(At(json.items, 0), Tag(r.value))
    ensures r.Some? && r.value.HasTail() ==> !r.value.tail.NoArgs? && IsArray(r.value.tail.args)
  {
    if !json.List? then None
    else
      var xs := json.items;
      var taken := SwitchCase(At(xs, 0), CLIENT_CASES);
      if taken.None? then None else ClientFields(taken.value, xs)
  }

  /** A frame whose first element is an integer takes the case of that
      integer, if there is one. */
  lemma DecodeClientByTag(xs: seq<Value>, code: nat)
    requires |xs| >= 1 && xs[0] == Int(code)
    ensures DecodeClient(List(xs)) == if code in CLIENT_CASES then ClientFields(code, xs) else None
  {
  }

  /** Every message the decoder has a case for, with an argument tail the
      handlers accept, decodes to the message as the peer sees it. */
  lemma DecodeClientEncode(m: Msg)
    requires ToPeer(m) && Sendable(m)
    ensures DecodeClient(Encode(m)) == Some(Inbound(m))
  {
    if m.HasTail() {
      DecodeClientEncodeTail(m);
    } else {
      DecodeClientByTag(Encode(m).items, Tag(m));
    }
  }

  lemma {:induction false} DecodeClientEncodeTail(m: Msg)
    requires ToPeer(m) && m.HasTail() && Decodable(m.tail)
    ensures DecodeClient(Encode(m)) == Some(Inbound(m))
  {
    DecodeClientByTag(Encode(m).items, Tag(m));
    match m
    case Result(rid, details, tail) =>
      TailAtWire([Int(RESULT), rid, details], tail);
    case Invocation(rid, registration, details, tail) =>
      TailAtWire([Int(INVOCATION), rid, registration, details], tail);
    case Error(rt, rid, details, error, tail) =>
      TailAtWire([Int(ERROR), rt, rid, details, error], tail);
  }

  /** The peer refuses what a peer sends, and EVENT too: none of these tags
      is a case of its switch. */
  lemma DecodeClientRefuses(m: Msg)
    requires !ToPeer(m)
    ensures DecodeClient(Encode(m)) == None
  {
    DecodeClientByTag(Encode(m).items, Tag(m));
  }

  /** Positional defaults: RESULT without elements 3 and 4 and INVOCATION
      without 4 and 5 carry an empty argument list and no keyword
      arguments. */
  lemma ClientDefaults(a: Value, b: Value, c: Value)
    ensures DecodeClient(List([Int(RESULT), a, b])) == Some(Result(a, b, Pos(EmptyArray)))
    ensures DecodeClient(List([Int(INVOCATION), a, b, c])) == Some(Invocation(a, b, c, Pos(EmptyArray)))
  {
    DecodeClientByTag([Int(RESULT), a, b], RESULT);
    DecodeClientByTag([Int(INVOCATION), a, b, c], INVOCATION);
  }

  /** The sub-protocol names a peer offers when none are configured. */
  const DEFAULT_PROTOCOLS: seq<string> := ["__internal__", "wamp.2.json"]

  class WampClient {
    const realm: string
    /** The keys of the protocol table. */
    const protocols: seq<string>
    const session: SessionManager
    /** The decorated connection, from `onOpen` until `onClose`. */
    var connection: Option<ConnId>

    ghost predicate Valid()
      reads this, session, session.callee, session.caller, session.subscriber
    {
      session.Valid()
    }

    /** Built around a configured session manager (see
        `ClientSession.Configure`); an empty or absent protocol table falls
        back to the two default formatters. */
    constructor(realm: string, session: SessionManager, configured: seq<string>)
      requires session.Valid()
      ensures this.realm == realm && this.session == session && connection == None
      ensures configured != [] ==> protocols == configured
      ensures configured == [] ==> protocols == DEFAULT_PROTOCOLS
      ensures Valid()
    {
      this.realm := realm;
      this.session := session;
      protocols := if configured == [] then DEFAULT_PROTOCOLS else configured;
      connection := None;
    }

    /** `array_keys($this->_protocols)` */
    function GetSubProtocols(): seq<string> {
      protocols
    }

    /** Holds the decorated connection and opens its session. */
    method OnOpen(conn: ConnId)
      requires Valid()
      modifies this, session
      ensures Valid()
      ensures connection == Some(conn)
      ensures session.states == old(session.states)[conn := Closed] && session.sessionIds == old(session.sessionIds)
    {
      connection := Some(conn);
      session.OnOpen(conn);
    }

    /** Decodes a frame and hands the message to the session manager, on
        the held connection whatever connection the frame came from. No
        connection held, an undecodable frame, one with an unknown type, and
        an ERROR (whose handler name, `onErrorjson`, the session manager does
        not define) end the handler in the error path with nothing changed.
        `run` stands for the application callables. */
    method OnMessage(from: ConnId, json: Value, run: (Handler, Value, Value) -> Ce.Outcome) returns (out: seq<Effect>)
      requires Valid()
      modifies session, session.callee, session.caller, session.subscriber
      ensures Valid()
      ensures connection.None? || DecodeClient(json).None? || DecodeClient(json).value.Error? ==>
                && out == [Crash] && unchanged(session)
                && (session.callee != null ==> unchanged(session.callee))
                && (session.caller != null ==> unchanged(session.caller))
                && (session.subscriber != null ==> unchanged(session.subscriber))
      ensures var m := DecodeClient(json);
              connection.Some? && m.Some? && m.value.Welcome? ==>
                && session.Welcomed(connection.value, m.value.session, out)
                && (session.caller != null ==> unchanged(session.caller))
      ensures var m := DecodeClient(json);
              connection.Some? && m.Some? && (m.value.Abort? || m.value.Goodbye?) ==>
                var c := connection.value;
                if old(session.StateOf(c)) == Some(Established)
                then session.states == old(session.states)[c := if m.value.Abort? then Established else Closing]
                     && out == []
                else session.states == old(session.states)[c := Closed]
                     && out == AbortEffects(c, old(session.StateOf(c)),
                                            ViolationMessage(Established, old(session.StateOf(c))), PROTOCOL_VIOLATION)
      ensures var m := DecodeClient(json);
              connection.Some? && m.Some? && (m.value.Abort? || m.value.Goodbye?) ==>
                && session.sessionIds == old(session.sessionIds)
                && (session.callee != null ==> unchanged(session.callee))
                && (session.caller != null ==> unchanged(session.caller))
                && (session.subscriber != null ==> unchanged(session.subscriber))
      ensures var m := DecodeClient(json);
              connection.Some? && m.Some? && !(m.value.Welcome? || m.value.Abort? || m.value.Goodbye? || m.value.Error?) ==>
                session.Delivered(connection.value, m.value, out, run)
    {
      var decoded := DecodeClient(json);
      if connection.None? || decoded.None? || decoded.value.Error? {
        return [Crash];
      }
      var c := connection.value;
      var m := decoded.value;
      if m.Welcome? {
        out := session.OnWelcome(c, m.session, m.details);
      } else if m.Abort? {
        out := session.OnAbort(c, m.details, m.reason);
      } else if m.Goodbye? {
        out := session.OnGoodbye(c, m.details, m.reason);
      } else {
        out := Deliver(c, m, run);
      }
    }

    /** The messages for the roles, each handed to the session manager's
        forwarding handler; the session state is left alone. */
    method Deliver(c: ConnId, m: Msg, run: (Handler, Value, Value) -> Ce.Outcome) returns (out: seq<Effect>)
      requires Valid() && ToPeer(m) && !(m.Welcome? || m.Abort? || m.Goodbye? || m.Error?)
      requires m.HasTail() ==> !m.tail.NoArgs? && IsArray(m.tail.args)
      modifies session.callee, session.caller, session.subscriber
      ensures Valid()
      ensures session.Delivered(c, m, out, run)
    {
      out := [];
      match m {
        case Registered(rid, registration) =>
          session.OnRegistered(c, rid, registration);
        case Unregistered(rid) =>
          session.OnUnregistered(c, rid);
        case Result(rid, details, tail) =>
          out := session.OnResult(c, rid, details, tail.args, KeywordsOf(tail));
        case Invocation(rid, registration, details, tail) =>
          out := session.OnInvocation(c, rid, registration, details, tail.args, KeywordsOf(tail), run);
        case Published(rid, publication) =>
          out := session.OnPublished(c, rid, publication);
        case Subscribed(rid, subscription) =>
          session.OnSubscribed(c, rid, subscription);
        case Unsubscribed(rid) =>
          session.OnUnsubscribed(c, rid);
      }
    }

    /** Closes the held connection's session and lets the connection go;
        with no connection held, the session manager refuses the null
        connection. */
    method OnClose(conn: ConnId) returns (out: seq<Effect>)
      requires Valid()
      modifies this, session
      ensures Valid()
      ensures old(connection).None? ==> out == [Crash] && unchanged(this) && unchanged(session)
      ensures old(connection).Some? ==>
                && out == [] && connection == None
                && session.states == old(session.states) - {old(connection).value}
                && session.sessionIds == old(session.sessionIds)
    {
      if connection.None? {
        return [Crash];
      }
      session.OnClose(connection.value);
      connection := None;
      out := [];
    }

    /** HELLO on the held connection, for the configured realm. */
    method Hello() returns (out: seq<Effect>)
      requires Valid()
      modifies session
      ensures Valid()
      ensures connection.None? ==> out == [Crash] && unchanged(session)
      ensures connection.Some? ==>
                && session.states == old(session.states)[connection.value := Establishing]
                && out == [Send(connection.value, Msg.Hello(Str(realm), Dict(map["roles" := session.Roles()])))]
    {
      if connection.None? {
        return [Crash];
      }
      out := session.Hello(connection.value, realm);
    }

    /** CALL on the held connection. Omitted positional arguments are null,
        which the session manager refuses, as it refuses a missing
        callback. */
    method Call(procedure: Value, arguments: Value, keywords: Value, callback: Option<Handler>) returns (out: seq<Effect>)
      requires Valid()
      modifies session.caller
      ensures Valid()
      ensures connection.None? || !IsArray(arguments) || callback.None? ==>
                out == [Crash] && (session.caller != null ==> unchanged(session.caller))
      ensures connection.Some? && IsArray(arguments) && callback.Some? && session.caller == null ==> out == []
      ensures connection.Some? && IsArray(arguments) && callback.Some? && session.caller != null ==>
                && session.caller.nextId == old(session.caller.nextId) + 1
                && session.caller.callings == old(session.caller.callings)[Int(old(session.caller.nextId)) := callback]
                && out == [Send(connection.value, Msg.Call(Int(old(session.caller.nextId)), EmptyArray, procedure,
                                                          Trailing(arguments, keywords)))]
    {
      if connection.None? {
        return [Crash];
      }
      out := session.Call(connection.value, procedure, arguments, keywords, callback);
    }

    /** PUBLISH on the held connection. Omitted positional arguments are
        null, which the session manager refuses. */
    method Publish(topic: Value, arguments: Value, keywords: Value) returns (out: seq<Effect>)
      modifies session.publisher
      ensures connection.None? || !IsArray(arguments) ==>
                out == [Crash] && (session.publisher != null ==> unchanged(session.publisher))
      ensures connection.Some? && IsArray(arguments) && session.publisher == null ==> out == []
      ensures connection.Some? && IsArray(arguments) && session.publisher != null ==>
                && session.publisher.nextId == old(session.publisher.nextId) + 1
                && out == [Send(connection.value, Msg.Publish(Int(old(session.publisher.nextId)), EmptyArray, topic,
                                                             Trailing(arguments, keywords)))]
    {
      if connection.None? {
        return [Crash];
      }
      out := session.Publish(connection.value, topic, arguments, keywords);
    }
  }
}
