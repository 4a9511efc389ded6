/** The peer's session manager (Client/SessionManager.php): the roles the
    peer plays, the per-connection session state, the lifecycle handlers that
    mirror the router's, the forwarding of role messages to the configured
    roles, and the routing of ERROR messages by the request type they answer. */
module ClientSession {
  import opened Values
  import opened Messages
  import opened Session
  import opened Tables
  import opened Requests
  import opened Bindings
  import Ce = Callee
  import Cr = Caller
  import Pb = Publisher
  import Sb = Subscriber

  /** One entry of the configuration array: absent, null, an instance of the
      role's class, a binding array, or any other value. */
  datatype RoleConfig<T> = Absent | NullValue | Instance(obj: T) | Table(entries: seq<Binding>) | Scalar(value: Value)

  /** A callee or subscriber entry that makes the constructor throw: a value
      that is not an array, or a binding array with a bad binding. Absent
      entries default to null. */
  predicate Refused<T>(config: RoleConfig<T>) {
    config.Scalar? || (config.Table? && !(forall i :: 0 <= i < |config.entries| ==> Accepted(config.entries[i])))
  }

  /** The role an ERROR is handed to. */
  datatype ErrorRole = SessionRole | PublisherRole | SubscriberRole | CallerRole | CalleeRole | NoRole

  /** The `switch` labels of `onErrorMessage`, in source order. */
  const ERROR_CASES: seq<nat> :=
    [HELLO, WELCOME, ABORT, GOODBYE, PUBLISH, PUBLISHED, SUBSCRIBE, SUBSCRIBED, UNSUBSCRIBE, UNSUBSCRIBED, EVENT,
     CALL, RESULT, REGISTER, REGISTERED, UNREGISTER, UNREGISTERED, INVOCATION, YIELD]

  /** The role whose group of cases holds the label. */
  function RoleOfCase(code: nat): ErrorRole {
    if code in [HELLO, WELCOME, ABORT, GOODBYE] then SessionRole
    else if code in [PUBLISH, PUBLISHED] then PublisherRole
    else if code in [SUBSCRIBE, SUBSCRIBED, UNSUBSCRIBE, UNSUBSCRIBED, EVENT] then SubscriberRole
    else if code in [CALL, RESULT] then CallerRole
    else if code in [REGISTER, REGISTERED, UNREGISTER, UNREGISTERED, INVOCATION, YIELD] then CalleeRole
    else NoRole
  }

  /** `switch ($requestType)` with PHP's loose comparison (in closed form;
      see `SwitchCaseIsFirstMatch`); a value no label matches takes the
      default case. */
  function ErrorRoleOf(requestType: Value): ErrorRole {
    var taken := SwitchCase(requestType, ERROR_CASES);
    if taken.None? then NoRole else RoleOfCase(taken.value)
  }

  /** The routing table, stated per request type: the session's own tags go
      to nobody, 16-17 to the publisher, 32-36 to the subscriber, 48 and 50
      to the caller, 64-68 and 70 to the callee; every other integer takes
      the default case. `true` equals the first label and counts as HELLO. */
  lemma ErrorRoleOfCodes(code: int)
    ensures ErrorRoleOf(Int(code)) == SessionRole <==> code in {1, 2, 3, 6}
    ensures ErrorRoleOf(Int(code)) == PublisherRole <==> code in {16, 17}
    ensures ErrorRoleOf(Int(code)) == SubscriberRole <==> 32 <= code <= 36
    ensures ErrorRoleOf(Int(code)) == CallerRole <==> code in {48, 50}
    ensures ErrorRoleOf(Int(code)) == CalleeRole <==> (64 <= code <= 68 || code == 70)
    ensures ErrorRoleOf(Bool(true)) == SessionRole && ErrorRoleOf(Null) == NoRole
  {
  }

  class SessionManager {
    const callee: Ce.Callee?
    const caller: Cr.Caller?
    const publisher: Pb.Publisher?
    const subscriber: Sb.Subscriber?
    /** `$conn->WAMP2->sessionState`, absent while unset */
    var states: map<ConnId, SessionState>
    /** `$conn->WAMP2->sessionId`, as set on WELCOME */
    var sessionIds: map<ConnId, Value>

    ghost predicate Valid()
      reads this, callee, caller, subscriber
    {
      && (callee != null ==> callee.Valid())
      && (caller != null ==> caller.Valid())
      && (subscriber != null ==> subscriber.Valid())
    }

    constructor(callee: Ce.Callee?, caller: Cr.Caller?, publisher: Pb.Publisher?, subscriber: Sb.Subscriber?)
      requires callee != null ==> callee.Valid()
      requires caller != null ==> caller.Valid()
      requires subscriber != null ==> subscriber.Valid()
      ensures this.callee == callee && this.caller == caller
      ensures this.publisher == publisher && this.subscriber == subscriber
      ensures states == map[] && sessionIds == map[]
      ensures Valid()
    {
      this.callee := callee;
      this.caller := caller;
      this.publisher := publisher;
      this.subscriber := subscriber;
      states := map[];
      sessionIds := map[];
    }

    function StateOf(conn: ConnId): Option<SessionState>
      reads this
    {
      if conn in states then Some(states[conn]) else None
    }

    /** The HELLO details' roles: one empty feature object per configured
        role. */
    function Roles(): (roles: Value)
      reads this
      ensures roles.Dict?
      ensures ("callee" in roles.fields <==> callee != null) && ("caller" in roles.fields <==> caller != null)
      ensures ("publisher" in roles.fields <==> publisher != null)
      ensures ("subscriber" in roles.fields <==> subscriber != null)
      ensures roles.fields.Keys <= {"callee", "caller", "publisher", "subscriber"}
      ensures forall k :: k in roles.fields ==> roles.fields[k] == EmptyObject
    {
      Dict((if callee != null then map["callee" := EmptyObject] else map[])
           + (if caller != null then map["caller" := EmptyObject] else map[])
           + (if publisher != null then map["publisher" := EmptyObject] else map[])
           + (if subscriber != null then map["subscriber" := EmptyObject] else map[]))
    }

    /** Sends ABORT unless the session is already closed, then marks it
        closed and closes the connection. */
    method Abort(conn: ConnId, message: string, reason: string) returns (out: seq<Effect>)
      modifies this
      ensures states == old(states)[conn := Closed] && sessionIds == old(sessionIds)
      ensures out == AbortEffects(conn, old(StateOf(conn)), message, reason)
    {
      out := if StateOf(conn) != Some(Closed) then [Send(conn, AbortMessage(message, reason))] else [];
      states := states[conn := Closed];
      out := out + [Close(conn)];
    }

    /** Aborts with a protocol violation unless the session is in the
        expected state. */
    method CheckProtocolViolation(conn: ConnId, expected: SessionState) returns (violated: bool, out: seq<Effect>)
      modifies this
      ensures violated <==> old(StateOf(conn)) != Some(expected)
      ensures sessionIds == old(sessionIds)
      ensures violated ==> states == old(states)[conn := Closed]
                           && out == AbortEffects(conn, old(StateOf(conn)),
                                                  ViolationMessage(expected, old(StateOf(conn))), PROTOCOL_VIOLATION)
      ensures !violated ==> states == old(states) && out == []
    {
      var actual := StateOf(conn);
      if actual != Some(expected) {
        out := Abort(conn, ViolationMessage(expected, actual), PROTOCOL_VIOLATION);
        return true, out;
      }
      return false, [];
    }

    /** A new connection starts closed. */
    method OnOpen(conn: ConnId)
      modifies this
      ensures states == old(states)[conn := Closed] && sessionIds == old(sessionIds)
    {
      states := states[conn := Closed];
    }

    /** HELLO: from any state the session starts establishing and the realm
        is greeted with the configured roles. */
    method Hello(conn: ConnId, realm: string) returns (out: seq<Effect>)
      modifies this
      ensures states == old(states)[conn := Establishing] && sessionIds == old(sessionIds)
      ensures out == [Send(conn, Msg.Hello(Str(realm), Dict(map["roles" := Roles()])))]
    {
      var roles := Roles();
      states := states[conn := Establishing];
      out := [Send(conn, Msg.Hello(Str(realm), Dict(map["roles" := roles])))];
    }

    /** What WELCOME does: only while establishing, the session is
        established, its id recorded, and then the callee registers its
        procedures and the subscriber subscribes its topics; in any other
        state it is a protocol violation and the roles are left alone. */
    twostate predicate Welcomed(conn: ConnId, sessionId: Value, out: seq<Effect>)
      reads this, callee, subscriber
    {
      && (old(StateOf(conn)) != Some(Establishing) ==>
            && states == old(states)[conn := Closed] && sessionIds == old(sessionIds)
            && out == AbortEffects(conn, old(StateOf(conn)),
                                   ViolationMessage(Establishing, old(StateOf(conn))), PROTOCOL_VIOLATION)
            && (callee != null ==> unchanged(callee)) && (subscriber != null ==> unchanged(subscriber)))
      && (old(StateOf(conn)) == Some(Establishing) ==>
            && states == old(states)[conn := Established] && sessionIds == old(sessionIds)[conn := sessionId]
            && out == (if callee == null then []
                       else Ce.RegisterRequests(conn, callee.names, old(callee.nextId), |callee.names|))
                      + (if subscriber == null then []
                         else Sb.SubscribeRequests(conn, subscriber.names, old(subscriber.nextId), |subscriber.names|))
            && (callee != null ==>
                  && callee.nextId == old(callee.nextId) + |callee.names|
                  && callee.registerings == Pending(old(callee.registerings), callee.names, old(callee.nextId), |callee.names|)
                  && callee.unregisterings == old(callee.unregisterings)
                  && callee.registrations == old(callee.registrations))
            && (subscriber != null ==>
                  && subscriber.nextId == old(subscriber.nextId) + |subscriber.names|
                  && subscriber.subscribings
                     == Pending(old(subscriber.subscribings), subscriber.names, old(subscriber.nextId), |subscriber.names|)
                  && subscriber.unsubscribings == old(subscriber.unsubscribings)
                  && subscriber.subscriptions == old(subscriber.subscriptions)))
    }

    method OnWelcome(conn: ConnId, sessionId: Value, details: Value) returns (out: seq<Effect>)
      requires Valid()
      modifies this, callee, subscriber
      ensures Valid() && Welcomed(conn, sessionId, out)
    {
      var violated;
      violated, out := CheckProtocolViolation(conn, Establishing);
      if violated {
        return;
      }
      states := states[conn := Established];
      sessionIds := sessionIds[conn := sessionId];
      if callee != null {
        out := callee.RegisterProcedures(conn);
      }
      if subscriber != null {
        var subscribed := subscriber.SubscribeToTopics(conn);
        out := out + subscribed;
      }
    }

    /** ABORT: outside an established session it is a protocol violation;
        on an established session the state is set to established again. */
    method OnAbort(conn: ConnId, details: Value, reason: Value) returns (out: seq<Effect>)
      modifies this
      ensures sessionIds == old(sessionIds)
      ensures old(StateOf(conn)) != Some(Established) ==>
                && states == old(states)[conn := Closed]
                && out == AbortEffects(conn, old(StateOf(conn)),
                                       ViolationMessage(Established, old(StateOf(conn))), PROTOCOL_VIOLATION)
      ensures old(StateOf(conn)) == Some(Established) ==> states == old(states) && out == []
    {
      var violated;
      violated, out := CheckProtocolViolation(conn, Established);
      if violated {
        return;
      }
      states := states[conn := Established];
    }

    /** GOODBYE: on an established session the session starts closing;
        otherwise it is a protocol violation. Nothing is sent back. */
    method OnGoodbye(conn: ConnId, details: Value, reason: Value) returns (out: seq<Effect>)
      modifies this
      ensures sessionIds == old(sessionIds)
      ensures old(StateOf(conn)) != Some(Established) ==>
                && states == old(states)[conn := Closed]
                && out == AbortEffects(conn, old(StateOf(conn)),
                                       ViolationMessage(Established, old(StateOf(conn))), PROTOCOL_VIOLATION)
      ensures old(StateOf(conn)) == Some(Established) ==> states == old(states)[conn := Closing] && out == []
    {
      var violated;
      violated, out := CheckProtocolViolation(conn, Established);
      if violated {
        return;
      }
      states := states[conn := Closing];
    }

    /** The connection is gone: its session state is unset. */
    method OnClose(conn: ConnId)
      modifies this
      ensures states == old(states) - {conn} && sessionIds == old(sessionIds)
    {
      states := states - {conn};
    }

    /** What a role message does: it is forwarded to the role that owns it
        when that role is configured, and does nothing otherwise; the session
        state and the other roles are left alone. No other message is
        handed to a role. */
    twostate predicate Delivered(conn: ConnId, m: Msg, out: seq<Effect>, run: (Handler, Value, Value) -> Ce.Outcome)
      reads this, callee, caller, subscriber
    {
      && old(Valid()) && Valid() && states == old(states) && sessionIds == old(sessionIds)
      && (m.Registered? || m.Unregistered? || m.Invocation? || m.Published? ==>
            (caller != null ==> unchanged(caller)) && (subscriber != null ==> unchanged(subscriber)))
      && (m.Result? || m.Subscribed? || m.Unsubscribed? || m.Published? || m.Invocation? ==>
            callee != null ==> unchanged(callee))
      && (m.Result? ==> subscriber != null ==> unchanged(subscriber))
      && (m.Subscribed? || m.Unsubscribed? ==> caller != null ==> unchanged(caller))
      && (m.Registered? || m.Unregistered? || m.Published? || m.Subscribed? || m.Unsubscribed? ==> out == [])
      && (m.Registered? && callee != null ==>
            && callee.registrations == Put(old(callee.registrations), m.registration,
                                           if m.requestId in old(callee.registerings)
                                           then Str(old(callee.registerings)[m.requestId]) else Null)
            && callee.registerings == old(callee.registerings) - {m.requestId}
            && callee.nextId == old(callee.nextId) && callee.unregisterings == old(callee.unregisterings))
      && (m.Unregistered? && callee != null ==>
            && callee.registrations == Remove(old(callee.registrations),
                                              if m.requestId in old(callee.unregisterings)
                                              then old(callee.unregisterings)[m.requestId] else Null)
            && callee.unregisterings == old(callee.unregisterings) - {m.requestId}
            && callee.nextId == old(callee.nextId) && callee.registerings == old(callee.registerings))
      && (m.Invocation? ==>
            && (callee == null ==> out == [])
            && (callee != null && callee.Target(m.registration).None? ==>
                  out == [Send(conn, Ce.NoSuchRegistration(m.requestId, m.registration))])
            && (callee != null && callee.Target(m.registration).Some? ==>
                  var h := callee.Target(m.registration).value;
                  var arguments, keywords := ArgumentsOf(m.tail), KeywordsOf(m.tail);
                  out == [Invoke(h, arguments, keywords), Send(conn, Ce.InvocationReply(m.requestId, run(h, arguments, keywords)))]))
      && (m.Result? ==>
            && (caller == null ==> out == [])
            && (caller != null ==> caller.nextId == old(caller.nextId))
            && (caller != null && (m.requestId !in old(caller.callings) || old(caller.callings)[m.requestId].None?) ==>
                  out == [Crash] && caller.callings == old(caller.callings))
            && (caller != null && m.requestId in old(caller.callings) && old(caller.callings)[m.requestId].Some? ==>
                  && out == [Invoke(old(caller.callings)[m.requestId].value, ArgumentsOf(m.tail), KeywordsOf(m.tail))]
                  && caller.callings == old(caller.callings) - {m.requestId}))
      && (m.Subscribed? && subscriber != null ==>
            && subscriber.subscriptions == Put(old(subscriber.subscriptions), m.subscription,
                                               if m.requestId in old(subscriber.subscribings)
                                               then Str(old(subscriber.subscribings)[m.requestId]) else Null)
            && subscriber.subscribings == old(subscriber.subscribings) - {m.requestId}
            && subscriber.nextId == old(subscriber.nextId)
            && subscriber.unsubscribings == old(subscriber.unsubscribings))
      && (m.Unsubscribed? && subscriber != null ==>
            && subscriber.subscriptions == Remove(old(subscriber.subscriptions),
                                                  if m.requestId in old(subscriber.unsubscribings)
                                                  then old(subscriber.unsubscribings)[m.requestId] else Null)
            && subscriber.unsubscribings == old(subscriber.unsubscribings) - {m.requestId}
            && subscriber.nextId == old(subscriber.nextId) && subscriber.subscribings == old(subscriber.subscribings))
      && (m.Registered? || m.Unregistered? || m.Invocation? || m.Result? || m.Published?
          || m.Subscribed? || m.Unsubscribed?)
    }

    // Callee messages: forwarded when a callee is configured.

    method OnRegistered(conn: ConnId, requestId: Value, registrationId: Value)
      requires Valid()
      modifies callee
      ensures Valid()
      ensures callee != null ==>
                && callee.registrations == Put(old(callee.registrations), registrationId,
                                               if requestId in old(callee.registerings)
                                               then Str(old(callee.registerings)[requestId]) else Null)
                && callee.registerings == old(callee.registerings) - {requestId}
                && callee.nextId == old(callee.nextId) && callee.unregisterings == old(callee.unregisterings)
    {
      if callee != null {
        callee.OnRegistered(conn, requestId, registrationId);
      }
    }

    method OnUnregistered(conn: ConnId, requestId: Value)
      requires Valid()
      modifies callee
      ensures Valid()
      ensures callee != null ==>
                && callee.registrations == Remove(old(callee.registrations),
                                                  if requestId in old(callee.unregisterings)
                                                  then old(callee.unregisterings)[requestId] else Null)
                && callee.unregisterings == old(callee.unregisterings) - {requestId}
                && callee.nextId == old(callee.nextId) && callee.registerings == old(callee.registerings)
    {
      if callee != null {
        callee.OnUnregistered(conn, requestId);
      }
    }

    method OnInvocation(conn: ConnId, requestId: Value, registrationId: Value, details: Value,
                        arguments: Value, keywords: Value, run: (Handler, Value, Value) -> Ce.Outcome)
      returns (out: seq<Effect>)
      requires Valid() && IsArray(arguments)
      ensures callee == null ==> out == []
      ensures callee != null && callee.Target(registrationId).None? ==>
                out == [Send(conn, Ce.NoSuchRegistration(requestId, registrationId))]
      ensures callee != null && callee.Target(registrationId).Some? ==>
                var h := callee.Target(registrationId).value;
                out == [Invoke(h, arguments, keywords), Send(conn, Ce.InvocationReply(requestId, run(h, arguments, keywords)))]
    {
      out := [];
      if callee != null {
        out := callee.OnInvocation(conn, requestId, registrationId, details, arguments, keywords, run);
      }
    }

    // Caller messages.

    /** CALL from the application: the positional arguments must be an array
        and the callback callable (None stands for any other value), or the
        call is refused before anything happens; then it is forwarded when a
        caller is configured. */
    method Call(conn: ConnId, procedure: Value, arguments: Value, keywords: Value, callback: Option<Handler>)
      returns (out: seq<Effect>)
      requires Valid()
      modifies caller
      ensures Valid()
      ensures !IsArray(arguments) || callback.None? ==> out == [Crash] && (caller != null ==> unchanged(caller))
      ensures IsArray(arguments) && callback.Some? && caller == null ==> out == []
      ensures IsArray(arguments) && callback.Some? && caller != null ==>
                && caller.nextId == old(caller.nextId) + 1
                && caller.callings == old(caller.callings)[Int(old(caller.nextId)) := callback]
                && out == [Send(conn, Msg.Call(Int(old(caller.nextId)), EmptyArray, procedure, Trailing(arguments, keywords)))]
    {
      if !IsArray(arguments) || callback.None? {
        return [Crash];
      }
      out := [];
      if caller != null {
        out := caller.Call(conn, procedure, arguments, keywords, callback);
      }
    }

    method OnResult(conn: ConnId, requestId: Value, details: Value, arguments: Value, keywords: Value)
      returns (out: seq<Effect>)
      requires Valid() && IsArray(arguments)
      modifies caller
      ensures Valid()
      ensures caller == null ==> out == []
      ensures caller != null ==> caller.nextId == old(caller.nextId)
      ensures caller != null && (requestId !in old(caller.callings) || old(caller.callings)[requestId].None?) ==>
                out == [Crash] && caller.callings == old(caller.callings)
      ensures caller != null && requestId in old(caller.callings) && old(caller.callings)[requestId].Some? ==>
                && out == [Invoke(old(caller.callings)[requestId].value, arguments, keywords)]
                && caller.callings == old(caller.callings) - {requestId}
    {
      out := [];
      if caller != null {
        out := caller.OnResult(conn, requestId, details, arguments, keywords);
      }
    }

    // Publisher messages.

    /** PUBLISH from the application: the positional arguments must be an
        array, or the call is refused; then it is forwarded when a publisher
        is configured. */
    method Publish(conn: ConnId, topic: Value, arguments: Value, keywords: Value) returns (out: seq<Effect>)
      modifies publisher
      ensures !IsArray(arguments) ==> out == [Crash] && (publisher != null ==> unchanged(publisher))
      ensures IsArray(arguments) && publisher == null ==> out == []
      ensures IsArray(arguments) && publisher != null ==>
                && publisher.nextId == old(publisher.nextId) + 1
                && out == [Send(conn, Msg.Publish(Int(old(publisher.nextId)), EmptyArray, topic, Trailing(arguments, keywords)))]
    {
      if !IsArray(arguments) {
        return [Crash];
      }
      out := [];
      if publisher != null {
        out := publisher.Publish(conn, topic, arguments, keywords);
      }
    }

    method OnPublished(conn: ConnId, requestId: Value, publicationId: Value) returns (out: seq<Effect>)
      ensures out == []
    {
      out := [];
      if publisher != null {
        out := publisher.OnPublished(conn, requestId, publicationId);
      }
    }

    // Subscriber messages.

    method OnSubscribed(conn: ConnId, requestId: Value, subscriptionId: Value)
      requires Valid()
      modifies subscriber
      ensures Valid()
      ensures subscriber != null ==>
                && subscriber.subscriptions == Put(old(subscriber.subscriptions), subscriptionId,
                                                   if requestId in old(subscriber.subscribings)
                                                   then Str(old(subscriber.subscribings)[requestId]) else Null)
                && subscriber.subscribings == old(subscriber.subscribings) - {requestId}
                && subscriber.nextId == old(subscriber.nextId)
                && subscriber.unsubscribings == old(subscriber.unsubscribings)
    {
      if subscriber != null {
        subscriber.OnSubscribed(conn, requestId, subscriptionId);
      }
    }

    method OnUnsubscribed(conn: ConnId, requestId: Value)
      requires Valid()
      modifies subscriber
      ensures Valid()
      ensures subscriber != null ==>
                && subscriber.subscriptions == Remove(old(subscriber.subscriptions),
                                                      if requestId in old(subscriber.unsubscribings)
                                                      then old(subscriber.unsubscribings)[requestId] else Null)
                && subscriber.unsubscribings == old(subscriber.unsubscribings) - {requestId}
                && subscriber.nextId == old(subscriber.nextId) && subscriber.subscribings == old(subscriber.subscribings)
    {
      if subscriber != null {
        subscriber.OnUnsubscribed(conn, requestId);
      }
    }

    method OnEvent(conn: ConnId, subscriptionId: Value, publicationId: Value, details: Value,
                   arguments: Value, keywords: Value)
      returns (out: seq<Effect>)
      requires Valid() && IsArray(arguments)
      ensures subscriber == null ==> out == []
      ensures subscriber != null && subscriber.Target(subscriptionId).None? ==>
                && out == Sb.UserError(subscriptionId)
                && (out == [Crash] <==> WeakInt(subscriptionId) == Some(Sb.E_USER_ERROR)) && (out != [Crash] ==> out == [])
      ensures subscriber != null && subscriber.Target(subscriptionId).Some? ==>
                out == [Invoke(subscriber.Target(subscriptionId).value, arguments, keywords)]
    {
      out := [];
      if subscriber != null {
        out := subscriber.OnEvent(conn, subscriptionId, publicationId, details, arguments, keywords);
      }
    }

    /** ERROR: handed to the role its request type belongs to, when that
        role is configured. The publisher is handed the keyword arguments in
        place of the positional ones, so they must be an array; the other
        roles have no such handler, a fatal error. Nothing changes. */
    method OnErrorMessage(conn: ConnId, requestType: Value, requestId: Value, details: Value, error: Value,
                          arguments: Value, keywords: Value)
      returns (out: seq<Effect>)
      requires IsArray(arguments)
      ensures out == [] || out == [Crash]
      ensures out == [Crash] <==>
                match ErrorRoleOf(requestType)
                case PublisherRole => publisher != null && !IsArray(keywords)
                case SubscriberRole => subscriber != null
                case CallerRole => caller != null
                case CalleeRole => callee != null
                case _ => false
    {
      match ErrorRoleOf(requestType)
      case SessionRole =>
        out := [];
      case PublisherRole =>
        out := [];
        if publisher != null {
          if !IsArray(keywords) {
            return [Crash];
          }
          out := publisher.OnErrorMessage(conn, requestType, requestId, details, error, keywords, keywords);
        }
      case SubscriberRole =>
        out := if subscriber != null then [Crash] else [];
      case CallerRole =>
        out := if caller != null then [Crash] else [];
      case CalleeRole =>
        out := if callee != null then [Crash] else [];
      case NoRole =>
        out := [];
    }
  }

  /** The callee (or subscriber) entry: null when absent or null, the
      instance itself, or a new role built from the binding array. Any other
      value, or a bad binding, makes the constructor throw. */
  method CalleeOf(config: RoleConfig<Ce.Callee>) returns (refused: bool, r: Ce.Callee?)
    requires config.Instance? ==> config.obj.Valid()
    requires config.Table? ==> DistinctKeys(config.entries)
    ensures refused <==> Refused(config)
    ensures !refused ==> && (r == null <==> config.Absent? || config.NullValue?)
                         && (r != null ==> r.Valid())
                         && (config.Instance? ==> r == config.obj)
                         && (config.Table? ==> fresh(r) && r.procedures == Bound(config.entries)
                                               && r.nextId == 0 && r.registrations == [])
  {
    match config {
      case Instance(obj) =>
        return false, obj;
      case Table(entries) =>
        var table := Bind(entries);
        if table.None? {
          return true, null;
        }
        r := new Ce.Callee(table.value);
        return false, r;
      case Scalar(_) =>
        return true, null;
      case _ =>
        return false, null;
    }
  }

  method SubscriberOf(config: RoleConfig<Sb.Subscriber>) returns (refused: bool, r: Sb.Subscriber?)
    requires config.Instance? ==> config.obj.Valid()
    requires config.Table? ==> DistinctKeys(config.entries)
    ensures refused <==> Refused(config)
    ensures !refused ==> && (r == null <==> config.Absent? || config.NullValue?)
                         && (r != null ==> r.Valid())
                         && (config.Instance? ==> r == config.obj)
                         && (config.Table? ==> fresh(r) && r.topics == Bound(config.entries)
                                               && r.nextId == 0 && r.subscriptions == [])
  {
    match config {
      case Instance(obj) =>
        return false, obj;
      case Table(entries) =>
        var table := Bind(entries);
        if table.None? {
          return true, null;
        }
        r := new Sb.Subscriber(table.value);
        return false, r;
      case Scalar(_) =>
        return true, null;
      case _ =>
        return false, null;
    }
  }

  /** The caller entry: null when null, the instance itself, and otherwise
      (absent included) a new caller, whatever the value. */
  method CallerOf(config: RoleConfig<Cr.Caller>) returns (r: Cr.Caller?)
    requires config.Instance? ==> config.obj.Valid()
    ensures (r == null <==> config.NullValue?) && (r != null ==> r.Valid())
    ensures config.Instance? ==> r == config.obj
    ensures !config.Instance? && !config.NullValue? ==> fresh(r) && r.nextId == 0 && r.callings == map[]
  {
    match config {
      case Instance(obj) =>
        r := obj;
      case NullValue =>
        r := null;
      case _ =>
        r := new Cr.Caller();
    }
  }

  /** The publisher entry, as for the caller. */
  method PublisherOf(config: RoleConfig<Pb.Publisher>) returns (r: Pb.Publisher?)
    ensures r == null <==> config.NullValue?
    ensures config.Instance? ==> r == config.obj
    ensures !config.Instance? && !config.NullValue? ==> fresh(r) && r.nextId == 0
  {
    match config {
      case Instance(obj) =>
        r := obj;
      case NullValue =>
        r := null;
      case _ =>
        r := new Pb.Publisher();
    }
  }

  /** `new SessionManager($config)`: absent entries default to no callee, a
      new caller, a new publisher and no subscriber; the constructor throws
      (here: null) when the callee or subscriber entry is refused. */
  method Configure(callee: RoleConfig<Ce.Callee>, caller: RoleConfig<Cr.Caller>,
                   publisher: RoleConfig<Pb.Publisher>, subscriber: RoleConfig<Sb.Subscriber>)
    returns (m: SessionManager?)
    requires callee.Instance? ==> callee.obj.Valid()
    requires caller.Instance? ==> caller.obj.Valid()
    requires subscriber.Instance? ==> subscriber.obj.Valid()
    requires callee.Table? ==> DistinctKeys(callee.entries)
    requires subscriber.Table? ==> DistinctKeys(subscriber.entries)
    ensures m == null <==> Refused(callee) || Refused(subscriber)
    ensures m != null ==> fresh(m) && m.Valid() && m.states == map[] && m.sessionIds == map[]
    ensures m != null ==> (m.callee == null <==> callee.Absent? || callee.NullValue?)
                          && (callee.Instance? ==> m.callee == callee.obj)
                          && (callee.Table? ==> fresh(m.callee) && m.callee.procedures == Bound(callee.entries))
    ensures m != null ==> (m.subscriber == null <==> subscriber.Absent? || subscriber.NullValue?)
                          && (subscriber.Instance? ==> m.subscriber == subscriber.obj)
                          && (subscriber.Table? ==> fresh(m.subscriber) && m.subscriber.topics == Bound(subscriber.entries))
    ensures m != null ==> (m.caller == null <==> caller.NullValue?)
                          && (caller.Instance? ==> m.caller == caller.obj)
                          && (!caller.Instance? && !caller.NullValue? ==> fresh(m.caller) && m.caller.callings == map[])
    ensures m != null ==> (m.publisher == null <==> publisher.NullValue?)
                          && (publisher.Instance? ==> m.publisher == publisher.obj)
                          && (!publisher.Instance? && !publisher.NullValue? ==> fresh(m.publisher))
  {
    var calleeRefused, ce := CalleeOf(callee);
    if calleeRefused {
      return null;
    }
    var cr := CallerOf(caller);
    var pb := PublisherOf(publisher);
    var subscriberRefused, sb := SubscriberOf(subscriber);
    if subscriberRefused {
      return null;
    }
    m := new SessionManager(ce, cr, pb, sb);
  }
}
