/** The WAMP v2 basic-profile message catalogue: the numeric message type
    codes, the typed messages both sides exchange, their wire form (the
    sequential array the sender builds) and the effects a handler has on its
    connections. */
module Messages {
  import opened Values

  /** Connections are opaque identities. */
  type ConnId = nat

  const HELLO: int := 1
  const WELCOME: int := 2
  const ABORT: int := 3
  const GOODBYE: int := 6
  const ERROR: int := 8
  const PUBLISH: int := 16
  const PUBLISHED: int := 17
  const SUBSCRIBE: int := 32
  const SUBSCRIBED: int := 33
  const UNSUBSCRIBE: int := 34
  const UNSUBSCRIBED: int := 35
  const EVENT: int := 36
  const CALL: int := 48
  const RESULT: int := 50
  const REGISTER: int := 64
  const REGISTERED: int := 65
  const UNREGISTER: int := 66
  const UNREGISTERED: int := 67
  const INVOCATION: int := 68
  const YIELD: int := 70

  /** The optional trailing positional and keyword arguments of a message.
      Keyword arguments never travel without the positional slot. */
  datatype Args = NoArgs | Pos(args: Value) | PosKw(args: Value, kwargs: Value)

  /** The argument tails a sender can build: what is present is never null. */
  predicate WireArgs(t: Args) {
    match t
    case NoArgs => true
    case Pos(a) => a != Null
    case PosKw(a, k) => a != Null && k != Null
  }

  function ArgumentsOf(t: Args): Value {
    if t.NoArgs? then Null else t.args
  }

  function KeywordsOf(t: Args): Value {
    if t.PosKw? then t.kwargs else Null
  }

  /** The append pattern every sender uses: positional arguments are appended
      when not null, and keyword arguments only after them and when not null. */
  function Trailing(arguments: Value, keywords: Value): (t: Args)
    ensures WireArgs(t)
    ensures ArgumentsOf(t) == arguments
    ensures KeywordsOf(t) == (if arguments == Null then Null else keywords)
  {
    if arguments == Null then NoArgs
    else if keywords == Null then Pos(arguments)
    else PosKw(arguments, keywords)
  }

  /** Every tail a sender can build is rebuilt from the pair it carries. */
  lemma TrailingOfParts(t: Args)
    requires WireArgs(t)
    ensures Trailing(ArgumentsOf(t), KeywordsOf(t)) == t
  {
  }

  /** The wire elements of an argument tail. */
  function ArgsWire(t: Args): seq<Value> {
    match t
    case NoArgs => []
    case Pos(a) => [a]
    case PosKw(a, k) => [a, k]
  }

  datatype Msg =
    | Hello(realm: Value, details: Value)
    | Welcome(session: Value, details: Value)
    | Abort(details: Value, reason: Value)
    | Goodbye(details: Value, reason: Value)
    | Error(requestType: Value, requestId: Value, details: Value, error: Value, tail: Args)
    | Publish(requestId: Value, options: Value, topic: Value, tail: Args)
    | Published(requestId: Value, publication: Value)
    | Subscribe(requestId: Value, options: Value, topic: Value)
    | Subscribed(requestId: Value, subscription: Value)
    | Unsubscribe(requestId: Value, subscription: Value)
    | Unsubscribed(requestId: Value)
    | Event(subscription: Value, publication: Value, details: Value, tail: Args)
    | Call(requestId: Value, options: Value, procedure: Value, tail: Args)
    | Result(requestId: Value, details: Value, tail: Args)
    | Register(requestId: Value, options: Value, procedure: Value)
    | Registered(requestId: Value, registration: Value)
    | Unregister(requestId: Value, registration: Value)
    | Unregistered(requestId: Value)
    | Invocation(requestId: Value, registration: Value, details: Value, tail: Args)
    | Yield(requestId: Value, options: Value, tail: Args)
  {
    predicate HasTail() {
      Error? || Publish? || Event? || Call? || Result? || Invocation? || Yield?
    }
  }

  function Tag(m: Msg): int {
    match m
    case Hello(_, _) => HELLO
    case Welcome(_, _) => WELCOME
    case Abort(_, _) => ABORT
    case Goodbye(_, _) => GOODBYE
    case Error(_, _, _, _, _) => ERROR
    case Publish(_, _, _, _) => PUBLISH
    case Published(_, _) => PUBLISHED
    case Subscribe(_, _, _) => SUBSCRIBE
    case Subscribed(_, _) => SUBSCRIBED
    case Unsubscribe(_, _) => UNSUBSCRIBE
    case Unsubscribed(_) => UNSUBSCRIBED
    case Event(_, _, _, _) => EVENT
    case Call(_, _, _, _) => CALL
    case Result(_, _, _) => RESULT
    case Register(_, _, _) => REGISTER
    case Registered(_, _) => REGISTERED
    case Unregister(_, _) => UNREGISTER
    case Unregistered(_) => UNREGISTERED
    case Invocation(_, _, _, _) => INVOCATION
    case Yield(_, _, _) => YIELD
  }

  /** The sequential array a sender hands to `$conn->send`. */
  function Encode(m: Msg): (v: Value)
    ensures v.List? && |v.items| >= 2 && v.items[0] == Int(Tag(m))
  {
    var t := Int(Tag(m));
    match m
    case Hello(realm, details) => List([t, realm, details])
    case Welcome(session, details) => List([t, session, details])
    case Abort(details, reason) => List([t, details, reason])
    case Goodbye(details, reason) => List([t, details, reason])
    case Error(rt, rid, details, error, tail) => List([t, rt, rid, details, error] + ArgsWire(tail))
    case Publish(rid, options, topic, tail) => List([t, rid, options, topic] + ArgsWire(tail))
    case Published(rid, publication) => List([t, rid, publication])
    case Subscribe(rid, options, topic) => List([t, rid, options, topic])
    case Subscribed(rid, subscription) => List([t, rid, subscription])
    case Unsubscribe(rid, subscription) => List([t, rid, subscription])
    case Unsubscribed(rid) => List([t, rid])
    case Event(subscription, publication, details, tail) => List([t, subscription, publication, details] + ArgsWire(tail))
    case Call(rid, options, procedure, tail) => List([t, rid, options, procedure] + ArgsWire(tail))
    case Result(rid, details, tail) => List([t, rid, details] + ArgsWire(tail))
    case Register(rid, options, procedure) => List([t, rid, options, procedure])
    case Registered(rid, registration) => List([t, rid, registration])
    case Unregister(rid, registration) => List([t, rid, registration])
    case Unregistered(rid) => List([t, rid])
    case Invocation(rid, registration, details, tail) => List([t, rid, registration, details] + ArgsWire(tail))
    case Yield(rid, options, tail) => List([t, rid, options] + ArgsWire(tail))
  }

  /** An ERROR reply as the router and the callee build it: empty details
      (`array()`), a reason URI and an optional argument tail. */
  function ErrorReply(requestType: int, requestId: Value, reason: string, tail: Args): Msg {
    Error(Int(requestType), requestId, EmptyArray, Str(reason), tail)
  }

  /** Application callables (procedure implementations, event handlers,
      result callbacks) are opaque identities. */
  type Handler = nat

  /** What a handler does to the outside world, in order: a message sent on
      a connection, a connection closed, an application callable run with
      positional and keyword arguments, or a PHP error that ends the handler
      (nothing follows it). */
  datatype Effect =
    | Send(to: ConnId, msg: Msg)
    | Close(conn: ConnId)
    | Invoke(handler: Handler, args: Value, kwargs: Value)
    | Crash

  // ---------------------------------------------------------------------
  // Reading a decoded envelope

  /** `$json[$i]`: a missing position reads as null. */
  function At(xs: seq<Value>, i: nat): Value {
    if i < |xs| then xs[i] else Null
  }

  /** The argument tail read from positions i and i+1 the way both decoders
      do it: a missing position i defaults to `array()`, a missing position
      i+1 to null. The handlers declare the positional arguments as `array`,
      so any other value there is refused (None). */
  function TailAt(xs: seq<Value>, i: nat): (r: Option<Args>)
    ensures r.Some? <==> (i >= |xs| || IsArray(xs[i]))
    ensures r.Some? ==> (r.value.Pos? || r.value.PosKw?) && IsArray(r.value.args)
  {
    var arguments := if i < |xs| then xs[i] else EmptyArray;
    if IsArray(arguments) then Some(Trailing(arguments, At(xs, i + 1))) else None
  }

  /** The tail an inbound handler sees for a tail that was sent: an absent
      tail arrives as an empty positional list. */
  function Received(t: Args): Args {
    if t.NoArgs? then Pos(EmptyArray) else t
  }

  /** The tails a decoder accepts back: positional arguments, when present,
      must be an array. */
  predicate Decodable(t: Args) {
    WireArgs(t) && (t.NoArgs? || IsArray(t.args))
  }

  lemma {:induction false} TailAtWire(prefix: seq<Value>, t: Args)
    requires Decodable(t)
    ensures TailAt(prefix + ArgsWire(t), |prefix|) == Some(Received(t))
  {
    var xs := prefix + ArgsWire(t);
    var i := |prefix|;
    match t
    case NoArgs =>
      assert xs == prefix;
    case Pos(a) =>
      assert xs[i] == a && |xs| == i + 1;
    case PosKw(a, k) =>
      assert xs[i] == a && xs[i + 1] == k && |xs| == i + 2;
  }

  /** The message an inbound handler sees for a message that was sent. */
  function Inbound(m: Msg): (r: Msg)
    ensures Tag(r) == Tag(m)
  {
    match m
    case Error(rt, rid, details, error, tail) => Error(rt, rid, details, error, Received(tail))
    case Publish(rid, options, topic, tail) => Publish(rid, options, topic, Received(tail))
    case Event(subscription, publication, details, tail) => Event(subscription, publication, details, Received(tail))
    case Call(rid, options, procedure, tail) => Call(rid, options, procedure, Received(tail))
    case Result(rid, details, tail) => Result(rid, details, Received(tail))
    case Invocation(rid, registration, details, tail) => Invocation(rid, registration, details, Received(tail))
    case Yield(rid, options, tail) => Yield(rid, options, Received(tail))
    case _ => m
  }

  /** A message whose tail, if it has one, a decoder accepts back. */
  predicate Sendable(m: Msg) {
    m.HasTail() ==> Decodable(m.tail)
  }
}
