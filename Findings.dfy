/** Three places where the peer's role classes do not do what they evidently
    mean to. Each is stated twice: as the code is written, with a scenario or
    lemma that shows the difference, and as intended, which is what the
    classes in `Callee`, `Subscriber` and `Caller` model. Each as-written
    member isolates its own defect, with the other two corrected. */
module Findings {
  import opened Values
  import opened Messages
  import opened Tables
  import Ce = Callee
  import Sb = Subscriber

  // ---------------------------------------------------------------------
  // Callee.php:70 reads the registration id through `$$this`

  /** UNREGISTERED as written: the registration id is looked up through the
      variable-variable `$$this`, whose name is `$this` converted to a
      string. A callee has no `__toString`, so the conversion throws before
      either table is touched. */
  method OnUnregisteredAsWritten(callee: Ce.Callee, conn: ConnId, requestId: Value) returns (out: seq<Effect>)
    ensures out == [Crash]
  {
    out := [Crash];
  }

  /** One procedure registered (as id 7) and then unregistered: as written
      the UNREGISTERED ends in the error path and the registration is still
      held; as intended it is released. */
  method UnregisteredScenario(conn: ConnId) returns (asWritten: seq<Effect>, heldAsWritten: bool, heldAsIntended: bool)
    ensures asWritten == [Crash] && heldAsWritten && !heldAsIntended
  {
    var callee := new Ce.Callee([Entry("p", 1)]);
    var registering := callee.RegisterProcedures(conn);
    assert callee.registerings == map[Int(0) := "p"];
    callee.OnRegistered(conn, Int(0), Int(7));
    assert callee.registrations == [Entry(Int(7), Str("p"))];
    var unregistering := callee.UnregisterProcedures(conn);
    assert callee.unregisterings == map[Int(1) := Int(7)];
    asWritten := OnUnregisteredAsWritten(callee, conn, Int(1));
    heldAsWritten := Get(callee.registrations, Int(7)).Some?;
    callee.OnUnregistered(conn, Int(1));
    heldAsIntended := Get(callee.registrations, Int(7)).Some?;
  }

  // ---------------------------------------------------------------------
  // Subscriber.php:31-32 iterates over `$this->_topic`

  /** `subscribeToTopics` as written: it iterates over `array_keys` of the
      undefined property `_topic` (null, with a notice); `array_keys(null)`
      warns and yields null, and `foreach` over null runs no iteration.
      Nothing is sent and nothing becomes pending. (The loop variable
      `$topics` against the body's `$topic` is never reached.) */
  method SubscribeToTopicsAsWritten(subscriber: Sb.Subscriber, conn: ConnId) returns (out: seq<Effect>)
    ensures out == []
  {
    out := [];
  }

  /** A subscriber bound to one topic: as written WELCOME sends no
      SUBSCRIBE, so no subscription is ever granted; as intended it
      subscribes the topic under request id 0. */
  method SubscribeScenario(conn: ConnId) returns (asWritten: seq<Effect>, asIntended: seq<Effect>)
    ensures asWritten == []
    ensures asIntended == [Send(conn, Subscribe(Int(0), EmptyArray, Str("t")))]
  {
    var subscriber := new Sb.Subscriber([Entry("t", 1)]);
    asWritten := SubscribeToTopicsAsWritten(subscriber, conn);
    asIntended := subscriber.SubscribeToTopics(conn);
  }

  // ---------------------------------------------------------------------
  // Caller.php and Subscriber.php do not import `ConnectionInterface`

  /** A `use` clause: the alias and the fully qualified name it stands for. */
  datatype Import = Import(alias: string, name: string)

  /** PHP's resolution of an unqualified class name inside a namespace: the
      first `use` clause whose alias is the name, or else the name prefixed
      with the current namespace. */
  function Resolve(namespace: string, imports: seq<Import>, name: string): string {
    if imports == [] then namespace + "\\" + name
    else if imports[0].alias == name then imports[0].name
    else Resolve(namespace, imports[1..], name)
  }

  lemma {:induction false} ResolveImported(namespace: string, imports: seq<Import>, name: string, i: nat)
    requires i < |imports| && imports[i].alias == name
    requires forall j :: 0 <= j < i ==> imports[j].alias != name
    ensures Resolve(namespace, imports, name) == imports[i].name
  {
    if i > 0 {
      ResolveImported(namespace, imports[1..], name, i - 1);
    }
  }

  lemma {:induction false} ResolveUnimported(namespace: string, imports: seq<Import>, name: string)
    requires forall j :: 0 <= j < |imports| ==> imports[j].alias != name
    ensures Resolve(namespace, imports, name) == namespace + "\\" + name
  {
    if imports != [] {
      ResolveUnimported(namespace, imports[1..], name);
    }
  }

  const CLIENT_NAMESPACE: string := "Ratchet\\Wamp2\\Client"

  /** The `use` clauses of Caller.php and Subscriber.php. */
  const CALLER_IMPORTS: seq<Import> := [Import("WAMP", "Ratchet\\Wamp2\\WampConnectionInterface")]

  /** The `use` clauses of Callee.php, Publisher.php and SessionManager.php. */
  const CALLEE_IMPORTS: seq<Import> :=
    [Import("ConnectionInterface", "Ratchet\\ConnectionInterface"),
     Import("WAMP", "Ratchet\\Wamp2\\WampConnectionInterface")]

  /** The classes and interfaces a decorated connection is an instance of:
      `WampConnection` extends `AbstractConnectionDecorator` and implements
      `WampConnectionInterface`, which extends `Ratchet\ConnectionInterface`. */
  const CONNECTION_TYPES: set<string> :=
    {"Ratchet\\Wamp2\\WampConnection", "Ratchet\\AbstractConnectionDecorator",
     "Ratchet\\Wamp2\\WampConnectionInterface", "Ratchet\\ConnectionInterface"}

  /** Whether a parameter declared with the class name accepts a decorated
      connection. */
  predicate Admits(namespace: string, imports: seq<Import>, hint: string) {
    Resolve(namespace, imports, hint) in CONNECTION_TYPES
  }

  /** As written, `ConnectionInterface` in Caller.php and Subscriber.php
      names `Ratchet\Wamp2\Client\ConnectionInterface`, which no connection
      implements: every method of those two classes taking the connection
      throws a TypeError. */
  lemma CallerHintAsWritten()
    ensures Resolve(CLIENT_NAMESPACE, CALLER_IMPORTS, "ConnectionInterface")
            == "Ratchet\\Wamp2\\Client\\ConnectionInterface"
    ensures !Admits(CLIENT_NAMESPACE, CALLER_IMPORTS, "ConnectionInterface")
  {
    ResolveUnimported(CLIENT_NAMESPACE, CALLER_IMPORTS, "ConnectionInterface");
    assert "Ratchet\\Wamp2\\Client\\ConnectionInterface"[8] != "Ratchet\\ConnectionInterface"[8];
  }

  /** With the `use Ratchet\ConnectionInterface;` clause the other client
      classes carry, the same declarations accept a decorated connection. */
  lemma CallerHintCorrected()
    ensures Resolve(CLIENT_NAMESPACE, CALLEE_IMPORTS, "ConnectionInterface") == "Ratchet\\ConnectionInterface"
    ensures Admits(CLIENT_NAMESPACE, CALLEE_IMPORTS, "ConnectionInterface")
  {
    ResolveImported(CLIENT_NAMESPACE, CALLEE_IMPORTS, "ConnectionInterface", 0);
  }
}
