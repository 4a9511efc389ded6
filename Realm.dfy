/** A routing realm (Server/Realm.php): a name, an optional broker and an
    optional dealer. Routing messages are handed to the engine that owns
    them, and ERROR messages are classified by the request type they answer. */
module Realm {
  import opened Values
  import opened Messages
  import Broker
  import Dealer

  /** A constructor argument for an engine: an existing engine instance is
      shared, null means no engine, and any other value creates a new one. */
  datatype Part<T> = Reuse(obj: T) | Omit | Create

  /** The features a broker or dealer announces: `{"features": {}}`. */
  const ENGINE_FEATURES: Value := Dict(map["features" := EmptyObject])

  /** Where an ERROR from a peer goes, decided by the type of the request it
      answers. */
  datatype ErrorRoute = ToBroker | ToDealer | Unhandled

  /** `in_array($requestType, [...])` with PHP's loose comparison, broker
      types first. */
  function ErrorTarget(requestType: Value): ErrorRoute {
    if LooseEquals(requestType, PUBLISH) || LooseEquals(requestType, SUBSCRIBE)
       || LooseEquals(requestType, UNSUBSCRIBE) then ToBroker
    else if LooseEquals(requestType, REGISTER) || LooseEquals(requestType, UNREGISTER)
            || LooseEquals(requestType, INVOCATION) then ToDealer
    else Unhandled
  }

  /** The routing table, stated per request type: an ERROR answering
      PUBLISH (16), SUBSCRIBE (32) or UNSUBSCRIBE (34) goes to the broker,
      one answering REGISTER (64), UNREGISTER (66) or INVOCATION (68) to the
      dealer, and every other integer type, CALL and YIELD among them, to
      neither. `true` loosely equals the first broker type; null equals
      none of them. */
  lemma ErrorTargetOfCodes(code: int)
    ensures ErrorTarget(Int(code)) == ToBroker <==> code in {PUBLISH, SUBSCRIBE, UNSUBSCRIBE}
    ensures ErrorTarget(Int(code)) == ToDealer <==> code in {REGISTER, UNREGISTER, INVOCATION}
    ensures ErrorTarget(Int(code)) == Unhandled <==>
              code !in {PUBLISH, SUBSCRIBE, UNSUBSCRIBE, REGISTER, UNREGISTER, INVOCATION}
    ensures ErrorTarget(Bool(true)) == ToBroker && ErrorTarget(Null) == Unhandled
  {
  }

  class Realm {
    const name: string
    const broker: Broker.Broker?
    const dealer: Dealer.Dealer?

    ghost predicate Valid()
      reads broker, dealer
    {
      && (broker != null ==> broker.Valid())
      && (dealer != null ==> dealer.Valid())
    }

    /** `new Realm($name, $broker, $dealer)`; both engines default to new
        ones. */
    constructor(name: string, broker: Part<Broker.Broker>, dealer: Part<Dealer.Dealer>)
      requires broker.Reuse? ==> broker.obj.Valid()
      requires dealer.Reuse? ==> dealer.obj.Valid()
      ensures this.name == name
      ensures (this.broker == null <==> broker.Omit?) && (broker.Reuse? ==> this.broker == broker.obj)
      ensures broker.Create? ==> fresh(this.broker) && this.broker.subscriptions == []
      ensures (this.dealer == null <==> dealer.Omit?) && (dealer.Reuse? ==> this.dealer == dealer.obj)
      ensures dealer.Create? ==> fresh(this.dealer) && this.dealer.registrations == map[] && this.dealer.calls == map[]
      ensures Valid()
    {
      this.name := name;
      match broker {
        case Reuse(b) => this.broker := b;
        case Omit => this.broker := null;
        case Create => this.broker := new Broker.Broker();
      }
      match dealer {
        case Reuse(d) => this.dealer := d;
        case Omit => this.dealer := null;
        case Create => this.dealer := new Dealer.Dealer();
      }
    }

    /** The WELCOME details: `{"roles": {...}}` with one entry per engine the
        realm has; with neither engine the roles are an empty array. */
    function Session(): (d: Value)
      ensures d.Dict? && d.fields.Keys == {"roles"}
      ensures var roles := d.fields["roles"];
              && (roles == EmptyArray <==> broker == null && dealer == null)
              && (roles.Dict? ==> ("broker" in roles.fields <==> broker != null)
                                  && ("dealer" in roles.fields <==> dealer != null)
                                  && roles.fields.Keys <= {"broker", "dealer"}
                                  && forall k :: k in roles.fields ==> roles.fields[k] == ENGINE_FEATURES)
    {
      var roles :=
        if broker == null && dealer == null then EmptyArray
        else Dict((if broker != null then map["broker" := ENGINE_FEATURES] else map[])
                  + (if dealer != null then map["dealer" := ENGINE_FEATURES] else map[]));
      Dict(map["roles" := roles])
    }

    // Broker messages. Without a broker, the call on null is a fatal error.

    method OnPublish(conn: ConnId, requestId: Value, options: Value, topic: Value, arguments: Value, keywords: Value)
      returns (out: seq<Effect>)
      requires Valid() && IsArray(arguments)
      modifies broker
      ensures Valid()
      ensures broker == null ==> out == [Crash]
      ensures broker != null ==> broker.PublishDone(conn, requestId, options, topic, Trailing(arguments, keywords), out)
    {
      if broker == null {
        return [Crash];
      }
      out := broker.OnPublish(conn, requestId, options, topic, arguments, keywords);
    }

    method OnSubscribe(conn: ConnId, requestId: Value, options: Value, topic: Value) returns (out: seq<Effect>)
      requires Valid()
      modifies broker
      ensures Valid()
      ensures broker == null ==> out == [Crash]
      ensures broker != null ==> broker.SubscribeDone(conn, requestId, options, topic, out)
    {
      if broker == null {
        return [Crash];
      }
      out := broker.OnSubscribe(conn, requestId, options, topic);
    }

    method OnUnsubscribe(conn: ConnId, requestId: Value, subscriptionId: Value) returns (out: seq<Effect>)
      requires Valid()
      modifies broker
      ensures Valid()
      ensures broker == null ==> out == [Crash]
      ensures broker != null ==> broker.UnsubscribeDone(conn, requestId, subscriptionId, out)
    {
      if broker == null {
        return [Crash];
      }
      out := broker.OnUnsubscribe(conn, requestId, subscriptionId);
    }

    // Dealer messages. Without a dealer, the call on null is a fatal error.

    method OnRegister(conn: ConnId, requestId: Value, options: Value, procedure: Value) returns (out: seq<Effect>)
      requires Valid()
      modifies dealer
      ensures Valid()
      ensures dealer == null ==> out == [Crash]
      ensures dealer != null ==> dealer.RegisterDone(conn, requestId, options, procedure, out)
    {
      if dealer == null {
        return [Crash];
      }
      out := dealer.OnRegister(conn, requestId, options, procedure);
    }

    method OnUnregister(conn: ConnId, requestId: Value, registrationId: Value) returns (out: seq<Effect>)
      requires Valid()
      modifies dealer
      ensures Valid()
      ensures dealer == null ==> out == [Crash]
      ensures dealer != null ==> dealer.UnregisterDone(conn, requestId, registrationId, out)
    {
      if dealer == null {
        return [Crash];
      }
      out := dealer.OnUnregister(conn, requestId, registrationId);
    }

    method OnCall(conn: ConnId, requestId: Value, options: Value, procedure: Value, arguments: Value, keywords: Value)
      returns (out: seq<Effect>)
      requires Valid() && IsArray(arguments)
      modifies dealer
      ensures Valid()
      ensures dealer == null ==> out == [Crash]
      ensures dealer != null ==> dealer.CallDone(conn, requestId, options, procedure, Trailing(arguments, keywords), out)
    {
      if dealer == null {
        return [Crash];
      }
      out := dealer.OnCall(conn, requestId, options, procedure, arguments, keywords);
    }

    method OnYield(conn: ConnId, requestId: Value, options: Value, arguments: Value, keywords: Value)
      returns (out: seq<Effect>)
      requires Valid() && IsArray(arguments)
      modifies dealer
      ensures Valid()
      ensures dealer == null ==> out == [Crash]
      ensures dealer != null ==> dealer.YieldDone(conn, requestId, Trailing(arguments, keywords), out)
    {
      if dealer == null {
        return [Crash];
      }
      out := dealer.OnYield(conn, requestId, options, arguments, keywords);
    }

    /** Hands an ERROR to the engine its request type belongs to. The
        engines' handlers do nothing; a missing engine is a fatal error and
        an unclaimed request type throws. Nothing changes either way. */
    method OnErrorMessage(conn: ConnId, requestType: Value, requestId: Value, details: Value, error: Value,
                          arguments: Value, keywords: Value)
      returns (out: seq<Effect>)
      requires IsArray(arguments)
      ensures out == [] <==> (ErrorTarget(requestType) == ToBroker && broker != null)
                             || (ErrorTarget(requestType) == ToDealer && dealer != null)
      ensures out != [] ==> out == [Crash]
    {
      var route := ErrorTarget(requestType);
      if route == ToBroker {
        out := if broker != null then [] else [Crash];
      } else if route == ToDealer {
        out := if dealer != null then [] else [Crash];
      } else {
        out := [Crash];
      }
    }
  }
}
