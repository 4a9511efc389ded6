/** The peer's subscriber role (Client/Subscriber.php): it subscribes its
    bound topics with the broker, tracks the pending SUBSCRIBE and
    UNSUBSCRIBE requests and the subscriptions granted, and runs the bound
    callable when an EVENT arrives. */
module Subscriber {
  import opened Values
  import opened Messages
  import opened Tables
  import opened Requests

  /** `E_USER_ERROR`: the one `user_error` level that ends the script. */
  const E_USER_ERROR: int := 256

  /** The SUBSCRIBE requests for the first n topics, in order, numbered
      from `first`. */
  function SubscribeRequests(conn: ConnId, topics: seq<string>, first: nat, n: nat): (out: seq<Effect>)
    requires n <= |topics|
    ensures |out| == n
  {
    if n == 0 then []
    else
      SubscribeRequests(conn, topics, first, n - 1)
        + [Send(conn, Subscribe(Int(first + n - 1), EmptyArray, Str(topics[n - 1])))]
  }

  /** The i-th topic is subscribed by the i-th request, whose id is
      `first + i`. */
  lemma {:induction false} SubscribeRequestsAt(conn: ConnId, topics: seq<string>, first: nat, n: nat)
    requires n <= |topics|
    ensures forall i :: 0 <= i < n ==>
              SubscribeRequests(conn, topics, first, n)[i]
                == Send(conn, Subscribe(Int(first + i), EmptyArray, Str(topics[i])))
  {
    if n > 0 {
      SubscribeRequestsAt(conn, topics, first, n - 1);
    }
  }

  /** The UNSUBSCRIBE requests for the first n subscription ids, in order,
      numbered from `first`. */
  function UnsubscribeRequests(conn: ConnId, subscriptionIds: seq<Value>, first: nat, n: nat): (out: seq<Effect>)
    requires n <= |subscriptionIds|
    ensures |out| == n
  {
    if n == 0 then []
    else
      UnsubscribeRequests(conn, subscriptionIds, first, n - 1)
        + [Send(conn, Unsubscribe(Int(first + n - 1), subscriptionIds[n - 1]))]
  }

  /** The i-th subscription is released by the i-th request, whose id is
      `first + i`. */
  lemma {:induction false} UnsubscribeRequestsAt(conn: ConnId, subscriptionIds: seq<Value>, first: nat, n: nat)
    requires n <= |subscriptionIds|
    ensures forall i :: 0 <= i < n ==>
              UnsubscribeRequests(conn, subscriptionIds, first, n)[i]
                == Send(conn, Unsubscribe(Int(first + i), subscriptionIds[i]))
  {
    if n > 0 {
      UnsubscribeRequestsAt(conn, subscriptionIds, first, n - 1);
    }
  }

  /** `user_error($message, $level)`: the level is taken as an integer the
      PHP 7 way (`WeakInt`), and only `E_USER_ERROR` ends the handler; any
      other level is invalid or only reported, a value that is not an
      integer is refused with a warning, and the handler returns. */
  function UserError(level: Value): seq<Effect> {
    if WeakInt(level) == Some(E_USER_ERROR) then [Crash] else []
  }

  /** A level spelled as a string is fatal too: "256", "256 items" and the
      same after leading whitespace all reach `E_USER_ERROR`, while a
      string with no leading number does not. */
  lemma FatalLevelStrings(space: string, rest: string, other: string)
    requires forall k :: 0 <= k < |space| ==> IsSpace(space[k])
    requires rest == [] || !IsDigit(rest[0])
    requires other == [] || !(IsSpace(other[0]) || IsDigit(other[0]) || other[0] == '-' || other[0] == '+')
    ensures UserError(Str(space + "256" + rest)) == [Crash]
    ensures UserError(Int(E_USER_ERROR)) == [Crash]
    ensures UserError(Str(other)) == []
  {
    assert Decimal(256) == "256";
    WeakIntOfDecimal(256, space, rest);
    WeakIntRefuses(other);
  }

  class Subscriber {
    /** The next request id; ids are post-incremented from 0. */
    var nextId: nat
    /** topic => callable, in binding order */
    const topics: seq<Entry<string, Handler>>
    /** `array_keys` of the topic table */
    const names: seq<string>
    /** request id => topic, for SUBSCRIBEs awaiting SUBSCRIBED */
    var subscribings: map<Value, string>
    /** request id => subscription id, for UNSUBSCRIBEs awaiting UNSUBSCRIBED */
    var unsubscribings: map<Value, Value>
    /** subscription id => topic; null when the acknowledged request was not
        pending */
    var subscriptions: seq<Entry<Value, Value>>

    /** A value a subscription can hold: null, or a bound topic. */
    predicate Names(v: Value) {
      v == Null || (v.Str? && v.s in names)
    }

    ghost predicate Valid()
      reads this
    {
      && Unique(topics) && Unique(subscriptions) && names == Keys(topics)
      && (forall r :: r in subscribings ==> r.Int? && 0 <= r.i < nextId && subscribings[r] in names)
      && (forall r :: r in unsubscribings ==> r.Int? && 0 <= r.i < nextId)
      && (forall e :: e in subscriptions ==> Names(e.val))
    }

    /** Built from an accepted binding table (see `Bindings.Bind`). */
    constructor(topics: seq<Entry<string, Handler>>)
      requires Unique(topics)
      ensures this.topics == topics && names == Keys(topics) && nextId == 0
      ensures subscribings == map[] && unsubscribings == map[] && subscriptions == []
      ensures Valid()
    {
      this.topics := topics;
      names := Keys(topics);
      nextId := 0;
      subscribings := map[];
      unsubscribings := map[];
      subscriptions := [];
    }

    /** The callable an EVENT of the subscription runs: present only when
        the subscription is set to a topic. */
    function Target(subscriptionId: Value): (h: Option<Handler>)
      reads this
      requires Valid()
      ensures h.Some? <==> Get(subscriptions, subscriptionId).Some? && Get(subscriptions, subscriptionId).value != Null
      ensures h.Some? ==> Get(subscriptions, subscriptionId).value.Str?
                          && Get(topics, Get(subscriptions, subscriptionId).value.s) == h
    {
      var sub := Get(subscriptions, subscriptionId);
      if sub.None? || sub.value == Null then None
      else
        GetIn(subscriptions, subscriptionId);
        Get(topics, sub.value.s)
    }

    /** Sends SUBSCRIBE for one topic under a fresh request id. */
    method Subscribe(conn: ConnId, topic: string) returns (out: seq<Effect>)
      modifies this
      ensures nextId == old(nextId) + 1 && subscribings == old(subscribings)[Int(old(nextId)) := topic]
      ensures unsubscribings == old(unsubscribings) && subscriptions == old(subscriptions)
      ensures out == [Send(conn, Msg.Subscribe(Int(old(nextId)), EmptyArray, Str(topic)))]
    {
      var requestId := Int(nextId);
      nextId := nextId + 1;
      subscribings := subscribings[requestId := topic];
      out := [Send(conn, Msg.Subscribe(requestId, EmptyArray, Str(topic)))];
    }

    /** Subscribes every bound topic, in binding order, under fresh request
        ids. */
    method SubscribeToTopics(conn: ConnId) returns (out: seq<Effect>)
      requires Valid()
      modifies this
      ensures Valid()
      ensures nextId == old(nextId) + |names|
      ensures out == SubscribeRequests(conn, names, old(nextId), |names|)
      ensures subscribings == Pending(old(subscribings), names, old(nextId), |names|)
      ensures unsubscribings == old(unsubscribings) && subscriptions == old(subscriptions)
    {
      out := [];
      var i := 0;
      while i < |names|
        invariant 0 <= i <= |names|
        invariant nextId == old(nextId) + i
        invariant out == SubscribeRequests(conn, names, old(nextId), i)
        invariant subscribings == Pending(old(subscribings), names, old(nextId), i)
        invariant unsubscribings == old(unsubscribings) && subscriptions == old(subscriptions)
      {
        var sent := Subscribe(conn, names[i]);
        out := out + sent;
        i := i + 1;
      }
      PendingBelow(old(subscribings), names, old(nextId), |names|);
    }

    /** SUBSCRIBED: the subscription id now names the pending request's
        topic (null if the request was not pending), and the request is no
        longer pending. */
    method OnSubscribed(conn: ConnId, requestId: Value, subscriptionId: Value)
      requires Valid()
      modifies this
      ensures Valid()
      ensures subscriptions == Put(old(subscriptions), subscriptionId,
                                   if requestId in old(subscribings) then Str(old(subscribings)[requestId]) else Null)
      ensures subscribings == old(subscribings) - {requestId}
      ensures nextId == old(nextId) && unsubscribings == old(unsubscribings)
    {
      var topic := if requestId in subscribings then Str(subscribings[requestId]) else Null;
      PutEntries(subscriptions, subscriptionId, topic);
      subscriptions := Put(subscriptions, subscriptionId, topic);
      subscribings := subscribings - {requestId};
    }

    /** Sends UNSUBSCRIBE for one subscription under a fresh request id. */
    method Unsubscribe(conn: ConnId, subscriptionId: Value) returns (out: seq<Effect>)
      modifies this
      ensures nextId == old(nextId) + 1 && unsubscribings == old(unsubscribings)[Int(old(nextId)) := subscriptionId]
      ensures subscribings == old(subscribings) && subscriptions == old(subscriptions)
      ensures out == [Send(conn, Msg.Unsubscribe(Int(old(nextId)), subscriptionId))]
    {
      var requestId := Int(nextId);
      nextId := nextId + 1;
      unsubscribings := unsubscribings[requestId := subscriptionId];
      out := [Send(conn, Msg.Unsubscribe(requestId, subscriptionId))];
    }

    /** Unsubscribes every subscription held, in the order they were
        granted, under fresh request ids. */
    method UnsubscribeFromTopics(conn: ConnId) returns (out: seq<Effect>)
      requires Valid()
      modifies this
      ensures Valid()
      ensures nextId == old(nextId) + |subscriptions|
      ensures out == UnsubscribeRequests(conn, Keys(subscriptions), old(nextId), |subscriptions|)
      ensures unsubscribings == Pending(old(unsubscribings), Keys(subscriptions), old(nextId), |subscriptions|)
      ensures subscribings == old(subscribings) && subscriptions == old(subscriptions)
    {
      var ids := Keys(subscriptions);
      out := [];
      var i := 0;
      while i < |ids|
        invariant 0 <= i <= |ids|
        invariant nextId == old(nextId) + i
        invariant out == UnsubscribeRequests(conn, ids, old(nextId), i)
        invariant unsubscribings == Pending(old(unsubscribings), ids, old(nextId), i)
        invariant subscribings == old(subscribings) && subscriptions == old(subscriptions)
      {
        var sent := Unsubscribe(conn, ids[i]);
        out := out + sent;
        i := i + 1;
      }
      PendingBelow(old(unsubscribings), ids, old(nextId), |ids|);
    }

    /** UNSUBSCRIBED: the subscription the pending request named is dropped
        and the request is no longer pending. An unknown request id names
        the null subscription. */
    method OnUnsubscribed(conn: ConnId, requestId: Value)
      requires Valid()
      modifies this
      ensures Valid()
      ensures subscriptions == Remove(old(subscriptions),
                                      if requestId in old(unsubscribings) then old(unsubscribings)[requestId] else Null)
      ensures unsubscribings == old(unsubscribings) - {requestId}
      ensures nextId == old(nextId) && subscribings == old(subscribings)
    {
      var subscriptionId := if requestId in unsubscribings then unsubscribings[requestId] else Null;
      RemoveEntries(subscriptions, subscriptionId);
      subscriptions := Remove(subscriptions, subscriptionId);
      unsubscribings := unsubscribings - {requestId};
    }

    /** EVENT: an unknown (or null) subscription raises a user error whose
        level is the subscription id; otherwise the bound callable runs with
        the event's arguments, and an exception it throws is only reported.
        Nothing in the subscriber changes. */
    method OnEvent(conn: ConnId, subscriptionId: Value, publicationId: Value, details: Value,
                   arguments: Value, keywords: Value)
      returns (out: seq<Effect>)
      requires Valid() && IsArray(arguments)
      ensures Target(subscriptionId).None? ==> out == UserError(subscriptionId)
      ensures Target(subscriptionId).None? ==>
                (out == [Crash] <==> WeakInt(subscriptionId) == Some(E_USER_ERROR)) && (out != [Crash] ==> out == [])
      ensures Target(subscriptionId).Some? ==> out == [Invoke(Target(subscriptionId).value, arguments, keywords)]
    {
      var sub := Get(subscriptions, subscriptionId);
      if sub.None? || sub.value == Null {
        out := UserError(subscriptionId);
        return;
      }
      GetIn(subscriptions, subscriptionId);
      var callable := Get(topics, sub.value.s).value;
      out := [Invoke(callable, arguments, keywords)];
    }
  }
}
