/** The router's publish/subscribe engine (Server/Broker.php): the
    subscription table and the fan-out of a publication to the subscribers
    of its topic. */
module Broker {
  import opened Values
  import opened Messages

  /** One entry of the subscription table, under its subscription id. */
  datatype Subscription = Subscription(id: Value, options: Value, topic: Value, conn: ConnId)

  /** The identifier oracle hands out `Int(n)` for increasing n, and entries
      are appended as they are created, so table order (the order `foreach`
      walks) is increasing id order, and every id is below the next one. */
  ghost predicate Ordered(subs: seq<Subscription>, next: nat) {
    && (forall i :: 0 <= i < |subs| ==> subs[i].id.Int? && subs[i].id.i < next)
    && (forall i, j :: 0 <= i < j < |subs| ==> subs[i].id.i < subs[j].id.i)
  }

  /** `isset($this->subscriptions[$id])` */
  predicate Holds(subs: seq<Subscription>, id: Value) {
    exists i :: 0 <= i < |subs| && subs[i].id == id
  }

  /** `unset($this->subscriptions[$id])`: the table without the entry under id. */
  function Without(subs: seq<Subscription>, id: Value): (r: seq<Subscription>)
    ensures forall s :: s in r <==> s in subs && s.id != id
    ensures |r| <= |subs|
  {
    if subs == [] then []
    else
      var last := subs[|subs| - 1];
      var r := Without(subs[..|subs| - 1], id);
      assert forall s :: s in subs <==> s in subs[..|subs| - 1] || s == last;
      if last.id == id then r else r + [last]
  }

  /** Removing a held id from an ordered table removes exactly one entry. */
  lemma {:induction false} WithoutRemovesOne(subs: seq<Subscription>, id: Value, next: nat)
    requires Ordered(subs, next) && Holds(subs, id)
    ensures |Without(subs, id)| == |subs| - 1
  {
    var n := |subs| - 1;
    var prefix := subs[..n];
    assert Ordered(prefix, next);
    if subs[n].id == id {
      // The ids are strictly increasing, so the last one occurs nowhere else.
      WithoutKeepsAll(prefix, id);
    } else {
      var i :| 0 <= i < |subs| && subs[i].id == id;
      assert i < n && prefix[i].id == id;
      WithoutRemovesOne(prefix, id, next);
    }
  }

  lemma {:induction false} WithoutKeepsAll(subs: seq<Subscription>, id: Value)
    requires !Holds(subs, id)
    ensures Without(subs, id) == subs
  {
    if subs != [] {
      var n := |subs| - 1;
      forall i | 0 <= i < n ensures subs[..n][i].id != id {
        assert subs[..n][i] == subs[i];
      }
      WithoutKeepsAll(subs[..n], id);
      assert subs[..n] + [subs[n]] == subs;
    }
  }

  /** Removing entries keeps the table ordered. */
  lemma {:induction false} WithoutOrdered(subs: seq<Subscription>, id: Value, next: nat)
    requires Ordered(subs, next)
    ensures Ordered(Without(subs, id), next)
  {
    if subs != [] {
      var n := |subs| - 1;
      var r := Without(subs[..n], id);
      WithoutOrdered(subs[..n], id, next);
      forall x | x in r ensures x.id.i < subs[n].id.i {
        var i :| 0 <= i < n && subs[..n][i] == x;
        assert subs[i] == x;
      }
      AppendOrdered(r, subs[n], next);
    }
  }

  /** Appending an entry whose id exceeds every id already present and is
      below the next one keeps a table ordered. */
  lemma AppendOrdered(r: seq<Subscription>, last: Subscription, next: nat)
    requires Ordered(r, next)
    requires last.id.Int? && last.id.i < next
    requires forall x | x in r :: x.id.i < last.id.i
    ensures Ordered(r + [last], next)
  {
    var t := r + [last];
    forall i, j | 0 <= i < j < |t| ensures t[i].id.i < t[j].id.i {
      if j < |r| {
        assert t[i] == r[i] && t[j] == r[j];
      } else {
        assert t[i] == r[i] && r[i] in r;
      }
    }
  }

  /** A subscription receives a publication when it is for exactly that topic
      and does not belong to the publishing connection. */
  predicate Receives(s: Subscription, publisher: ConnId, topic: Value) {
    s.conn != publisher && s.topic == topic
  }

  /** The subscriptions a publication reaches, in table order. */
  function Recipients(subs: seq<Subscription>, publisher: ConnId, topic: Value): (r: seq<Subscription>)
    ensures forall s :: s in r <==> s in subs && Receives(s, publisher, topic)
    ensures |r| <= |subs|
  {
    if subs == [] then []
    else
      var last := subs[|subs| - 1];
      var r := Recipients(subs[..|subs| - 1], publisher, topic);
      assert forall s :: s in subs <==> s in subs[..|subs| - 1] || s == last;
      if Receives(last, publisher, topic) then r + [last] else r
  }

  lemma {:induction false} RecipientsOrdered(subs: seq<Subscription>, publisher: ConnId, topic: Value, next: nat)
    requires Ordered(subs, next)
    ensures Ordered(Recipients(subs, publisher, topic), next)
  {
    if subs != [] {
      var n := |subs| - 1;
      var r := Recipients(subs[..n], publisher, topic);
      RecipientsOrdered(subs[..n], publisher, topic, next);
      forall x | x in r ensures x.id.i < subs[n].id.i {
        var i :| 0 <= i < n && subs[..n][i] == x;
        assert subs[i] == x;
      }
      AppendOrdered(r, subs[n], next);
    }
  }

  lemma RecipientsStep(subs: seq<Subscription>, i: nat, publisher: ConnId, topic: Value)
    requires i < |subs|
    ensures Recipients(subs[..i + 1], publisher, topic)
         == Recipients(subs[..i], publisher, topic) + (if Receives(subs[i], publisher, topic) then [subs[i]] else [])
  {
    assert subs[..i + 1][..i] == subs[..i];
  }

  /** One EVENT per recipient; the k-th delivery carries publication id
      `Int(first + k)`, because the source draws a new id inside the loop. */
  function Events(recipients: seq<Subscription>, first: nat, tail: Args): (out: seq<Effect>)
    ensures |out| == |recipients|
  {
    seq(|recipients|, k requires 0 <= k < |recipients| =>
      Send(recipients[k].conn, Event(recipients[k].id, Int(first + k), EmptyArray, tail)))
  }

  lemma EventsSnoc(recipients: seq<Subscription>, s: Subscription, first: nat, tail: Args)
    ensures Events(recipients + [s], first, tail)
         == Events(recipients, first, tail) + [Send(s.conn, Event(s.id, Int(first + |recipients|), EmptyArray, tail))]
  {
  }

  /** The publication id the acknowledgement carries: the one drawn for the
      last delivery, and null (an undefined variable) when nothing was
      delivered. */
  function LastPublication(delivered: nat, first: nat): Value {
    if delivered == 0 then Null else Int(first + delivered - 1)
  }

  /** Everything a PUBLISH sends, in order: the deliveries, then PUBLISHED to
      the publisher when it asked for an acknowledgement. */
  function PublishOutcome(subs: seq<Subscription>, publisher: ConnId, requestId: Value, options: Value,
                          topic: Value, tail: Args, first: nat): seq<Effect>
  {
    var recipients := Recipients(subs, publisher, topic);
    Events(recipients, first, tail)
      + (if FlagSet(options, "acknowledge")
         then [Send(publisher, Published(requestId, LastPublication(|recipients|, first)))]
         else [])
  }

  /** Each subscription the publication reaches gets its EVENT, and nothing
      else does: the deliveries are exactly one per matching subscription. */
  lemma {:induction false} DeliveredExactlyOnce(subs: seq<Subscription>, next: nat, publisher: ConnId,
                                               topic: Value, first: nat, tail: Args, s: Subscription)
    requires Ordered(subs, next)
    ensures var events := Events(Recipients(subs, publisher, topic), first, tail);
            var hits := set k | 0 <= k < |events| && events[k].msg.subscription == s.id;
            && (s in subs && Receives(s, publisher, topic) ==> |hits| == 1)
            && (!Holds(subs, s.id) ==> |hits| == 0)
  {
    var r := Recipients(subs, publisher, topic);
    var events := Events(r, first, tail);
    var hits := set k | 0 <= k < |events| && events[k].msg.subscription == s.id;
    RecipientsOrdered(subs, publisher, topic, next);
    if s in subs && Receives(s, publisher, topic) {
      assert s in r;
      var k0 :| 0 <= k0 < |r| && r[k0] == s;
      forall k | 0 <= k < |r| && k != k0 ensures r[k].id != s.id {
        if k < k0 {
          assert r[k].id.i < r[k0].id.i;
        } else {
          assert r[k0].id.i < r[k].id.i;
        }
      }
      assert hits == {k0};
    }
    if !Holds(subs, s.id) {
      forall k | 0 <= k < |events| ensures events[k].msg.subscription != s.id {
        assert r[k] in subs;
      }
      assert hits == {};
    }
  }

  /** The publishing connection never receives an EVENT of its own publish. */
  lemma PublisherGetsNoEvent(subs: seq<Subscription>, publisher: ConnId, requestId: Value, options: Value,
                             topic: Value, tail: Args, first: nat)
    ensures forall e :: e in PublishOutcome(subs, publisher, requestId, options, topic, tail, first) && e.to == publisher
              ==> e.msg.Published?
  {
    var r := Recipients(subs, publisher, topic);
    forall k | 0 <= k < |r| ensures r[k].conn != publisher {
      assert r[k] in r;
    }
  }

  /** As written, two deliveries of one publication never share a
      publication id: the id is drawn per subscriber, not per publication. */
  lemma DeliveriesCarryDistinctIds(recipients: seq<Subscription>, first: nat, tail: Args)
    ensures var events := Events(recipients, first, tail);
            forall j, k :: 0 <= j < k < |events| ==> events[j].msg.publication != events[k].msg.publication
  {
  }

  /** The delivery loop of a publish: walks the table in order, sends an
      EVENT to every recipient under a publication id drawn for that delivery,
      and remembers the last id drawn. */
  method FanOut(subs: seq<Subscription>, publisher: ConnId, topic: Value, first: nat, tail: Args)
    returns (events: seq<Effect>, delivered: nat, publicationId: Value)
    ensures delivered == |Recipients(subs, publisher, topic)|
    ensures events == Events(Recipients(subs, publisher, topic), first, tail)
    ensures publicationId == LastPublication(delivered, first)
  {
    ghost var recipients: seq<Subscription> := [];
    publicationId := Null;
    events := [];
    delivered := 0;
    var i := 0;
    while i < |subs|
      invariant 0 <= i <= |subs|
      invariant recipients == Recipients(subs[..i], publisher, topic) && delivered == |recipients|
      invariant events == Events(recipients, first, tail)
      invariant publicationId == LastPublication(delivered, first)
    {
      var s := subs[i];
      RecipientsStep(subs, i, publisher, topic);
      if s.conn != publisher && s.topic == topic {
        EventsSnoc(recipients, s, first, tail);
        publicationId := Int(first + delivered);
        delivered := delivered + 1;
        events := events + [Send(s.conn, Event(s.id, publicationId, EmptyArray, tail))];
        recipients := recipients + [s];
      }
      i := i + 1;
    }
    assert subs[..i] == subs;
  }

  class Broker {
    var subscriptions: seq<Subscription>
    /** Next value of the identifier oracle (`uniqid(mt_rand())`). */
    var nextId: nat

    ghost predicate Valid()
      reads this
    {
      Ordered(subscriptions, nextId)
    }

    constructor()
      ensures Valid() && subscriptions == []
    {
      subscriptions := [];
      nextId := 0;
    }

    twostate predicate SubscribeDone(conn: ConnId, requestId: Value, options: Value, topic: Value, out: seq<Effect>)
      reads this
    {
      var id := Int(old(nextId));
      && !Holds(old(subscriptions), id)
      && subscriptions == old(subscriptions) + [Subscription(id, options, topic, conn)]
      && nextId == old(nextId) + 1
      && out == [Send(conn, Subscribed(requestId, id))]
    }

    /** Adds one subscription under a fresh id, with no duplicate check. */
    method OnSubscribe(conn: ConnId, requestId: Value, options: Value, topic: Value) returns (out: seq<Effect>)
      requires Valid()
      modifies this
      ensures Valid() && SubscribeDone(conn, requestId, options, topic, out)
    {
      var id := Int(nextId);
      forall i | 0 <= i < |subscriptions| ensures subscriptions[i].id != id {
      }
      nextId := nextId + 1;
      subscriptions := subscriptions + [Subscription(id, options, topic, conn)];
      out := [Send(conn, Subscribed(requestId, id))];
    }

    twostate predicate UnsubscribeDone(conn: ConnId, requestId: Value, subscriptionId: Value, out: seq<Effect>)
      reads this
    {
      && nextId == old(nextId)
      && if Holds(old(subscriptions), subscriptionId) then
           && subscriptions == Without(old(subscriptions), subscriptionId)
           && |subscriptions| == |old(subscriptions)| - 1
           && out == [Send(conn, Unsubscribed(requestId))]
         else
           && subscriptions == old(subscriptions)
           // The source tags this error with UNSUBSCRIBED (35), not UNSUBSCRIBE (34).
           && out == [Send(conn, ErrorReply(UNSUBSCRIBED, requestId, "wamp.error.no_such_subscription", NoArgs))]
    }

    /** Removes the subscription under the id, whoever owns it. */
    method OnUnsubscribe(conn: ConnId, requestId: Value, subscriptionId: Value) returns (out: seq<Effect>)
      requires Valid()
      modifies this
      ensures Valid() && UnsubscribeDone(conn, requestId, subscriptionId, out)
    {
      if !Holds(subscriptions, subscriptionId) {
        out := [Send(conn, ErrorReply(UNSUBSCRIBED, requestId, "wamp.error.no_such_subscription", NoArgs))];
        return;
      }
      WithoutRemovesOne(subscriptions, subscriptionId, nextId);
      WithoutOrdered(subscriptions, subscriptionId, nextId);
      subscriptions := Without(subscriptions, subscriptionId);
      out := [Send(conn, Unsubscribed(requestId))];
    }

    twostate predicate PublishDone(conn: ConnId, requestId: Value, options: Value, topic: Value, tail: Args,
                                   out: seq<Effect>)
      reads this
    {
      && subscriptions == old(subscriptions)
      && nextId == old(nextId) + |Recipients(old(subscriptions), conn, topic)|
      && out == PublishOutcome(old(subscriptions), conn, requestId, options, topic, tail, old(nextId))
    }

    /** Fans the publication out to every other connection subscribed to
        exactly this topic, then acknowledges if asked to. */
    method OnPublish(conn: ConnId, requestId: Value, options: Value, topic: Value, arguments: Value, keywords: Value)
      returns (out: seq<Effect>)
      requires Valid()
      modifies this
      ensures Valid() && PublishDone(conn, requestId, options, topic, Trailing(arguments, keywords), out)
    {
      var tail := Trailing(arguments, keywords);
      var events, delivered, publicationId := FanOut(subscriptions, conn, topic, nextId, tail);
      nextId := nextId + delivered;
      out := events;
      if FlagSet(options, "acknowledge") {
        out := out + [Send(conn, Published(requestId, publicationId))];
      }
    }
  }
}
