/** The request bookkeeping the peer's roles share: each role numbers its
    requests with a counter post-incremented from 0 and files each request
    it sends under its id until the router answers it. */
module Requests {
  import opened Values

  /** The pending-request table once requests for the first n items have
      been sent, numbered from `first`, starting from `pending`. */
  function Pending<T>(pending: map<Value, T>, items: seq<T>, first: nat, n: nat): map<Value, T>
    requires n <= |items|
  {
    if n == 0 then pending
    else Pending(pending, items, first, n - 1)[Int(first + n - 1) := items[n - 1]]
  }

  /** Each request is pending under its id, naming its item; no other id
      becomes pending, and every other id keeps what was pending before. */
  lemma {:induction false} PendingAt<T>(pending: map<Value, T>, items: seq<T>, first: nat, n: nat)
    requires n <= |items|
    ensures var m := Pending(pending, items, first, n);
            && (forall i :: 0 <= i < n ==> Int(first + i) in m && m[Int(first + i)] == items[i])
            && (forall k :: k in m <==> k in pending || (k.Int? && first <= k.i < first + n))
            && (forall k :: k in pending && !(k.Int? && first <= k.i < first + n) ==> m[k] == pending[k])
  {
    if n > 0 {
      PendingAt(pending, items, first, n - 1);
      var m := Pending(pending, items, first, n);
      assert m == Pending(pending, items, first, n - 1)[Int(first + n - 1) := items[n - 1]];
      forall i | 0 <= i < n
        ensures Int(first + i) in m && m[Int(first + i)] == items[i]
      {
        if i < n - 1 {
          assert Int(first + i) != Int(first + n - 1);
        }
      }
    }
  }

  /** Sending keeps every pending id below the counter, and every pending
      request names one of the items or what it named before. */
  lemma {:induction false} PendingBelow<T>(pending: map<Value, T>, items: seq<T>, first: nat, n: nat)
    requires n <= |items|
    requires forall r :: r in pending ==> r.Int? && 0 <= r.i < first
    ensures var m := Pending(pending, items, first, n);
            forall r :: r in m ==> && r.Int? && 0 <= r.i < first + n
                                   && (m[r] in items || (r in pending && m[r] == pending[r]))
  {
    if n > 0 {
      PendingBelow(pending, items, first, n - 1);
    }
  }
}
