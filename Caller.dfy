/** The peer's caller role (Client/Caller.php): it sends CALL under a fresh
    request id, files the result callback under that id, and runs the
    callback when the RESULT arrives. */
module Caller {
  import opened Values
  import opened Messages

  class Caller {
    /** The next request id; ids are post-incremented from 0. */
    var nextId: nat
    /** request id => result callback (None for a null callback), for CALLs
        awaiting RESULT */
    var callings: map<Value, Option<Handler>>

    ghost predicate Valid()
      reads this
    {
      forall r :: r in callings ==> r.Int? && 0 <= r.i < nextId
    }

    constructor()
      ensures nextId == 0 && callings == map[]
      ensures Valid()
    {
      nextId := 0;
      callings := map[];
    }

    /** CALL: the procedure with empty options and the arguments, which are
        always appended (they are an array), followed by the keyword
        arguments unless those are null. The callback is filed under the
        new request id, which no pending call uses. */
    method Call(conn: ConnId, procedure: Value, arguments: Value, keywords: Value, callback: Option<Handler>)
      returns (out: seq<Effect>)
      requires Valid() && IsArray(arguments)
      modifies this
      ensures Valid()
      ensures Int(old(nextId)) !in old(callings)
      ensures nextId == old(nextId) + 1 && callings == old(callings)[Int(old(nextId)) := callback]
      ensures out == [Send(conn, Msg.Call(Int(old(nextId)), EmptyArray, procedure, Trailing(arguments, keywords)))]
      ensures out[0].msg.tail.args == arguments && (keywords != Null <==> out[0].msg.tail.PosKw?)
    {
      var requestId := Int(nextId);
      nextId := nextId + 1;
      callings := callings[requestId := callback];
      out := [Send(conn, Msg.Call(requestId, EmptyArray, procedure, Trailing(arguments, keywords)))];
    }

    /** RESULT: the callback filed under the request id runs with the
        result's arguments and the call is no longer pending. An unknown
        request id or a null callback is a call on null, a fatal error that
        leaves the call pending. */
    method OnResult(conn: ConnId, requestId: Value, details: Value, arguments: Value, keywords: Value)
      returns (out: seq<Effect>)
      requires Valid() && IsArray(arguments)
      modifies this
      ensures Valid() && nextId == old(nextId)
      ensures requestId !in old(callings) || old(callings)[requestId].None? ==>
                out == [Crash] && callings == old(callings)
      ensures requestId in old(callings) && old(callings)[requestId].Some? ==>
                && out == [Invoke(old(callings)[requestId].value, arguments, keywords)]
                && callings == old(callings) - {requestId}
    {
      if requestId !in callings || callings[requestId].None? {
        return [Crash];
      }
      var callback := callings[requestId].value;
      out := [Invoke(callback, arguments, keywords)];
      callings := callings - {requestId};
    }
  }
}
