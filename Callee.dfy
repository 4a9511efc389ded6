/** The peer's callee role (Client/Callee.php): it registers its bound
    procedures with the dealer, tracks the pending REGISTER and UNREGISTER
    requests and the registrations granted, and runs the bound callable when
    an INVOCATION arrives. */
module Callee {
  import opened Values
  import opened Messages
  import opened Tables
  import opened Requests

  /** What running a callable leaves behind: the values of its result and
      keyword-result parameters (null when it did not set them), or the
      message and code of the exception it threw. */
  datatype Outcome = Returned(results: Value, resultsKeywords: Value) | Threw(message: Value, code: Value)

  /** The REGISTER requests for the first n procedures, in order,
      numbered from `first`. */
  function RegisterRequests(conn: ConnId, procedures: seq<string>, first: nat, n: nat): (out: seq<Effect>)
    requires n <= |procedures|
    ensures |out| == n
  {
    if n == 0 then []
    else
      RegisterRequests(conn, procedures, first, n - 1)
        + [Send(conn, Register(Int(first + n - 1), EmptyArray, Str(procedures[n - 1])))]
  }

  /** The i-th procedure is registered by the i-th request, whose id is
      `first + i`. */
  lemma {:induction false} RegisterRequestsAt(conn: ConnId, procedures: seq<string>, first: nat, n: nat)
    requires n <= |procedures|
    ensures forall i :: 0 <= i < n ==>
              RegisterRequests(conn, procedures, first, n)[i]
                == Send(conn, Register(Int(first + i), EmptyArray, Str(procedures[i])))
  {
    if n > 0 {
      RegisterRequestsAt(conn, procedures, first, n - 1);
    }
  }

  /** The UNREGISTER requests for the first n registration ids, in order,
      numbered from `first`. */
  function UnregisterRequests(conn: ConnId, registrationIds: seq<Value>, first: nat, n: nat): (out: seq<Effect>)
    requires n <= |registrationIds|
    ensures |out| == n
  {
    if n == 0 then []
    else
      UnregisterRequests(conn, registrationIds, first, n - 1)
        + [Send(conn, Unregister(Int(first + n - 1), registrationIds[n - 1]))]
  }

  /** The i-th registration is released by the i-th request, whose id is
      `first + i`. */
  lemma {:induction false} UnregisterRequestsAt(conn: ConnId, registrationIds: seq<Value>, first: nat, n: nat)
    requires n <= |registrationIds|
    ensures forall i :: 0 <= i < n ==>
              UnregisterRequests(conn, registrationIds, first, n)[i]
                == Send(conn, Unregister(Int(first + i), registrationIds[i]))
  {
    if n > 0 {
      UnregisterRequestsAt(conn, registrationIds, first, n - 1);
    }
  }

  /** The ERROR for an INVOCATION of a registration the callee does not hold. */
  function NoSuchRegistration(requestId: Value, registrationId: Value): Msg {
    ErrorReply(INVOCATION, requestId, "wamp.error.no_such_registration",
               PosKw(List([Str("No such registration id found")]), Dict(map["registrationId" := registrationId])))
  }

  /** The answer to an INVOCATION once the callable has run: YIELD with
      empty options and the results, appended the way every sender appends
      arguments, or an ERROR carrying the exception's message and code. */
  function InvocationReply(requestId: Value, outcome: Outcome): (m: Msg)
    ensures m.Yield? <==> outcome.Returned?
    ensures (m.Yield? || m.Error?) && m.requestId == requestId
    ensures m.Yield? ==> ArgumentsOf(m.tail) == outcome.results
    ensures m.Error? ==> m.requestType == Int(INVOCATION) && m.tail.PosKw?
  {
    match outcome
    case Returned(results, resultsKeywords) =>
      Yield(requestId, EmptyArray, Trailing(results, resultsKeywords))
    case Threw(message, code) =>
      ErrorReply(INVOCATION, requestId, "wamp.error.invocation_exception",
                 PosKw(List([Str("An exception occured during procedure invocation")]),
                       Dict(map["message" := message, "code" := code])))
  }

  class Callee {
    /** The next request id; ids are post-incremented from 0. */
    var nextId: nat
    /** procedure name => callable, in binding order */
    const procedures: seq<Entry<string, Handler>>
    /** `array_keys` of the procedure table */
    const names: seq<string>
    /** request id => procedure, for REGISTERs awaiting REGISTERED */
    var registerings: map<Value, string>
    /** request id => registration id, for UNREGISTERs awaiting UNREGISTERED */
    var unregisterings: map<Value, Value>
    /** registration id => procedure name; null when the acknowledged request
        was not pending */
    var registrations: seq<Entry<Value, Value>>

    /** A value a registration can hold: null, or the name of a bound
        procedure. */
    predicate Names(v: Value) {
      v == Null || (v.Str? && v.s in names)
    }

    ghost predicate Valid()
      reads this
    {
      && Unique(procedures) && Unique(registrations) && names == Keys(procedures)
      && (forall r :: r in registerings ==> r.Int? && 0 <= r.i < nextId && registerings[r] in names)
      && (forall r :: r in unregisterings ==> r.Int? && 0 <= r.i < nextId)
      && (forall e :: e in registrations ==> Names(e.val))
    }

    /** Built from an accepted binding table (see `Bindings.Bind`). */
    constructor(procedures: seq<Entry<string, Handler>>)
      requires Unique(procedures)
      ensures this.procedures == procedures && names == Keys(procedures) && nextId == 0
      ensures registerings == map[] && unregisterings == map[] && registrations == []
      ensures Valid()
    {
      this.procedures := procedures;
      names := Keys(procedures);
      nextId := 0;
      registerings := map[];
      unregisterings := map[];
      registrations := [];
    }

    /** The procedure and callable an INVOCATION of the registration runs:
        present only when the registration is set to a procedure name. */
    function Target(registrationId: Value): (h: Option<Handler>)
      reads this
      requires Valid()
      ensures h.Some? <==> Get(registrations, registrationId).Some? && Get(registrations, registrationId).value != Null
      ensures h.Some? ==> Get(registrations, registrationId).value.Str?
                          && Get(procedures, Get(registrations, registrationId).value.s) == h
    {
      var reg := Get(registrations, registrationId);
      if reg.None? || reg.value == Null then None
      else
        GetIn(registrations, registrationId);
        Get(procedures, reg.value.s)
    }

    /** Sends REGISTER for one procedure under a fresh request id. */
    method Register(conn: ConnId, procedure: string) returns (out: seq<Effect>)
      modifies this
      ensures nextId == old(nextId) + 1 && registerings == old(registerings)[Int(old(nextId)) := procedure]
      ensures unregisterings == old(unregisterings) && registrations == old(registrations)
      ensures out == [Send(conn, Msg.Register(Int(old(nextId)), EmptyArray, Str(procedure)))]
    {
      var requestId := Int(nextId);
      nextId := nextId + 1;
      registerings := registerings[requestId := procedure];
      out := [Send(conn, Msg.Register(requestId, EmptyArray, Str(procedure)))];
    }

    /** Registers every bound procedure, in binding order, under fresh
        request ids. */
    method RegisterProcedures(conn: ConnId) returns (out: seq<Effect>)
      requires Valid()
      modifies this
      ensures Valid()
      ensures nextId == old(nextId) + |names|
      ensures out == RegisterRequests(conn, names, old(nextId), |names|)
      ensures registerings == Pending(old(registerings), names, old(nextId), |names|)
      ensures unregisterings == old(unregisterings) && registrations == old(registrations)
    {
      out := [];
      var i := 0;
      while i < |names|
        invariant 0 <= i <= |names|
        invariant nextId == old(nextId) + i
        invariant out == RegisterRequests(conn, names, old(nextId), i)
        invariant registerings == Pending(old(registerings), names, old(nextId), i)
        invariant unregisterings == old(unregisterings) && registrations == old(registrations)
      {
        var sent := Register(conn, names[i]);
        out := out + sent;
        i := i + 1;
      }
      PendingBelow(old(registerings), names, old(nextId), |names|);
    }

    /** REGISTERED: the registration id now names the pending request's
        procedure (null if the request was not pending), and the request is
        no longer pending. */
    method OnRegistered(conn: ConnId, requestId: Value, registrationId: Value)
      requires Valid()
      modifies this
      ensures Valid()
      ensures registrations == Put(old(registrations), registrationId,
                                   if requestId in old(registerings) then Str(old(registerings)[requestId]) else Null)
      ensures registerings == old(registerings) - {requestId}
      ensures nextId == old(nextId) && unregisterings == old(unregisterings)
    {
      var procedure := if requestId in registerings then Str(registerings[requestId]) else Null;
      PutEntries(registrations, registrationId, procedure);
      registrations := Put(registrations, registrationId, procedure);
      registerings := registerings - {requestId};
    }

    /** Sends UNREGISTER for one registration under a fresh request id. */
    method Unregister(conn: ConnId, registrationId: Value) returns (out: seq<Effect>)
      modifies this
      ensures nextId == old(nextId) + 1 && unregisterings == old(unregisterings)[Int(old(nextId)) := registrationId]
      ensures registerings == old(registerings) && registrations == old(registrations)
      ensures out == [Send(conn, Msg.Unregister(Int(old(nextId)), registrationId))]
    {
      var requestId := Int(nextId);
      nextId := nextId + 1;
      unregisterings := unregisterings[requestId := registrationId];
      out := [Send(conn, Msg.Unregister(requestId, registrationId))];
    }

    /** Unregisters every registration held, in the order they were
        granted, under fresh request ids. */
    method UnregisterProcedures(conn: ConnId) returns (out: seq<Effect>)
      requires Valid()
      modifies this
      ensures Valid()
      ensures nextId == old(nextId) + |registrations|
      ensures out == UnregisterRequests(conn, Keys(registrations), old(nextId), |registrations|)
      ensures unregisterings == Pending(old(unregisterings), Keys(registrations), old(nextId), |registrations|)
      ensures registerings == old(registerings) && registrations == old(registrations)
    {
      var ids := Keys(registrations);
      out := [];
      var i := 0;
      while i < |ids|
        invariant 0 <= i <= |ids|
        invariant nextId == old(nextId) + i
        invariant out == UnregisterRequests(conn, ids, old(nextId), i)
        invariant unregisterings == Pending(old(unregisterings), ids, old(nextId), i)
        invariant registerings == old(registerings) && registrations == old(registrations)
      {
        var sent := Unregister(conn, ids[i]);
        out := out + sent;
        i := i + 1;
      }
      PendingBelow(old(unregisterings), ids, old(nextId), |ids|);
    }

    /** UNREGISTERED: the registration the pending request named is dropped
        and the request is no longer pending. An unknown request id names
        the null registration. */
    method OnUnregistered(conn: ConnId, requestId: Value)
      requires Valid()
      modifies this
      ensures Valid()
      ensures registrations == Remove(old(registrations),
                                      if requestId in old(unregisterings) then old(unregisterings)[requestId] else Null)
      ensures unregisterings == old(unregisterings) - {requestId}
      ensures nextId == old(nextId) && registerings == old(registerings)
    {
      var registrationId := if requestId in unregisterings then unregisterings[requestId] else Null;
      RemoveEntries(registrations, registrationId);
      registrations := Remove(registrations, registrationId);
      unregisterings := unregisterings - {requestId};
    }

    /** INVOCATION: an unknown (or null) registration is answered with an
        ERROR; otherwise the bound callable runs with the call's arguments
        and its outcome is answered with YIELD or ERROR. `run` stands for
        the application callables. Nothing in the callee changes. */
    method OnInvocation(conn: ConnId, requestId: Value, registrationId: Value, details: Value,
                        arguments: Value, keywords: Value, run: (Handler, Value, Value) -> Outcome)
      returns (out: seq<Effect>)
      requires Valid() && IsArray(arguments)
      ensures Target(registrationId).None? ==> out == [Send(conn, NoSuchRegistration(requestId, registrationId))]
      ensures Target(registrationId).Some? ==>
                var h := Target(registrationId).value;
                out == [Invoke(h, arguments, keywords),
                        Send(conn, InvocationReply(requestId, run(h, arguments, keywords)))]
    {
      var reg := Get(registrations, registrationId);
      if reg.None? || reg.value == Null {
        out := [Send(conn, NoSuchRegistration(requestId, registrationId))];
        return;
      }
      GetIn(registrations, registrationId);
      var procedure := reg.value.s;
      var callable := Get(procedures, procedure).value;
      var outcome := run(callable, arguments, keywords);
      out := [Invoke(callable, arguments, keywords), Send(conn, InvocationReply(requestId, outcome))];
    }
  }
}
