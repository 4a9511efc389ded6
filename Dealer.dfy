/** The router's remote-procedure-call engine (Server/Dealer.php): the
    procedure and registration tables, kept as two mutually inverse maps, and
    the table of calls waiting for the callee's YIELD. */
module Dealer {
  import opened Values
  import opened Messages

  /** `$this->registrations[$registrationId]`. */
  datatype Registration = Registration(options: Value, procedure: Value, conn: ConnId)

  /** `$this->calls[$requestId]`: who is waiting for the result. */
  datatype PendingCall = PendingCall(conn: ConnId, options: Value)

  /** The procedure table and the registration table describe the same
      registrations: `procedures[p] == r` exactly when `registrations[r]` is
      for procedure p. */
  predicate Consistent(procedures: map<Value, Value>, registrations: map<Value, Registration>) {
    && (forall p :: p in procedures ==>
          procedures[p] in registrations && registrations[procedures[p]].procedure == p)
    && (forall r :: r in registrations ==>
          registrations[r].procedure in procedures && procedures[registrations[r].procedure] == r)
  }

  /** A procedure is held by at most one registration. */
  lemma OneRegistrationPerProcedure(procedures: map<Value, Value>, registrations: map<Value, Registration>,
                                    r1: Value, r2: Value)
    requires Consistent(procedures, registrations)
    requires r1 in registrations && r2 in registrations
    requires registrations[r1].procedure == registrations[r2].procedure
    ensures r1 == r2
  {
    var p := registrations[r1].procedure;
    assert procedures[p] == r1 && procedures[p] == r2;
  }

  /** A REGISTER of a free procedure under an unused id keeps the tables
      inverse to each other. */
  lemma {:induction false} RegisterKeepsConsistent(procedures: map<Value, Value>, registrations: map<Value, Registration>,
                                                   procedure: Value, id: Value, entry: Registration)
    requires Consistent(procedures, registrations)
    requires procedure !in procedures && id !in registrations && entry.procedure == procedure
    ensures Consistent(procedures[procedure := id], registrations[id := entry])
  {
    var ps := procedures[procedure := id];
    var rs := registrations[id := entry];
    forall p | p in ps ensures ps[p] in rs && rs[ps[p]].procedure == p {
      if p != procedure {
        assert ps[p] == procedures[p] && ps[p] != id;
      }
    }
    forall r | r in rs ensures rs[r].procedure in ps && ps[rs[r].procedure] == r {
      if r != id {
        assert rs[r] == registrations[r] && rs[r].procedure != procedure;
      }
    }
  }

  /** An UNREGISTER of a held id removes one entry from each table and keeps
      them inverse to each other; the procedure becomes free again. */
  lemma {:induction false} UnregisterKeepsConsistent(procedures: map<Value, Value>, registrations: map<Value, Registration>,
                                                     id: Value)
    requires Consistent(procedures, registrations) && id in registrations
    ensures var p := registrations[id].procedure;
            && Consistent(procedures - {p}, registrations - {id})
            && p !in procedures - {p}
  {
    var p := registrations[id].procedure;
    var ps := procedures - {p};
    var rs := registrations - {id};
    forall q | q in ps ensures ps[q] in rs && rs[ps[q]].procedure == q {
      assert procedures[q] != id;
    }
    forall r | r in rs ensures rs[r].procedure in ps && ps[rs[r].procedure] == r {
      assert registrations[r].procedure != p;
    }
  }

  class Dealer {
    /** procedure => registration id */
    var procedures: map<Value, Value>
    /** registration id => options, procedure and owning connection */
    var registrations: map<Value, Registration>
    /** request id => the caller waiting for the result */
    var calls: map<Value, PendingCall>
    /** Next value of the identifier oracle (`uniqid(mt_rand())`). */
    var nextId: nat

    ghost predicate Valid()
      reads this
    {
      && Consistent(procedures, registrations)
      && forall r :: r in registrations ==> r.Int? && r.i < nextId
    }

    constructor()
      ensures Valid() && procedures == map[] && registrations == map[] && calls == map[]
    {
      procedures := map[];
      registrations := map[];
      calls := map[];
      nextId := 0;
    }

    twostate predicate RegisterDone(conn: ConnId, requestId: Value, options: Value, procedure: Value, out: seq<Effect>)
      reads this
    {
      && calls == old(calls)
      && if procedure in old(procedures) then
           && procedures == old(procedures) && registrations == old(registrations) && nextId == old(nextId)
           && out == [Send(conn, ErrorReply(REGISTER, requestId, "wamp.error.procedure_already_exists", NoArgs))]
         else
           var id := Int(old(nextId));
           && id !in old(registrations)
           && procedures == old(procedures)[procedure := id]
           && registrations == old(registrations)[id := Registration(options, procedure, conn)]
           && nextId == old(nextId) + 1
           && out == [Send(conn, Registered(requestId, id))]
    }

    /** Registers the procedure to the connection under a fresh id, unless
        some connection already holds it. */
    method OnRegister(conn: ConnId, requestId: Value, options: Value, procedure: Value) returns (out: seq<Effect>)
      requires Valid()
      modifies this
      ensures Valid() && RegisterDone(conn, requestId, options, procedure, out)
    {
      if procedure in procedures {
        out := [Send(conn, ErrorReply(REGISTER, requestId, "wamp.error.procedure_already_exists", NoArgs))];
        return;
      }
      var id := Int(nextId);
      RegisterKeepsConsistent(procedures, registrations, procedure, id, Registration(options, procedure, conn));
      nextId := nextId + 1;
      procedures := procedures[procedure := id];
      registrations := registrations[id := Registration(options, procedure, conn)];
      out := [Send(conn, Registered(requestId, id))];
    }

    twostate predicate UnregisterDone(conn: ConnId, requestId: Value, registrationId: Value, out: seq<Effect>)
      reads this
    {
      && calls == old(calls) && nextId == old(nextId)
      && if registrationId in old(registrations) then
           && procedures == old(procedures) - {old(registrations)[registrationId].procedure}
           && registrations == old(registrations) - {registrationId}
           && out == [Send(conn, Unregistered(requestId))]
         else
           && procedures == old(procedures) && registrations == old(registrations)
           && out == [Send(conn, ErrorReply(UNREGISTER, requestId, "wamp.error.no_such_registration", NoArgs))]
    }

    /** Drops the registration under the id, whoever owns it, and frees its
        procedure. */
    method OnUnregister(conn: ConnId, requestId: Value, registrationId: Value) returns (out: seq<Effect>)
      requires Valid()
      modifies this
      ensures Valid() && UnregisterDone(conn, requestId, registrationId, out)
    {
      if registrationId !in registrations {
        out := [Send(conn, ErrorReply(UNREGISTER, requestId, "wamp.error.no_such_registration", NoArgs))];
        return;
      }
      UnregisterKeepsConsistent(procedures, registrations, registrationId);
      procedures := procedures - {registrations[registrationId].procedure};
      registrations := registrations - {registrationId};
      out := [Send(conn, Unregistered(requestId))];
    }

    twostate predicate CallDone(conn: ConnId, requestId: Value, options: Value, procedure: Value, tail: Args,
                                out: seq<Effect>)
      reads this
    {
      && procedures == old(procedures) && registrations == old(registrations) && nextId == old(nextId)
      && if procedure in old(procedures) then
           var id := old(procedures)[procedure];
           && id in old(registrations)
           && calls == old(calls)[requestId := PendingCall(conn, options)]
           && out == [Send(old(registrations)[id].conn, Invocation(requestId, id, EmptyArray, tail))]
         else
           && calls == old(calls)
           && out == [Send(conn, ErrorReply(CALL, requestId, "wamp.error.no_such_procedure", tail))]
    }

    /** Forwards the call to the owner of the procedure as an INVOCATION
        under the caller's own request id, remembering the caller. */
    method OnCall(conn: ConnId, requestId: Value, options: Value, procedure: Value, arguments: Value, keywords: Value)
      returns (out: seq<Effect>)
      requires Valid() && IsArray(arguments)
      modifies this
      ensures Valid() && CallDone(conn, requestId, options, procedure, Trailing(arguments, keywords), out)
    {
      var tail := Trailing(arguments, keywords);
      if procedure !in procedures {
        out := [Send(conn, ErrorReply(CALL, requestId, "wamp.error.no_such_procedure", tail))];
        return;
      }
      var id := procedures[procedure];
      calls := calls[requestId := PendingCall(conn, options)];
      out := [Send(registrations[id].conn, Invocation(requestId, id, EmptyArray, tail))];
    }

    twostate predicate YieldDone(conn: ConnId, requestId: Value, tail: Args, out: seq<Effect>)
      reads this
    {
      && procedures == old(procedures) && registrations == old(registrations) && nextId == old(nextId)
      && if requestId in old(calls) then
           && calls == old(calls) - {requestId}
           && out == [Send(old(calls)[requestId].conn, Result(requestId, EmptyArray, tail))]
         else
           && calls == old(calls)
           && out == [Send(conn, ErrorReply(YIELD, requestId, "wamp.error.no_such_call_request", tail))]
    }

    /** Delivers the result to the caller waiting under the request id and
        forgets the call; any connection may yield it. */
    method OnYield(conn: ConnId, requestId: Value, options: Value, arguments: Value, keywords: Value)
      returns (out: seq<Effect>)
      requires Valid() && IsArray(arguments)
      modifies this
      ensures Valid() && YieldDone(conn, requestId, Trailing(arguments, keywords), out)
    {
      var tail := Trailing(arguments, keywords);
      if requestId !in calls {
        out := [Send(conn, ErrorReply(YIELD, requestId, "wamp.error.no_such_call_request", tail))];
        return;
      }
      out := [Send(calls[requestId].conn, Result(requestId, EmptyArray, tail))];
      calls := calls - {requestId};
    }
  }

  // ---------------------------------------------------------------------
  // Multi-step consequences

  /** After an UNREGISTER the procedure can be registered again. */
  method ReRegister(d: Dealer, owner: ConnId, other: ConnId, procedure: Value)
    returns (first: seq<Effect>, second: seq<Effect>, third: seq<Effect>)
    requires d.Valid() && procedure !in d.procedures
    modifies d
    ensures d.Valid()
    ensures first == [Send(owner, Registered(Int(1), Int(old(d.nextId))))]
    ensures second == [Send(owner, Unregistered(Int(2)))]
    ensures third == [Send(other, Registered(Int(3), Int(old(d.nextId) + 1)))]
    ensures d.procedures == old(d.procedures)[procedure := Int(old(d.nextId) + 1)]
  {
    first := d.OnRegister(owner, Int(1), EmptyObject, procedure);
    var id := first[0].msg.registration;
    second := d.OnUnregister(owner, Int(2), id);
    assert d.procedures == old(d.procedures);
    third := d.OnRegister(other, Int(3), EmptyObject, procedure);
  }

  /** A call is answered once: a second YIELD for it is an error. */
  method SecondYieldFails(d: Dealer, caller: ConnId, callee: ConnId, procedure: Value, requestId: Value)
    returns (invocation: seq<Effect>, result: seq<Effect>, again: seq<Effect>)
    requires d.Valid() && procedure in d.procedures
    modifies d
    ensures var id := old(d.procedures)[procedure];
            invocation == [Send(old(d.registrations)[id].conn, Invocation(requestId, id, EmptyArray, Pos(EmptyArray)))]
    ensures result == [Send(caller, Result(requestId, EmptyArray, Pos(EmptyArray)))]
    ensures again == [Send(callee, ErrorReply(YIELD, requestId, "wamp.error.no_such_call_request", Pos(EmptyArray)))]
  {
    invocation := d.OnCall(caller, requestId, EmptyObject, procedure, EmptyArray, Null);
    result := d.OnYield(callee, requestId, EmptyObject, EmptyArray, Null);
    again := d.OnYield(callee, requestId, EmptyObject, EmptyArray, Null);
  }

  /** As written, pending calls are keyed by the request id alone, and
      request ids are chosen by each caller: when two connections call with
      the same request id, the second overwrites the first, the result goes
      to the second caller and the first caller never hears back. */
  method CallsCollide(d: Dealer, caller1: ConnId, caller2: ConnId, callee: ConnId, procedure: Value,
                      requestId: Value)
    returns (result: seq<Effect>, again: seq<Effect>)
    requires d.Valid() && procedure in d.procedures && caller1 != caller2
    modifies d
    ensures result == [Send(caller2, Result(requestId, EmptyArray, Pos(EmptyArray)))]
    ensures again == [Send(callee, ErrorReply(YIELD, requestId, "wamp.error.no_such_call_request", Pos(EmptyArray)))]
  {
    var _ := d.OnCall(caller1, requestId, EmptyObject, procedure, EmptyArray, Null);
    var _ := d.OnCall(caller2, requestId, EmptyObject, procedure, EmptyArray, Null);
    result := d.OnYield(callee, requestId, EmptyObject, EmptyArray, Null);
    again := d.OnYield(callee, requestId, EmptyObject, EmptyArray, Null);
  }
}
