/** The session lifecycle shared by the router's and the peer's session
    managers: the statechart states, the protocol-violation message and the
    abort sequence. */
module Session {
  import opened Values
  import opened Messages

  /** The states of the WAMP session statechart. Only Closed, Establishing,
      Established and (on the peer) Closing are ever entered. */
  datatype SessionState =
    | Closed | Establishing | Challenging | Authenticating | Established | Failed | ShuttingDown | Closing

  /** The string each state is stored as. */
  function StateName(s: SessionState): string {
    match s
    case Closed => "closed"
    case Establishing => "establishing"
    case Challenging => "challenging"
    case Authenticating => "authenticating"
    case Established => "established"
    case Failed => "failed"
    case ShuttingDown => "shutting down"
    case Closing => "closing"
  }

  /** The text of a protocol-violation abort. A connection whose state was
      unset interpolates as the empty string. */
  function ViolationMessage(expected: SessionState, actual: Option<SessionState>): string {
    "Expected state " + StateName(expected) + "; current state is "
      + (if actual.Some? then StateName(actual.value) else "") + "."
  }

  const PROTOCOL_VIOLATION: string := "wamp.error.protocol_violation"

  /** The ABORT message: `[3, {"message": message}, reason]`. */
  function AbortMessage(message: string, reason: string): Msg {
    Abort(Dict(map["message" := Str(message)]), Str(reason))
  }

  /** What aborting a connection in the given state sends and does: ABORT
      unless the session is already closed, then the close. The state
      afterwards is always Closed. */
  function AbortEffects(conn: ConnId, current: Option<SessionState>, message: string, reason: string)
    : (out: seq<Effect>)
    ensures |out| >= 1 && out[|out| - 1] == Close(conn)
    ensures current == Some(Closed) <==> |out| == 1
    ensures |out| == 2 ==> out[0] == Send(conn, AbortMessage(message, reason))
  {
    (if current != Some(Closed) then [Send(conn, AbortMessage(message, reason))] else []) + [Close(conn)]
  }

  /** The number of ABORT messages among the effects. */
  function AbortsSent(out: seq<Effect>): nat {
    if out == [] then 0
    else
      var e := out[|out| - 1];
      AbortsSent(out[..|out| - 1]) + (if e.Send? && e.msg.Abort? then 1 else 0)
  }

  lemma {:induction false} AbortsSentAppend(a: seq<Effect>, b: seq<Effect>)
    ensures AbortsSent(a + b) == AbortsSent(a) + AbortsSent(b)
    decreases |b|
  {
    if b == [] {
      assert a + b == a;
    } else {
      var n := |b| - 1;
      assert (a + b)[..|a + b| - 1] == a + b[..n];
      AbortsSentAppend(a, b[..n]);
    }
  }

  /** Aborting leaves the session Closed, so aborting the same connection
      again sends no second ABORT: two aborts in a row send at most one. */
  lemma AbortTwiceSendsAtMostOne(conn: ConnId, current: Option<SessionState>,
                                 m1: string, r1: string, m2: string, r2: string)
    ensures var out := AbortEffects(conn, current, m1, r1) + AbortEffects(conn, Some(Closed), m2, r2);
            && AbortsSent(out) == (if current == Some(Closed) then 0 else 1)
            && out[|out| - 1] == Close(conn)
  {
    var first := AbortEffects(conn, current, m1, r1);
    var second := AbortEffects(conn, Some(Closed), m2, r2);
    AbortsSentAppend(first, second);
    assert second == [Close(conn)];
    assert AbortsSent(second) == 0 by {
      assert second[..0] == [];
    }
    if current == Some(Closed) {
      assert first == [Close(conn)] && first[..0] == [];
    } else {
      assert first[..1] == [Send(conn, AbortMessage(m1, r1))] && first[..1][..0] == [];
    }
  }
}
