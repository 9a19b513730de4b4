/** The turn-end contract as a state machine over what messages say, and what it decides about
    whole streams: a closed form of the binding, and exactly when and why a turn ends
    (appkit/turn_lifecycle_gate.go, appkit/turn_boundary.go, turn_boundary.go). */
module TurnProtocol {
  import opened TurnId

  /** What one message says about turns. */
  datatype Signal = Signal(
    running: bool, stopped: bool, idle: bool,  // its status, if any
    statusTurn: Turn,                          // the turn that status is about
    progress: bool,                            // it proves progress of the turn
    turnEnd: bool,                             // it is a turn-end event ...
    eventTurn: Turn)                           // ... for this turn

  datatype Gate = Gate(sawRunning: bool, sawProgress: bool, expected: Turn, cancellationSeen: bool)

  datatype Reason = NotYet | StreamEnd | Idle | Stopped

  datatype Boundary = Boundary(gate: Gate, reason: Reason) {
    predicate Ended() { reason != NotYet }
  }

  predicate SameTurn(expected: Turn, turn: Turn) {
    expected != NoTurn && expected == turn
  }

  /** A running status replaces the binding when there is none, or when its generation is a
      valid one that is not older. */
  predicate Replaces(expected: Turn, turn: Turn) {
    turn != NoTurn && (expected == NoTurn || (turn.gen > 0 && (expected.gen < 0 || turn.gen >= expected.gen)))
  }

  function Bind(g: Gate, turn: Turn): Gate {
    if Replaces(g.expected, turn) then
      Gate(true, g.sawProgress && (g.expected == NoTurn || turn == g.expected), turn, g.cancellationSeen)
    else g.(sawRunning := true)
  }

  function Observed(g: Gate, s: Signal): Gate {
    var bound := if s.running then Bind(g, s.statusTurn) else g;
    if s.progress then bound.(sawProgress := true) else bound
  }

  predicate AllowStreamEnd(g: Gate, turn: Turn) {
    g.sawRunning && g.sawProgress && SameTurn(g.expected, turn)
  }

  predicate AllowIdleComplete(g: Gate, turn: Turn) {
    && g.sawRunning && g.expected != NoTurn
    && if turn == NoTurn then g.cancellationSeen
       else turn == g.expected && (g.sawProgress || g.cancellationSeen)
  }

  /** The reason for which a message ends the turn. */
  function Verdict(g: Gate, s: Signal): Reason {
    if s.stopped && g.sawRunning then
      if g.expected == NoTurn || SameTurn(g.expected, s.statusTurn) then Stopped else NotYet
    else if s.idle && AllowIdleComplete(g, s.statusTurn) then Idle
    else if s.turnEnd && AllowStreamEnd(g, s.eventTurn) then StreamEnd
    else NotYet
  }

  function Fed(b: Boundary, s: Signal): Boundary {
    if b.Ended() then b
    else
      var g := Observed(b.gate, s);
      Boundary(g, Verdict(g, s))
  }

  /** A fresh boundary whose owner has, or has not, seen a cancellation. */
  function Fresh(cancelled: bool): Boundary {
    Boundary(Gate(false, false, NoTurn, cancelled), NotYet)
  }

  function Run(cancelled: bool, ss: seq<Signal>): Boundary {
    if ss == [] then Fresh(cancelled)
    else Fed(Run(cancelled, ss[..|ss| - 1]), ss[|ss| - 1])
  }

  // ---------------------------------------------------------------- the binding

  /** The turns announced by the running statuses of a stream, in order. */
  function RunningTurns(ss: seq<Signal>): (turns: seq<Turn>)
    ensures forall i :: 0 <= i < |turns| ==> turns[i] != NoTurn
  {
    if ss == [] then []
    else
      var turns := RunningTurns(ss[..|ss| - 1]);
      var s := ss[|ss| - 1];
      if s.running && s.statusTurn != NoTurn then turns + [s.statusTurn] else turns
  }

  /** The last turn of the greatest generation. */
  function LastNewest(turns: seq<Turn>): (k: nat)
    requires turns != [] && forall i :: 0 <= i < |turns| ==> turns[i] != NoTurn
    ensures k < |turns|
    ensures forall i :: 0 <= i < |turns| ==> turns[i].gen <= turns[k].gen
    ensures forall i :: k < i < |turns| ==> turns[i].gen < turns[k].gen
  {
    var n := |turns| - 1;
    if n == 0 then 0
    else
      var k := LastNewest(turns[..n]);
      assert forall i :: 0 <= i < n ==> turns[..n][i] == turns[i];
      if turns[n].gen >= turns[k].gen then n else k
  }

  /** The binding a sequence of announced turns leads to: the last one of the newest valid
      generation, or the first when no generation is valid. */
  function Binding(turns: seq<Turn>): Turn
    requires forall i :: 0 <= i < |turns| ==> turns[i] != NoTurn
  {
    if turns == [] then NoTurn
    else if turns[LastNewest(turns)].gen > 0 then turns[LastNewest(turns)]
    else turns[0]
  }

  function Bound(ss: seq<Signal>): Turn {
    Binding(RunningTurns(ss))
  }

  /** One more announced turn replaces the binding under exactly the rule of the gate. */
  lemma BindingStep(turns: seq<Turn>, turn: Turn)
    requires turn != NoTurn && forall i :: 0 <= i < |turns| ==> turns[i] != NoTurn
    ensures Binding(turns + [turn]) == if Replaces(Binding(turns), turn) then turn else Binding(turns)
  {
    assert (turns + [turn])[..|turns|] == turns;
  }

  // ---------------------------------------------------------------- progress

  /** Message `i` moves the binding from one turn to another. */
  predicate Rebinds(ss: seq<Signal>, i: nat)
    requires i < |ss|
  {
    Bound(ss[..i]) != NoTurn && Bound(ss[..i + 1]) != Bound(ss[..i])
  }

  /** Message `j` is progress that no later message of the stream has voided. */
  predicate LiveProgress(ss: seq<Signal>, j: nat)
    requires j < |ss|
  {
    ss[j].progress && forall i :: j < i < |ss| ==> !Rebinds(ss, i)
  }

  predicate ProgressSeen(ss: seq<Signal>) {
    exists j :: 0 <= j < |ss| && LiveProgress(ss, j)
  }

  predicate RunningSeen(ss: seq<Signal>) {
    exists i :: 0 <= i < |ss| && ss[i].running
  }

  lemma RebindsPrefix(ss: seq<Signal>, n: nat)
    requires n <= |ss|
    ensures forall i :: 0 <= i < n ==> (Rebinds(ss, i) <==> Rebinds(ss[..n], i))
  {
    forall i | 0 <= i < n
      ensures Rebinds(ss, i) <==> Rebinds(ss[..n], i)
    {
      assert ss[..n][..i] == ss[..i] && ss[..n][..i + 1] == ss[..i + 1];
    }
  }

  lemma ProgressStep(ss: seq<Signal>)
    requires ss != []
    ensures ProgressSeen(ss) <==>
            ss[|ss| - 1].progress || (ProgressSeen(ss[..|ss| - 1]) && !Rebinds(ss, |ss| - 1))
  {
    hide Rebinds;
    var n := |ss| - 1;
    var pre := ss[..n];
    RebindsPrefix(ss, n);
    if ss[n].progress {
      assert LiveProgress(ss, n);
    } else if ProgressSeen(pre) && !Rebinds(ss, n) {
      var j :| 0 <= j < n && LiveProgress(pre, j);
      assert LiveProgress(ss, j);
    }
    if ProgressSeen(ss) && !ss[n].progress {
      var j :| 0 <= j <= n && LiveProgress(ss, j);
      assert LiveProgress(pre, j);
    }
  }

  // ---------------------------------------------------------------- the gate

  function ObserveAll(cancelled: bool, ss: seq<Signal>): Gate {
    if ss == [] then Fresh(cancelled).gate
    else Observed(ObserveAll(cancelled, ss[..|ss| - 1]), ss[|ss| - 1])
  }

  /** The gate in terms of the stream alone. */
  function Meaning(cancelled: bool, ss: seq<Signal>): Gate {
    Gate(RunningSeen(ss), ProgressSeen(ss), Bound(ss), cancelled)
  }

  /** After any stream the gate holds exactly: whether a running status was seen, whether some
      progress came since the last change of turn, and the closed form of the binding. */
  lemma {:induction false} GateMeaning(cancelled: bool, ss: seq<Signal>)
    ensures ObserveAll(cancelled, ss) == Meaning(cancelled, ss)
  {
    if ss != [] {
      var n := |ss| - 1;
      var pre := ss[..n];
      GateMeaning(cancelled, pre);
      assert RunningSeen(ss) <==> ss[n].running || RunningSeen(pre) by {
        assert forall i :: 0 <= i < n ==> pre[i] == ss[i];
      }
      ProgressStep(ss);
      assert ss[..n + 1] == ss;
      if ss[n].running && ss[n].statusTurn != NoTurn {
        BindingStep(RunningTurns(pre), ss[n].statusTurn);
      }
    }
  }

  lemma {:induction false} RunningTurnsPrefix(ss: seq<Signal>, j: nat)
    requires j <= |ss|
    ensures RunningTurns(ss[..j]) <= RunningTurns(ss)
  {
    if j < |ss| {
      RunningTurnsPrefix(ss[..|ss| - 1], j);
      assert ss[..|ss| - 1][..j] == ss[..j];
    } else {
      assert ss[..j] == ss;
    }
  }

  /** Along a stream the bound generation never goes back, and a binding is never lost. */
  lemma BindingOnlyAdvances(ss: seq<Signal>, j: nat)
    requires j <= |ss|
    ensures Bound(ss[..j]) != NoTurn ==> Bound(ss) != NoTurn && Bound(ss[..j]).gen <= Bound(ss).gen
  {
    RunningTurnsPrefix(ss, j);
    var turns, all := RunningTurns(ss[..j]), RunningTurns(ss);
    assert forall i :: 0 <= i < |turns| ==> turns[i] == all[i];
  }

  // ---------------------------------------------------------------- the end of a turn

  /** Why message `k` ends the turn, given the stream up to it. */
  function EndReason(cancelled: bool, ss: seq<Signal>, k: nat): Reason
    requires k < |ss|
  {
    Verdict(Meaning(cancelled, ss[..k + 1]), ss[k])
  }

  lemma {:induction false} GateUntilEnd(cancelled: bool, ss: seq<Signal>)
    ensures !Run(cancelled, ss).Ended() ==> Run(cancelled, ss).gate == ObserveAll(cancelled, ss)
  {
    if ss != [] {
      GateUntilEnd(cancelled, ss[..|ss| - 1]);
    }
  }

  /** One more message, after a stream that has not ended the turn. */
  lemma NextReason(cancelled: bool, ss: seq<Signal>, k: nat)
    requires k < |ss| && !Run(cancelled, ss[..k]).Ended()
    ensures Run(cancelled, ss[..k + 1]).reason == EndReason(cancelled, ss, k)
  {
    var pre := ss[..k + 1];
    assert pre[..k] == ss[..k];
    GateUntilEnd(cancelled, ss[..k]);
    GateMeaning(cancelled, pre);
  }

  /** The turn is over after a stream exactly when some message had a reason to end it, and the
      reported reason is that of the first such message. */
  lemma {:induction false} EndedExactly(cancelled: bool, ss: seq<Signal>)
    ensures !Run(cancelled, ss).Ended() ==> forall k :: 0 <= k < |ss| ==> EndReason(cancelled, ss, k) == NotYet
    ensures Run(cancelled, ss).Ended() ==>
              exists k :: && 0 <= k < |ss| && Run(cancelled, ss).reason == EndReason(cancelled, ss, k)
                          && forall i :: 0 <= i < k ==> EndReason(cancelled, ss, i) == NotYet
  {
    hide Verdict, Meaning, Observed;
    if ss != [] {
      var n := |ss| - 1;
      var pre := ss[..n];
      EndedExactly(cancelled, pre);
      assert forall i :: 0 <= i <= n ==> pre[..i] == ss[..i];
      assert forall i :: 0 <= i < n ==> EndReason(cancelled, pre, i) == EndReason(cancelled, ss, i);
      if !Run(cancelled, pre).Ended() {
        NextReason(cancelled, ss, n);
        assert ss[..n + 1] == ss;
      }
    }
  }

  /** A message with several roles is judged by its status first: a stopped status after a running one
      decides alone, and an idle status that may end the turn does so whatever else the message is. */
  lemma StatusDecidesFirst(g: Gate, s: Signal)
    requires g.sawRunning
    ensures s.stopped ==>
              Verdict(g, s) == if g.expected == NoTurn || g.expected == s.statusTurn then Stopped else NotYet
    ensures !s.stopped && s.idle && g.expected == s.statusTurn != NoTurn && (g.sawProgress || g.cancellationSeen) ==>
              Verdict(g, s) == Idle
    ensures !s.stopped && s.idle && g.expected != NoTurn && s.statusTurn == NoTurn && g.cancellationSeen ==>
              Verdict(g, s) == Idle
    ensures !s.stopped && !s.idle && s.turnEnd && g.sawProgress && g.expected != NoTurn && s.eventTurn == g.expected ==>
              Verdict(g, s) == StreamEnd
  {
  }

  /** Once reported, the verdict stands for every extension of the stream. */
  lemma {:induction false} VerdictLatched(cancelled: bool, ss: seq<Signal>, more: seq<Signal>)
    requires Run(cancelled, ss).Ended()
    ensures Run(cancelled, ss + more) == Run(cancelled, ss)
  {
    if more == [] {
      assert ss + more == ss;
    } else {
      var n := |more| - 1;
      VerdictLatched(cancelled, ss, more[..n]);
      assert (ss + more)[..|ss + more| - 1] == ss + more[..n];
    }
  }

  /** The message at which a turn ends. */
  predicate EndsAt(cancelled: bool, ss: seq<Signal>, k: nat)
    requires k < |ss|
  {
    !Run(cancelled, ss[..k]).Ended() && Run(cancelled, ss[..k + 1]).Ended()
  }

  /** A message that ends turns proves neither that the turn runs nor that it progressed. */
  predicate Separate(s: Signal) {
    s.stopped || s.idle || s.turnEnd ==> !s.running && !s.progress
  }

  /** Safety of turn end. A turn that was not cancelled ends by stream-end or idle only after a
      running status, at a message for the bound turn, with progress since the turn was bound; and
      it ends by stopped only after a running status and never for a foreign turn. A message whose
      roles are separate is never its own running status or progress. */
  lemma TurnEndSafety(ss: seq<Signal>, k: nat)
    requires k < |ss| && EndsAt(false, ss, k)
    ensures var pre, reason := ss[..k + 1], Run(false, ss[..k + 1]).reason;
            && (exists i :: 0 <= i <= k && ss[i].running && (Separate(ss[k]) ==> i < k))
            && (reason == StreamEnd ==> ss[k].turnEnd && ss[k].eventTurn == Bound(pre) != NoTurn)
            && (reason == Idle ==> ss[k].idle && ss[k].statusTurn == Bound(pre) != NoTurn)
            && (reason == Stopped ==> ss[k].stopped && (Bound(pre) == NoTurn || ss[k].statusTurn == Bound(pre)))
            && (reason != Stopped ==>
                  exists j | 0 <= j <= k :: LiveProgress(pre, j) && (Separate(ss[k]) ==> j < k))
  {
    NextReason(false, ss, k);
    var pre := ss[..k + 1];
    var i :| 0 <= i < |pre| && pre[i].running;
    assert ss[i].running && pre[k] == ss[k];
    if Run(false, pre).reason != Stopped {
      var j :| 0 <= j < |pre| && LiveProgress(pre, j);
      assert Separate(ss[k]) ==> j < k;
    }
  }
}
