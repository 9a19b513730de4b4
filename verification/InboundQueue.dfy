/** The bounded queue of inbound frames and its priority-aware eviction (client.go,
    inbound_priority.go), and the peeling of stale frames at turn start. */
module InboundQueue {
  import opened Shared
  import opened Wire

  const DEFAULT_INBOUND_MAX_SIZE := 20_000

  /** A frame that may be dropped under backpressure before any other. */
  predicate IsNormal(frame: Json) {
    InboundFrameDropPriority(frame) >= NORMAL
  }

  datatype Queue = Queue(pending: seq<Json>, dropped: nat)

  /** The first NORMAL frame, or the length when there is none. */
  function FirstNormal(q: seq<Json>): (k: nat)
    ensures k <= |q| && (k < |q| ==> IsNormal(q[k])) && forall i :: 0 <= i < k ==> !IsNormal(q[i])
  {
    hide IsNormal;
    if q == [] || IsNormal(q[0]) then 0 else
    assert forall i :: 1 <= i < |q| ==> q[i] == q[1..][i - 1];
    1 + FirstNormal(q[1..])
  }

  /** Admission of one frame: append while there is room; otherwise drop the oldest NORMAL frame,
      else the incoming frame if it is NORMAL, else the oldest frame. */
  function Admit(q: Queue, cap: nat, frame: Json): Queue
    requires cap > 0
  {
    var k := FirstNormal(q.pending);
    if |q.pending| < cap then q.(pending := q.pending + [frame])
    else if k < |q.pending| then Queue(Without(q.pending, k) + [frame], q.dropped + 1)
    else if IsNormal(frame) then q.(dropped := q.dropped + 1)
    else Queue(q.pending[1..] + [frame], q.dropped + 1)
  }

  /** What admission does: with room the frame goes to the back. A full queue gives up its oldest frame
      of priority 2 for it, or refuses a frame of priority 2, or gives up its oldest frame. */
  lemma AdmitExactly(q: Queue, cap: nat, frame: Json, k: nat)
    requires cap > 0 && k <= |q.pending| && forall i :: 0 <= i < k ==> InboundFrameDropPriority(q.pending[i]) < 2
    requires k < |q.pending| ==> InboundFrameDropPriority(q.pending[k]) == 2
    ensures var after := Admit(q, cap, frame);
            if |q.pending| < cap then after == Queue(q.pending + [frame], q.dropped)
            else if k < |q.pending| then after == Queue(q.pending[..k] + q.pending[k + 1..] + [frame], q.dropped + 1)
            else if InboundFrameDropPriority(frame) == 2 then after == Queue(q.pending, q.dropped + 1)
            else after == Queue(q.pending[1..] + [frame], q.dropped + 1)
  {
    hide InboundFrameDropPriority;
    PriorityRange(frame);
    assert FirstNormal(q.pending) == k;
  }

  // ---------------------------------------------------------------- runs of pushes and pops

  datatype Op = Push(frame: Json) | Pop

  datatype Run = Run(queue: Queue, arrived: seq<Json>, popped: seq<Json>)

  function Do(r: Run, cap: nat, op: Op): Run
    requires cap > 0
  {
    match op
    case Push(frame) => Run(Admit(r.queue, cap, frame), r.arrived + [frame], r.popped)
    case Pop =>
      if r.queue.pending == [] then r
      else r.(queue := r.queue.(pending := r.queue.pending[1..]), popped := r.popped + [r.queue.pending[0]])
  }

  function DoAll(cap: nat, ops: seq<Op>): Run
    requires cap > 0
  {
    if ops == [] then Run(Queue([], 0), [], [])
    else Do(DoAll(cap, ops[..|ops| - 1]), cap, ops[|ops| - 1])
  }

  ghost predicate Conserved(r: Run, cap: nat) {
    && |r.queue.pending| <= cap
    && |r.arrived| == |r.queue.pending| + |r.popped| + r.queue.dropped
    && InOrder(r.popped + r.queue.pending, r.arrived)
  }

  lemma AdmitOrder(before: seq<Json>, q: Queue, cap: nat, f: Json, arrived: seq<Json>)
    requires cap > 0 && InOrder(before + q.pending, arrived)
    ensures InOrder(before + Admit(q, cap, f).pending, arrived + [f])
  {
    hide IsNormal;
    InOrderAppend(before + q.pending, arrived, f);
    var q' := Admit(q, cap, f).pending;
    if q' == q.pending + [f] {
      assert before + q' == before + q.pending + [f];
    } else if q' != q.pending {
      var k := FirstNormal(q.pending);
      assert q.pending[1..] == Without(q.pending, 0);
      ReplaceOrder(before, q.pending, if k < |q.pending| then k else 0, f, arrived);
    }
  }

  lemma ReplaceOrder(before: seq<Json>, q: seq<Json>, k: nat, f: Json, arrived: seq<Json>)
    requires InOrder(before + q, arrived) && k < |q|
    ensures InOrder(before + (Without(q, k) + [f]), arrived + [f])
  {
    var n := |before| + k;
    InOrderWithout(before + q, arrived, n);
    InOrderAppend(Without(before + q, n), arrived, f);
    assert before + (Without(q, k) + [f]) == Without(before + q, n) + [f];
  }

  /** Under a fixed cap: the queue never exceeds it, every frame that arrived is queued, read or
      counted as dropped, and frames are read in the order of their arrival. */
  lemma {:induction false} QueueConserves(cap: nat, ops: seq<Op>)
    requires cap > 0
    ensures Conserved(DoAll(cap, ops), cap)
  {
    if ops == [] {
      var none: seq<Json> := [];
      assert none + none == none;
      NothingInOrder(none);
    } else {
      var r := DoAll(cap, ops[..|ops| - 1]);
      QueueConserves(cap, ops[..|ops| - 1]);
      match ops[|ops| - 1]
      case Push(f) => AdmitOrder(r.popped, r.queue, cap, f, r.arrived);
      case Pop =>
        if r.queue.pending != [] {
          assert r.popped + r.queue.pending == (r.popped + [r.queue.pending[0]]) + r.queue.pending[1..];
        }
    }
  }

  // ---------------------------------------------------------------- important frames

  predicate IsImportant(frame: Json) {
    !IsNormal(frame)
  }

  predicate IsCritical(frame: Json) {
    InboundFrameDropPriority(frame) == CRITICAL
  }

  /** The frames with a property, in order. */
  function Select(q: seq<Json>, p: Json -> bool): seq<Json> {
    if q == [] then []
    else if p(q[0]) then [q[0]] + Select(q[1..], p)
    else Select(q[1..], p)
  }

  /** The frames that are not NORMAL. */
  function Important(q: seq<Json>): seq<Json> {
    Select(q, IsImportant)
  }

  function Criticals(q: seq<Json>): seq<Json> {
    Select(q, IsCritical)
  }

  lemma {:induction false} SelectConcat(a: seq<Json>, b: seq<Json>, p: Json -> bool)
    ensures Select(a + b, p) == Select(a, p) + Select(b, p)
  {
    if a == [] {
      assert a + b == b;
    } else {
      assert (a + b)[1..] == a[1..] + b;
      SelectConcat(a[1..], b, p);
    }
  }

  lemma SelectOne(f: Json, p: Json -> bool)
    ensures Select([f], p) == if p(f) then [f] else []
  {
    assert Select([f][1..], p) == [];
  }

  lemma SelectWithout(q: seq<Json>, k: nat, p: Json -> bool)
    requires k < |q| && !p(q[k])
    ensures Select(Without(q, k), p) == Select(q, p)
  {
    assert q == q[..k] + ([q[k]] + q[k + 1..]);
    SelectConcat(q[..k], [q[k]] + q[k + 1..], p);
    SelectConcat([q[k]], q[k + 1..], p);
    SelectConcat(q[..k], q[k + 1..], p);
    SelectOne(q[k], p);
  }

  lemma {:induction false} SelectBound(q: seq<Json>, p: Json -> bool)
    ensures |Select(q, p)| <= |q|
    ensures (forall i :: 0 <= i < |q| ==> p(q[i])) ==> Select(q, p) == q
  {
    if q != [] {
      SelectBound(q[1..], p);
    }
  }

  /** Every important frame that arrived was read or is still queued, in order. */
  predicate Lossless(r: Run) {
    Important(r.popped) + Important(r.queue.pending) == Important(r.arrived)
  }

  /** No more important frames are outstanding than the queue can hold. */
  predicate WithinCap(r: Run, cap: nat) {
    |Important(r.arrived)| - |Important(r.popped)| <= cap
  }

  lemma LosslessPop(r: Run, cap: nat)
    requires cap > 0 && Lossless(r)
    ensures Lossless(Do(r, cap, Pop))
  {
    hide IsNormal;
    var q := r.queue.pending;
    if q != [] {
      assert q == [q[0]] + q[1..];
      SelectConcat([q[0]], q[1..], IsImportant);
      SelectConcat(r.popped, [q[0]], IsImportant);
    }
  }

  /** A full queue without a NORMAL frame already holds as many important frames as fit, so only a
      NORMAL frame can arrive within the cap. */
  lemma LosslessPush(r: Run, cap: nat, f: Json)
    requires cap > 0 && |r.queue.pending| <= cap && Lossless(r) && WithinCap(Do(r, cap, Push(f)), cap)
    ensures Important(Admit(r.queue, cap, f).pending) == Important(r.queue.pending) + Important([f])
  {
    hide IsNormal;
    var q := r.queue.pending;
    var k := FirstNormal(q);
    SelectOne(f, IsImportant);
    if |q| < cap {
      SelectConcat(q, [f], IsImportant);
    } else if k < |q| {
      SelectWithout(q, k, IsImportant);
      SelectConcat(Without(q, k), [f], IsImportant);
    } else {
      SelectConcat(r.arrived, [f], IsImportant);
      SelectBound(q, IsImportant);
    }
  }

  lemma LosslessStep(r: Run, cap: nat, op: Op)
    requires cap > 0 && |r.queue.pending| <= cap && Lossless(r) && WithinCap(Do(r, cap, op), cap)
    ensures Lossless(Do(r, cap, op))
  {
    hide IsNormal;
    match op
    case Pop => LosslessPop(r, cap);
    case Push(f) =>
      LosslessPush(r, cap, f);
      SelectConcat(r.arrived, [f], IsImportant);
  }

  /** The queue is lossless on important frames throughout a run exactly when the outstanding ones
      never exceed the cap. */
  lemma {:induction false} LosslessExactly(cap: nat, ops: seq<Op>)
    requires cap > 0
    ensures (forall n :: 0 <= n <= |ops| ==> WithinCap(DoAll(cap, ops[..n]), cap))
        <==> (forall n :: 0 <= n <= |ops| ==> Lossless(DoAll(cap, ops[..n])))
  {
    if forall n :: 0 <= n <= |ops| ==> Lossless(DoAll(cap, ops[..n])) {
      forall n | 0 <= n <= |ops|
        ensures WithinCap(DoAll(cap, ops[..n]), cap)
      {
        var r := DoAll(cap, ops[..n]);
        QueueConserves(cap, ops[..n]);
        SelectBound(r.queue.pending, IsImportant);
        assert Lossless(r);
      }
    }
    if forall n :: 0 <= n <= |ops| ==> WithinCap(DoAll(cap, ops[..n]), cap) {
      forall n | 0 <= n <= |ops|
        ensures Lossless(DoAll(cap, ops[..n]))
      {
        LosslessWhile(cap, ops, n);
      }
    }
  }

  lemma {:induction false} LosslessWhile(cap: nat, ops: seq<Op>, n: nat)
    requires cap > 0 && n <= |ops|
    requires forall m :: 0 <= m <= |ops| ==> WithinCap(DoAll(cap, ops[..m]), cap)
    ensures Lossless(DoAll(cap, ops[..n]))
  {
    if n > 0 {
      LosslessWhile(cap, ops, n - 1);
      QueueConserves(cap, ops[..n - 1]);
      assert ops[..n][..n - 1] == ops[..n - 1];
      assert WithinCap(DoAll(cap, ops[..n]), cap);
      LosslessStep(DoAll(cap, ops[..n - 1]), cap, ops[n - 1]);
    }
  }

  // ---------------------------------------------------------------- CRITICAL frames

  /** Every CRITICAL frame that arrived was read or is still queued, in order. */
  predicate CriticalsKept(r: Run) {
    Criticals(r.popped) + Criticals(r.queue.pending) == Criticals(r.arrived)
  }

  /** The push of this frame drops a CRITICAL one: the queue is full, holds no NORMAL frame, the
      frame is not NORMAL either, and the oldest frame is CRITICAL. */
  predicate ForcesOut(q: Queue, cap: nat, frame: Json)
    requires cap > 0
  {
    |q.pending| >= cap && FirstNormal(q.pending) == |q.pending| && !IsNormal(frame) && IsCritical(q.pending[0])
  }

  lemma PriorityOrder(f: Json)
    ensures IsNormal(f) ==> !IsCritical(f)
  {
  }

  /** A push loses exactly one CRITICAL frame, the oldest one, when it forces it out, and none
      otherwise; it always adds the pushed frame if that is CRITICAL. */
  lemma CriticalPush(q: Queue, cap: nat, f: Json)
    requires cap > 0
    ensures var before, after := Criticals(q.pending), Criticals(Admit(q, cap, f).pending);
            if ForcesOut(q, cap, f) then
              before != [] && before[0] == q.pending[0] && after == before[1..] + Criticals([f])
            else after == before + Criticals([f])
  {
    hide IsNormal, IsCritical;
    var k := FirstNormal(q.pending);
    SelectOne(f, IsCritical);
    PriorityOrder(f);
    SelectConcat(q.pending, [f], IsCritical);
    if |q.pending| < cap {
    } else if k < |q.pending| {
      PriorityOrder(q.pending[k]);
      SelectWithout(q.pending, k, IsCritical);
      SelectConcat(Without(q.pending, k), [f], IsCritical);
    } else if !IsNormal(f) {
      SelectConcat(q.pending[1..], [f], IsCritical);
    }
  }

  /** How many pushes of a run forced out a CRITICAL frame. */
  function Forced(cap: nat, ops: seq<Op>): nat
    requires cap > 0
  {
    if ops == [] then 0
    else
      var pre, op := ops[..|ops| - 1], ops[|ops| - 1];
      Forced(cap, pre) + if op.Push? && ForcesOut(DoAll(cap, pre).queue, cap, op.frame) then 1 else 0
  }

  /** CRITICAL frames are conserved up to the forced ones. */
  lemma {:induction false} CriticalsConserved(cap: nat, ops: seq<Op>)
    requires cap > 0
    ensures var r := DoAll(cap, ops);
            && |Criticals(r.arrived)| == |Criticals(r.popped)| + |Criticals(r.queue.pending)| + Forced(cap, ops)
            && (Forced(cap, ops) == 0 ==> CriticalsKept(r))
  {
    hide Criticals, ForcesOut, Admit;
    if ops == [] {
      NoCriticals();
    } else {
      var r := DoAll(cap, ops[..|ops| - 1]);
      CriticalsConserved(cap, ops[..|ops| - 1]);
      match ops[|ops| - 1]
      case Push(f) =>
        CriticalPush(r.queue, cap, f);
        CriticalsConcat(r.arrived, [f]);
      case Pop =>
        CriticalPop(r.popped, r.queue.pending);
    }
  }

  lemma NoCriticals()
    ensures Criticals([]) == []
  {
  }

  lemma CriticalsConcat(a: seq<Json>, b: seq<Json>)
    ensures Criticals(a + b) == Criticals(a) + Criticals(b)
  {
    SelectConcat(a, b, IsCritical);
  }

  lemma CriticalPop(popped: seq<Json>, q: seq<Json>)
    ensures q != [] ==> Criticals(popped + [q[0]]) + Criticals(q[1..]) == Criticals(popped) + Criticals(q)
  {
    hide Criticals;
    if q != [] {
      assert q == [q[0]] + q[1..];
      CriticalsConcat([q[0]], q[1..]);
      CriticalsConcat(popped, [q[0]]);
    }
  }

  /** No push of the run meets the guard. */
  predicate NoneForced(cap: nat, ops: seq<Op>)
    requires cap > 0
  {
    forall n :: 0 <= n < |ops| && ops[n].Push? ==> !ForcesOut(DoAll(cap, ops[..n]).queue, cap, ops[n].frame)
  }

  lemma {:induction false} ForcedMeans(cap: nat, ops: seq<Op>)
    requires cap > 0
    ensures Forced(cap, ops) == 0 <==> NoneForced(cap, ops)
  {
    hide ForcesOut, DoAll;
    if ops != [] {
      var m := |ops| - 1;
      ForcedMeans(cap, ops[..m]);
      assert forall n :: 0 <= n <= m ==> ops[..m][..n] == ops[..n];
      assert forall n :: 0 <= n < m ==> ops[..m][n] == ops[n];
      assert ops[..m] == ops[..|ops| - 1];
    }
  }

  /** A run keeps every CRITICAL frame exactly when none of its pushes meets the guard. */
  lemma CriticalsKeptExactly(cap: nat, ops: seq<Op>)
    requires cap > 0
    ensures CriticalsKept(DoAll(cap, ops)) <==> NoneForced(cap, ops)
  {
    hide ForcesOut, DoAll;
    CriticalsConserved(cap, ops);
    ForcedMeans(cap, ops);
  }

  /** So more CRITICAL frames than the cap, and nothing read, always lose one. */
  lemma CriticalOverflow(cap: nat, ops: seq<Op>)
    requires cap > 0 && |ops| > cap && forall i :: 0 <= i < |ops| ==> ops[i].Push? && IsCritical(ops[i].frame)
    ensures !CriticalsKept(DoAll(cap, ops)) && !NoneForced(cap, ops)
  {
    hide IsCritical;
    OnlyPushes(cap, ops);
    QueueConserves(cap, ops);
    CriticalsKeptExactly(cap, ops);
    var r := DoAll(cap, ops);
    SelectBound(r.arrived, IsCritical);
    SelectBound(r.queue.pending, IsCritical);
  }

  lemma {:induction false} OnlyPushes(cap: nat, ops: seq<Op>)
    requires cap > 0 && forall i :: 0 <= i < |ops| ==> ops[i].Push? && IsCritical(ops[i].frame)
    ensures var r := DoAll(cap, ops);
            r.popped == [] && |r.arrived| == |ops| && forall i :: 0 <= i < |ops| ==> IsCritical(r.arrived[i])
  {
    hide IsCritical, Admit;
    if ops != [] {
      OnlyPushes(cap, ops[..|ops| - 1]);
    }
  }

  /** A `complete` frame, for example, is CRITICAL: a queue of any cap can lose one. */
  lemma CompleteFrameLost(cap: nat)
    requires cap > 0
    ensures var complete := Obj(map["type" := Str("complete")]);
            IsCritical(complete) && !CriticalsKept(DoAll(cap, seq(cap + 1, i => Push(complete))))
  {
    var complete := Obj(map["type" := Str("complete")]);
    assert StrField(complete, "type") == "complete";
    CriticalOverflow(cap, seq(cap + 1, i => Push(complete)));
  }

  // ---------------------------------------------------------------- the client

  predicate Stale(frame: Json) {
    StalePendingFrameLabel(frame) != ""
  }

  function Fresh(q: seq<Json>): seq<Json> {
    if q == [] then []
    else if Stale(q[|q| - 1]) then Fresh(q[..|q| - 1])
    else Fresh(q[..|q| - 1]) + [q[|q| - 1]]
  }

  /** The labels of the stale frames, in order. */
  function Labels(q: seq<Json>): seq<string> {
    if q == [] then []
    else
      var last := q[|q| - 1];
      Labels(q[..|q| - 1]) + (if Stale(last) then [StalePendingFrameLabel(last)] else [])
  }

  lemma {:induction false} FreshHasNoStale(q: seq<Json>)
    ensures forall f :: f in Fresh(q) <==> f in q && !Stale(f)
  {
    hide Stale;
    if q != [] {
      FreshHasNoStale(q[..|q| - 1]);
      assert q == q[..|q| - 1] + [q[|q| - 1]];
    }
  }

  /** The live frame that ends the drain: the first of the first eight that is not stale. */
  function FirstFresh(live: seq<Json>, k: nat): (j: nat)
    requires k <= |live| && k <= 8
    ensures k <= j <= |live| && j <= 8 && (j < |live| && j < 8 ==> !Stale(live[j]))
    ensures forall i :: k <= i < j ==> Stale(live[i])
    decreases |live| - k
  {
    if k < |live| && k < 8 && Stale(live[k]) then FirstFresh(live, k + 1) else k
  }

  class Client {
    var pendingEvents: seq<Json>
    var inboundMaxSize: int
    var inboundDropped: nat
    var degraded: nat  // calls of the stream-degraded hook

    constructor ()
      ensures View() == Queue([], 0) && Cap() == 20_000 && degraded == 0
    {
      pendingEvents, inboundMaxSize, inboundDropped, degraded := [], DEFAULT_INBOUND_MAX_SIZE, 0, 0;
    }

    function View(): Queue
      reads this
    {
      Queue(pendingEvents, inboundDropped)
    }

    function Cap(): (n: nat)
      reads this
      ensures n > 0
    {
      if inboundMaxSize <= 0 then DEFAULT_INBOUND_MAX_SIZE else inboundMaxSize
    }

    method SetInboundMaxSize(n: int)
      modifies this
      ensures View() == old(View()) && Cap() == if n > 0 then n else old(Cap())
    {
      if n > 0 {
        inboundMaxSize := n;
      }
    }

    /** The scan finds the first frame of the highest drop priority. */
    method Victim() returns (dropIdx: int, dropPri: int)
      ensures pendingEvents == [] ==> dropPri == -1
      ensures pendingEvents != [] ==>
                && 0 <= dropIdx < |pendingEvents| && dropPri == InboundFrameDropPriority(pendingEvents[dropIdx])
                && (forall i :: 0 <= i < |pendingEvents| ==> InboundFrameDropPriority(pendingEvents[i]) <= dropPri)
                && (forall i :: 0 <= i < dropIdx ==> InboundFrameDropPriority(pendingEvents[i]) < dropPri)
    {
      hide InboundFrameDropPriority;
      dropIdx, dropPri := -1, -1;
      for i := 0 to |pendingEvents|
        invariant i == 0 ==> dropIdx == -1 && dropPri == -1
        invariant i > 0 ==> 0 <= dropIdx < i && dropPri == InboundFrameDropPriority(pendingEvents[dropIdx])
        invariant forall k :: 0 <= k < i ==> InboundFrameDropPriority(pendingEvents[k]) <= dropPri
        invariant forall k :: 0 <= k < dropIdx ==> InboundFrameDropPriority(pendingEvents[k]) < dropPri
      {
        PriorityRange(pendingEvents[i]);
        var p := InboundFrameDropPriority(pendingEvents[i]);
        if p > dropPri {
          dropPri := p;
          dropIdx := i;
        }
      }
    }

    /** Enqueueing admits the frame and counts at most one drop; the hook fires on the first. */
    method EnqueuePending(ev: Json)
      modifies this
      ensures View() == Admit(old(View()), old(Cap()), ev) && Cap() == old(Cap())
      ensures degraded == old(degraded) + (if inboundDropped == 1 && old(inboundDropped) == 0 then 1 else 0)
    {
      hide InboundFrameDropPriority;
      if |pendingEvents| < Cap() {
        pendingEvents := pendingEvents + [ev];
        return;
      }
      var dropIdx, dropPri := Victim();
      var incomingPri := InboundFrameDropPriority(ev);
      if dropIdx >= 0 && dropPri >= NORMAL {
        PriorityRange(pendingEvents[dropIdx]);
        assert dropIdx == FirstNormal(pendingEvents);
        pendingEvents := pendingEvents[..dropIdx] + pendingEvents[dropIdx + 1..];
        pendingEvents := pendingEvents + [ev];
        NoteInboundDrop();
        return;
      }
      assert FirstNormal(pendingEvents) == |pendingEvents|;
      if incomingPri >= NORMAL {
        NoteInboundDrop();
        return;
      }
      if |pendingEvents| > 0 {
        pendingEvents := pendingEvents[1..];
        NoteInboundDrop();
      }
      pendingEvents := pendingEvents + [ev];
    }

    method NoteInboundDrop()
      modifies `inboundDropped, `degraded
      ensures inboundDropped == old(inboundDropped) + 1
      ensures degraded == old(degraded) + (if inboundDropped == 1 then 1 else 0)
    {
      inboundDropped := inboundDropped + 1;
      if inboundDropped == 1 {
        degraded := degraded + 1;
      }
    }

    /** Read the head of the queue, if there is one. */
    method PopPending() returns (ok: bool, ev: Json)
      modifies this
      ensures ok == (old(pendingEvents) != []) && Cap() == old(Cap()) && inboundDropped == old(inboundDropped)
      ensures ok ==> [ev] + pendingEvents == old(pendingEvents)
      ensures !ok ==> pendingEvents == []
    {
      if |pendingEvents| > 0 {
        ev := pendingEvents[0];
        pendingEvents := pendingEvents[1..];
        return true, ev;
      }
      return false, Null;
    }

    /** The stale frames are taken out of the queue. */
    method DropStale() returns (peeled: seq<string>)
      modifies this
      ensures pendingEvents == Fresh(old(pendingEvents))
      ensures Cap() == old(Cap()) && inboundDropped == old(inboundDropped)
      ensures peeled == Labels(old(pendingEvents))
    {
      hide Stale, StalePendingFrameLabel;
      peeled := [];
      var kept: seq<Json> := [];
      for i := 0 to |pendingEvents|
        invariant pendingEvents == old(pendingEvents) && kept == Fresh(pendingEvents[..i])
        invariant Cap() == old(Cap()) && inboundDropped == old(inboundDropped)
        invariant peeled == Labels(pendingEvents[..i])
      {
        var ev := pendingEvents[i];
        assert pendingEvents[..i + 1][..i] == pendingEvents[..i];
        StaleMeans(ev);
        var stale := StalePendingFrameLabel(ev);
        if stale != "" {
          peeled := peeled + [stale];
          continue;
        }
        kept := kept + [ev];
      }
      assert pendingEvents[..|pendingEvents|] == pendingEvents;
      pendingEvents := kept;
    }

    /** Up to eight live frames are read, until one is not stale. */
    method DrainLive(live: seq<Json>) returns (peeled: seq<string>, taken: nat)
      requires pendingEvents == []
      modifies this
      ensures var j := FirstFresh(live, 0);
              if j < |live| && j < 8 then pendingEvents == [live[j]] && taken == j + 1 && !Stale(live[j])
              else pendingEvents == [] && taken == j
      ensures inboundDropped == old(inboundDropped) && taken <= |live| && peeled == Labels(live[..taken])
    {
      hide Stale, IsNormal, StalePendingFrameLabel;
      peeled, taken := [], 0;
      while taken < 8 && taken < |live|
        invariant taken <= 8 && taken <= |live| && pendingEvents == [] && inboundDropped == old(inboundDropped)
        invariant FirstFresh(live, 0) == FirstFresh(live, taken) && peeled == Labels(live[..taken])
      {
        var ev := live[taken];
        assert live[..taken + 1][..taken] == live[..taken];
        StaleMeans(ev);
        var stale := StalePendingFrameLabel(ev);
        taken := taken + 1;
        if stale != "" {
          peeled := peeled + [stale];
          continue;
        }
        EnqueuePending(ev);
        return;
      }
    }

    /** Peeling at turn start. `live` are the frames the socket delivers without a pause; `taken` of
        them are read. No stale frame is left. When the kept frames fit the cap, they are exactly
        the fresh pending ones (the head rotated to the back), or at most one fresh live frame when
        none was pending; when they do not fit, which needs a lowered cap, one is lost: the head is
        admitted anew, which names the victim. */
    method PeelStalePendingControlEvents(live: seq<Json>) returns (peeled: seq<string>, taken: nat)
      modifies this
      ensures taken <= |live| && peeled == Labels(old(pendingEvents)) + Labels(live[..taken])
      ensures forall f :: f in pendingEvents ==> !Stale(f)
      ensures var kept := Fresh(old(pendingEvents));
              if kept == [] then
                && inboundDropped == old(inboundDropped)
                && var j := FirstFresh(live, 0);
                   if j < |live| && j < 8 then pendingEvents == [live[j]] && taken == j + 1
                   else pendingEvents == [] && taken == j
              else
                && taken == 0
                && View() == Admit(Queue(kept[1..], old(inboundDropped)), old(Cap()), kept[0])
                && if |kept| <= old(Cap()) then
                     && pendingEvents == kept[1..] + [kept[0]] && inboundDropped == old(inboundDropped)
                     && multiset(pendingEvents) == multiset(kept)
                   else |pendingEvents| == |kept| - 1 && inboundDropped == old(inboundDropped) + 1
    {
      hide Stale, IsNormal, FirstFresh, Fresh, FirstNormal, StalePendingFrameLabel;
      FreshHasNoStale(pendingEvents);
      peeled := DropStale();
      ghost var kept := pendingEvents;
      if |pendingEvents| > 0 {
        var _, ev := PopPending();
        assert ev == kept[0] && pendingEvents == kept[1..];
        AdmitMembers(View(), Cap(), ev);
        RotationKeepsFrames(kept);
        EnqueuePending(ev);
        assert live[..0] == [];
        return peeled, 0;
      }
      var more, n := DrainLive(live);
      return peeled + more, n;
    }
  }

  lemma StaleMeans(f: Json)
    ensures Stale(f) <==> StalePendingFrameLabel(f) != ""
  {
  }

  lemma AdmitMembers(q: Queue, cap: nat, f: Json)
    requires cap > 0
    ensures forall g :: g in Admit(q, cap, f).pending ==> g == f || g in q.pending
    ensures |q.pending| >= cap ==>
              |Admit(q, cap, f).pending| == |q.pending| && Admit(q, cap, f).dropped == q.dropped + 1
    ensures |q.pending| < cap ==> Admit(q, cap, f) == q.(pending := q.pending + [f])
  {
    hide IsNormal;
  }

  /** Peeling a queue that fits keeps the multiset of its fresh frames. */
  lemma RotationKeepsFrames(kept: seq<Json>)
    requires kept != []
    ensures multiset(kept[1..] + [kept[0]]) == multiset(kept)
  {
    assert kept == [kept[0]] + kept[1..];
  }
}
