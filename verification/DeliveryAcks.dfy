/** Delivery acknowledgements: per-loop sequence numbers claimed by goroutines that run in any
    order (client.go, stream_terminal.go). */
module DeliveryAcks {
  import opened Wire

  /** A pending acknowledgement of the `seq`-th frame received for a loop. */
  datatype Task = Task(loop: string, number: nat)

  datatype Acks = Acks(recv: map<string, nat>, acked: map<string, nat>, tasks: multiset<Task>, claimed: seq<Task>)

  function At(m: map<string, nat>, loop: string): nat {
    if loop in m then m[loop] else 0
  }

  /** One frame of `loop` is received: its number is taken and, unless that is already
      acknowledged, a goroutine is started for it. */
  function Receive(s: Acks, loop: string): Acks {
    var n := At(s.recv, loop) + 1;
    var recv := s.recv[loop := n];
    if n <= At(s.acked, loop) then s.(recv := recv)
    else s.(recv := recv, tasks := s.tasks + multiset{Task(loop, n)})
  }

  /** A goroutine runs: it claims its number unless a later one was claimed before. */
  function Claim(s: Acks, t: Task): Acks {
    var rest := s.tasks - multiset{t};
    if t.number <= At(s.acked, t.loop) then s.(tasks := rest)
    else s.(tasks := rest, acked := s.acked[t.loop := t.number], claimed := s.claimed + [t])
  }

  // ---------------------------------------------------------------- leaves of a frame

  /** The loops of the frames to acknowledge, in the order the tracker meets them; batches nest. */
  function AckLoops(event: Json): seq<string> {
    if StrField(event, "type") == "event_batch" then
      var events := Get(event, "events");
      if events.Arr? then AckLoopsAll(events.items) else []
    else if !InboundNeedsDeliveryAck(event) || ExtractLoopIDFromInbound(event) == "" then []
    else [ExtractLoopIDFromInbound(event)]
  }

  function AckLoopsAll(events: seq<Json>): seq<string> {
    if events == [] then [] else AckLoops(events[0]) + AckLoopsAll(events[1..])
  }

  /** The number of leaf frames of `loop` that need an acknowledgement. */
  function AckLeaves(event: Json, loop: string): nat {
    if StrField(event, "type") == "event_batch" then
      var events := Get(event, "events");
      if events.Arr? then AckLeavesAll(events.items, loop) else 0
    else if InboundNeedsDeliveryAck(event) && ExtractLoopIDFromInbound(event) == loop then 1
    else 0
  }

  function AckLeavesAll(events: seq<Json>, loop: string): nat {
    if events == [] then 0 else AckLeaves(events[0], loop) + AckLeavesAll(events[1..], loop)
  }

  lemma {:induction false} TrackedLeaves(event: Json, loop: string)
    requires loop != ""
    ensures multiset(AckLoops(event))[loop] == AckLeaves(event, loop)
    decreases event
  {
    hide InboundNeedsDeliveryAck, ExtractLoopIDFromInbound, AckLoopsAll, AckLeavesAll;
    if StrField(event, "type") != "event_batch" {
      var id := ExtractLoopIDFromInbound(event);
      assert multiset([id])[loop] == if id == loop then 1 else 0;
    } else if Get(event, "events").Arr? {
      TrackedLeavesAll(Get(event, "events").items, loop);
    }
  }

  lemma {:induction false} TrackedLeavesAll(events: seq<Json>, loop: string)
    requires loop != ""
    ensures multiset(AckLoopsAll(events))[loop] == AckLeavesAll(events, loop)
    decreases events
  {
    hide AckLoops, AckLeaves;
    if events != [] {
      TrackedLeaves(events[0], loop);
      TrackedLeavesAll(events[1..], loop);
    }
  }

  /** A frame that is no batch is acknowledged once, for its loop, exactly when it has one and is a
      completion or an end by name. */
  lemma AckLoopsByName(event: Json)
    requires StrField(event, "type") != "event_batch"
    ensures var payload := Get(event, "payload");
            var own, outer := StrField(event, "loop_id"), StrField(payload, "loop_id");
            var wrapped := StrField(event, "type") == "next";
            var ids := if wrapped then [own, outer, StrField(Get(payload, "data"), "loop_id")] else [own];
            AckLoops(event) ==
            if FirstNonBlank(ids) == "" then []
            else if StrField(event, "type") == "complete" then [FirstNonBlank(ids)]
            else if StrField(event, "type") == "event" && NamesEnd(event) then [FirstNonBlank(ids)]
            else if wrapped && StrField(payload, "mode") == "event" && Get(payload, "data").Obj?
                    && NamesEnd(Get(payload, "data")) then [FirstNonBlank(ids)]
            else []
  {
    hide FirstNonBlank, NamesEnd, InboundNeedsDeliveryAck, ExtractLoopIDFromInbound;
    AckByName(event);
    LoopByName(event);
  }

  // ---------------------------------------------------------------- all interleavings

  /** Trackers that have begun on some frames, with the leaves they still have to receive. */
  datatype World = World(acks: Acks, remaining: multiset<string>, frames: seq<Json>)

  /** A tracker begins on a frame, some tracker receives its next leaf, a goroutine runs. */
  datatype Step = Begin(frame: Json) | Leaf(loop: string) | Ack(task: Task)

  /** A step that is not enabled changes nothing. */
  function Next(w: World, step: Step): World {
    match step
    case Begin(frame) => w.(remaining := w.remaining + multiset(AckLoops(frame)), frames := w.frames + [frame])
    case Leaf(loop) =>
      if loop in w.remaining then w.(acks := Receive(w.acks, loop), remaining := w.remaining - multiset{loop}) else w
    case Ack(task) => if task in w.acks.tasks then w.(acks := Claim(w.acks, task)) else w
  }

  function Run(steps: seq<Step>): World {
    if steps == [] then World(Acks(map[], map[], multiset{}, []), multiset{}, [])
    else Next(Run(steps[..|steps| - 1]), steps[|steps| - 1])
  }

  function TotalLeaves(frames: seq<Json>, loop: string): nat {
    if frames == [] then 0
    else TotalLeaves(frames[..|frames| - 1], loop) + AckLeaves(frames[|frames| - 1], loop)
  }

  /** What every interleaving keeps: nothing is acknowledged that was not received, the newest
      number of a loop is acknowledged or on its way, and the numbers claimed for a loop increase. */
  ghost predicate Sound(s: Acks) {
    Tracked(s) && Increasing(s.claimed, s.acked)
  }

  ghost predicate Tracked(s: Acks) {
    && (forall l :: At(s.acked, l) <= At(s.recv, l))
    && (forall l :: At(s.acked, l) < At(s.recv, l) ==> Task(l, At(s.recv, l)) in s.tasks)
    && (forall t :: t in s.tasks ==> 0 < t.number <= At(s.recv, t.loop))
  }

  /** The numbers claimed for a loop increase, up to the acknowledged one. */
  predicate Increasing(claimed: seq<Task>, acked: map<string, nat>) {
    && (forall i :: 0 <= i < |claimed| ==> claimed[i].number <= At(acked, claimed[i].loop))
    && (forall i, j :: 0 <= i < j < |claimed| && claimed[i].loop == claimed[j].loop ==>
          claimed[i].number < claimed[j].number)
  }

  /** Every begun leaf is received or still to be received. */
  ghost predicate Counted(w: World) {
    forall l :: l != "" ==> At(w.acks.recv, l) + w.remaining[l] == TotalLeaves(w.frames, l)
  }

  lemma ReceiveSound(s: Acks, loop: string)
    requires Sound(s)
    ensures Sound(Receive(s, loop))
    ensures Task(loop, At(s.recv, loop) + 1) in Receive(s, loop).tasks
  {
    var s' := Receive(s, loop);
    assert forall l :: At(s'.recv, l) == if l == loop then At(s.recv, l) + 1 else At(s.recv, l);
  }

  lemma ClaimSound(s: Acks, t: Task)
    requires Sound(s) && t in s.tasks
    ensures Sound(Claim(s, t))
  {
    hide Increasing, Tracked;
    ClaimTracked(s, t);
    if t.number > At(s.acked, t.loop) {
      ClaimIncreasing(s.claimed, s.acked, t);
    }
  }

  lemma AtUpdate(m: map<string, nat>, loop: string, n: nat)
    ensures forall l :: At(m[loop := n], l) == if l == loop then n else At(m, l)
  {
    forall l
      ensures At(m[loop := n], l) == if l == loop then n else At(m, l)
    {
      assert l in m[loop := n] <==> l == loop || l in m;
    }
  }

  lemma ClaimTracked(s: Acks, t: Task)
    requires Tracked(s) && t in s.tasks
    ensures Tracked(Claim(s, t))
  {
    hide At;
    AtUpdate(s.acked, t.loop, t.number);
    var rest := s.tasks - multiset{t};
    assert forall u :: u in s.tasks && u != t ==> u in rest;
    assert forall u :: u in rest ==> u in s.tasks;
  }

  lemma ClaimIncreasing(claimed: seq<Task>, acked: map<string, nat>, t: Task)
    requires Increasing(claimed, acked) && t.number > At(acked, t.loop)
    ensures Increasing(claimed + [t], acked[t.loop := t.number])
  {
  }

  lemma NextCounted(w: World, step: Step)
    requires Counted(w)
    ensures Counted(Next(w, step))
  {
    hide AckLoops, AckLeaves, At;
    var w' := Next(w, step);
    if step.Leaf? {
      AtUpdate(w.acks.recv, step.loop, At(w.acks.recv, step.loop) + 1);
    }
    forall l | l != ""
      ensures At(w'.acks.recv, l) + w'.remaining[l] == TotalLeaves(w'.frames, l)
    {
      if step.Begin? {
        TrackedLeaves(step.frame, l);
        assert w'.frames[..|w.frames|] == w.frames;
      }
    }
  }

  lemma EmptySound()
    ensures Sound(Run([]).acks) && Counted(Run([]))
  {
  }

  lemma {:induction false} AcksSound(steps: seq<Step>)
    ensures Sound(Run(steps).acks) && Counted(Run(steps))
  {
    hide Sound, Counted, AckLoops;
    if steps == [] {
      EmptySound();
    } else {
      var w := Run(steps[..|steps| - 1]);
      AcksSound(steps[..|steps| - 1]);
      NextCounted(w, steps[|steps| - 1]);
      match steps[|steps| - 1]
      case Begin(_) =>
      case Leaf(loop) => if loop in w.remaining { ReceiveSound(w.acks, loop); }
      case Ack(task) => if task in w.acks.tasks { ClaimSound(w.acks, task); }
    }
  }

  /** Once no acknowledgement is pending, every received number is acknowledged; once no tracker is
      at work, the received number of a loop is the number of its leaf frames that need one. */
  lemma QuiescentMeansAcknowledged(steps: seq<Step>, loop: string)
    requires loop != ""
    ensures var w := Run(steps);
            && (w.acks.tasks == multiset{} ==> At(w.acks.acked, loop) == At(w.acks.recv, loop))
            && (w.remaining == multiset{} ==> At(w.acks.recv, loop) == TotalLeaves(w.frames, loop))
  {
    AcksSound(steps);
  }

  /** The acknowledged number of a loop was claimed for it: it is the last one claimed. */
  predicate AckedClaimed(s: Acks) {
    forall l :: l in s.acked ==> Task(l, s.acked[l]) in s.claimed
  }

  lemma ClaimedStep(w: World, step: Step)
    requires AckedClaimed(w.acks)
    ensures AckedClaimed(Next(w, step).acks)
  {
    hide AckLoops;
  }

  lemma {:induction false} AckedWasClaimed(steps: seq<Step>)
    ensures AckedClaimed(Run(steps).acks)
  {
    hide Next;
    if steps != [] {
      AckedWasClaimed(steps[..|steps| - 1]);
      ClaimedStep(Run(steps[..|steps| - 1]), steps[|steps| - 1]);
    }
  }

  // ---------------------------------------------------------------- the client

  function ReceiveAll(s: Acks, loops: seq<string>): Acks
    decreases loops
  {
    if loops == [] then s else ReceiveAll(Receive(s, loops[0]), loops[1..])
  }

  lemma {:induction false} ReceiveConcat(s: Acks, a: seq<string>, b: seq<string>)
    ensures ReceiveAll(s, a + b) == ReceiveAll(ReceiveAll(s, a), b)
    decreases a
  {
    if a == [] {
      assert a + b == b;
    } else {
      assert (a + b)[1..] == a[1..] + b;
      ReceiveConcat(Receive(s, a[0]), a[1..], b);
    }
  }

  class Client {
    var deliveryRecvSeq: map<string, nat>
    var deliveryAckedSeq: map<string, nat>
    var spawned: multiset<Task>  // goroutines started and not yet run
    var claimed: seq<Task>       // numbers claimed; each is notified outside the lock, in any order

    function View(): Acks
      reads this
    {
      Acks(deliveryRecvSeq, deliveryAckedSeq, spawned, claimed)
    }

    constructor ()
      ensures View() == Run([]).acks
    {
      deliveryRecvSeq, deliveryAckedSeq, spawned, claimed := map[], map[], multiset{}, [];
    }

    /** Tracking a frame receives its leaves, one by one. */
    method TrackInboundDeliveryAck(event: Json)
      modifies this
      ensures View() == ReceiveAll(old(View()), AckLoops(event))
      decreases event
    {
      hide InboundNeedsDeliveryAck, ExtractLoopIDFromInbound, Receive;
      if StrField(event, "type") == "event_batch" {
        var events := Get(event, "events");
        if events.Arr? {
          for i := 0 to |events.items|
            invariant ReceiveAll(View(), AckLoopsAll(events.items[i..])) == ReceiveAll(old(View()), AckLoops(event))
          {
            ReceiveConcat(View(), AckLoops(events.items[i]), AckLoopsAll(events.items[i + 1..]));
            assert events.items[i..][1..] == events.items[i + 1..];
            if events.items[i].Obj? {
              TrackInboundDeliveryAck(events.items[i]);
            } else {
              NotAFrame(events.items[i]);
            }
          }
        }
        return;
      }
      if !InboundNeedsDeliveryAck(event) {
        return;
      }
      var loopID := ExtractLoopIDFromInbound(event);
      if loopID == "" {
        return;
      }
      Take(loopID);
      assert [loopID][1..] == [];
    }

    method Take(loopID: string)
      modifies this
      ensures View() == Receive(old(View()), loopID)
    {
      deliveryRecvSeq := deliveryRecvSeq[loopID := At(deliveryRecvSeq, loopID) + 1];
      var number := deliveryRecvSeq[loopID];
      if number <= At(deliveryAckedSeq, loopID) {
        return;
      }
      spawned := spawned + multiset{Task(loopID, number)};
    }

    /** A started goroutine runs. */
    method SendDeliveryAck(task: Task)
      requires task in spawned
      modifies this
      ensures View() == Claim(old(View()), task)
    {
      spawned := spawned - multiset{task};
      if task.number <= At(deliveryAckedSeq, task.loop) {
        return;
      }
      deliveryAckedSeq := deliveryAckedSeq[task.loop := task.number];
      claimed := claimed + [task];
    }
  }

  lemma NotAFrame(event: Json)
    requires !event.Obj?
    ensures AckLoops(event) == []
  {
  }
}
