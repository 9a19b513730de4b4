/** Routing of inbound frames to the waiters of RPCs and subscriptions (multiplexer.go). */
module Muxes {
  import opened Shared
  import opened Wire

  type Thread = nat

  /** A channel of a waiter; waiters are numbered as they are registered. */
  datatype Port = Reply(waiter: nat) | Err(waiter: nat) | Stream(waiter: nat)

  function Capacity(p: Port): nat {
    if p.Stream? then 16 else 1
  }

  /** A buffered channel: what it holds, and what its waiter has received from it. */
  datatype Box = Box(buffer: seq<Json>, taken: seq<Json>) {
    function Got(): seq<Json> { taken + buffer }
  }

  /** A frame that a thread has under way between the lookup of its waiter and its delivery. Once
      `checked`, its waiter was seen not to be gone. */
  datatype Flight = Flight(frame: Json, port: Port, checked: bool)

  datatype Mux = Mux(
    calls: seq<string>, streams: seq<string>,            // the ids waiters were registered with
    rpcs: map<string, nat>, subs: map<string, nat>,      // the current waiters
    done: set<nat>,                                      // streams that were unregistered
    boxes: map<Port, Box>, flying: map<Thread, Flight>)

  datatype Step =
    | RegisterRPC(id: string)
    | UnregisterRPC(waiter: nat)
    | RegisterSubscription(id: string)
    | UnregisterSubscription(waiter: nat)
    | Lookup(thread: Thread, frame: Json)
    | Check(thread: Thread)
    | Deliver(thread: Thread)
    | Receive(port: Port)

  function BoxAt(m: Mux, p: Port): Box {
    if p in m.boxes then m.boxes[p] else Box([], [])
  }

  function IdOf(frame: Json): string {
    StrField(frame, "id")
  }

  /** The channel a frame goes to; none when no waiter is registered for its id. */
  function PortOf(m: Mux, frame: Json): Option<Port> {
    var typ, id := StrField(frame, "type"), IdOf(frame);
    if id == "" then None
    else if typ == "response" && id in m.rpcs then Some(Reply(m.rpcs[id]))
    else if typ == "error" && id in m.rpcs then Some(Err(m.rpcs[id]))
    else if (typ == "next" || typ == "complete") && id in m.subs then Some(Stream(m.subs[id]))
    else None
  }

  /** The stream was unregistered. */
  predicate Gone(m: Mux, p: Port) {
    p.Stream? && p.waiter in m.done
  }

  predicate Full(m: Mux, p: Port) {
    |BoxAt(m, p).buffer| >= Capacity(p)
  }

  /** A full channel loses the frame. */
  function Put(m: Mux, f: Flight): Mux {
    var box := BoxAt(m, f.port);
    if Full(m, f.port) then m else m.(boxes := m.boxes[f.port := box.(buffer := box.buffer + [f.frame])])
  }

  /** A step that is not enabled changes nothing. */
  function Next(m: Mux, step: Step): Mux {
    match step
    case RegisterRPC(id) => m.(calls := m.calls + [id], rpcs := m.rpcs[id := |m.calls|])
    case UnregisterRPC(w) =>
      if w < |m.calls| && m.calls[w] in m.rpcs && m.rpcs[m.calls[w]] == w then m.(rpcs := m.rpcs - {m.calls[w]}) else m
    case RegisterSubscription(id) => m.(streams := m.streams + [id], subs := m.subs[id := |m.streams|])
    case UnregisterSubscription(w) =>
      if w >= |m.streams| then m
      else
        var id := m.streams[w];
        m.(subs := if id in m.subs && m.subs[id] == w then m.subs - {id} else m.subs, done := m.done + {w})
    case Lookup(t, frame) =>
      var port := PortOf(m, frame);
      if t in m.flying || port.None? then m else m.(flying := m.flying[t := Flight(frame, port.value, false)])
    case Check(t) =>
      if t !in m.flying then m
      else if Gone(m, m.flying[t].port) then m.(flying := m.flying - {t})
      else m.(flying := m.flying[t := m.flying[t].(checked := true)])
    case Deliver(t) =>
      if t in m.flying && m.flying[t].checked then Put(m, m.flying[t]).(flying := m.flying - {t}) else m
    case Receive(port) =>
      var box := BoxAt(m, port);
      if box.buffer == [] then m
      else m.(boxes := m.boxes[port := Box(box.buffer[1..], box.taken + [box.buffer[0]])])
  }

  function Run(steps: seq<Step>): Mux {
    if steps == [] then Mux([], [], map[], map[], {}, map[], map[])
    else Next(Run(steps[..|steps| - 1]), steps[|steps| - 1])
  }

  // ---------------------------------------------------------------- isolation

  /** The frames that were routed to a channel: looked up while its waiter was the current
      registration of their id. */
  function Offered(steps: seq<Step>, p: Port): seq<Json> {
    if steps == [] then []
    else
      var pre, step := steps[..|steps| - 1], steps[|steps| - 1];
      if Offers(Run(pre), step, p) then Offered(pre, p) + [step.frame] else Offered(pre, p)
  }

  predicate Offers(m: Mux, step: Step, p: Port) {
    step.Lookup? && step.thread !in m.flying && PortOf(m, step.frame) == Some(p)
  }

  /** The step ends the delivery of a frame to a channel: it finds its waiter gone, or sends. */
  predicate Settles(m: Mux, step: Step, p: Port) {
    && (step.Check? || step.Deliver?) && step.thread in m.flying && m.flying[step.thread].port == p
    && if step.Check? then Gone(m, p) else m.flying[step.thread].checked
  }

  /** ... and the frame is lost: its waiter is gone, or its channel is full. */
  predicate Loses(m: Mux, step: Step, p: Port) {
    Settles(m, step, p) && (step.Check? || Full(m, p))
  }

  /** The frames whose delivery to a channel has ended, in that order. */
  function Settled(steps: seq<Step>, p: Port): seq<Json> {
    if steps == [] then []
    else
      var pre, step := steps[..|steps| - 1], steps[|steps| - 1];
      if Settles(Run(pre), step, p) then Settled(pre, p) + [Run(pre).flying[step.thread].frame] else Settled(pre, p)
  }

  /** The id a channel was registered with. */
  function IdAt(m: Mux, p: Port): Option<string> {
    if p.Stream? then (if p.waiter < |m.streams| then Some(m.streams[p.waiter]) else None)
    else if p.waiter < |m.calls| then Some(m.calls[p.waiter])
    else None
  }

  /** Current registrations are waiters with that id. */
  ghost predicate Registered(m: Mux) {
    && (forall id :: id in m.rpcs ==> m.rpcs[id] < |m.calls| && m.calls[m.rpcs[id]] == id)
    && (forall id :: id in m.subs ==> m.subs[id] < |m.streams| && m.streams[m.subs[id]] == id)
  }

  lemma {:induction false} AlwaysRegistered(steps: seq<Step>)
    ensures Registered(Run(steps))
  {
    hide Next;
    if steps != [] {
      var m, step := Run(steps[..|steps| - 1]), steps[|steps| - 1];
      AlwaysRegistered(steps[..|steps| - 1]);
      if step.Lookup? || step.Check? || step.Deliver? || step.Receive? {
        FramesKeepRegistrations(m, step);
      } else {
        RegisteredStep(m, step);
      }
    }
  }

  lemma RegisteredStep(m: Mux, step: Step)
    requires Registered(m) && !step.Lookup? && !step.Check? && !step.Deliver? && !step.Receive?
    ensures Registered(Next(m, step))
  {
  }

  lemma FramesKeepRegistrations(m: Mux, step: Step)
    requires step.Lookup? || step.Check? || step.Deliver? || step.Receive?
    ensures var m' := Next(m, step);
            && m'.calls == m.calls && m'.streams == m.streams && m'.done == m.done
            && m'.rpcs == m.rpcs && m'.subs == m.subs
  {
    hide PortOf;
  }

  lemma IdsKept(m: Mux, step: Step, p: Port)
    ensures IdAt(m, p).Some? ==> IdAt(Next(m, step), p) == IdAt(m, p)
  {
    hide PortOf;
  }

  /** Every frame routed to a channel carries the id its waiter registered. */
  lemma {:induction false} OwnIdOnly(steps: seq<Step>, p: Port)
    ensures forall f :: f in Offered(steps, p) ==> IdAt(Run(steps), p) == Some(IdOf(f)) && IdOf(f) != ""
  {
    hide Next;
    if steps != [] {
      var pre, step := steps[..|steps| - 1], steps[|steps| - 1];
      OwnIdOnly(pre, p);
      AlwaysRegistered(pre);
      IdsKept(Run(pre), step, p);
    }
  }

  // ---------------------------------------------------------------- frames under way

  /** The threads that have this frame under way to a channel. */
  function Carriers(m: Mux, p: Port, f: Json): set<Thread> {
    set t | t in m.flying && m.flying[t].port == p && m.flying[t].frame == f
  }

  /** Only a lookup puts a frame under way, and only a check or a delivery by the same thread ends
      that. */
  lemma FlyingStep(m: Mux, step: Step)
    ensures var flying := Next(m, step).flying;
            if step.Lookup? && step.thread !in m.flying && PortOf(m, step.frame).Some? then
              flying == m.flying[step.thread := Flight(step.frame, PortOf(m, step.frame).value, false)]
            else if (step.Check? || step.Deliver?) && step.thread in m.flying then
              if Settles(m, step, m.flying[step.thread].port) then flying == m.flying - {step.thread}
              else if step.Check? then flying == m.flying[step.thread := m.flying[step.thread].(checked := true)]
              else flying == m.flying
            else flying == m.flying
  {
    hide PortOf;
  }

  lemma CarriersStep(m: Mux, step: Step, p: Port, f: Json)
    ensures var now, after := Carriers(m, p, f), Carriers(Next(m, step), p, f);
            if Offers(m, step, p) && step.frame == f then step.thread !in now && after == now + {step.thread}
            else if Settles(m, step, p) && m.flying[step.thread].frame == f then
              step.thread in now && after == now - {step.thread}
            else after == now
  {
    hide Next, PortOf, Gone;
    FlyingStep(m, step);
  }

  /** Every frame routed to a channel has been settled there or is under way, and as often. */
  lemma {:induction false} RoutedConserved(steps: seq<Step>, p: Port, f: Json)
    ensures multiset(Offered(steps, p))[f] == multiset(Settled(steps, p))[f] + |Carriers(Run(steps), p, f)|
  {
    hide Next, Offers, Settles;
    if steps == [] {
      NoCarriers(p, f);
    } else {
      var pre, step := steps[..|steps| - 1], steps[|steps| - 1];
      RoutedConserved(pre, p, f);
      CarriersStep(Run(pre), step, p, f);
      OffersOrSettles(Run(pre), step, p);
    }
  }

  lemma NoCarriers(p: Port, f: Json)
    ensures Carriers(Run([]), p, f) == {} && Offered([], p) == [] && Settled([], p) == []
  {
  }

  lemma OffersOrSettles(m: Mux, step: Step, p: Port)
    ensures Offers(m, step, p) ==> step.Lookup? && !Settles(m, step, p)
    ensures Settles(m, step, p) ==> (step.Check? || step.Deliver?) && step.thread in m.flying
  {
  }

  /** All frames are routed by one thread. */
  predicate OneRouter(steps: seq<Step>, t: Thread) {
    forall i :: 0 <= i < |steps| && (steps[i].Lookup? || steps[i].Check? || steps[i].Deliver?) ==> steps[i].thread == t
  }

  /** Then the frames of a channel are settled in the order they were routed, and at most the last is
      under way. */
  lemma {:induction false} OneRouterInOrder(steps: seq<Step>, t: Thread, p: Port)
    requires OneRouter(steps, t)
    ensures var m := Run(steps);
            && m.flying.Keys <= {t}
            && Offered(steps, p)
               == Settled(steps, p) + (if t in m.flying && m.flying[t].port == p then [m.flying[t].frame] else [])
  {
    hide Next, PortOf, Gone;
    if steps != [] {
      var pre, step := steps[..|steps| - 1], steps[|steps| - 1];
      OneRouterInOrder(pre, t, p);
      FlyingStep(Run(pre), step);
    }
  }

  // ---------------------------------------------------------------- what waiters get

  /** What a waiter holds or received: in order from what was settled for it, never beyond the
      capacity, and for an RPC starting with the very first. */
  ghost predicate Faithful(box: Box, settled: seq<Json>, p: Port) {
    && |box.buffer| <= Capacity(p)
    && InOrder(box.Got(), settled)
    && (!p.Stream? && settled != [] ==> box.Got() != [] && box.Got()[0] == settled[0])
  }

  lemma PutFaithful(box: Box, settled: seq<Json>, p: Port, f: Json)
    requires Faithful(box, settled, p)
    ensures |box.buffer| < Capacity(p) ==> Faithful(box.(buffer := box.buffer + [f]), settled + [f], p)
    ensures |box.buffer| == Capacity(p) || p.Stream? ==> Faithful(box, settled + [f], p)
  {
    InOrderAppend(box.Got(), settled, f);
    assert box.taken + (box.buffer + [f]) == box.Got() + [f];
  }

  lemma TakeFaithful(box: Box, settled: seq<Json>, p: Port)
    requires Faithful(box, settled, p) && box.buffer != []
    ensures Faithful(Box(box.buffer[1..], box.taken + [box.buffer[0]]), settled, p)
  {
    assert (box.taken + [box.buffer[0]]) + box.buffer[1..] == box.Got();
  }

  /** How one step changes a channel: a frame that is settled and not lost is added to its buffer,
      and its waiter takes frames from the front. */
  lemma BoxStep(m: Mux, step: Step, p: Port)
    ensures var box, box' := BoxAt(m, p), BoxAt(Next(m, step), p);
            if Settles(m, step, p) && !Loses(m, step, p) then 
              box' == box.(buffer := box.buffer + [m.flying[step.thread].frame])
            else if step == Receive(p) && box.buffer != [] then
              box' == Box(box.buffer[1..], box.taken + [box.buffer[0]])
            else box' == box
  {
    hide PortOf;
  }

  /** Isolation in every interleaving: a waiter gets frames in the order they were settled for it; a
      stream buffers at most 16 of them, and the first reply or error of an RPC is the first that was
      settled. */
  lemma {:induction false} Isolation(steps: seq<Step>, p: Port)
    ensures Faithful(BoxAt(Run(steps), p), Settled(steps, p), p)
  {
    hide Next, Faithful, BoxAt, Gone;
    if steps == [] {
      NothingYet(p);
    } else {
      var pre, step := steps[..|steps| - 1], steps[|steps| - 1];
      var m := Run(pre);
      Isolation(pre, p);
      BoxStep(m, step, p);
      var box := BoxAt(m, p);
      if Settles(m, step, p) {
        FaithfulFits(box, Settled(pre, p), p);
        PutFaithful(box, Settled(pre, p), p, m.flying[step.thread].frame);
        if step.Check? {
          GoneIsStream(m, p);
        }
      } else if step == Receive(p) && box.buffer != [] {
        TakeFaithful(box, Settled(pre, p), p);
      }
    }
  }

  lemma InOrderMembers(xs: seq<Json>, ys: seq<Json>)
    requires InOrder(xs, ys)
    ensures forall f :: f in xs ==> f in ys
  {
    var at: seq<nat> :| EmbedsAt(xs, ys, at);
    forall f | f in xs
      ensures f in ys
    {
      var i :| 0 <= i < |xs| && xs[i] == f;
      assert ys[at[i]] == f;
    }
  }

  /** And all it ever gets was looked up while it was the current registration, with its own id. */
  lemma GotOwnFrames(steps: seq<Step>, p: Port)
    ensures forall f :: f in BoxAt(Run(steps), p).Got() ==>
              f in Offered(steps, p) && IdAt(Run(steps), p) == Some(IdOf(f)) && IdOf(f) != ""
  {
    hide Run, BoxAt, Offered, Settled, IdAt, IdOf;
    Isolation(steps, p);
    InOrderMembers(BoxAt(Run(steps), p).Got(), Settled(steps, p));
    OwnIdOnly(steps, p);
    forall f | f in Settled(steps, p)
      ensures f in Offered(steps, p)
    {
      RoutedConserved(steps, p, f);
      assert multiset(Settled(steps, p))[f] > 0;
    }
  }

  /** The wire types of the frames that a channel is for. */
  function TypesOf(p: Port): set<string> {
    match p
    case Reply(_) => {"response"}
    case Err(_) => {"error"}
    case Stream(_) => {"next", "complete"}
  }

  lemma {:induction false} OfferedTypes(steps: seq<Step>, p: Port)
    ensures forall f :: f in Offered(steps, p) ==> StrField(f, "type") in TypesOf(p)
  {
    hide Run;
    if steps != [] {
      OfferedTypes(steps[..|steps| - 1], p);
    }
  }

  /** A reply channel only ever gets responses, an error channel errors, and a stream next and
      complete frames. */
  lemma GotOwnTypes(steps: seq<Step>, p: Port)
    ensures forall f :: f in BoxAt(Run(steps), p).Got() ==> StrField(f, "type") in TypesOf(p)
  {
    hide Run, BoxAt, Offered, TypesOf;
    GotOwnFrames(steps, p);
    OfferedTypes(steps, p);
  }

  /** A frame routed alone, for a registered waiter with room, is the last in its channel of the
      frame's type; nothing else changes. */
  lemma RoutedAlone(m: Mux, frame: Json, p: Port)
    requires m.flying == map[] && IdOf(frame) != "" && StrField(frame, "type") in TypesOf(p)
    requires if p.Stream? then IdOf(frame) in m.subs && m.subs[IdOf(frame)] == p.waiter
             else IdOf(frame) in m.rpcs && m.rpcs[IdOf(frame)] == p.waiter
    requires |BoxAt(m, p).buffer| < (if p.Stream? then 16 else 1) && !(p.Stream? && p.waiter in m.done)
    ensures var m' := Next(Next(Next(m, Lookup(0, frame)), Check(0)), Deliver(0));
            && BoxAt(m', p) == Box(BoxAt(m, p).buffer + [frame], BoxAt(m, p).taken)
            && (forall q :: q != p ==> BoxAt(m', q) == BoxAt(m, q))
            && m' == m.(boxes := m'.boxes)
  {
    hide Next;
    RouteMeans(m, frame);
    assert "response"[0] == 'r' && "error"[0] == 'e' && "next"[0] == 'n' && "complete"[0] == 'c';
  }

  lemma GoneIsStream(m: Mux, p: Port)
    requires Gone(m, p)
    ensures p.Stream?
  {
  }

  // ---------------------------------------------------------------- losses

  /** How many frames of a channel were lost. */
  function Lost(steps: seq<Step>, p: Port): nat {
    if steps == [] then 0
    else
      var pre := steps[..|steps| - 1];
      Lost(pre, p) + if Loses(Run(pre), steps[|steps| - 1], p) then 1 else 0
  }

  predicate NoneLost(steps: seq<Step>, p: Port) {
    forall n :: 0 <= n < |steps| ==> !Loses(Run(steps[..n]), steps[n], p)
  }

  lemma {:induction false} LostMeans(steps: seq<Step>, p: Port)
    ensures Lost(steps, p) == 0 <==> NoneLost(steps, p)
  {
    hide Run, Loses;
    if steps != [] {
      var k := |steps| - 1;
      LostMeans(steps[..k], p);
      assert forall n :: 0 <= n <= k ==> steps[..k][..n] == steps[..n];
      assert forall n :: 0 <= n < k ==> steps[..k][n] == steps[n];
    }
  }

  /** Every settled frame was got by its waiter or lost. */
  lemma {:induction false} SettledConserved(steps: seq<Step>, p: Port)
    ensures var got, settled := BoxAt(Run(steps), p).Got(), Settled(steps, p);
            |settled| == |got| + Lost(steps, p) && (Lost(steps, p) == 0 ==> got == settled)
  {
    hide Next, BoxAt, Loses, Settles;
    if steps == [] {
      NothingSettled(p);
    } else {
      var pre, step := steps[..|steps| - 1], steps[|steps| - 1];
      SettledConserved(pre, p);
      BoxStep(Run(pre), step, p);
      LosesSettles(Run(pre), step, p);
      GotStep(BoxAt(Run(pre), p));
    }
  }

  lemma NothingSettled(p: Port)
    ensures BoxAt(Run([]), p) == Box([], []) && Settled([], p) == []
  {
  }

  lemma LosesSettles(m: Mux, step: Step, p: Port)
    ensures Loses(m, step, p) ==> Settles(m, step, p)
  {
  }

  lemma GotStep(box: Box)
    ensures forall f :: box.(buffer := box.buffer + [f]).Got() == box.Got() + [f]
    ensures box.buffer != [] ==> Box(box.buffer[1..], box.taken + [box.buffer[0]]).Got() == box.Got()
  {
    if box.buffer != [] {
      assert (box.taken + [box.buffer[0]]) + box.buffer[1..] == box.Got();
    }
  }

  /** A waiter has got every frame settled for it exactly when none was lost: when, at each one, the
      waiter was not gone at the check and its channel was not full at the send. */
  lemma AllGotExactly(steps: seq<Step>, p: Port)
    ensures BoxAt(Run(steps), p).Got() == Settled(steps, p) <==> NoneLost(steps, p)
  {
    hide Run, BoxAt, Settled, Loses;
    SettledConserved(steps, p);
    LostMeans(steps, p);
  }

  lemma NothingYet(p: Port)
    ensures Faithful(BoxAt(Run([]), p), Settled([], p), p)
  {
    var none: seq<Json> := [];
    assert none + none == none;
    NothingInOrder(none);
  }

  lemma FaithfulFits(box: Box, settled: seq<Json>, p: Port)
    requires Faithful(box, settled, p)
    ensures |box.buffer| <= Capacity(p)
  {
  }

  // ---------------------------------------------------------------- registration

  /** A step that ends the registration of a waiter for its id: its own unregistration, or a newer
      registration of the id. */
  predicate Displaces(step: Step, id: string, w: nat) {
    step == RegisterRPC(id) || step == UnregisterRPC(w)
  }

  /** A registered RPC stays current until it is unregistered itself or replaced: the late
      unregistration of an older waiter never removes it. */
  lemma {:induction false} StaleUnregisterHarmless(steps: seq<Step>, i: nat, j: nat)
    requires i < j <= |steps| && steps[i].RegisterRPC?
    requires forall k :: i < k < j ==> !Displaces(steps[k], steps[i].id, |Run(steps[..i]).calls|)
    ensures var m := Run(steps[..j]); steps[i].id in m.rpcs && m.rpcs[steps[i].id] == |Run(steps[..i]).calls|
  {
    hide PortOf;
    assert steps[..j][..j - 1] == steps[..j - 1];
    if i < j - 1 {
      StaleUnregisterHarmless(steps, i, j - 1);
      assert !Displaces(steps[j - 1], steps[i].id, |Run(steps[..i]).calls|);
    }
  }

  predicate DisplacesStream(step: Step, id: string, w: nat) {
    step == RegisterSubscription(id) || step == UnregisterSubscription(w)
  }

  /** The same for subscriptions. */
  lemma {:induction false} StaleUnsubscribeHarmless(steps: seq<Step>, i: nat, j: nat)
    requires i < j <= |steps| && steps[i].RegisterSubscription?
    requires forall k :: i < k < j ==> !DisplacesStream(steps[k], steps[i].id, |Run(steps[..i]).streams|)
    ensures var m := Run(steps[..j]); steps[i].id in m.subs && m.subs[steps[i].id] == |Run(steps[..i]).streams|
  {
    hide PortOf;
    assert steps[..j][..j - 1] == steps[..j - 1];
    if i < j - 1 {
      StaleUnsubscribeHarmless(steps, i, j - 1);
      assert !DisplacesStream(steps[j - 1], steps[i].id, |Run(steps[..i]).streams|);
    }
  }

  /** A waiter that has unregistered is never current again, and its stream stays gone. */
  lemma {:induction false} UnregisteredForGood(steps: seq<Step>, i: nat, j: nat)
    requires i < j <= |steps|
    ensures var m := Run(steps[..j]);
            && (steps[i].UnregisterRPC? && steps[i].waiter < |Run(steps[..i]).calls| ==>
                  steps[i].waiter < |m.calls| && forall id :: id in m.rpcs ==> m.rpcs[id] != steps[i].waiter)
            && (steps[i].UnregisterSubscription? && steps[i].waiter < |Run(steps[..i]).streams| ==>
                  && steps[i].waiter < |m.streams| && steps[i].waiter in m.done
                  && forall id :: id in m.subs ==> m.subs[id] != steps[i].waiter)
  {
    assert steps[..j][..j - 1] == steps[..j - 1];
    AlwaysRegistered(steps[..j - 1]);
    if i < j - 1 {
      UnregisteredForGood(steps, i, j - 1);
      GoneStep(Run(steps[..j - 1]), steps[j - 1]);
    } else {
      GoneNow(Run(steps[..i]), steps[i]);
    }
    hide Next;
  }

  lemma GoneNow(m: Mux, step: Step)
    requires Registered(m)
    ensures var m' := Next(m, step);
            && (step.UnregisterRPC? && step.waiter < |m.calls| ==>
                  step.waiter < |m'.calls| && forall id :: id in m'.rpcs ==> m'.rpcs[id] != step.waiter)
            && (step.UnregisterSubscription? && step.waiter < |m.streams| ==>
                  && step.waiter < |m'.streams| && step.waiter in m'.done
                  && forall id :: id in m'.subs ==> m'.subs[id] != step.waiter)
  {
    hide PortOf;
  }

  lemma GoneStep(m: Mux, step: Step)
    ensures var m' := Next(m, step);
            && |m.calls| <= |m'.calls| && |m.streams| <= |m'.streams| && m.done <= m'.done
            && (forall id :: id in m'.rpcs ==>
                  (id in m.rpcs && m'.rpcs[id] == m.rpcs[id]) || m'.rpcs[id] == |m.calls|)
            && (forall id :: id in m'.subs ==>
                  (id in m.subs && m'.subs[id] == m.subs[id]) || m'.subs[id] == |m.streams|)
  {
    hide PortOf;
  }

  /** A frame routed while no other is under way. */
  lemma RouteMeans(m: Mux, frame: Json)
    requires m.flying == map[]
    ensures var port := PortOf(m, frame);
            var after := if port.None? || Gone(m, port.value) then m else Put(m, Flight(frame, port.value, true));
            Next(Next(Next(m, Lookup(0, frame)), Check(0)), Deliver(0)) == after
  {
    hide PortOf;
    var port := PortOf(m, frame);
    if port.Some? {
      var f := Flight(frame, port.value, false);
      assert map[0 := f] - {0} == map[] && map[0 := f][0 := f.(checked := true)] - {0} == map[];
    }
  }

  // ---------------------------------------------------------------- the object

  class Multiplexer {
    var calls: seq<string>
    var streams: seq<string>
    var rpcs: map<string, nat>
    var subs: map<string, nat>
    var done: set<nat>
    var boxes: map<Port, Box>

    /** The multiplexer with no frame under way. */
    function View(): Mux
      reads this
    {
      Mux(calls, streams, rpcs, subs, done, boxes, map[])
    }

    constructor ()
      ensures View() == Run([])
    {
      calls, streams, rpcs, subs, done, boxes := [], [], map[], map[], {}, map[];
    }

    method RegisterCall(id: string) returns (waiter: nat)
      modifies this
      ensures View() == Next(old(View()), RegisterRPC(id)) && waiter == |old(calls)|
    {
      waiter := |calls|;
      calls := calls + [id];
      rpcs := rpcs[id := waiter];
    }

    method UnregisterCall(waiter: nat)
      requires waiter < |calls|
      modifies this
      ensures View() == Next(old(View()), UnregisterRPC(waiter))
    {
      var id := calls[waiter];
      if id in rpcs && rpcs[id] == waiter {
        rpcs := rpcs - {id};
      }
    }

    method RegisterStream(id: string) returns (waiter: nat)
      modifies this
      ensures View() == Next(old(View()), RegisterSubscription(id)) && waiter == |old(streams)|
    {
      waiter := |streams|;
      streams := streams + [id];
      subs := subs[id := waiter];
    }

    method UnregisterStream(waiter: nat)
      requires waiter < |streams| && waiter !in done  // closing twice panics
      modifies this
      ensures View() == Next(old(View()), UnregisterSubscription(waiter))
    {
      var id := streams[waiter];
      if id in subs && subs[id] == waiter {
        subs := subs - {id};
      }
      done := done + {waiter};
    }

    method Offer(port: Port, frame: Json)
      modifies `boxes
      ensures port.Stream? && port.waiter in done ==> boxes == old(boxes)
      ensures !(port.Stream? && port.waiter in done) ==> View() == Put(old(View()), Flight(frame, port, true))
    {
      if port.Stream? && port.waiter in done {
        return;
      }
      var box := BoxAt(View(), port);
      if |box.buffer| < Capacity(port) {
        boxes := boxes[port := box.(buffer := box.buffer + [frame])];
      }
    }

    /** Routing a frame delivers it to the waiter of its id; a response or error is consumed exactly
        when a waiter with its non-empty id is registered, and so for stream frames. */
    method Route(frame: Json) returns (consumed: bool)
      modifies `boxes
      ensures View() == Next(Next(Next(old(View()), Lookup(0, frame)), Check(0)), Deliver(0))
      ensures StrField(frame, "type") in {"response", "error"} ==>
                (consumed <==> IdOf(frame) != "" && IdOf(frame) in rpcs)
      ensures StrField(frame, "type") in {"next", "complete"} ==>
                (consumed <==> IdOf(frame) != "" && IdOf(frame) in subs)
      ensures StrField(frame, "type") !in {"response", "error", "next", "complete"} ==> !consumed
      ensures !consumed ==> boxes == old(boxes)
    {
      hide Next, Put, IdOf;
      RouteMeans(View(), frame);
      var typ := StrField(frame, "type");
      var id := IdOf(frame);
      if typ == "response" || typ == "error" {
        if id == "" || id !in rpcs {
          return false;
        }
        Offer(if typ == "error" then Err(rpcs[id]) else Reply(rpcs[id]), frame);
        return true;
      }
      if typ == "next" || typ == "complete" {
        if id == "" || id !in subs {
          return false;
        }
        Offer(Stream(subs[id]), frame);
        return true;
      }
      return false;
    }
  }
}
