/** The connection pool under every interleaving of its atomic sections (appkit/pool.go). */
module PoolProtocol {

  type Thread = nat
  type Slot = nat

  /** What a thread holds between two atomic sections: a slot pulled from the channel and not yet
      installed, the duty to replace a slot it took out of use, or the replacement it created. */
  datatype Transit = Pulled(slot: Slot) | Owed | Minted(slot: Slot)

  /** `gone` are the slots out of use: closed, or displaced by a second acquisition of their key.
      `refused` counts replacements that found the channel full. */
  datatype Pool = Pool(
    size: nat, idle: seq<Slot>, active: map<string, Slot>, registry: map<Slot, string>,
    next: Slot, transit: map<Thread, Transit>, gone: set<Slot>, refused: nat)

  /** The atomic sections: receive from the channel, install under a key, take a key's slot out of
      use, create a replacement, send it to the channel; and shutting down. Acquire is Pull and
      Install, Release is Detach, Mint and Return; any thread may do either at any time. */
  datatype Step =
    | Pull(thread: Thread)
    | Install(thread: Thread, key: string)
    | Detach(thread: Thread, key: string)
    | Mint(thread: Thread)
    | Return(thread: Thread)
    | StopActive
    | StopIdle

  function Start(size: nat): Pool {
    Pool(size, seq(size, i => i + 1), map[], map[], size + 1, map[], {}, 0)
  }

  /** A step that is not enabled changes nothing. */
  function Next(p: Pool, step: Step): Pool {
    match step
    case Pull(t) =>
      if p.idle == [] || t in p.transit then p
      else p.(idle := p.idle[1..], transit := p.transit[t := Pulled(p.idle[0])])
    case Install(t, key) =>
      if t !in p.transit || !p.transit[t].Pulled? then p
      else
        var slot := p.transit[t].slot;
        p.(active := p.active[key := slot], registry := p.registry[slot := key], transit := p.transit - {t},
           gone := if key in p.active then p.gone + {p.active[key]} else p.gone)
    case Detach(t, key) =>
      if key !in p.active || t in p.transit then p
      else
        var slot := p.active[key];
        p.(active := p.active - {key}, registry := p.registry - {slot}, transit := p.transit[t := Owed],
           gone := p.gone + {slot})
    case Mint(t) =>
      if t !in p.transit || p.transit[t] != Owed then p
      else p.(transit := p.transit[t := Minted(p.next)], next := p.next + 1)
    case Return(t) =>
      if t !in p.transit || !p.transit[t].Minted? then p
      else if |p.idle| < p.size then
        p.(idle := p.idle + [p.transit[t].slot], transit := p.transit - {t})
      else p.(transit := p.transit - {t}, refused := p.refused + 1)
    case StopActive =>
      p.(active := map[], registry := p.registry - p.active.Values, gone := p.gone + p.active.Values)
    case StopIdle =>
      if p.idle == [] then p else p.(idle := p.idle[1..], gone := p.gone + {p.idle[0]})
  }

  function Run(size: nat, steps: seq<Step>): Pool {
    if steps == [] then Start(size) else Next(Run(size, steps[..|steps| - 1]), steps[|steps| - 1])
  }

  /** A slot is in at most one place (idle, active, held by a thread, or gone), and once there. */
  ghost predicate OnePlace(p: Pool) {
    && (forall i, j :: 0 <= i < j < |p.idle| ==> p.idle[i] != p.idle[j])
    && (forall k, m :: k in p.active && m in p.active && k != m ==> p.active[k] != p.active[m])
    && (forall t, u :: t in p.transit && u in p.transit && t != u && p.transit[t] != Owed && p.transit[u] != Owed ==>
          p.transit[t].slot != p.transit[u].slot)
    && (forall i, k :: 0 <= i < |p.idle| && k in p.active ==> p.idle[i] != p.active[k])
    && (forall i, t :: 0 <= i < |p.idle| && t in p.transit && p.transit[t] != Owed ==> p.idle[i] != p.transit[t].slot)
    && (forall k, t :: k in p.active && t in p.transit && p.transit[t] != Owed ==> p.active[k] != p.transit[t].slot)
    && (forall i :: 0 <= i < |p.idle| ==> p.idle[i] !in p.gone)
    && (forall k :: k in p.active ==> p.active[k] !in p.gone)
    && (forall t :: t in p.transit && p.transit[t] != Owed ==> p.transit[t].slot !in p.gone)
  }

  /** Every slot anywhere was created, so the next one created is new. */
  ghost predicate OnlyCreated(p: Pool) {
    && (forall i :: 0 <= i < |p.idle| ==> p.idle[i] < p.next)
    && (forall k :: k in p.active ==> p.active[k] < p.next)
    && (forall t :: t in p.transit && p.transit[t] != Owed ==> p.transit[t].slot < p.next)
    && (forall s :: s in p.gone ==> s < p.next)
  }

  ghost predicate Placed(p: Pool) {
    OnePlace(p) && OnlyCreated(p)
  }

  /** Idle, active and moving slots together fit the size, and no replacement was refused. */
  predicate WithinSize(p: Pool) {
    |p.idle| + |p.active| + |p.transit| <= p.size && p.refused == 0
  }

  lemma RemoveOne<K, V>(m: map<K, V>, k: K)
    requires k in m
    ensures |m - {k}| == |m| - 1
  {
    assert (m - {k}).Keys == m.Keys - {k};
  }

  lemma PutOne<K, V>(m: map<K, V>, k: K, v: V)
    ensures |m[k := v]| == |m| + (if k in m then 0 else 1)
  {
    assert m[k := v].Keys == m.Keys + {k};
  }

  lemma AcquireSteps(p: Pool, step: Step)
    requires WithinSize(p) && (step.Pull? || step.Install?)
    ensures WithinSize(Next(p, step))
  {
    if step.Pull? && p.idle != [] {
      PutOne(p.transit, step.thread, Pulled(p.idle[0]));
    } else if step.Install? && step.thread in p.transit && p.transit[step.thread].Pulled? {
      RemoveOne(p.transit, step.thread);
      PutOne(p.active, step.key, p.transit[step.thread].slot);
    }
  }

  lemma ReleaseSteps(p: Pool, step: Step)
    requires WithinSize(p) && (step.Detach? || step.Mint? || step.Return?)
    ensures WithinSize(Next(p, step))
  {
    var t := step.thread;
    if step.Detach? && step.key in p.active && t !in p.transit {
      RemoveOne(p.active, step.key);
      PutOne(p.transit, t, Owed);
    } else if t in p.transit && step.Mint? {
      PutOne(p.transit, t, Minted(p.next));
    } else if t in p.transit && step.Return? {
      RemoveOne(p.transit, t);
    }
  }

  lemma SizeStep(p: Pool, step: Step)
    requires WithinSize(p)
    ensures WithinSize(Next(p, step))
  {
    if step.Pull? || step.Install? {
      AcquireSteps(p, step);
    } else if !step.StopActive? && !step.StopIdle? {
      ReleaseSteps(p, step);
    }
  }

  lemma PullPlaced(p: Pool, t: Thread)
    requires Placed(p)
    ensures Placed(Next(p, Pull(t)))
  {
    var p' := Next(p, Pull(t));
    assert p' != p ==> forall i :: 0 <= i < |p'.idle| ==> p'.idle[i] == p.idle[i + 1];
  }

  lemma InstallPlaced(p: Pool, t: Thread, key: string)
    requires Placed(p)
    ensures Placed(Next(p, Install(t, key)))
  {
  }

  lemma DetachPlaced(p: Pool, t: Thread, key: string)
    requires Placed(p)
    ensures Placed(Next(p, Detach(t, key)))
  {
  }

  lemma MintPlaced(p: Pool, t: Thread)
    requires Placed(p)
    ensures Placed(Next(p, Mint(t)))
  {
  }

  lemma ReturnPlaced(p: Pool, t: Thread)
    requires Placed(p)
    ensures Placed(Next(p, Return(t)))
  {
    if t in p.transit && p.transit[t].Minted? && |p.idle| < p.size {
      var slot, idle := p.transit[t].slot, p.idle + [p.transit[t].slot];
      assert forall i :: 0 <= i < |idle| ==> idle[i] == if i < |p.idle| then p.idle[i] else slot;
      var p1 := p.(transit := p.transit - {t});
      assert OnePlace(p1) && OnlyCreated(p1);
      BackToIdle(p1, slot);
    }
  }

  /** A created slot that is nowhere can go to the channel. */
  lemma BackToIdle(p: Pool, slot: Slot)
    requires Placed(p) && slot < p.next && slot !in p.gone && slot !in p.idle
    requires forall k :: k in p.active ==> p.active[k] != slot
    requires forall t :: t in p.transit && p.transit[t] != Owed ==> p.transit[t].slot != slot
    ensures Placed(p.(idle := p.idle + [slot]))
  {
  }

  lemma StopPlaced(p: Pool, step: Step)
    requires Placed(p) && (step.StopActive? || step.StopIdle?)
    ensures Placed(Next(p, step))
  {
    var p' := Next(p, step);
    assert step.StopIdle? && p.idle != [] ==> forall i :: 0 <= i < |p'.idle| ==> p'.idle[i] == p.idle[i + 1];
  }

  lemma StartSafe(size: nat)
    ensures Placed(Start(size)) && WithinSize(Start(size))
  {
  }

  lemma StepMonotone(p: Pool, step: Step)
    ensures var p' := Next(p, step);
            p'.size == p.size && p.gone <= p'.gone && p.next <= p'.next
  {
  }

  /** In every interleaving, even with overlapping acquisitions of one key and shutting down: the
      slots never exceed the size, no slot is in two places or reused, and the branch that finds
      the channel full on release is never taken. */
  lemma {:induction false} PoolSafe(size: nat, steps: seq<Step>)
    ensures var p := Run(size, steps);
            Placed(p) && WithinSize(p) && p.size == size
  {
    hide Placed, WithinSize, Next;
    if steps == [] {
      StartSafe(size);
    } else {
      var p := Run(size, steps[..|steps| - 1]);
      PoolSafe(size, steps[..|steps| - 1]);
      var step := steps[|steps| - 1];
      SizeStep(p, step);
      StepMonotone(p, step);
      match step
      case Pull(t) => PullPlaced(p, t);
      case Install(t, key) => InstallPlaced(p, t, key);
      case Detach(t, key) => DetachPlaced(p, t, key);
      case Mint(t) => MintPlaced(p, t);
      case Return(t) => ReturnPlaced(p, t);
      case StopActive => StopPlaced(p, step);
      case StopIdle => StopPlaced(p, step);
    }
  }

  /** A slot out of use is out of use for good: it never comes back to any place. */
  lemma {:induction false} GoneForGood(size: nat, steps: seq<Step>, j: nat)
    requires j <= |steps|
    ensures Run(size, steps[..j]).gone <= Run(size, steps).gone
    ensures OnePlace(Run(size, steps))
  {
    hide Next;
    PoolSafe(size, steps);
    if j == |steps| {
      assert steps[..j] == steps;
    } else {
      var n := |steps| - 1;
      assert steps[..n][..j] == steps[..j];
      GoneForGood(size, steps[..n], j);
      StepMonotone(Run(size, steps[..n]), steps[n]);
    }
  }
}
