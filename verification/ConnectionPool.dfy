/** The connection pool with each call executed as a whole (appkit/pool.go). */
module ConnectionPools {
  import PP = PoolProtocol

  type Pool = PP.Pool

  const DEFAULT_POOL_SIZE := 1000

  /** What the outside does during one Acquire. The connection held for the key is looked at twice,
      and its reader can die in between. */
  datatype Env = Env(
    live: bool,         // at the first look it is connected and its event stream runs
    stillLive: bool,    // and so at the second look
    idleTooLong: bool,  // it was unused beyond MaxIdleTime
    ctxDone: bool,      // the caller's context is done
    pickDone: bool,     // with a slot and a done context both ready, the select takes the context
    hasLoop: bool,      // the store knows a loop of the key
    reattachOk: bool, connectOk: bool, bootstrapOk: bool)
  {
    /** The select does not take the done context although a slot is ready. */
    predicate Pulls() { !(ctxDone && pickDone) }
  }

  datatype Failure = Exhausted | ContextDone | ConnectFailed | BootstrapFailed

  datatype Result = Acquired(slot: nat) | Failed(failure: Failure)

  /** Whether a slot that was pulled can be brought up, and how it fails. */
  function Setup(env: Env, slot: nat): Result {
    if env.hasLoop && env.reattachOk then Acquired(slot)
    else if !env.connectOk then Failed(ConnectFailed)
    else if !env.bootstrapOk then Failed(BootstrapFailed)
    else Acquired(slot)
  }

  // ---------------------------------------------------------------- calls

  /** A Release as a sequence of atomic sections. */
  function Released(p: Pool, key: string): Pool {
    PP.Next(PP.Next(PP.Next(p, PP.Detach(0, key)), PP.Mint(0)), PP.Return(0))
  }

  /** Pulling a slot and installing it, as a sequence of atomic sections. */
  function Taken(p: Pool, key: string): Pool {
    PP.Next(PP.Next(p, PP.Pull(0)), PP.Install(0, key))
  }

  /** The held connection is returned. */
  predicate Reuses(p: Pool, key: string, env: Env) {
    key in p.active && env.live && env.stillLive && !env.idleTooLong
  }

  /** The held connection is released: dead at the first look, or unused for too long. */
  predicate Drops(p: Pool, key: string, env: Env) {
    key in p.active && (!env.live || (env.stillLive && env.idleTooLong))
  }

  /** The pool when a slot is to be pulled. */
  function Cleared(p: Pool, key: string, env: Env): Pool {
    if Drops(p, key, env) then Released(p, key) else p
  }

  /** A slot is pulled for the key; it is given back when it cannot be brought up. */
  function BroughtUp(p: Pool, key: string, env: Env): Pool
    requires p.idle != []
  {
    if Setup(env, p.idle[0]).Acquired? then Taken(p, key) else Released(Taken(p, key), key)
  }

  function AfterAcquire(p: Pool, key: string, env: Env): Pool {
    var q := Cleared(p, key, env);
    if Reuses(p, key, env) then p
    else if q.idle == [] || !env.Pulls() then q
    else BroughtUp(q, key, env)
  }

  function AcquireResult(p: Pool, key: string, env: Env): Result {
    var q := Cleared(p, key, env);
    if Reuses(p, key, env) then Acquired(p.active[key])
    else if q.idle == [] || !env.Pulls() then Failed(if env.ctxDone then ContextDone else Exhausted)
    else Setup(env, q.idle[0])
  }

  datatype Call = Acquire(key: string, env: Env) | Release(key: string)

  function After(p: Pool, call: Call): Pool {
    match call
    case Acquire(key, env) => AfterAcquire(p, key, env)
    case Release(key) => Released(p, key)
  }

  /** Calls one after the other on a new pool. */
  function AfterAll(size: nat, calls: seq<Call>): Pool {
    if calls == [] then PP.Start(size) else After(AfterAll(size, calls[..|calls| - 1]), calls[|calls| - 1])
  }

  // ---------------------------------------------------------------- what every call keeps

  /** Idle and registered slots are all the slots, no idle slot is listed twice or registered, and
      every key is registered for the slot it holds. */
  ghost predicate Sound(p: Pool) {
    && p.transit == map[] && |p.idle| + |p.registry| == p.size
    && (forall k :: k in p.active ==> p.active[k] in p.registry && p.registry[p.active[k]] == k)
    && (forall i, j :: 0 <= i < j < |p.idle| ==> p.idle[i] != p.idle[j])
    && (forall i :: 0 <= i < |p.idle| ==> p.idle[i] < p.next && p.idle[i] !in p.registry)
    && (forall s :: s in p.registry ==> s < p.next)
  }

  /** Idle and active slots are all the slots, and the registry is the inverse of the active map. */
  ghost predicate Accounted(p: Pool) {
    && |p.idle| + |p.active| == p.size
    && (forall k :: k in p.active ==> p.active[k] in p.registry && p.registry[p.active[k]] == k)
    && (forall s :: s in p.registry ==> p.registry[s] in p.active && p.active[p.registry[s]] == s)
  }

  /** The slots that are neither idle nor active. */
  function Lost(p: Pool): int {
    p.size - |p.idle| - |p.active|
  }

  lemma {:induction false} DistinctValues(m: map<string, nat>)
    requires forall k, l :: k in m && l in m && k != l ==> m[k] != m[l]
    ensures |m.Values| == |m|
    decreases |m|
  {
    if m != map[] {
      var k :| k in m;
      var rest := m - {k};
      PP.RemoveOne(m, k);
      assert forall l :: l in rest ==> l in m && rest[l] == m[l];
      DistinctValues(rest);
      assert m.Values == rest.Values + {m[k]};
      assert m[k] !in rest.Values;
    }
  }

  lemma SubsetSize(a: set<nat>, b: set<nat>)
    requires a <= b
    ensures |a| <= |b| && (|a| == |b| ==> a == b)
  {
    assert b == a + (b - a);
  }

  /** A sound pool accounts for every slot exactly when none is lost. */
  lemma AccountedExactly(p: Pool)
    requires Sound(p)
    ensures 0 <= Lost(p) && (Accounted(p) <==> Lost(p) == 0)
  {
    DistinctValues(p.active);
    SubsetSize(p.active.Values, p.registry.Keys);
    assert |p.registry.Keys| == |p.registry|;
    if Lost(p) == 0 {
      assert p.active.Values == p.registry.Keys;
      forall s | s in p.registry
        ensures p.registry[s] in p.active && p.active[p.registry[s]] == s
      {
        assert s in p.active.Values;
      }
    }
  }

  lemma StartSound(size: nat)
    ensures Sound(PP.Start(size)) && Lost(PP.Start(size)) == 0
  {
  }

  lemma HeldHasRoom(p: Pool, key: string)
    requires Sound(p) && key in p.active
    ensures |p.idle| < p.size
  {
    assert p.active[key] in p.registry.Keys;
  }

  lemma ReleasedMeans(p: Pool, key: string)
    requires p.transit == map[] && (key in p.active ==> |p.idle| < p.size)
    ensures Released(p, key)
         == if key !in p.active then p
            else p.(active := p.active - {key}, registry := p.registry - {p.active[key]},
                    idle := p.idle + [p.next], next := p.next + 1, gone := p.gone + {p.active[key]})
  {
    assert map[0 := PP.Owed][0 := PP.Minted(p.next)] - {0} == map[];
  }

  lemma TakenMeans(p: Pool, key: string)
    requires p.transit == map[] && p.idle != []
    ensures Taken(p, key)
         == p.(idle := p.idle[1..], active := p.active[key := p.idle[0]], registry := p.registry[p.idle[0] := key],
               gone := if key in p.active then p.gone + {p.active[key]} else p.gone)
  {
    assert map[0 := PP.Pulled(p.idle[0])] - {0} == map[];
  }

  /** A Release loses nothing. */
  lemma ReleasedSound(p: Pool, key: string)
    requires Sound(p)
    ensures var q := Released(p, key);
            && Sound(q) && Lost(q) == Lost(p) && q.size == p.size && q.active == p.active - {key}
            && q.registry.Keys <= p.registry.Keys && (key in p.active ==> q.idle == p.idle + [p.next])
            && (key !in p.active ==> q == p)
  {
    hide Released;
    if key in p.active {
      HeldHasRoom(p, key);
      PP.RemoveOne(p.active, key);
      PP.RemoveOne(p.registry, p.active[key]);
    }
    ReleasedMeans(p, key);
    assert key !in p.active ==> p.active - {key} == p.active;
  }

  /** Pulling a slot loses one exactly when the key still holds one. */
  lemma TakenSound(p: Pool, key: string)
    requires Sound(p) && p.idle != []
    ensures var q := Taken(p, key);
            && Sound(q) && Lost(q) == Lost(p) + (if key in p.active then 1 else 0) && q.size == p.size
            && q.active == p.active[key := p.idle[0]] && p.idle[0] !in p.registry
  {
    hide Taken;
    TakenMeans(p, key);
    PP.PutOne(p.active, key, p.idle[0]);
    PP.PutOne(p.registry, p.idle[0], key);
    var q := Taken(p, key);
    assert forall i :: 0 <= i < |q.idle| ==> q.idle[i] == p.idle[i + 1];
  }

  /** The call finds the held connection live, then dead, and pulls a slot over the one it holds. */
  predicate Displaces(p: Pool, call: Call) {
    && call.Acquire? && call.key in p.active && call.env.live && !call.env.stillLive
    && p.idle != [] && call.env.Pulls()
  }

  lemma BroughtUpSound(p: Pool, key: string, env: Env)
    requires Sound(p) && p.idle != []
    ensures var q := BroughtUp(p, key, env);
            && Sound(q) && Lost(q) == Lost(p) + (if key in p.active then 1 else 0) && q.size == p.size
            && q.active == (if Setup(env, p.idle[0]).Acquired? then p.active[key := p.idle[0]] else p.active - {key})
            && p.idle[0] !in p.registry
  {
    hide Taken, Released, Sound, Lost;
    TakenSound(p, key);
    ReleasedSound(Taken(p, key), key);
    assert p.active[key := p.idle[0]] - {key} == p.active - {key};
  }

  lemma ClearedSound(p: Pool, key: string, env: Env)
    requires Sound(p)
    ensures var q := Cleared(p, key, env);
            && Sound(q) && Lost(q) == Lost(p) && q.size == p.size
            && q.active == (if Drops(p, key, env) then p.active - {key} else p.active)
            && q.registry.Keys <= p.registry.Keys && (Drops(p, key, env) ==> q.idle == p.idle + [p.next])
            && (!Drops(p, key, env) ==> q == p)
  {
    hide Released, Sound, Lost;
    ReleasedSound(p, key);
  }

  /** Every call keeps the pool sound, and loses one slot exactly when it displaces one. */
  lemma AfterSound(p: Pool, call: Call)
    requires Sound(p)
    ensures var q := After(p, call);
            Sound(q) && Lost(q) == Lost(p) + (if Displaces(p, call) then 1 else 0) && q.size == p.size
  {
    hide Released, Sound, Lost, Cleared, BroughtUp;
    match call
    case Release(key) => ReleasedSound(p, key);
    case Acquire(key, env) =>
      ClearedSound(p, key, env);
      var q := Cleared(p, key, env);
      if q.idle != [] {
        BroughtUpSound(q, key, env);
      }
  }

  /** What the keys hold after a call: the slot returned, which is a new one unless the held one is
      reused; after a failure none, unless the key holds a dying connection and no slot was pulled. */
  predicate HoldsExactly(p: Pool, key: string, env: Env, active: map<string, nat>, r: Result) {
    var kept := key in p.active && env.live && !env.stillLive && (p.idle == [] || !env.Pulls());
    && (r.Acquired? ==> active == p.active[key := r.slot])
    && (r.Failed? ==> active == if kept then p.active else p.active - {key})
    && (if key in p.active && env.live && env.stillLive && !env.idleTooLong then r == Acquired(p.active[key])
        else r.Acquired? ==> r.slot !in p.registry)
  }

  lemma AcquireHolds(p: Pool, key: string, env: Env)
    requires Sound(p)
    ensures HoldsExactly(p, key, env, AfterAcquire(p, key, env).active, AcquireResult(p, key, env))
  {
    hide Sound, Released, BroughtUp, Cleared, AfterAcquire, AcquireResult, Setup;
    AcquireMeans(p, key, env);
    ClearedSound(p, key, env);
    var q := Cleared(p, key, env);
    MapFacts(p.active, key);
    if !Reuses(p, key, env) && q.idle != [] && env.Pulls() {
      BroughtUpSound(q, key, env);
      SetupSlot(env, q.idle[0]);
      HeadIsNew(p, key, env);
      PutAfterRemove(p.active, key, q.idle[0]);
    }
  }

  lemma MapFacts(m: map<string, nat>, k: string)
    ensures k in m ==> m[k := m[k]] == m
    ensures k !in m ==> m - {k} == m
  {
  }

  lemma PutAfterRemove(m: map<string, nat>, k: string, v: nat)
    ensures (m - {k})[k := v] == m[k := v] && m - {k} - {k} == m - {k}
  {
  }

  lemma SetupSlot(env: Env, slot: nat)
    ensures Setup(env, slot).Acquired? ==> Setup(env, slot).slot == slot
  {
  }

  lemma HeadIsNew(p: Pool, key: string, env: Env)
    requires Sound(p)
    ensures var q := Cleared(p, key, env); q.idle != [] ==> q.idle[0] !in p.registry
  {
    hide Released, Cleared;
    ClearedSound(p, key, env);
  }

  /** A pulled slot comes up exactly when the known loop is reattached or, failing that or without one,
      the client connects and bootstraps; a failure tells which of the two went wrong. */
  lemma ComesUpExactly(p: Pool, key: string, env: Env)
    requires Sound(p) && !Reuses(p, key, env) && Cleared(p, key, env).idle != [] && env.Pulls()
    ensures var r := AcquireResult(p, key, env);
            var reattached := env.hasLoop && env.reattachOk;
            && (r.Acquired? <==> reattached || (env.connectOk && env.bootstrapOk))
            && (r == Failed(ConnectFailed) <==> !reattached && !env.connectOk)
            && (r == Failed(BootstrapFailed) <==> !reattached && env.connectOk && !env.bootstrapOk)
  {
    hide Cleared, Sound;
  }

  function Displaced(size: nat, calls: seq<Call>): nat {
    if calls == [] then 0
    else
      var pre := calls[..|calls| - 1];
      Displaced(size, pre) + if Displaces(AfterAll(size, pre), calls[|calls| - 1]) then 1 else 0
  }

  /** After any calls the pool is sound, and as many slots are lost as calls displaced one. */
  lemma {:induction false} CallsSound(size: nat, calls: seq<Call>)
    ensures var p := AfterAll(size, calls);
            Sound(p) && Lost(p) == Displaced(size, calls) && p.size == size
  {
    hide Sound, Lost, After, Displaces;
    if calls == [] {
      StartSound(size);
    } else {
      CallsSound(size, calls[..|calls| - 1]);
      AfterSound(AfterAll(size, calls[..|calls| - 1]), calls[|calls| - 1]);
    }
  }

  predicate NoneDisplaced(size: nat, calls: seq<Call>) {
    forall n :: 0 <= n < |calls| ==> !Displaces(AfterAll(size, calls[..n]), calls[n])
  }

  lemma {:induction false} DisplacedMeans(size: nat, calls: seq<Call>)
    ensures Displaced(size, calls) == 0 <==> NoneDisplaced(size, calls)
  {
    hide AfterAll, Displaces;
    if calls != [] {
      var k := |calls| - 1;
      DisplacedMeans(size, calls[..k]);
      assert forall n :: 0 <= n <= k ==> calls[..k][..n] == calls[..n];
      assert forall n :: 0 <= n < k ==> calls[..k][n] == calls[n];
    }
  }

  /** After any calls idle and active slots are all the slots, with the registry the inverse of the
      active map, exactly when no call displaced a slot. */
  lemma PoolExactly(size: nat, calls: seq<Call>)
    ensures Accounted(AfterAll(size, calls)) <==> NoneDisplaced(size, calls)
  {
    hide AfterAll, Displaces, Sound, Accounted, Lost;
    CallsSound(size, calls);
    AccountedExactly(AfterAll(size, calls));
    DisplacedMeans(size, calls);
  }

  /** The pool is exhausted for a caller exactly when every slot is registered, the context is not
      done, and the key holds no slot or holds one whose connection dies between the two looks. */
  lemma ExhaustedExactly(p: Pool, key: string, env: Env)
    requires Sound(p)
    ensures AcquireResult(p, key, env) == Failed(Exhausted) <==>
            && |p.registry| == p.size && !env.ctxDone
            && (key in p.active ==> env.live && !env.stillLive)
    ensures Accounted(p) ==> (|p.registry| == p.size <==> |p.active| == p.size)
  {
    hide Released, Accounted, Cleared;
    ClearedSound(p, key, env);
    AccountedExactly(p);
  }

  /** Whatever the size and the key, two calls can lose a slot, even if the second one fails; and in a
      pool of one, they can find the pool exhausted by the key itself. */
  lemma DyingConnectionLosesSlot(size: nat, key: string, up: Env, dying: Env)
    requires size > 0 && up.Pulls() && Setup(up, 1).Acquired? && dying.live && !dying.stillLive && dying.Pulls()
    ensures var calls := [Acquire(key, up), Acquire(key, dying)];
            && (size > 1 ==> |AfterAll(size, calls).idle| + |AfterAll(size, calls).active| == size - 1)
            && (size == 1 && !dying.ctxDone ==>
                  AcquireResult(AfterAll(size, calls[..1]), key, dying) == Failed(Exhausted))
  {
    hide Released, Sound, Taken;
    var calls := [Acquire(key, up), Acquire(key, dying)];
    var p := PP.Start(size);
    assert calls[..1][..0] == [] && calls[..2] == calls && p.idle[0] == 1;
    var q := AfterAll(size, calls[..1]);
    assert q == Taken(p, key) by {
      assert q == After(AfterAll(size, calls[..1][..0]), calls[0]);
    }
    TakenMeans(p, key);
    CallsSound(size, calls[..1]);
    AfterSound(q, calls[1]);
    CallsSound(size, calls);
    if size == 1 {
      assert |q.registry.Keys| == 1 by { assert q.registry.Keys == {1}; }
      ExhaustedExactly(q, key, dying);
    }
  }

  // ---------------------------------------------------------------- the object

  class ConnectionPool {
    const size: nat
    var pool: seq<nat>                    // idle slots in the channel
    var activeSlots: map<string, nat>
    var registry: map<nat, string>
    var nextSlotID: nat
    ghost var gone: set<nat>              // slots out of use

    /** The pool with no call under way. */
    ghost function View(): Pool
      reads this
    {
      PP.Pool(size, pool, activeSlots, registry, nextSlotID, map[], gone, 0)
    }

    ghost predicate Valid()
      reads this
    {
      Sound(View())
    }

    constructor (poolSize: int)
      ensures size == (if poolSize <= 0 then DEFAULT_POOL_SIZE else poolSize)
      ensures Valid() && View() == PP.Start(size)
    {
      size := if poolSize <= 0 then DEFAULT_POOL_SIZE else poolSize;
      pool, activeSlots, registry, nextSlotID, gone := [], map[], map[], 1, {};
      new;
      for i := 0 to size
        invariant |pool| == i && activeSlots == map[] && registry == map[] && gone == {}
        invariant nextSlotID == i + 1 && forall k :: 0 <= k < i ==> pool[k] == k + 1
      {
        var slot := NewSlot();
        pool := pool + [slot];
      }
    }

    method NewSlot() returns (slot: nat)
      modifies `nextSlotID
      ensures slot == old(nextSlotID) && nextSlotID == slot + 1
    {
      slot := nextSlotID;
      nextSlotID := nextSlotID + 1;
    }

    method Stats() returns (active: nat, idle: nat)
      ensures active == |activeSlots| && idle == |pool|
      ensures Valid() ==> active + idle <= size && (active + idle == size <==> Accounted(View()))
    {
      hide Sound, Accounted;
      if Valid() {
        AccountedExactly(View());
      }
      return |activeSlots|, |pool|;
    }

    /** The slot of the key, if any, is replaced by a new one in the channel. */
    method Release(appKey: string)
      requires Valid()
      modifies this
      ensures Valid() && View() == Released(old(View()), appKey)
    {
      hide Released, Sound;
      ReleasedSound(View(), appKey);
      if appKey !in activeSlots {
        return;
      }
      HeldHasRoom(View(), appKey);
      ReleasedMeans(View(), appKey);
      var slot := activeSlots[appKey];
      activeSlots := activeSlots - {appKey};
      registry := registry - {slot};
      gone := gone + {slot};
      var replacement := NewSlot();
      if |pool| < size {
        pool := pool + [replacement];
      } else {
        assert false;  // the channel is never full on release
      }
    }

    /** Acquire: the live connection of the key is reused; otherwise a slot is pulled and brought up,
        and given back on any failure. All slots stay accounted for unless the call pulls a slot
        while the key still holds one; then exactly one is lost. */
    method Acquire(appKey: string, env: Env) returns (r: Result)
      requires Valid()
      modifies this
      ensures Valid() && View() == AfterAcquire(old(View()), appKey, env)
      ensures r == AcquireResult(old(View()), appKey, env)
      ensures var displaced := Displaces(old(View()), Call.Acquire(appKey, env));
              && |pool| + |activeSlots| == |old(pool)| + |old(activeSlots)| - (if displaced then 1 else 0)
              && (old(Accounted(View())) ==> (Accounted(View()) <==> !displaced))
      ensures HoldsExactly(old(View()), appKey, env, activeSlots, r)
    {
      hide Sound, Released, Taken, Accounted, Cleared, BroughtUp, Reuses, AcquireResult, AfterAcquire, HoldsExactly;
      ghost var before := View();
      AfterSound(before, Call.Acquire(appKey, env));
      AcquireHolds(before, appKey, env);
      AccountedExactly(before);
      AccountedExactly(AfterAcquire(before, appKey, env));
      AcquireMeans(before, appKey, env);
      var reuse := Reuse(appKey, env);
      if reuse {
        ReuseHeld(before, appKey, env);
        return Acquired(activeSlots[appKey]);
      }
      if |pool| == 0 || (env.ctxDone && env.pickDone) {
        return if env.ctxDone then Failed(ContextDone) else Failed(Exhausted);
      }
      r := BringUp(appKey, env);
    }

    /** Whether the connection held for the key can be reused; one found dead at the first look, or
        unused for too long, is released. */
    method Reuse(appKey: string, env: Env) returns (reuse: bool)
      requires Valid()
      modifies this
      ensures Valid() && reuse == Reuses(old(View()), appKey, env)
      ensures View() == if reuse then old(View()) else Cleared(old(View()), appKey, env)
    {
      hide Sound, Released;
      if appKey in activeSlots && !env.live {
        Release(appKey);
        return false;
      }
      if appKey in activeSlots && env.stillLive {
        if env.idleTooLong {
          Release(appKey);
        } else {
          return true;
        }
      }
      return false;
    }

    /** Take a slot for the key and connect it; on failure the slot is given back. */
    method BringUp(appKey: string, env: Env) returns (r: Result)
      requires Valid() && |pool| > 0
      modifies this
      ensures Valid() && View() == BroughtUp(old(View()), appKey, env) && r == Setup(env, old(pool)[0])
    {
      hide Sound, Released, Taken, Setup;
      var slot := Install(appKey);
      r := Setup(env, slot);
      if r.Failed? {
        Release(appKey);
      }
    }

    /** The head of the channel becomes the slot of the key, also over one it holds. */
    method Install(appKey: string) returns (slot: nat)
      requires Valid() && |pool| > 0
      modifies this
      ensures Valid() && View() == Taken(old(View()), appKey) && slot == old(pool)[0]
    {
      hide Sound, Taken;
      TakenSound(View(), appKey);
      TakenMeans(View(), appKey);
      slot := pool[0];
      pool := pool[1..];
      gone := if appKey in activeSlots then gone + {activeSlots[appKey]} else gone;
      activeSlots := activeSlots[appKey := slot];
      registry := registry[slot := appKey];
    }

    /** Shutting down empties the pool and puts exactly its slots out of use. The registry forgets the
        active slots, so all of it when every slot was accounted for. */
    method Stop()
      requires Valid()
      modifies this
      ensures activeSlots == map[] && pool == [] && nextSlotID == old(nextSlotID)
      ensures registry == old(registry) - old(activeSlots.Values) && (old(Accounted(View())) ==> registry == map[])
      ensures gone == old(gone) + old(activeSlots.Values) + set s | s in old(pool)
    {
      hide Sound, Accounted;
      NothingStale(View());
      registry := registry - activeSlots.Values;
      gone := gone + activeSlots.Values;
      activeSlots := map[];
      ghost var taken := gone;
      while |pool| > 0
        invariant activeSlots == map[] && nextSlotID == old(nextSlotID)
        invariant registry == old(registry) - old(activeSlots.Values)
        invariant gone + (set s | s in pool) == taken + set s | s in old(pool)
      {
        assert (set s | s in pool) == {pool[0]} + set s | s in pool[1..];
        gone := gone + {pool[0]};
        pool := pool[1..];
      }
    }
  }

  lemma NothingStale(p: Pool)
    ensures Accounted(p) ==> p.registry - p.active.Values == map[]
  {
    if Accounted(p) {
      assert (p.registry - p.active.Values).Keys == {};
    }
  }

  lemma ReuseHeld(p: Pool, key: string, env: Env)
    requires Reuses(p, key, env)
    ensures key in p.active
  {
  }

  /** The cases of an Acquire. */
  lemma AcquireMeans(p: Pool, key: string, env: Env)
    ensures var q := Cleared(p, key, env);
            if Reuses(p, key, env) then
              key in p.active && AfterAcquire(p, key, env) == p && AcquireResult(p, key, env) == Acquired(p.active[key])
            else if q.idle == [] || !env.Pulls() then
              && AfterAcquire(p, key, env) == q
              && AcquireResult(p, key, env) == Failed(if env.ctxDone then ContextDone else Exhausted)
            else
              && AfterAcquire(p, key, env) == BroughtUp(q, key, env)
              && AcquireResult(p, key, env) == Setup(env, q.idle[0])
  {
  }
}
