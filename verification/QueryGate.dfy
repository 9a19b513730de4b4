/** Single-flight query execution per key, and cancel-before-context ordering
    (appkit/query_gate.go). */
module QueryGates {
  import opened Shared

  // ---------------------------------------------------------------- all interleavings

  type Thread = nat

  /** A registration of a cancel function or of a daemon-cancel sender, numbered as it is made. */
  type Token = nat

  datatype Call = Sent(sender: Token) | Cancelled(cancel: Token, detachedWith: Option<Token>)

  /** A Cancel between its critical section and its last call. */
  datatype Detached = Detached(cancel: Option<Token>, sender: Option<Token>, sent: bool)

  datatype Gate = Gate(
    cancels: map<string, Token>, senders: map<string, Token>, detached: map<Thread, Detached>,
    calls: seq<Call>, next: Token)

  /** The critical sections of the methods, with Cancel split into its three parts. The booleans say
      whether a non-nil function is passed. */
  datatype Step =
    | Acquire(key: string, cancel: bool, sender: bool)
    | Release(key: string)
    | SetSendCancel(key: string, sender: bool)
    | ReplaceCancel(key: string, cancel: bool)
    | Detach(thread: Thread, key: string)
    | Send(thread: Thread)
    | CancelLocal(thread: Thread)

  function Lookup(m: map<string, Token>, key: string): Option<Token> {
    if key in m then Some(m[key]) else None
  }

  /** A step that is not enabled changes nothing. */
  function Next(g: Gate, step: Step): Gate {
    match step
    case Acquire(key, cancel, sender) =>
      if key in g.cancels then g
      else g.(cancels := if cancel then g.cancels[key := g.next] else g.cancels,
              senders := if sender then g.senders[key := g.next + 1] else g.senders,
              next := g.next + 2)
    case Release(key) => g.(cancels := g.cancels - {key}, senders := g.senders - {key})
    case SetSendCancel(key, sender) =>
      if key !in g.cancels || !sender then g else g.(senders := g.senders[key := g.next], next := g.next + 1)
    case ReplaceCancel(key, cancel) =>
      if key !in g.cancels || !cancel then g else g.(cancels := g.cancels[key := g.next], next := g.next + 1)
    case Detach(t, key) =>
      if t in g.detached then g
      else g.(cancels := g.cancels - {key}, senders := g.senders - {key},
              detached := g.detached[t := Detached(Lookup(g.cancels, key), Lookup(g.senders, key), false)])
    case Send(t) =>
      if t !in g.detached || g.detached[t].sent then g
      else
        var d := g.detached[t];
        g.(detached := g.detached[t := d.(sent := true)],
           calls := if d.sender.Some? then g.calls + [Sent(d.sender.value)] else g.calls)
    case CancelLocal(t) =>
      if t !in g.detached || !g.detached[t].sent then g
      else
        var d := g.detached[t];
        g.(detached := g.detached - {t},
           calls := if d.cancel.Some? then g.calls + [Cancelled(d.cancel.value, d.sender)] else g.calls)
  }

  function Run(steps: seq<Step>): Gate {
    if steps == [] then Gate(map[], map[], map[], [], 0)
    else Next(Run(steps[..|steps| - 1]), steps[|steps| - 1])
  }

  /** The step gives up the reservation of the key. */
  predicate Frees(step: Step, key: string) {
    (step.Release? || step.Detach?) && step.key == key
  }

  /** Single flight: from a successful Acquire of a key until a Release or Cancel of it, the key
      stays reserved, so that every other Acquire of it fails and changes nothing. */
  lemma {:induction false} SingleFlight(steps: seq<Step>, i: nat, j: nat)
    requires i < j < |steps| && steps[i].Acquire? && steps[i].cancel
    requires steps[j].Acquire? && steps[j].key == steps[i].key
    requires forall m :: i < m < j ==> !Frees(steps[m], steps[i].key)
    ensures var g := Run(steps[..j]); steps[i].key in g.cancels && Next(g, steps[j]) == g
  {
    StaysReserved(steps, i, j, steps[i].key);
  }

  lemma {:induction false} StaysReserved(steps: seq<Step>, i: nat, j: nat, key: string)
    requires i < j <= |steps| && steps[i].Acquire? && steps[i].cancel && steps[i].key == key
    requires forall m :: i < m < j ==> !Frees(steps[m], key)
    ensures key in Run(steps[..j]).cancels
  {
    assert steps[..j][..j - 1] == steps[..j - 1];
    if i < j - 1 {
      StaysReserved(steps, i, j - 1, key);
      assert !Frees(steps[j - 1], key);
    }
  }

  /** A Release or Cancel does give it up. */
  lemma FreedKey(g: Gate, step: Step, key: string)
    requires Frees(step, key) && (step.Detach? ==> step.thread !in g.detached)
    ensures key !in Next(g, step).cancels && key !in Next(g, step).senders
  {
  }

  /** Senders exist only for reserved keys. */
  predicate SendersReserved(g: Gate) {
    g.senders.Keys <= g.cancels.Keys
  }

  /** An Acquire that passes a sender but no cancel function. */
  predicate SenderOnly(step: Step) {
    step.Acquire? && step.sender && !step.cancel
  }

  /** Every sender-only Acquire of a run finds its key reserved, so that it fails. */
  predicate SenderOnlyRefused(steps: seq<Step>) {
    forall n :: 0 <= n < |steps| && SenderOnly(steps[n]) ==> steps[n].key in Run(steps[..n]).cancels
  }

  predicate AlwaysReserved(steps: seq<Step>) {
    forall n :: 0 <= n <= |steps| ==> SendersReserved(Run(steps[..n]))
  }

  /** Throughout a run senders exist only for reserved keys exactly when every Acquire that passes a
      sender and no cancel function is refused. */
  lemma {:induction false} SendersReservedExactly(steps: seq<Step>)
    ensures AlwaysReserved(steps) <==> SenderOnlyRefused(steps)
  {
    hide SendersReserved, SenderOnly, Next;
    if steps == [] {
      NoSenders();
    } else {
      var k := |steps| - 1;
      var pre := steps[..k];
      SendersReservedExactly(pre);
      assert forall n :: 0 <= n <= k ==> pre[..n] == steps[..n];
      assert forall n :: 0 <= n < k ==> pre[n] == steps[n];
      assert steps[..k + 1] == steps;
      if SendersReserved(Run(pre)) {
        StepSenders(Run(pre), steps[k]);
      }
      assert AlwaysReserved(steps) <==> AlwaysReserved(pre) && SendersReserved(Run(steps));
      assert AlwaysReserved(pre) ==> SendersReserved(Run(pre[..k]));
    }
  }

  lemma NoSenders()
    ensures SendersReserved(Run([]))
  {
  }

  /** Only an Acquire of a free key with a sender and no cancel function leaves a sender behind for a
      key that is not reserved. */
  lemma StepSenders(g: Gate, step: Step)
    requires SendersReserved(g)
    ensures SendersReserved(Next(g, step)) <==> !(SenderOnly(step) && step.key !in g.cancels)
  {
    if SenderOnly(step) && step.key !in g.cancels {
      assert step.key in Next(g, step).senders.Keys;
    }
  }

  // ---------------------------------------------------------------- cancel functions

  /** A cancel function is registered, detached or called, never two of these, and once. */
  ghost predicate CalledOnce(g: Gate) {
    && (forall k, m :: k in g.cancels && m in g.cancels && k != m ==> g.cancels[k] != g.cancels[m])
    && (forall t, u :: t in g.detached && u in g.detached && t != u && g.detached[t].cancel.Some? ==>
          g.detached[t].cancel != g.detached[u].cancel)
    && (forall k, t :: k in g.cancels && t in g.detached ==> g.detached[t].cancel != Some(g.cancels[k]))
    && (forall i, j :: 0 <= i < j < |g.calls| && g.calls[i].Cancelled? && g.calls[j].Cancelled? ==>
          g.calls[i].cancel != g.calls[j].cancel)
    && (forall i, k :: 0 <= i < |g.calls| && g.calls[i].Cancelled? && k in g.cancels ==>
          g.calls[i].cancel != g.cancels[k])
    && (forall i, t :: 0 <= i < |g.calls| && g.calls[i].Cancelled? && t in g.detached ==>
          g.detached[t].cancel != Some(g.calls[i].cancel))
  }

  ghost predicate OnlyNumbered(g: Gate) {
    && (forall k :: k in g.cancels ==> g.cancels[k] < g.next)
    && (forall t :: t in g.detached && g.detached[t].cancel.Some? ==> g.detached[t].cancel.value < g.next)
    && (forall i :: 0 <= i < |g.calls| && g.calls[i].Cancelled? ==> g.calls[i].cancel < g.next)
  }

  /** The daemon cancel detached with a cancel function was sent before that function was called. */
  ghost predicate SentFirst(g: Gate) {
    && (forall t :: t in g.detached && g.detached[t].sent && g.detached[t].sender.Some? ==>
          Sent(g.detached[t].sender.value) in g.calls)
    && (forall i :: 0 <= i < |g.calls| && g.calls[i].Cancelled? && g.calls[i].detachedWith.Some? ==>
          Sent(g.calls[i].detachedWith.value) in g.calls[..i])
  }

  lemma OnceStep(g: Gate, step: Step)
    requires CalledOnce(g) && OnlyNumbered(g)
    ensures CalledOnce(Next(g, step)) && OnlyNumbered(Next(g, step))
  {
    hide CalledOnce, OnlyNumbered, Next, Reregistered;
    if step.CancelLocal? {
      OnceCall(g, step.thread);
    } else if step.Detach? {
      OnceDetach(g, step.thread, step.key);
    } else if step.Send? {
      OnceSend(g, step.thread);
    } else {
      RegisterStep(g, step);
      OnceRegister(g, Next(g, step), step.key);
    }
  }

  /** Registration and removal leave every cancel function registered before, or number a new one. */
  predicate Reregistered(g: Gate, g': Gate, key: string) {
    && g' == g.(cancels := g'.cancels, senders := g'.senders, next := g'.next) && g.next <= g'.next
    && forall k :: k in g'.cancels ==>
         (k in g.cancels && g'.cancels[k] == g.cancels[k]) || (k == key && g.next <= g'.cancels[k] < g'.next)
  }

  lemma RegisterStep(g: Gate, step: Step)
    requires step.Acquire? || step.Release? || step.SetSendCancel? || step.ReplaceCancel?
    ensures Reregistered(g, Next(g, step), step.key)
  {
  }

  lemma OnceRegister(g: Gate, g': Gate, key: string)
    requires CalledOnce(g) && OnlyNumbered(g) && Reregistered(g, g', key)
    ensures CalledOnce(g') && OnlyNumbered(g')
  {
  }

  lemma OnceCall(g: Gate, t: Thread)
    requires CalledOnce(g) && OnlyNumbered(g)
    ensures CalledOnce(Next(g, CancelLocal(t))) && OnlyNumbered(Next(g, CancelLocal(t)))
  {
  }

  lemma OnceDetach(g: Gate, t: Thread, key: string)
    requires CalledOnce(g) && OnlyNumbered(g)
    ensures CalledOnce(Next(g, Detach(t, key))) && OnlyNumbered(Next(g, Detach(t, key)))
  {
  }

  lemma OnceSend(g: Gate, t: Thread)
    requires CalledOnce(g) && OnlyNumbered(g)
    ensures CalledOnce(Next(g, Send(t))) && OnlyNumbered(Next(g, Send(t)))
  {
    hide Next, CalledOnce, OnlyNumbered, SameCancels;
    SendKeepsCancels(g, t);
    OnceSame(g, Next(g, Send(t)));
  }

  /** The same cancel functions are registered, detached and called. */
  predicate SameCancels(g: Gate, g': Gate) {
    && g'.cancels == g.cancels && g'.next == g.next && |g.calls| <= |g'.calls|
    && (forall t :: t in g'.detached ==> t in g.detached && g'.detached[t].cancel == g.detached[t].cancel)
    && (forall i :: 0 <= i < |g'.calls| && g'.calls[i].Cancelled? ==> i < |g.calls| && g'.calls[i] == g.calls[i])
  }

  lemma SendKeepsCancels(g: Gate, t: Thread)
    ensures SameCancels(g, Next(g, Send(t)))
  {
  }

  lemma OnceSame(g: Gate, g': Gate)
    requires CalledOnce(g) && OnlyNumbered(g) && SameCancels(g, g')
    ensures CalledOnce(g') && OnlyNumbered(g')
  {
  }

  lemma SentFirstStep(g: Gate, step: Step)
    requires SentFirst(g)
    ensures SentFirst(Next(g, step))
  {
    var g' := Next(g, step);
    if |g'.calls| > |g.calls| {
      assert g'.calls[..|g.calls|] == g.calls;
      assert forall i :: 0 <= i <= |g.calls| ==> g'.calls[..i] == g.calls[..i];
    }
  }

  /** In every interleaving each registered cancel function is called by the gate at most once, and
      the daemon cancel detached with it has been sent before. */
  lemma {:induction false} CancelDiscipline(steps: seq<Step>)
    ensures CalledOnce(Run(steps)) && OnlyNumbered(Run(steps)) && SentFirst(Run(steps))
  {
    if steps != [] {
      CancelDiscipline(steps[..|steps| - 1]);
      OnceStep(Run(steps[..|steps| - 1]), steps[|steps| - 1]);
      SentFirstStep(Run(steps[..|steps| - 1]), steps[|steps| - 1]);
    }
  }

  // ---------------------------------------------------------------- cancels do happen

  /** Where the Cancel of thread `t` is after a Detach: nothing called, the daemon cancel sent, or
      everything called. */
  predicate Pursued(g: Gate, t: Thread, cancel: Option<Token>, sender: Option<Token>) {
    var sent := sender.Some? ==> Sent(sender.value) in g.calls;
    || (t in g.detached && g.detached[t] == Detached(cancel, sender, false))
    || (t in g.detached && g.detached[t] == Detached(cancel, sender, true) && sent)
    || (sent && (cancel.Some? ==> Cancelled(cancel.value, sender) in g.calls))
  }

  lemma PursuedStep(g: Gate, step: Step, t: Thread, cancel: Option<Token>, sender: Option<Token>)
    requires Pursued(g, t, cancel, sender)
    ensures Pursued(Next(g, step), t, cancel, sender)
  {
  }

  /** From a Detach on, in every interleaving, the detached functions are called unless the thread has
      not come to it. */
  lemma {:induction false} DetachedIsPursued(steps: seq<Step>, i: nat, j: nat)
    requires i < j <= |steps| && steps[i].Detach? && steps[i].thread !in Run(steps[..i]).detached
    ensures var g := Run(steps[..i]);
            Pursued(Run(steps[..j]), steps[i].thread, Lookup(g.cancels, steps[i].key), Lookup(g.senders, steps[i].key))
  {
    hide Pursued;
    var g := Run(steps[..i]);
    var cancel, sender := Lookup(g.cancels, steps[i].key), Lookup(g.senders, steps[i].key);
    assert steps[..j][..j - 1] == steps[..j - 1];
    if i < j - 1 {
      hide Next;
      DetachedIsPursued(steps, i, j - 1);
      PursuedStep(Run(steps[..j - 1]), steps[j - 1], steps[i].thread, cancel, sender);
    } else {
      JustDetached(g, steps[i]);
    }
  }

  lemma JustDetached(g: Gate, step: Step)
    requires step.Detach? && step.thread !in g.detached
    ensures Pursued(Next(g, step), step.thread, Lookup(g.cancels, step.key), Lookup(g.senders, step.key))
  {
  }

  /** A cancel function that a Detach found registered is called exactly once by the time its thread
      has left its Cancel, with the daemon cancel found with it sent before. */
  lemma CancelledExactlyOnce(steps: seq<Step>, i: nat)
    requires i < |steps| && steps[i].Detach? && steps[i].thread !in Run(steps[..i]).detached
    requires steps[i].key in Run(steps[..i]).cancels && steps[i].thread !in Run(steps).detached
    ensures var g, calls := Run(steps[..i]), Run(steps).calls;
            var c, sender := g.cancels[steps[i].key], Lookup(g.senders, steps[i].key);
            exists k :: && 0 <= k < |calls| && calls[k] == Cancelled(c, sender)
                        && (forall l :: 0 <= l < |calls| && calls[l].Cancelled? && calls[l].cancel == c ==> l == k)
                        && (sender.Some? ==> Sent(sender.value) in calls[..k])
  {
    hide Next;
    var g, calls := Run(steps[..i]), Run(steps).calls;
    var c, sender := g.cancels[steps[i].key], Lookup(g.senders, steps[i].key);
    assert steps[..|steps|] == steps;
    DetachedIsPursued(steps, i, |steps|);
    CancelDiscipline(steps);
    var k :| 0 <= k < |calls| && calls[k] == Cancelled(c, sender);
  }

  // ---------------------------------------------------------------- the object

  class QueryGate {
    var cancels: map<string, Token>
    var sendCancels: map<string, Token>
    var calls: seq<Call>  // functions invoked by the gate, in order
    var next: Token       // the number of the next function passed in

    /** The gate with no Cancel under way. */
    function View(): Gate
      reads this
    {
      Gate(cancels, sendCancels, map[], calls, next)
    }

    constructor ()
      ensures View() == Run([])
    {
      cancels, sendCancels, calls, next := map[], map[], [], 0;
    }

    /** Reserve the key, unless it is reserved. */
    method TryAcquire(appKey: string, cancel: bool, sendCancel: bool) returns (busy: bool)
      modifies this
      ensures busy == (appKey in old(cancels))
      ensures View() == Next(old(View()), Acquire(appKey, cancel, sendCancel))
      ensures busy ==> View() == old(View())
      ensures !busy ==>
                && cancels == (if cancel then old(cancels)[appKey := old(next)] else old(cancels))
                && sendCancels == (if sendCancel then old(sendCancels)[appKey := old(next) + 1] else old(sendCancels))
    {
      if appKey in cancels {
        return true;
      }
      if cancel {
        cancels := cancels[appKey := next];
      }
      if sendCancel {
        sendCancels := sendCancels[appKey := next + 1];
      }
      next := next + 2;
      return false;
    }

    /** Stop the query of the key: the daemon first, then the local context, each if there is one. */
    method Cancel(appKey: string)
      modifies this
      ensures View() == Next(Next(Next(old(View()), Detach(0, appKey)), Send(0)), CancelLocal(0))
      ensures appKey !in cancels && appKey !in sendCancels
      ensures calls == old(calls)
        + (if appKey in old(sendCancels) then [Sent(old(sendCancels)[appKey])] else [])
        + (if appKey in old(cancels) then [Cancelled(old(cancels)[appKey], Lookup(old(sendCancels), appKey))] else [])
    {
      var cancel := Lookup(cancels, appKey);
      var sendCancel := Lookup(sendCancels, appKey);
      cancels := cancels - {appKey};
      sendCancels := sendCancels - {appKey};
      ghost var d := Detached(cancel, sendCancel, false);
      assert map[0 := d][0 := d.(sent := true)] - {0} == map[];
      if cancel == None && sendCancel == None {
        return;
      }
      if sendCancel.Some? {
        calls := calls + [Sent(sendCancel.value)];
      }
      if cancel.Some? {
        calls := calls + [Cancelled(cancel.value, sendCancel)];
      }
    }

    method Free(appKey: string)
      modifies this
      ensures View() == Next(old(View()), Release(appKey))
      ensures cancels == old(cancels) - {appKey} && sendCancels == old(sendCancels) - {appKey} && calls == old(calls)
    {
      cancels := cancels - {appKey};
      sendCancels := sendCancels - {appKey};
    }

    method UpdateSendCancel(appKey: string, sendCancel: bool)
      modifies this
      ensures View() == Next(old(View()), SetSendCancel(appKey, sendCancel))
      ensures cancels == old(cancels) && calls == old(calls)
      ensures sendCancels == if appKey in cancels && sendCancel then old(sendCancels)[appKey := old(next)]
                             else old(sendCancels)
    {
      if appKey !in cancels {
        return;
      }
      if sendCancel {
        sendCancels := sendCancels[appKey := next];
        next := next + 1;
      }
    }

    method UpdateCancel(appKey: string, cancel: bool)
      modifies this
      ensures View() == Next(old(View()), ReplaceCancel(appKey, cancel))
      ensures sendCancels == old(sendCancels) && calls == old(calls)
      ensures cancels == if appKey in old(cancels) && cancel then old(cancels)[appKey := old(next)] else old(cancels)
    {
      if appKey !in cancels || !cancel {
        return;
      }
      cancels := cancels[appKey := next];
      next := next + 1;
    }

    /** The key is active exactly when every Acquire of it is refused. */
    method IsActive(appKey: string) returns (active: bool)
      ensures active == (appKey in cancels)
      ensures active <==> forall cancel, sender :: Next(View(), Acquire(appKey, cancel, sender)) == View()
    {
      assert appKey !in cancels ==> Next(View(), Acquire(appKey, true, true)).next != next;
      return appKey in cancels;
    }
  }
}
