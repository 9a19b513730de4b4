/** Small definitions used by several modules. */
module Shared {

  datatype Option<+T> = None | Some(value: T)

  function Without<T>(q: seq<T>, k: nat): seq<T>
    requires k < |q|
  {
    q[..k] + q[k + 1..]
  }

  /** `xs` occurs in `ys` in order, at the positions `at`. */
  ghost predicate EmbedsAt<T>(xs: seq<T>, ys: seq<T>, at: seq<nat>) {
    && |at| == |xs|
    && (forall i :: 0 <= i < |at| ==> at[i] < |ys| && ys[at[i]] == xs[i])
    && (forall i, j :: 0 <= i < j < |at| ==> at[i] < at[j])
  }

  ghost predicate InOrder<T>(xs: seq<T>, ys: seq<T>) {
    exists at: seq<nat> :: EmbedsAt(xs, ys, at)
  }

  lemma NothingInOrder<T>(ys: seq<T>)
    ensures InOrder([], ys)
  {
    var none: seq<T> := [];
    assert EmbedsAt(none, ys, []);
  }

  lemma InOrderAppend<T>(xs: seq<T>, ys: seq<T>, f: T)
    requires InOrder(xs, ys)
    ensures InOrder(xs + [f], ys + [f]) && InOrder(xs, ys + [f])
  {
    var at: seq<nat> :| EmbedsAt(xs, ys, at);
    assert EmbedsAt(xs, ys + [f], at);
    assert EmbedsAt(xs + [f], ys + [f], at + [|ys|]);
  }

  lemma InOrderWithout<T>(xs: seq<T>, ys: seq<T>, k: nat)
    requires InOrder(xs, ys) && k < |xs|
    ensures InOrder(Without(xs, k), ys)
  {
    var at: seq<nat> :| EmbedsAt(xs, ys, at);
    assert EmbedsAt(Without(xs, k), ys, at[..k] + at[k + 1..]);
  }
}
