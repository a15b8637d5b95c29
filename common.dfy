/**
 * Small wrappers shared by every module of the model.
 */
module Common {
  /** Rust's `Option`. */
  datatype Option<T> = None | Some(value: T)

  /**
   * The result of running one step of an async task: it finished with a
   * value, it is parked waiting for something, or it panicked (an `unwrap`
   * on a closed channel, an out-of-range index, a `todo!`).
   */
  datatype Poll<T> = Ready(value: T) | Pending | Panicked

  /** A synchronous computation that either returns a value or panics. */
  datatype Outcome<T> = Ok(value: T) | Panic

  /** The largest `usize` on a 64-bit target; the stream cursors use it as "no frame yet". */
  const USIZE_MAX: nat := 0xFFFF_FFFF_FFFF_FFFF

  const I32_MIN: int := -0x8000_0000
  const I32_MAX: int := 0x7FFF_FFFF
  const TWO_POW_32: int := 0x1_0000_0000

  /** `Option::unwrap_or`. */
  function ValueOr<T>(o: Option<T>, d: T): (r: T)
    ensures o.Some? ==> r == o.value
    ensures o.None? ==> r == d
  {
    match o
    case Some(v) => v
    case None => d
  }

  /** `[f32; 2]`: a position or a size. */
  type Vec2 = (real, real)

  /**
   * Rust's `Vec::retain_mut` with a closure that reads the mail `ms[i]` of
   * element `i` and either keeps an updated element or drops it: the kept
   * elements, updated, in their original order.
   */
  function RetainMut<A, M>(xs: seq<A>, ms: seq<M>, f: (A, M) -> Option<A>): (r: seq<A>)
    requires |xs| == |ms|
    ensures |r| <= |xs|
  {
    if xs == [] then []
    else
      var n := |xs| - 1;
      RetainMut(xs[..n], ms[..n], f) + (match f(xs[n], ms[n]) case Some(y) => [y] case None => [])
  }

  /** The positions, in ascending order, of the elements `RetainMut` keeps. */
  function KeptIndices<A, M>(xs: seq<A>, ms: seq<M>, f: (A, M) -> Option<A>): (ks: seq<nat>)
    requires |xs| == |ms|
    ensures forall j :: 0 <= j < |ks| ==> ks[j] < |xs|
    ensures forall j, k :: 0 <= j < k < |ks| ==> ks[j] < ks[k]
  {
    if xs == [] then []
    else
      var n := |xs| - 1;
      KeptIndices(xs[..n], ms[..n], f) + (if f(xs[n], ms[n]).Some? then [n] else [])
  }

  /**
   * `RetainMut` keeps exactly the elements the closure keeps, in order: its
   * `j`-th result is the closure's result for the `j`-th kept position, the
   * kept positions ascend, and a position is kept iff the closure says so.
   */
  lemma {:induction false} RetainMutSpec<A, M>(xs: seq<A>, ms: seq<M>, f: (A, M) -> Option<A>)
    requires |xs| == |ms|
    ensures var r, ks := RetainMut(xs, ms, f), KeptIndices(xs, ms, f);
      |r| == |ks| &&
      (forall j :: 0 <= j < |ks| ==> ks[j] < |xs| && f(xs[ks[j]], ms[ks[j]]) == Some(r[j])) &&
      (forall j, k :: 0 <= j < k < |ks| ==> ks[j] < ks[k]) &&
      (forall i :: 0 <= i < |xs| ==> (f(xs[i], ms[i]).Some? <==> i in ks))
  {
    if xs != [] {
      var n := |xs| - 1;
      var xs0, ms0 := xs[..n], ms[..n];
      RetainMutSpec(xs0, ms0, f);
      var r0, ks0 := RetainMut(xs0, ms0, f), KeptIndices(xs0, ms0, f);
      var r, ks := RetainMut(xs, ms, f), KeptIndices(xs, ms, f);
      assert forall i :: 0 <= i < n ==> xs0[i] == xs[i] && ms0[i] == ms[i];
      if f(xs[n], ms[n]).Some? {
        assert r == r0 + [f(xs[n], ms[n]).value] && ks == ks0 + [n];
      } else {
        assert r == r0 && ks == ks0;
      }
    }
  }
}
