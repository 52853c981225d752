/** `numpy.arange(start, stop, step)` over exact reals: the values
    `start + i * step` for `i = 0, 1, ...` that lie strictly before `stop`
    in the direction of `step`. Floating-point accumulation is not modelled. */
module Arange {

  /** The least integer not below `x`. */
  function Ceil(x: real): (n: int)
    ensures x <= n as real < x + 1.0
  {
    -((-x).Floor)
  }

  /** numpy's element count: `max(0, ceil((stop - start) / step))`. */
  function ArangeLength(start: real, stop: real, step: real): nat
    requires step != 0.0
  {
    var n := Ceil((stop - start) / step);
    if n > 0 then n else 0
  }

  /** The `i`-th value of the walk from `start` by `step`. */
  function Nth(start: real, step: real, i: int): real {
    start + (i as real) * step
  }

  function Arange(start: real, stop: real, step: real): (r: seq<real>)
    requires step != 0.0
  {
    seq(ArangeLength(start, stop, step), i => Nth(start, step, i))
  }

  /** `x` lies strictly before `stop` when walking in the direction of `step`. */
  predicate Before(x: real, stop: real, step: real) {
    if step > 0.0 then x < stop else x > stop
  }

  /** Reference definition: element `i` is `start + i * step`, every element
      is before `stop`, and the next step would not be. */
  predicate IsArange(xs: seq<real>, start: real, stop: real, step: real) {
    && (forall i :: 0 <= i < |xs| ==> xs[i] == Nth(start, step, i))
    && (forall i :: 0 <= i < |xs| ==> Before(xs[i], stop, step))
    && !Before(Nth(start, step, |xs|), stop, step)
  }

  /** Scaling by a positive factor keeps the order. */
  lemma {:induction false} ScaleOrder(a: real, b: real, c: real)
    requires c > 0.0
    ensures a < b <==> a * c < b * c
  {
    assert b * c - a * c == (b - a) * c;
    if a < b {
      assert (b - a) * c > 0.0;
    } else {
      assert (a - b) * c >= 0.0;
    }
  }

  /** Consecutive values of the walk are exactly one step apart. */
  lemma {:induction false} NthNext(start: real, step: real, i: int)
    ensures Nth(start, step, i + 1) == Nth(start, step, i) + step
  {
    assert ((i + 1) as real) * step == (i as real) * step + step;
  }

  /** Where `start + i * step` lies relative to `stop`, in the direction of `step`. */
  lemma {:induction false} BeforeIff(start: real, stop: real, step: real, i: int)
    requires step != 0.0
    ensures Before(Nth(start, step, i), stop, step) <==> (i as real) < (stop - start) / step
  {
    var q := (stop - start) / step;
    var x := i as real;
    assert q * step == stop - start;
    if step > 0.0 {
      ScaleOrder(x, q, step);
      assert Before(Nth(start, step, i), stop, step) <==> x * step < q * step;
    } else {
      ScaleOrder(x, q, -step);
      assert x * (-step) == -(x * step) && q * (-step) == -(q * step);
      assert Before(Nth(start, step, i), stop, step) <==> x * step > q * step;
    }
  }

  /** `Arange` meets the reference definition. */
  lemma {:induction false} ArangeIsArange(start: real, stop: real, step: real)
    requires step != 0.0
    ensures IsArange(Arange(start, stop, step), start, stop, step)
  {
    var xs := Arange(start, stop, step);
    var q := (stop - start) / step;
    forall i | 0 <= i < |xs|
      ensures Before(xs[i], stop, step)
    {
      BeforeIff(start, stop, step, i);
    }
    BeforeIff(start, stop, step, |xs|);
  }

  /** Every solution of the reference definition has numpy's length. */
  lemma {:induction false} IsArangeLength(xs: seq<real>, start: real, stop: real, step: real)
    requires step != 0.0
    requires IsArange(xs, start, stop, step)
    ensures |xs| == ArangeLength(start, stop, step)
  {
    BeforeIff(start, stop, step, |xs|);
    if |xs| > 0 {
      assert Before(xs[|xs| - 1], stop, step);
      BeforeIff(start, stop, step, |xs| - 1);
    }
  }

  /** The reference definition has exactly one solution, and it is `Arange`. */
  lemma {:induction false} IsArangeUnique(xs: seq<real>, start: real, stop: real, step: real)
    requires step != 0.0
    requires IsArange(xs, start, stop, step)
    ensures xs == Arange(start, stop, step)
  {
    IsArangeLength(xs, start, stop, step);
  }

  /** With a positive step the range starts at `start` (when `start` is
      before `stop`), rises by exactly `step`, stays below `stop`, and
      contains every `start + k * step` that is below `stop`. */
  lemma {:induction false} ArangeAscending(start: real, stop: real, step: real)
    requires step > 0.0
    ensures var xs := Arange(start, stop, step);
      && (|xs| > 0 <==> start < stop)
      && (|xs| > 0 ==> xs[0] == start)
      && (forall i :: 0 <= i < |xs| - 1 ==> xs[i] < xs[i + 1] && xs[i + 1] - xs[i] == step)
      && (forall i :: 0 <= i < |xs| ==> xs[i] < stop)
      && (forall k: nat :: Nth(start, step, k) < stop ==> k < |xs|)
  {
    var xs := Arange(start, stop, step);
    ArangeIsArange(start, stop, step);
    forall i | 0 <= i < |xs| - 1
      ensures xs[i] < xs[i + 1] && xs[i + 1] - xs[i] == step
    {
      NthNext(start, step, i);
    }
    forall k: nat | Nth(start, step, k) < stop
      ensures k < |xs|
    {
      BeforeIff(start, stop, step, k);
      BeforeIff(start, stop, step, |xs|);
    }
    assert Nth(start, step, 0) == start;
  }
}
