/** The speech-focus band-pass stage: SciPy's `lfilter(b, a, x)`, a causal
    direct-form IIR filter, run from a zero initial state on each block.
    The Butterworth design of `b` and `a` (`butter`) is transcendental and
    is supplied as data. */
module BandPass {

  /** Sample j of a signal, with silence before its start. */
  function At(s: seq<real>, j: int): real {
    if 0 <= j < |s| then s[j] else 0.0
  }

  /** The tapped sum c[0]*s[m] + c[1]*s[m-1] + ... + c[|c|-1]*s[m-|c|+1]. */
  function Tap(c: seq<real>, s: seq<real>, m: int): real
    decreases |c|
  {
    if c == [] then 0.0
    else Tap(c[..|c| - 1], s, m) + c[|c| - 1] * At(s, m - (|c| - 1))
  }

  /** What `lfilter` requires of the denominator: a non-zero leading coefficient. */
  predicate Coefficients(b: seq<real>, a: seq<real>) {
    |a| > 0 && a[0] != 0.0
  }

  /** y[n] = (sum b[k]*x[n-k] - sum_{k>=1} a[k]*y[n-k]) / a[0], for n in order,
      with x and y taken as zero before the block starts. */
  function Filter(b: seq<real>, a: seq<real>, x: seq<real>): (y: seq<real>)
    requires Coefficients(b, a)
    ensures |y| == |x|
    decreases |x|
  {
    if x == [] then []
    else
      var prev := Filter(b, a, x[..|x| - 1]);
      var n := |x| - 1;
      prev + [(Tap(b, x, n) - Tap(a[1..], prev, n - 1)) / a[0]]
  }

  /** A tapped sum over silence is zero. */
  lemma {:induction false} TapSilence(c: seq<real>, s: seq<real>, m: int)
    requires forall j :: 0 <= j < |s| ==> s[j] == 0.0
    ensures Tap(c, s, m) == 0.0
    decreases |c|
  {
    if c != [] {
      TapSilence(c[..|c| - 1], s, m);
    }
  }

  /** Causality: the first k outputs depend only on the first k inputs. */
  lemma {:induction false} FilterCausal(b: seq<real>, a: seq<real>, x: seq<real>, k: nat)
    requires Coefficients(b, a) && k <= |x|
    ensures Filter(b, a, x)[..k] == Filter(b, a, x[..k])
    decreases |x|
  {
    if k < |x| {
      var init := x[..|x| - 1];
      FilterCausal(b, a, init, k);
      assert init[..k] == x[..k];
      var y := Filter(b, a, x);
      assert y[..|x| - 1] == Filter(b, a, init);
      assert y[..k] == y[..|x| - 1][..k];
    } else {
      assert x[..k] == x;
    }
  }

  /** Silence in, silence out: the filter starts from rest. */
  lemma {:induction false} FilterSilence(b: seq<real>, a: seq<real>, x: seq<real>)
    requires Coefficients(b, a)
    requires forall j :: 0 <= j < |x| ==> x[j] == 0.0
    ensures forall j :: 0 <= j < |x| ==> Filter(b, a, x)[j] == 0.0
    decreases |x|
  {
    if x != [] {
      var init := x[..|x| - 1];
      FilterSilence(b, a, init);
      var prev := Filter(b, a, init);
      TapSilence(b, x, |x| - 1);
      TapSilence(a[1..], prev, |x| - 2);
      assert Filter(b, a, x)[|x| - 1] == 0.0 / a[0];
    }
  }

  /** The filter restarts from rest on every call, so filtering two blocks
      separately is not filtering their concatenation. An illustration with
      the simplest filter that has memory, a one-sample delay (b = [0, 1],
      a = [1]): an impulse at the end of one block is lost instead of
      appearing at the start of the next. */
  lemma FilterForgetsAcrossBlocks()
    ensures Filter([0.0, 1.0], [1.0], [1.0, 0.0]) == [0.0, 1.0]
    ensures Filter([0.0, 1.0], [1.0], [1.0]) + Filter([0.0, 1.0], [1.0], [0.0]) == [0.0, 0.0]
  {
    var b, a := [0.0, 1.0], [1.0];
    assert b[..1] == [0.0] && [0.0][..0] == [] && a[1..] == [];
    // one output: the delay line is empty, so b[1] multiplies silence
    assert Tap(b, [1.0], 0) == 0.0;
    assert Tap(b, [0.0], 0) == 0.0;
    assert [1.0][..0] == [] && [0.0][..0] == [];
    assert Filter(b, a, [1.0]) == [0.0];
    assert Filter(b, a, [0.0]) == [0.0];
    // two outputs: the second one sees the first input through b[1]
    assert [1.0, 0.0][..1] == [1.0];
    assert Tap(b, [1.0, 0.0], 1) == 1.0;
    assert Filter(b, a, [1.0, 0.0]) == [0.0] + [(1.0 - 0.0) / 1.0];
  }
}
