/**
 * The numpy and Python built-ins the engine leans on, over exact reals:
 * `int()` on a float, `np.max(np.abs(..))`, `np.min`/`np.max`, `np.linspace`
 * and element-wise division.
 */
module ArrayOps {

  /** Python's `int(x)` for a float: truncation toward zero (the floor only for x >= 0). */
  function Trunc(x: real): (r: int)
    ensures 0.0 <= x ==> 0 <= r && r as real <= x < r as real + 1.0
    ensures x < 0.0 ==> r <= 0 && r as real - 1.0 < x <= r as real
  {
    if 0.0 <= x then x.Floor else -((-x).Floor)
  }

  function Abs(x: real): real
  {
    if x < 0.0 then -x else x
  }

  predicate AllZero(s: seq<real>)
  {
    forall k :: 0 <= k < |s| ==> s[k] == 0.0
  }

  /** `np.max(np.abs(s))`; numpy refuses the empty array, hence the precondition. */
  function PeakAbs(s: seq<real>): (p: real)
    requires |s| > 0
    ensures forall k :: 0 <= k < |s| ==> Abs(s[k]) <= p
    ensures exists k :: 0 <= k < |s| && Abs(s[k]) == p
    decreases |s|
  {
    if |s| == 1 then Abs(s[0])
    else
      var q := PeakAbs(s[..|s| - 1]);
      assert forall k :: 0 <= k < |s| - 1 ==> s[..|s| - 1][k] == s[k];
      if q < Abs(s[|s| - 1]) then Abs(s[|s| - 1]) else q
  }

  /** The peak is zero exactly when every sample is zero. */
  lemma PeakZeroIffSilent(s: seq<real>)
    requires |s| > 0
    ensures PeakAbs(s) == 0.0 <==> AllZero(s)
    ensures 0.0 <= PeakAbs(s)
  {
    if PeakAbs(s) == 0.0 {
      forall k | 0 <= k < |s| ensures s[k] == 0.0 {
        assert Abs(s[k]) <= 0.0;
      }
    }
    assert Abs(s[0]) <= PeakAbs(s);
  }

  /** `np.min(s)`. */
  function SeqMin(s: seq<real>): (m: real)
    requires |s| > 0
    ensures m in s
    ensures forall k :: 0 <= k < |s| ==> m <= s[k]
    decreases |s|
  {
    if |s| == 1 then s[0]
    else
      var q := SeqMin(s[..|s| - 1]);
      assert forall k :: 0 <= k < |s| - 1 ==> s[..|s| - 1][k] == s[k];
      if s[|s| - 1] < q then s[|s| - 1] else q
  }

  /** `np.max(s)`. */
  function SeqMax(s: seq<real>): (m: real)
    requires |s| > 0
    ensures m in s
    ensures forall k :: 0 <= k < |s| ==> s[k] <= m
    decreases |s|
  {
    if |s| == 1 then s[0]
    else
      var q := SeqMax(s[..|s| - 1]);
      assert forall k :: 0 <= k < |s| - 1 ==> s[..|s| - 1][k] == s[k];
      if q < s[|s| - 1] then s[|s| - 1] else q
  }

  /** `r` is `s` divided by `p`: each r[k] times p gives back s[k]. */
  predicate ScaledBy(r: seq<real>, s: seq<real>, p: real)
  {
    |r| == |s| && forall k :: 0 <= k < |s| ==> r[k] * p == s[k]
  }

  /** `s / p` element-wise. */
  function Div(s: seq<real>, p: real): (r: seq<real>)
    requires p != 0.0
    ensures |r| == |s|
    ensures ScaledBy(r, s, p)
  {
    seq(|s|, k requires 0 <= k < |s| => s[k] / p)
  }

  lemma DivConcat(a: seq<real>, b: seq<real>, p: real)
    requires p != 0.0
    ensures Div(a, p) + Div(b, p) == Div(a + b, p)
  {
    assert forall k :: 0 <= k < |a + b| ==> (Div(a, p) + Div(b, p))[k] == Div(a + b, p)[k];
  }

  /**
   * `if np.max(np.abs(s)) > 0: s /= np.max(np.abs(s))`: peak normalisation,
   * which keeps a silent signal and divides any other by its one positive peak.
   */
  function NormalizePeak(s: seq<real>): (r: seq<real>)
    requires |s| > 0
    ensures |r| == |s|
    ensures PeakAbs(s) == 0.0 ==> r == s
    ensures 0.0 < PeakAbs(s) ==> ScaledBy(r, s, PeakAbs(s))
  {
    var p := PeakAbs(s);
    if p > 0.0 then Div(s, p) else s
  }

  lemma MulNonNegative(x: real, y: real)
    requires 0.0 <= x && 0.0 <= y
    ensures 0.0 <= x * y
  {
  }

  lemma MulPositive(x: real, y: real)
    requires 0.0 < x && 0.0 < y
    ensures 0.0 < x * y
  {
  }

  lemma AbsDiv(x: real, p: real)
    requires 0.0 < p
    ensures Abs(x / p) * p == Abs(x)
    ensures Abs(x) <= p ==> Abs(x / p) <= 1.0
    ensures Abs(x) == p ==> Abs(x / p) == 1.0
  {
    var q := x / p;
    assert q * p == x;
    if 0.0 <= x && q < 0.0 {
      MulNonNegative(-q, p);
    }
    if x < 0.0 && 0.0 <= q {
      MulNonNegative(q, p);
    }
    assert Abs(q) * p == Abs(x);
    if Abs(x) <= p && 1.0 < Abs(q) {
      MulPositive(Abs(q) - 1.0, p);
    }
    if Abs(x) == p && Abs(q) < 1.0 {
      MulPositive(1.0 - Abs(q), p);
    }
  }

  /** Dividing by the peak gives a signal of peak exactly 1. */
  lemma DivByPeak(s: seq<real>)
    requires |s| > 0 && 0.0 < PeakAbs(s)
    ensures PeakAbs(Div(s, PeakAbs(s))) == 1.0
  {
    var p := PeakAbs(s);
    var r := Div(s, p);
    forall k | 0 <= k < |s| ensures Abs(r[k]) <= 1.0 {
      AbsDiv(s[k], p);
    }
    var j :| 0 <= j < |s| && Abs(s[j]) == p;
    AbsDiv(s[j], p);
    var i :| 0 <= i < |r| && Abs(r[i]) == PeakAbs(r);
    assert Abs(r[i]) <= 1.0 && Abs(r[j]) <= PeakAbs(r);
  }

  /**
   * After normalisation a signal is either silent and untouched, or has peak
   * absolute value exactly 1.
   */
  lemma NormalizePeakUnit(s: seq<real>)
    requires |s| > 0
    ensures AllZero(s) ==> NormalizePeak(s) == s
    ensures !AllZero(s) ==> PeakAbs(NormalizePeak(s)) == 1.0
    ensures AllZero(NormalizePeak(s)) || PeakAbs(NormalizePeak(s)) == 1.0
  {
    PeakZeroIffSilent(s);
    var p := PeakAbs(s);
    if 0.0 < p {
      DivByPeak(s);
      assert NormalizePeak(s) == Div(s, p);
    } else {
      assert NormalizePeak(s) == s;
    }
  }

  predicate Between(a: real, b: real, x: real)
  {
    (a <= x <= b) || (b <= x <= a)
  }

  /** `np.linspace(start, stop, num)` with its end point included. */
  function Linspace(start: real, stop: real, num: nat): (r: seq<real>)
    ensures |r| == num
    ensures 0 < num ==> r[0] == start
    ensures 1 < num ==> r[num - 1] == stop
  {
    if num == 1 then [start]
    else
      var step := (stop - start) / (num - 1) as real;
      assert 1 < num ==> (num - 1) as real * step == stop - start;
      seq(num, k requires 0 <= k < num => start + k as real * step)
  }

  lemma Blend(a: real, b: real, f: real)
    requires 0.0 <= f <= 1.0
    ensures Between(a, b, a + f * (b - a))
  {
    if a <= b {
      MulNonNegative(f, b - a);
      MulNonNegative(1.0 - f, b - a);
    } else {
      MulNonNegative(f, a - b);
      MulNonNegative(1.0 - f, a - b);
    }
  }

  /** Every point of a linspace lies between its two ends. */
  lemma LinspaceBetween(start: real, stop: real, num: nat)
    ensures forall x :: x in Linspace(start, stop, num) ==> Between(start, stop, x)
  {
    var r := Linspace(start, stop, num);
    forall k | 0 <= k < num ensures Between(start, stop, r[k]) {
      if num == 1 {
        assert r[k] == start;
      } else {
        var d := (num - 1) as real;
        var f := k as real / d;
        assert r[k] == start + f * (stop - start);
        Blend(start, stop, f);
      }
    }
  }
}
