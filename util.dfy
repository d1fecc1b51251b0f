// Small shared vocabulary: optional values, results, and the real-valued
// sums the forecast reasons about.
module Util {

  datatype Option<T> = None | Some(value: T)

  datatype Result<T, E> = Ok(value: T) | Err(error: E)

  function Min(a: real, b: real): real { if a <= b then a else b }

  function Max(a: real, b: real): real { if a >= b then a else b }

  /** Python's min() over a non-empty list of integers. */
  function MinOf(s: seq<int>): (m: int)
    requires |s| > 0
    ensures m in s
    ensures forall i :: 0 <= i < |s| ==> m <= s[i]
  {
    if |s| == 1 then s[0]
    else
      var rest := MinOf(s[1..]);
      assert forall i :: 1 <= i < |s| ==> s[i] == s[1..][i - 1];
      if s[0] <= rest then s[0] else rest
  }

  /** Python's sum() over a list of reals, accumulated left to right. */
  function Sum(s: seq<real>): real
    decreases |s|
  {
    if |s| == 0 then 0.0 else Sum(s[..|s| - 1]) + s[|s| - 1]
  }

  /** How many integers i satisfy lo <= i <= hi and 0 <= i < n. */
  function Overlap(lo: int, hi: int, n: nat): nat
  {
    var a := if lo > 0 then lo else 0;
    var b := if hi < n - 1 then hi else n - 1;
    if a <= b then b - a + 1 else 0
  }

  lemma {:induction false} SumNonNegative(s: seq<real>)
    requires forall i :: 0 <= i < |s| ==> s[i] >= 0.0
    ensures Sum(s) >= 0.0
  {
    if |s| > 0 {
      SumNonNegative(s[..|s| - 1]);
    }
  }

  lemma {:induction false} SumOfZeros(s: seq<real>)
    requires forall i :: 0 <= i < |s| ==> s[i] == 0.0
    ensures Sum(s) == 0.0
  {
    if |s| > 0 {
      SumOfZeros(s[..|s| - 1]);
    }
  }

  lemma {:induction false} SumScaled(s: seq<real>, t: seq<real>, c: real)
    requires |t| == |s|
    requires forall i :: 0 <= i < |s| ==> t[i] == s[i] * c
    ensures Sum(t) == Sum(s) * c
  {
    if |s| > 0 {
      SumScaled(s[..|s| - 1], t[..|t| - 1], c);
    }
  }

  lemma {:induction false} SumOfThree(a: seq<real>, b: seq<real>, c: seq<real>, t: seq<real>)
    requires |a| == |t| && |b| == |t| && |c| == |t|
    requires forall i :: 0 <= i < |t| ==> t[i] == a[i] + b[i] + c[i]
    ensures Sum(t) == Sum(a) + Sum(b) + Sum(c)
  {
    if |t| > 0 {
      var n := |t| - 1;
      SumOfThree(a[..n], b[..n], c[..n], t[..n]);
    }
  }

  /** A series that is c on the window [lo, hi] and 0 elsewhere sums to c times the window's overlap. */
  lemma {:induction false} SumOfWindow(s: seq<real>, lo: int, hi: int, c: real)
    requires forall i :: 0 <= i < |s| ==> s[i] == if lo <= i <= hi then c else 0.0
    ensures Sum(s) == c * Overlap(lo, hi, |s|) as real
  {
    if |s| > 0 {
      var n := |s| - 1;
      SumOfWindow(s[..n], lo, hi, c);
      assert Overlap(lo, hi, |s|) == Overlap(lo, hi, n) + if lo <= n <= hi then 1 else 0;
    }
  }
}
