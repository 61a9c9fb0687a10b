/** Shared vocabulary of the simulator model: optional values, results, input
    tokens, integer and real sums, and Python's slice semantics. */
module Basics {

  datatype Option<+T> = None | Some(value: T)

  datatype Result<+T, +E> = Ok(value: T) | Err(error: E)

  /** One whitespace-separated token of an input line, together with what
      Python's float() and int() make of it (None where they raise ValueError).
      Numeric parsing itself is not modelled. */
  datatype Token = Token(text: string, asFloat: Option<real>, asInt: Option<int>)

  /** An input line after str.split(). */
  type Line = seq<Token>

  /** Sum of the first k entries of s. */
  function SumTo(s: seq<int>, k: nat): int
    requires k <= |s|
  {
    if k == 0 then 0 else SumTo(s, k - 1) + s[k - 1]
  }

  function Sum(s: seq<int>): int
  {
    SumTo(s, |s|)
  }

  /** Sum of the first k entries of s, over the reals (Python's sum() of a float list). */
  function SumRealTo(s: seq<real>, k: nat): real
    requires k <= |s|
  {
    if k == 0 then 0.0 else SumRealTo(s, k - 1) + s[k - 1]
  }

  function SumReal(s: seq<real>): real
  {
    SumRealTo(s, |s|)
  }

  /** Adding d to one entry adds d to the sum. */
  lemma {:induction false} SumToUpdate(s: seq<int>, i: nat, d: int, k: nat)
    requires i < |s| && k <= |s|
    ensures SumTo(s[i := s[i] + d], k) == SumTo(s, k) + (if i < k then d else 0)
  {
    if k > 0 {
      SumToUpdate(s, i, d, k - 1);
    }
  }

  lemma SumUpdate(s: seq<int>, i: nat, d: int)
    requires i < |s|
    ensures Sum(s[i := s[i] + d]) == Sum(s) + d
  {
    SumToUpdate(s, i, d, |s|);
  }

  /** Summing two sequences entry by entry sums their sums. */
  lemma {:induction false} SumToAdd(s: seq<int>, t: seq<int>, u: seq<int>, k: nat)
    requires |s| == |t| == |u| && k <= |s|
    requires forall i :: 0 <= i < |s| ==> u[i] == s[i] + t[i]
    ensures SumTo(u, k) == SumTo(s, k) + SumTo(t, k)
  {
    if k > 0 {
      SumToAdd(s, t, u, k - 1);
    }
  }

  /** A sum of non-negative entries is at least any one of them. */
  lemma {:induction false} SumToAtLeastEntry(s: seq<int>, k: nat, i: nat)
    requires k <= |s| && i < k
    requires forall j :: 0 <= j < |s| ==> s[j] >= 0
    ensures SumTo(s, k) >= s[i]
  {
    if i < k - 1 {
      SumToAtLeastEntry(s, k - 1, i);
    } else {
      SumToNonneg(s, k - 1);
    }
  }

  lemma {:induction false} SumToNonneg(s: seq<int>, k: nat)
    requires k <= |s|
    requires forall j :: 0 <= j < |s| ==> s[j] >= 0
    ensures SumTo(s, k) >= 0
  {
    if k > 0 {
      SumToNonneg(s, k - 1);
    }
  }

  /** Normalises a Python slice bound against a sequence of length len:
      a negative bound counts from the end, and the result is clamped to [0, len]. */
  function SliceBound(i: int, len: nat): (b: nat)
    ensures b <= len
    ensures 0 <= i <= len ==> b == i
    ensures i > len ==> b == len
    ensures i < 0 && 0 <= i + len ==> b == i + len
    ensures i + len < 0 ==> b == 0
  {
    if i < 0 then (if i + len < 0 then 0 else i + len)
    else if i > len then len
    else i
  }

  /** Python's s[a:b] (step 1): bounds may be negative or out of range, and an
      empty slice results when the normalised start is not before the end. */
  function PySlice<T>(s: seq<T>, a: int, b: int): (r: seq<T>)
    ensures 0 <= a <= b <= |s| ==> r == s[a..b]
    // a negative bound counts from the end
    ensures -|s| <= a < 0 && a + |s| <= b <= |s| ==> r == s[a + |s|..b]
    ensures 0 <= a <= b + |s| && -|s| <= b < 0 ==> r == s[a..b + |s|]
    // a bound beyond either end is clamped to it
    ensures a < -|s| && 0 <= b <= |s| ==> r == s[..b]
    ensures 0 <= a <= |s| < b ==> r == s[a..]
    // nothing is left when the start is at or past the end
    ensures a >= |s| || b <= -|s| || 0 <= b <= a ==> r == []
    ensures |r| <= |s|
    ensures forall x :: x in r ==> x in s
  {
    var lo := SliceBound(a, |s|);
    var hi := SliceBound(b, |s|);
    if lo < hi then s[lo..hi] else []
  }
}
