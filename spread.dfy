// The spread of one measurement pass: the largest corner deviation minus
// the smallest. The firmware scans a four-entry int array with a running
// minimum (getMin) and a running maximum (getMax); both return the scanned
// value widened to float, which loses nothing for these small ints, so the
// model keeps them as int.

module CornerSpread {

  /** The smallest element of `s`, computed as the running minimum of a
      left-to-right scan: a later element replaces it only when strictly smaller. */
  function MinOf(s: seq<int>): (m: int)
    requires |s| > 0
    ensures forall i :: 0 <= i < |s| ==> m <= s[i]
  {
    if |s| == 1 then s[0]
    else
      var soFar := MinOf(s[..|s| - 1]);
      if s[|s| - 1] < soFar then s[|s| - 1] else soFar
  }

  /** The largest element of `s`, as the running maximum of a scan. */
  function MaxOf(s: seq<int>): (m: int)
    requires |s| > 0
    ensures forall i :: 0 <= i < |s| ==> s[i] <= m
  {
    if |s| == 1 then s[0]
    else
      var soFar := MaxOf(s[..|s| - 1]);
      if s[|s| - 1] > soFar then s[|s| - 1] else soFar
  }

  /** The running minimum is one of the scanned values. */
  lemma {:induction false} MinOfIsElement(s: seq<int>)
    requires |s| > 0
    ensures exists i :: 0 <= i < |s| && s[i] == MinOf(s)
  {
    if |s| > 1 {
      MinOfIsElement(s[..|s| - 1]);
      var i :| 0 <= i < |s| - 1 && s[..|s| - 1][i] == MinOf(s[..|s| - 1]);
      assert s[i] == s[..|s| - 1][i];
    } else {
      assert s[0] == MinOf(s);
    }
  }

  /** The running maximum is one of the scanned values. */
  lemma {:induction false} MaxOfIsElement(s: seq<int>)
    requires |s| > 0
    ensures exists i :: 0 <= i < |s| && s[i] == MaxOf(s)
  {
    if |s| > 1 {
      MaxOfIsElement(s[..|s| - 1]);
      var i :| 0 <= i < |s| - 1 && s[..|s| - 1][i] == MaxOf(s[..|s| - 1]);
      assert s[i] == s[..|s| - 1][i];
    } else {
      assert s[0] == MaxOf(s);
    }
  }

  /** heightDiff: max - min over the deviations of one pass; never negative. */
  function Spread(d: seq<int>): (r: int)
    requires |d| > 0
    ensures r >= 0
  {
    assert MinOf(d) <= d[0] <= MaxOf(d);
    MaxOf(d) - MinOf(d)
  }

  predicate AllEqual(d: seq<int>) {
    forall i, j :: 0 <= i < |d| && 0 <= j < |d| ==> d[i] == d[j]
  }

  /** The spread is never negative, and it is zero exactly when every
      deviation is the same. */
  lemma SpreadZeroIffLevel(d: seq<int>)
    requires |d| > 0
    ensures Spread(d) >= 0
    ensures Spread(d) == 0 <==> AllEqual(d)
  {
    var lo, hi := MinOf(d), MaxOf(d);
    assert lo <= d[0] <= hi;
    if Spread(d) == 0 {
      forall i, j | 0 <= i < |d| && 0 <= j < |d| ensures d[i] == d[j] {
        assert lo <= d[i] <= hi && lo <= d[j] <= hi;
      }
    }
    if AllEqual(d) {
      MinOfIsElement(d);
      MaxOfIsElement(d);
      var i :| 0 <= i < |d| && d[i] == lo;
      var j :| 0 <= j < |d| && d[j] == hi;
      assert d[i] == d[j];
    }
  }

  /** getMin: scans array[0..3] keeping the running minimum. */
  method GetMin(a: array<int>) returns (minimum: int)
    requires a.Length >= 4
    ensures minimum == MinOf(a[..4])
    ensures minimum in a[..4] && forall i :: 0 <= i < 4 ==> minimum <= a[i]
  {
    minimum := a[0];
    for i := 0 to 4
      invariant minimum == MinOf(a[..if i == 0 then 1 else i])
    {
      assert a[..i + 1][..i] == a[..i];
      if a[i] < minimum {
        minimum := a[i];
      }
    }
    MinOfIsElement(a[..4]);
  }

  /** getMax: scans array[0..3] keeping the running maximum. */
  method GetMax(a: array<int>) returns (maximum: int)
    requires a.Length >= 4
    ensures maximum == MaxOf(a[..4])
    ensures maximum in a[..4] && forall i :: 0 <= i < 4 ==> a[i] <= maximum
  {
    maximum := a[0];
    for i := 0 to 4
      invariant maximum == MaxOf(a[..if i == 0 then 1 else i])
    {
      assert a[..i + 1][..i] == a[..i];
      if a[i] > maximum {
        maximum := a[i];
      }
    }
    MaxOfIsElement(a[..4]);
  }

  /** heightDiff = getMax(motDesv) - getMin(motDesv): the spread of the
      four deviations. */
  method HeightDiff(motDesv: array<int>) returns (heightDiff: int)
    requires motDesv.Length == 4
    ensures heightDiff == Spread(motDesv[..])
  {
    assert motDesv[..4] == motDesv[..];
    var hi := GetMax(motDesv);
    var lo := GetMin(motDesv);
    heightDiff := hi - lo;
  }
}
