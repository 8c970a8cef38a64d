/**
 * The trend of a reading history (oldest first): the mean of the last three
 * readings against the mean of the up-to-three readings before them, with a
 * 5 mmHg band on either side of "stable".
 */
module BloodPressureTrend {
  import opened JsArrays

  /** A reading as the trend sees it; `createdAt` (milliseconds) is carried but unused. */
  datatype Reading = Reading(systolic: int, diastolic: int, createdAt: int)

  datatype Trend = InsufficientData | Increasing | Decreasing | Stable

  /** `reduce((sum, m) => sum + m.systolic, 0)`, folding from the left; folding from the
      right gives the same total. */
  function SumSystolic(rs: seq<Reading>): (total: int)
    ensures |rs| > 0 ==> total == rs[0].systolic + SumSystolic(rs[1..])
  {
    if |rs| == 0 then 0
    else
      assert |rs| > 1 ==> rs[..|rs| - 1][1..] == rs[1..][..|rs| - 2];
      SumSystolic(rs[..|rs| - 1]) + rs[|rs| - 1].systolic
  }

  function SumDiastolic(rs: seq<Reading>): (total: int)
    ensures |rs| > 0 ==> total == rs[0].diastolic + SumDiastolic(rs[1..])
  {
    if |rs| == 0 then 0
    else
      assert |rs| > 1 ==> rs[..|rs| - 1][1..] == rs[1..][..|rs| - 2];
      SumDiastolic(rs[..|rs| - 1]) + rs[|rs| - 1].diastolic
  }

  /** An arithmetic mean, taken exactly: the value that, times the count, gives the sum. */
  function Mean(sum: int, count: nat): (m: real)
    requires count > 0
    ensures m * (count as real) == sum as real
  {
    (sum as real) / (count as real)
  }

  /** `measurements.slice(-3)`: the last three readings, or all of them when there are fewer. */
  function Recent(ms: seq<Reading>): (r: seq<Reading>)
    ensures r == if |ms| <= 3 then ms else ms[|ms| - 3..]
  {
    Slice(ms, -3, |ms|)
  }

  /** `measurements.slice(-6, -3)`: the (at most three) readings just before the last three;
      none when there are at most three readings. */
  function Older(ms: seq<Reading>): (r: seq<Reading>)
    ensures r == if |ms| <= 3 then [] else ms[if |ms| >= 6 then |ms| - 6 else 0..|ms| - 3]
  {
    Slice(ms, -6, -3)
  }

  /** `getBloodPressureTrend`. Any history of fewer than four readings is insufficient:
      below two directly, two or three because the older window is then empty. */
  function GetBloodPressureTrend(ms: seq<Reading>): (t: Trend)
    ensures t == InsufficientData <==> |ms| < 4
  {
    if |ms| < 2 then InsufficientData
    else
      var recent, older := Recent(ms), Older(ms);
      if |recent| == 0 || |older| == 0 then InsufficientData
      else
        var systolicDiff := Mean(SumSystolic(recent), |recent|) - Mean(SumSystolic(older), |older|);
        var diastolicDiff := Mean(SumDiastolic(recent), |recent|) - Mean(SumDiastolic(older), |older|);
        if systolicDiff > 5.0 || diastolicDiff > 5.0 then Increasing
        else if systolicDiff < -5.0 || diastolicDiff < -5.0 then Decreasing
        else Stable
  }

  /** Readings earlier than the last six never affect the trend. */
  lemma {:induction false} OnlyLastSixCount(earlier: seq<Reading>, ms: seq<Reading>)
    requires |ms| >= 6
    ensures GetBloodPressureTrend(earlier + ms) == GetBloodPressureTrend(ms)
  {
    var all := earlier + ms;
    assert all[|all| - 3..] == ms[|ms| - 3..];
    assert all[|all| - 6..|all| - 3] == ms[|ms| - 6..|ms| - 3];
  }

  /** Multiplying both sides by a positive factor keeps a strict comparison. */
  lemma ScaleComparison(z: real, c: real, p: real)
    requires p > 0.0
    ensures z > c <==> z * p > c * p
    ensures z < c <==> z * p < c * p
  {
    assert z * p - c * p == (z - c) * p;
  }

  /** The difference of two means, scaled by both counts, is an integer. */
  lemma CrossMultiply(a: int, r: nat, b: int, o: nat)
    requires r > 0 && o > 0
    ensures (Mean(a, r) - Mean(b, o)) * ((r as real) * (o as real)) == (a * o - b * r) as real
  {
    var x, y := Mean(a, r), Mean(b, o);
    var rr, oo := r as real, o as real;
    assert (x - y) * (rr * oo) == (x * rr) * oo - (y * oo) * rr;
  }

  /** Comparing a real against an integer bound, once both are scaled by a positive count. */
  lemma ScaledBound(d: real, c: int, m: int, n: int)
    requires m > 0 && d * (m as real) == n as real
    ensures d > c as real <==> n > c * m
    ensures d < c as real <==> n < c * m
  {
    ScaleComparison(d, c as real, m as real);
    assert (c as real) * (m as real) == (c * m) as real;
  }

  /** Comparing two exact means against a band of 5 is comparing cross-multiplied integer
      sums: `a/r - b/o > 5` exactly when `a*o - b*r > 5*r*o`, and likewise below -5. */
  lemma MeanDifference(a: int, r: nat, b: int, o: nat)
    requires r > 0 && o > 0
    ensures Mean(a, r) - Mean(b, o) > 5.0 <==> a * o - b * r > 5 * r * o
    ensures Mean(a, r) - Mean(b, o) < -5.0 <==> a * o - b * r < -5 * r * o
  {
    var d := Mean(a, r) - Mean(b, o);
    var m := r * o;
    assert (r as real) * (o as real) == m as real;
    CrossMultiply(a, r, b, o);
    ScaledBound(d, 5, m, a * o - b * r);
    ScaledBound(d, -5, m, a * o - b * r);
    assert 5 * m == 5 * r * o && -5 * m == -5 * r * o;
  }

  /** The decision on integers alone, for a history of at least four readings. With R the
      last three readings and O the up-to-three before them, a mean rises by more than 5
      exactly when its cross-multiplied sums do; a rise of either value wins over a fall
      of the other. */
  lemma TrendDecision(ms: seq<Reading>)
    requires |ms| >= 4
    ensures var R, O := ms[|ms| - 3..], Older(ms);
      var o := |O|;
      var sysUp := SumSystolic(R) * o - SumSystolic(O) * 3 > 15 * o;
      var diaUp := SumDiastolic(R) * o - SumDiastolic(O) * 3 > 15 * o;
      var sysDown := SumSystolic(R) * o - SumSystolic(O) * 3 < -15 * o;
      var diaDown := SumDiastolic(R) * o - SumDiastolic(O) * 3 < -15 * o;
      && 1 <= o <= 3
      && (GetBloodPressureTrend(ms) == Increasing <==> sysUp || diaUp)
      && (GetBloodPressureTrend(ms) == Decreasing <==> !(sysUp || diaUp) && (sysDown || diaDown))
      && (GetBloodPressureTrend(ms) == Stable <==> !(sysUp || diaUp || sysDown || diaDown))
  {
    var R, O := Recent(ms), Older(ms);
    MeanDifference(SumSystolic(R), 3, SumSystolic(O), |O|);
    MeanDifference(SumDiastolic(R), 3, SumDiastolic(O), |O|);
  }

  lemma OneMore(n: int, x: int)
    ensures x + (n - 1) * x == n * x
  {
    assert n * x == (n - 1) * x + 1 * x;
  }

  /** Sums over readings that all carry the same values. */
  lemma {:induction false} ConstantSums(rs: seq<Reading>, sys: int, dia: int)
    requires forall i :: 0 <= i < |rs| ==> rs[i].systolic == sys && rs[i].diastolic == dia
    ensures SumSystolic(rs) == |rs| * sys
    ensures SumDiastolic(rs) == |rs| * dia
  {
    if |rs| > 0 {
      var n := |rs|;
      var t := rs[1..];
      ConstantSums(t, sys, dia);
      assert SumSystolic(rs) == sys + SumSystolic(t) && SumDiastolic(rs) == dia + SumDiastolic(t);
      OneMore(n, sys);
      OneMore(n, dia);
    }
  }

  /** Each sum lies between the count times the smallest and the count times the largest
      reading, so each mean lies between the smallest and the largest reading. */
  lemma {:induction false} SumBounds(rs: seq<Reading>, lo: int, hi: int)
    requires forall i :: 0 <= i < |rs| ==> lo <= rs[i].systolic <= hi && lo <= rs[i].diastolic <= hi
    ensures |rs| * lo <= SumSystolic(rs) <= |rs| * hi
    ensures |rs| * lo <= SumDiastolic(rs) <= |rs| * hi
  {
    if |rs| > 0 {
      var n := |rs|;
      var t := rs[1..];
      SumBounds(t, lo, hi);
      assert SumSystolic(rs) == rs[0].systolic + SumSystolic(t);
      assert SumDiastolic(rs) == rs[0].diastolic + SumDiastolic(t);
      OneMore(n, lo);
      OneMore(n, hi);
    }
  }

  /** A sum between `count * lo` and `count * hi` has its mean between `lo` and `hi`. */
  lemma MeanBetween(sum: int, count: nat, lo: int, hi: int)
    requires count > 0 && count * lo <= sum <= count * hi
    ensures lo as real <= Mean(sum, count) <= hi as real
  {
    var n := count as real;
    assert (lo as real) * n == (count * lo) as real && (hi as real) * n == (count * hi) as real;
    ScaleComparison(Mean(sum, count), lo as real, n);
    ScaleComparison(Mean(sum, count), hi as real, n);
  }

  lemma MeanBounds(rs: seq<Reading>, lo: int, hi: int)
    requires |rs| > 0
    requires forall i :: 0 <= i < |rs| ==> lo <= rs[i].systolic <= hi && lo <= rs[i].diastolic <= hi
    ensures lo as real <= Mean(SumSystolic(rs), |rs|) <= hi as real
    ensures lo as real <= Mean(SumDiastolic(rs), |rs|) <= hi as real
  {
    SumBounds(rs, lo, hi);
    MeanBetween(SumSystolic(rs), |rs|, lo, hi);
    MeanBetween(SumDiastolic(rs), |rs|, lo, hi);
  }

  /** A history of at least four identical readings is stable. */
  lemma ConstantIsStable(ms: seq<Reading>, sys: int, dia: int)
    requires |ms| >= 4
    requires forall i :: 0 <= i < |ms| ==> ms[i].systolic == sys && ms[i].diastolic == dia
    ensures GetBloodPressureTrend(ms) == Stable
  {
    var R, O := Recent(ms), Older(ms);
    ConstantSums(R, sys, dia);
    ConstantSums(O, sys, dia);
    TrendDecision(ms);
  }

  /** Three readings at one level followed by three at another. */
  function Step(sys1: int, dia1: int, sys2: int, dia2: int): seq<Reading> {
    [Reading(sys1, dia1, 0), Reading(sys1, dia1, 1), Reading(sys1, dia1, 2),
     Reading(sys2, dia2, 3), Reading(sys2, dia2, 4), Reading(sys2, dia2, 5)]
  }

  /** The trend of such a step in terms of its two levels. */
  lemma StepTrend(sys1: int, dia1: int, sys2: int, dia2: int)
    ensures var t := GetBloodPressureTrend(Step(sys1, dia1, sys2, dia2));
      && (t == Increasing <==> sys2 - sys1 > 5 || dia2 - dia1 > 5)
      && (t == Decreasing <==> !(sys2 - sys1 > 5 || dia2 - dia1 > 5) && (sys2 - sys1 < -5 || dia2 - dia1 < -5))
  {
    var ms := Step(sys1, dia1, sys2, dia2);
    assert |ms| == 6;
    var R, O := ms[3..], ms[0..3];
    assert Recent(ms) == R && Older(ms) == O;
    ConstantSums(R, sys2, dia2);
    ConstantSums(O, sys1, dia1);
    assert SumSystolic(R) == 3 * sys2 && SumDiastolic(R) == 3 * dia2;
    assert SumSystolic(O) == 3 * sys1 && SumDiastolic(O) == 3 * dia1;
    TrendDecision(ms);
  }

  /** Worked cases: a systolic mean going from 120 to 130 is increasing, from 130 to 120
      decreasing, and a systolic rise of 10 with a diastolic fall of 10 is increasing
      because rises are checked first. */
  lemma TrendExamples()
    ensures GetBloodPressureTrend(Step(120, 80, 130, 80)) == Increasing
    ensures GetBloodPressureTrend(Step(130, 80, 120, 80)) == Decreasing
    ensures GetBloodPressureTrend(Step(120, 90, 130, 80)) == Increasing
  {
    StepTrend(120, 80, 130, 80);
    StepTrend(130, 80, 120, 80);
    StepTrend(120, 90, 130, 80);
  }
}
