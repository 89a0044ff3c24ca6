/**
  The forecast-report service: the trend and demand endpoints (their guards,
  defaults and clamps around a least-squares fit that is taken as given), the
  error histogram and the accuracy comparison.

  Numbers are exact reals. Python's `round` is round-half-to-even; the
  `"{:.0f}"` / `"{:.1f}"` renderings of floats are represented by the number
  that would be rendered (an integer percentage, a ratio).
*/
module Forecast {
  import opened Common

  // ---------------------------------------------------------------- rounding

  /** Python's `round(x)`: the nearest integer, ties to the even one. */
  function RoundHalfEven(x: real): (r: int)
    ensures x - 0.5 <= r as real <= x + 0.5
    ensures (r as real - x == 0.5 || x - r as real == 0.5) ==> r % 2 == 0
  {
    var f := x.Floor;
    var d := x - f as real;
    if d < 0.5 then f
    else if d > 0.5 then f + 1
    else if f % 2 == 0 then f else f + 1
  }

  /** Rounding never reverses the order of two numbers. */
  lemma RoundMonotone(x: real, y: real)
    requires x <= y
    ensures RoundHalfEven(x) <= RoundHalfEven(y)
  {
  }

  /** Whole numbers round to themselves. */
  lemma RoundWhole(n: int)
    ensures RoundHalfEven(n as real) == n
  {
  }

  // ---------------------------------------------------------------- trend

  datatype TrendResponse = TrendResponse(predicted: seq<real>, next: real, r2: real)

  function Mean(y: seq<real>): real
    requires y != []
  {
    Sum(y) / |y| as real
  }

  lemma SquareNonNegative(d: real)
    ensures d * d >= 0.0
  {
    if d < 0.0 {
      assert d * d == (-d) * (-d);
    }
  }

  /** Sum of squared differences between `y` and the fitted values `yhat`. */
  function SumSqDiff(y: seq<real>, yhat: seq<real>): (s: real)
    requires |y| == |yhat|
    ensures s >= 0.0
  {
    if y == [] then 0.0
    else
      SquareNonNegative(y[0] - yhat[0]);
      (y[0] - yhat[0]) * (y[0] - yhat[0]) + SumSqDiff(y[1..], yhat[1..])
  }

  /** Total sum of squares of `y` around `m`. */
  function SumSqAround(y: seq<real>, m: real): (s: real)
    ensures s >= 0.0
  {
    if y == [] then 0.0
    else
      SquareNonNegative(y[0] - m);
      (y[0] - m) * (y[0] - m) + SumSqAround(y[1..], m)
  }

  /** Coefficient of determination with the zero-variance guard. */
  function R2(ssRes: real, ssTot: real): (r: real)
    requires ssRes >= 0.0
    ensures ssTot <= 0.0 ==> r == 0.0
    ensures ssTot > 0.0 ==> r == 1.0 - ssRes / ssTot && r <= 1.0
  {
    if ssTot > 0.0 then 1.0 - ssRes / ssTot else 0.0
  }

  /**
    `POST /forecast/trend`. `yhat` are the fitted values at indices 0..n-1 and
    `nextValue` the fitted value at index n, both produced by the linear fit.
  */
  function ForecastTrend(y: seq<real>, yhat: seq<real>, nextValue: real): (r: TrendResponse)
    requires y != [] ==> |yhat| == |y|
    ensures y == [] ==> r == TrendResponse([], 0.0, 0.0)
    ensures y != [] ==> r.predicted == yhat && r.next == nextValue
    ensures y != [] ==> r.r2 <= 1.0
    ensures y != [] && SumSqAround(y, Mean(y)) == 0.0 ==> r.r2 == 0.0
  {
    if y == [] then TrendResponse([], 0.0, 0.0)
    else TrendResponse(yhat, nextValue, R2(SumSqDiff(y, yhat), SumSqAround(y, Mean(y))))
  }

  predicate Constant(y: seq<real>, v: real) {
    forall i :: 0 <= i < |y| ==> y[i] == v
  }

  lemma {:induction false} SumConstant(y: seq<real>, v: real)
    requires Constant(y, v)
    ensures Sum(y) == |y| as real * v
  {
    if y != [] {
      SumConstant(y[1..], v);
    }
  }

  lemma {:induction false} SumSqAroundConstant(y: seq<real>, v: real)
    requires Constant(y, v)
    ensures SumSqAround(y, v) == 0.0
  {
    if y != [] {
      SumSqAroundConstant(y[1..], v);
    }
  }

  /** A flat series has no variance, so its `r2` is reported as 0 whatever the fit. */
  lemma ConstantSeriesR2Zero(y: seq<real>, yhat: seq<real>, nextValue: real, v: real)
    requires y != [] && |yhat| == |y| && Constant(y, v)
    ensures ForecastTrend(y, yhat, nextValue).r2 == 0.0
  {
    SumConstant(y, v);
    assert Mean(y) == v;
    SumSqAroundConstant(y, v);
  }

  lemma {:induction false} SumSqDiffSelf(y: seq<real>)
    ensures SumSqDiff(y, y) == 0.0
  {
    if y != [] {
      SumSqDiffSelf(y[1..]);
    }
  }

  /** A fit through every point of a non-flat series has `r2 = 1`. */
  lemma PerfectFitR2One(y: seq<real>, nextValue: real)
    requires y != [] && SumSqAround(y, Mean(y)) > 0.0
    ensures ForecastTrend(y, y, nextValue).r2 == 1.0
  {
    SumSqDiffSelf(y);
  }

  // ---------------------------------------------------------------- demand

  datatype DemandResponse = DemandResponse(
    point: int, lower: int, upper: int,
    confidencePercent: int, confidence: string,
    future: Option<seq<real>>)

  /** `"±" + "{:.0f}".format(p) + "%"` for a whole percentage. */
  function ConfidenceText(p: nat): string
  {
    "±" + NatToString(p) + "%"
  }

  /** `1.96 * std * max(1, horizon)`. */
  function Band(std: real, horizon: int): (b: real)
    requires std >= 0.0
    ensures b >= 0.0
    ensures b >= 1.96 * std
  {
    1.96 * std * (MaxInt(1, horizon) as real)
  }

  /** The confidence percentage before formatting: 0 for a zero point, else capped at 100. */
  function ConfidenceRatio(point: real, band: real): (p: real)
    requires band >= 0.0
    ensures 0.0 <= p <= 100.0
    ensures point == 0.0 ==> p == 0.0
  {
    if point == 0.0 then 0.0
    else
      var denom := MaxReal(point, 0.000001);
      assert denom > 0.0;
      MinReal(100.0, band / denom * 100.0)
  }

  /** A forecast of no negative demand lies inside its band: `lower <= point <= upper`. */
  lemma DemandBandHoldsPoint(n: nat, horizonArg: Option<int>, future: seq<real>, std: real)
    requires n > 0 && |future| == MaxInt(0, horizonArg.GetOr(3)) && std >= 0.0
    requires Sum(future) >= 0.0
    ensures var r := ForecastDemand(n, horizonArg, future, std);
            r.lower <= r.point <= r.upper
  {
    var point := Sum(future);
    var band := Band(std, horizonArg.GetOr(3));
    var lower := MaxReal(0.0, point - band);
    RoundMonotone(lower, point);
    RoundMonotone(point, MaxReal(lower, point + band));
  }

  /**
    `POST /forecast/demand`. `n` is the number of observed items, `horizonArg`
    the optional `horizon` (default 3), `future` the fitted values at indices
    n..n+horizon-1 and `std` the population standard deviation of the
    in-sample residuals.
  */
  function ForecastDemand(n: nat, horizonArg: Option<int>, future: seq<real>, std: real): (r: DemandResponse)
    requires n > 0 ==> |future| == MaxInt(0, horizonArg.GetOr(3)) && std >= 0.0
    ensures n == 0 ==> r == DemandResponse(0, 0, 0, 0, "±0%", None)
    ensures n > 0 ==> r.future == Some(future) && r.point == RoundHalfEven(Sum(future))
    ensures 0 <= r.lower <= r.upper
    ensures 0 <= r.confidencePercent <= 100 && r.confidence == ConfidenceText(r.confidencePercent)
    ensures n > 0 && Sum(future) == 0.0 ==> r.confidencePercent == 0
    ensures n > 0 ==>
              var band := Band(std, horizonArg.GetOr(3));
              var lower := MaxReal(0.0, Sum(future) - band);
              r.lower == RoundHalfEven(lower)
              && r.upper == RoundHalfEven(MaxReal(lower, Sum(future) + band))
              && r.confidencePercent == RoundHalfEven(ConfidenceRatio(Sum(future), band))
  {
    if n == 0 then DemandResponse(0, 0, 0, 0, ConfidenceText(0), None)
    else
      var horizon := horizonArg.GetOr(3);
      var point := Sum(future);
      var band := Band(std, horizon);
      var lower := MaxReal(0.0, point - band);
      var upper := MaxReal(lower, point + band);
      var ratio := ConfidenceRatio(point, band);
      RoundMonotone(0.0, lower);
      RoundMonotone(lower, upper);
      RoundMonotone(0.0, ratio);
      RoundMonotone(ratio, 100.0);
      var pct := RoundHalfEven(ratio);
      DemandResponse(RoundHalfEven(point), RoundHalfEven(lower), RoundHalfEven(upper),
                     pct, ConfidenceText(pct), Some(future))
  }

  /** The band widens with the horizon and never collapses below the one-step band. */
  lemma BandMonotoneInHorizon(std: real, h1: int, h2: int)
    requires std >= 0.0 && h1 <= h2
    ensures Band(std, 0) == Band(std, 1) <= Band(std, h1) <= Band(std, h2)
  {
    var c := 1.96 * std;
    var a, b := MaxInt(1, h1) as real, MaxInt(1, h2) as real;
    assert c >= 0.0 && 1.0 <= a <= b;
    assert c * a <= c * b by {
      assert c * b - c * a == c * (b - a);
    }
  }

  // ---------------------------------------------------------------- errors

  datatype HistEntry = HistEntry(error: int, frequency: nat)

  /** `actual[i] - predicted[i]` for the first min(len) indices. */
  function Residuals(actual: seq<real>, predicted: seq<real>): (r: seq<real>)
    ensures |r| == MinInt(|actual|, |predicted|)
    ensures forall i :: 0 <= i < |r| ==> r[i] == actual[i] - predicted[i]
  {
    if actual == [] || predicted == [] then []
    else [actual[0] - predicted[0]] + Residuals(actual[1..], predicted[1..])
  }

  /** `int(round(r / 5.0) * 5)`: the nearest multiple of 5. */
  function Bucket(r: real): (b: int)
    ensures b % 5 == 0
    ensures r - 2.5 <= b as real <= r + 2.5
  {
    RoundHalfEven(r / 5.0) * 5
  }

  function Buckets(rs: seq<real>): (bs: seq<int>)
    ensures |bs| == |rs|
    ensures forall i :: 0 <= i < |rs| ==> bs[i] == Bucket(rs[i])
  {
    if rs == [] then [] else Buckets(rs[..|rs| - 1]) + [Bucket(rs[|rs| - 1])]
  }

  /** How many of `bs` equal `k`. */
  function CountOf(bs: seq<int>, k: int): nat
  {
    if bs == [] then 0
    else CountOf(bs[..|bs| - 1], k) + (if bs[|bs| - 1] == k then 1 else 0)
  }

  /**
    The bucket table, kept as an association list in ascending key order (so
    that it already is `sorted(bucket.items())`): add one to bucket `b`.
  */
  function AddToBucket(h: seq<HistEntry>, b: int): seq<HistEntry>
  {
    if h == [] then [HistEntry(b, 1)]
    else if h[0].error == b then [HistEntry(b, h[0].frequency + 1)] + h[1..]
    else if b < h[0].error then [HistEntry(b, 1)] + h
    else [h[0]] + AddToBucket(h[1..], b)
  }

  /** The histogram of a bucket sequence, built as the loop builds it. */
  function HistOf(bs: seq<int>): seq<HistEntry>
  {
    if bs == [] then [] else AddToBucket(HistOf(bs[..|bs| - 1]), bs[|bs| - 1])
  }

  /** The keys of a bucket table. */
  function Keys(h: seq<HistEntry>): set<int>
  {
    if h == [] then {} else {h[0].error} + Keys(h[1..])
  }

  /** Every key is below every key after it (stated on the head, recursively). */
  predicate Ascending(h: seq<HistEntry>) {
    h == [] || ((forall k :: k in Keys(h[1..]) ==> h[0].error < k) && Ascending(h[1..]))
  }

  predicate StrictlyAscending(h: seq<HistEntry>) {
    forall i, j :: 0 <= i < j < |h| ==> h[i].error < h[j].error
  }

  predicate PositiveCounts(h: seq<HistEntry>) {
    forall i :: 0 <= i < |h| ==> h[i].frequency > 0
  }

  /** The frequency recorded for `k`, 0 when there is no entry. */
  function FreqOf(h: seq<HistEntry>, k: int): nat
  {
    if h == [] then 0 else if h[0].error == k then h[0].frequency else FreqOf(h[1..], k)
  }

  function TotalFrequency(h: seq<HistEntry>): nat
  {
    if h == [] then 0 else h[0].frequency + TotalFrequency(h[1..])
  }

  lemma {:induction false} KeysIndex(h: seq<HistEntry>, i: int)
    requires 0 <= i < |h|
    ensures h[i].error in Keys(h)
  {
    if i > 0 {
      KeysIndex(h[1..], i - 1);
    }
  }

  /** The recursive order implies the pairwise one. */
  lemma {:induction false} AscendingPairwise(h: seq<HistEntry>)
    requires Ascending(h)
    ensures StrictlyAscending(h)
  {
    if h != [] {
      AscendingPairwise(h[1..]);
      forall i, j | 0 <= i < j < |h| ensures h[i].error < h[j].error {
        if i == 0 {
          KeysIndex(h[1..], j - 1);
        } else {
          assert h[i].error == h[1..][i - 1] .error && h[j].error == h[1..][j - 1].error;
        }
      }
    }
  }

  /** Adding to bucket `b` adds `b` to the keys and nothing else. */
  lemma {:induction false} AddToBucketKeys(h: seq<HistEntry>, b: int)
    ensures Keys(AddToBucket(h, b)) == Keys(h) + {b}
  {
    if h == [] {
    } else if h[0].error == b {
      assert AddToBucket(h, b)[1..] == h[1..];
    } else if b < h[0].error {
      assert AddToBucket(h, b)[1..] == h;
    } else {
      AddToBucketKeys(h[1..], b);
      assert AddToBucket(h, b)[1..] == AddToBucket(h[1..], b);
    }
  }

  lemma {:induction false} AddToBucketAscending(h: seq<HistEntry>, b: int)
    requires Ascending(h)
    ensures Ascending(AddToBucket(h, b))
  {
    if h == [] {
      assert Keys(AddToBucket(h, b)[1..]) == {};
    } else if h[0].error == b {
      assert AddToBucket(h, b)[1..] == h[1..];
    } else if b < h[0].error {
      assert AddToBucket(h, b)[1..] == h;
    } else {
      AddToBucketAscending(h[1..], b);
      AddToBucketKeys(h[1..], b);
      assert AddToBucket(h, b)[1..] == AddToBucket(h[1..], b);
    }
  }

  lemma {:induction false} AddToBucketPositive(h: seq<HistEntry>, b: int)
    requires PositiveCounts(h)
    ensures PositiveCounts(AddToBucket(h, b))
  {
    if h != [] && h[0].error != b && b >= h[0].error {
      AddToBucketPositive(h[1..], b);
      assert AddToBucket(h, b) == [h[0]] + AddToBucket(h[1..], b);
    }
  }

  /** One more residual in the table. */
  lemma {:induction false} AddToBucketTotal(h: seq<HistEntry>, b: int)
    ensures TotalFrequency(AddToBucket(h, b)) == TotalFrequency(h) + 1
  {
    if h == [] {
    } else if h[0].error == b {
      assert AddToBucket(h, b)[1..] == h[1..];
    } else if b < h[0].error {
      assert AddToBucket(h, b)[1..] == h;
    } else {
      AddToBucketTotal(h[1..], b);
      assert AddToBucket(h, b)[1..] == AddToBucket(h[1..], b);
    }
  }

  lemma {:induction false} FreqAbsent(h: seq<HistEntry>, k: int)
    requires k !in Keys(h)
    ensures FreqOf(h, k) == 0
  {
    if h != [] {
      FreqAbsent(h[1..], k);
    }
  }

  /** Adding to bucket `b` raises the frequency of `b` by one and no other. */
  lemma {:induction false} AddToBucketFreq(h: seq<HistEntry>, b: int, k: int)
    requires Ascending(h)
    ensures FreqOf(AddToBucket(h, b), k) == FreqOf(h, k) + (if k == b then 1 else 0)
  {
    if h == [] {
    } else if h[0].error == b {
      assert AddToBucket(h, b)[1..] == h[1..];
    } else if b < h[0].error {
      assert AddToBucket(h, b)[1..] == h;
      if k == b {
        assert b !in Keys(h[1..]);
        FreqAbsent(h, b);
      }
    } else {
      AddToBucketFreq(h[1..], b, k);
      assert AddToBucket(h, b)[1..] == AddToBucket(h[1..], b);
    }
  }

  /** In an ascending table the entry at position i carries FreqOf its own key. */
  lemma {:induction false} FreqOfEntry(h: seq<HistEntry>, i: int)
    requires Ascending(h) && 0 <= i < |h|
    ensures FreqOf(h, h[i].error) == h[i].frequency
  {
    if i > 0 {
      KeysIndex(h[1..], i - 1);
      FreqOfEntry(h[1..], i - 1);
    }
  }

  lemma {:induction false} HistOfShape(bs: seq<int>)
    ensures Ascending(HistOf(bs)) && PositiveCounts(HistOf(bs))
    ensures TotalFrequency(HistOf(bs)) == |bs|
    ensures forall k :: k in Keys(HistOf(bs)) <==> k in bs
  {
    if bs != [] {
      var init, last := bs[..|bs| - 1], bs[|bs| - 1];
      HistOfShape(init);
      AddToBucketAscending(HistOf(init), last);
      AddToBucketPositive(HistOf(init), last);
      AddToBucketTotal(HistOf(init), last);
      AddToBucketKeys(HistOf(init), last);
      assert bs == init + [last];
    }
  }

  /** The table counts every bucket exactly as often as it occurs. */
  lemma {:induction false} HistOfFreq(bs: seq<int>, k: int)
    ensures FreqOf(HistOf(bs), k) == CountOf(bs, k)
  {
    if bs != [] {
      var init := bs[..|bs| - 1];
      HistOfFreq(init, k);
      HistOfShape(init);
      AddToBucketFreq(HistOf(init), bs[|bs| - 1], k);
    }
  }

  /** Everything `POST /forecast/errors` promises, about the table of a bucket sequence. */
  lemma HistOfSummary(bs: seq<int>)
    requires forall j :: 0 <= j < |bs| ==> bs[j] % 5 == 0
    ensures StrictlyAscending(HistOf(bs))
    ensures forall i :: 0 <= i < |HistOf(bs)| ==>
              HistOf(bs)[i].error % 5 == 0 && HistOf(bs)[i].frequency > 0
              && HistOf(bs)[i].frequency == CountOf(bs, HistOf(bs)[i].error)
    ensures forall k :: CountOf(bs, k) == FreqOf(HistOf(bs), k)
    ensures TotalFrequency(HistOf(bs)) == |bs|
  {
    var h := HistOf(bs);
    HistOfShape(bs);
    AscendingPairwise(h);
    forall k ensures CountOf(bs, k) == FreqOf(h, k) {
      HistOfFreq(bs, k);
    }
    forall i | 0 <= i < |h| ensures h[i].error % 5 == 0 && h[i].frequency == CountOf(bs, h[i].error) {
      KeysIndex(h, i);
      FreqOfEntry(h, i);
      var j :| 0 <= j < |bs| && bs[j] == h[i].error;
    }
  }

  /**
    `POST /forecast/errors`: one entry per distinct bucket, ascending, with the
    number of residuals that fall in it.
  */
  method ForecastErrors(actual: seq<real>, predicted: seq<real>) returns (hist: seq<HistEntry>)
    ensures actual == [] || predicted == [] ==> hist == []
    ensures StrictlyAscending(hist)
    ensures forall i :: 0 <= i < |hist| ==> hist[i].error % 5 == 0 && hist[i].frequency > 0
    ensures forall i :: 0 <= i < |hist| ==>
              hist[i].frequency == CountOf(Buckets(Residuals(actual, predicted)), hist[i].error)
    ensures forall k :: CountOf(Buckets(Residuals(actual, predicted)), k) == FreqOf(hist, k)
    ensures TotalFrequency(hist) == MinInt(|actual|, |predicted|)
  {
    if actual == [] || predicted == [] {
      return [];
    }
    var n := MinInt(|actual|, |predicted|);
    ghost var bs := Buckets(Residuals(actual, predicted));
    hist := [];
    for i := 0 to n
      invariant hist == HistOf(bs[..i])
    {
      var r := actual[i] - predicted[i];
      var b := RoundHalfEven(r / 5.0) * 5;
      assert bs[..i + 1][..i] == bs[..i];
      hist := AddToBucket(hist, b);
    }
    assert bs[..n] == bs;
    HistOfSummary(bs);
  }

  // ---------------------------------------------------------------- compare

  /** One input row; an absent `event` is "", absent numbers are 0. */
  datatype CompareRow = CompareRow(event: string, actual: real, predicted: real)

  /** One output row; `accuracy` is the ratio that is rendered as "P.P%". */
  datatype CompareOut = CompareOut(event: string, actual: int, predicted: int, accuracy: real)

  /** `min/max` when both are positive, otherwise 0. */
  function Accuracy(actual: real, predicted: real): (acc: real)
    ensures 0.0 <= acc <= 1.0
    ensures actual <= 0.0 || predicted <= 0.0 ==> acc == 0.0
    ensures actual > 0.0 && predicted > 0.0 ==> acc > 0.0
    ensures acc == 1.0 <==> actual > 0.0 && actual == predicted
  {
    if actual > 0.0 && predicted > 0.0 then MinReal(actual, predicted) / MaxReal(actual, predicted) else 0.0
  }

  /** Accuracy does not depend on which side is the forecast. */
  lemma AccuracySymmetric(a: real, p: real)
    ensures Accuracy(a, p) == Accuracy(p, a)
  {
  }

  function RowOut(row: CompareRow): CompareOut
  {
    CompareOut(row.event, RoundHalfEven(row.actual), RoundHalfEven(row.predicted),
               Accuracy(row.actual, row.predicted))
  }

  function Accuracies(rows: seq<CompareRow>): (accs: seq<real>)
    ensures |accs| == |rows|
    ensures forall i :: 0 <= i < |rows| ==> accs[i] == Accuracy(rows[i].actual, rows[i].predicted)
  {
    if rows == [] then [] else Accuracies(rows[..|rows| - 1]) + [Accuracy(rows[|rows| - 1].actual, rows[|rows| - 1].predicted)]
  }

  predicate AllUnit(xs: seq<real>) {
    forall i :: 0 <= i < |xs| ==> 0.0 <= xs[i] <= 1.0
  }

  /** Values in [0,1] sum to at most their count. */
  lemma {:induction false} SumUnitBound(xs: seq<real>)
    requires AllUnit(xs)
    ensures 0.0 <= Sum(xs) <= |xs| as real
  {
    if xs != [] {
      SumUnitBound(xs[1..]);
    }
  }

  /** The output rows, in input order. */
  function RowsOut(rows: seq<CompareRow>): (out: seq<CompareOut>)
    ensures |out| == |rows|
    ensures forall i :: 0 <= i < |rows| ==> out[i] == RowOut(rows[i])
  {
    if rows == [] then [] else RowsOut(rows[..|rows| - 1]) + [RowOut(rows[|rows| - 1])]
  }

  /** The mean of values in [0,1] is in [0,1]. */
  lemma MeanUnit(xs: seq<real>)
    requires xs != [] && AllUnit(xs)
    ensures 0.0 <= Sum(xs) / |xs| as real <= 1.0
  {
    SumUnitBound(xs);
    var s, n := Sum(xs), |xs| as real;
    var q := s / n;
    assert q * n == s;
  }

  /** `POST /forecast/compare`: one output row per input row, in order, and the mean accuracy. */
  method ForecastCompare(rows: seq<CompareRow>) returns (out: seq<CompareOut>, average: real)
    ensures |out| == |rows|
    ensures forall i :: 0 <= i < |rows| ==> out[i] == RowOut(rows[i])
    ensures rows == [] ==> average == 0.0
    ensures rows != [] ==> average == Sum(Accuracies(rows)) / |rows| as real
    ensures 0.0 <= average <= 1.0
  {
    out := [];
    var accs: seq<real> := [];
    for i := 0 to |rows|
      invariant out == RowsOut(rows[..i])
      invariant accs == Accuracies(rows[..i])
    {
      var row := rows[i];
      var acc := Accuracy(row.actual, row.predicted);
      assert rows[..i + 1][..i] == rows[..i];
      accs := accs + [acc];
      out := out + [CompareOut(row.event, RoundHalfEven(row.actual), RoundHalfEven(row.predicted), acc)];
    }
    assert rows[..|rows|] == rows;
    if |accs| > 0 {
      MeanUnit(accs);
      average := Sum(accs) / |accs| as real;
    } else {
      average := 0.0;
    }
  }
}
