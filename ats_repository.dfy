/**
 * The ATS score-history log and its trend classifier, the per-user score
 * statistics and the static industry benchmarks. The database rows are
 * abstracted as a map from résumé id to its history record; the clock is a
 * parameter.
 */
module AtsRepository {
  import opened Wrappers
  import opened Text
  import opened Basics

  type ResumeId = string

  /** A moment as the repository records it: ISO timestamp and `%Y-%m-%d` date. */
  datatype Instant = Instant(iso: string, day: string)

  datatype ScoreEntry = ScoreEntry(score: int, timestamp: string, date: string)

  /** A score-history row: the stored entries, the last analysis date and the analysis count. */
  datatype HistoryRecord = HistoryRecord(scores: seq<ScoreEntry>, lastAnalysisDate: Instant, totalAnalyses: nat)

  /** The most entries a history keeps. */
  const MaxHistory: nat := 50

  /** `xs[-n:]` for a positive `n`: the last `n` elements, or all of them. */
  function KeepLast<T>(xs: seq<T>, n: nat): (r: seq<T>)
    ensures |r| == Min(n, |xs|)
    ensures r == xs[|xs| - |r|..]
  {
    if |xs| > n then xs[|xs| - n..] else xs
  }

  function EntryAt(score: int, now: Instant): ScoreEntry
  {
    ScoreEntry(score, now.iso, now.day)
  }

  /** The record after one more analysis: the entry appended, the last 50 kept, the count raised. */
  function Appended(h: HistoryRecord, score: int, now: Instant): HistoryRecord
  {
    HistoryRecord(KeepLast(h.scores + [EntryAt(score, now)], MaxHistory), now, h.totalAnalyses + 1)
  }

  /** The record of a résumé after an analysis, creating it on the first one. */
  function Recorded(histories: map<ResumeId, HistoryRecord>, id: ResumeId, score: int, now: Instant): HistoryRecord
  {
    if id in histories then Appended(histories[id], score, now)
    else HistoryRecord([EntryAt(score, now)], now, 1)
  }

  /**
   * Appending puts the new entry last and drops the oldest entry exactly
   * when the history was full; the first analysis creates a history of one
   * entry with a count of one.
   */
  lemma RecordedShape(histories: map<ResumeId, HistoryRecord>, id: ResumeId, score: int, now: Instant)
    ensures var h := Recorded(histories, id, score, now);
      h.scores != [] && h.scores[|h.scores| - 1] == EntryAt(score, now) && h.lastAnalysisDate == now
    ensures id !in histories ==> Recorded(histories, id, score, now) == HistoryRecord([EntryAt(score, now)], now, 1)
    ensures id in histories ==>
      var old_ := histories[id].scores;
      var h := Recorded(histories, id, score, now);
      h.totalAnalyses == histories[id].totalAnalyses + 1
      && (|old_| < MaxHistory ==> h.scores == old_ + [EntryAt(score, now)])
      && (|old_| >= MaxHistory ==> h.scores == old_[|old_| - (MaxHistory - 1)..] + [EntryAt(score, now)])
  {
    if id in histories {
      var old_ := histories[id].scores;
      var all := old_ + [EntryAt(score, now)];
      if |old_| >= MaxHistory {
        assert all[|all| - MaxHistory..] == old_[|old_| - (MaxHistory - 1)..] + [EntryAt(score, now)];
      }
    }
  }

  /**
   * A history written only by the repository keeps min(count, 50) entries:
   * the count starts at one with one entry and both grow together until the
   * cap.
   */
  predicate WellFormed(h: HistoryRecord)
  {
    h.totalAnalyses >= 1 && |h.scores| == Min(h.totalAnalyses, MaxHistory)
  }

  lemma RecordedWellFormed(histories: map<ResumeId, HistoryRecord>, id: ResumeId, score: int, now: Instant)
    requires id in histories ==> WellFormed(histories[id])
    ensures WellFormed(Recorded(histories, id, score, now))
  {
  }

  /** The score-history table, keyed by résumé id. */
  class ScoreHistoryStore {
    var histories: map<ResumeId, HistoryRecord>

    predicate Valid()
      reads this
    {
      forall id :: id in histories ==> WellFormed(histories[id])
    }

    constructor ()
      ensures histories == map[] && Valid()
    {
      histories := map[];
    }

    /** `_update_score_history`: records one more analysis of résumé `id`; every other row is unchanged. */
    method UpdateScoreHistory(id: ResumeId, newScore: int, now: Instant)
      requires Valid()
      modifies this
      ensures Valid()
      ensures histories == old(histories)[id := Recorded(old(histories), id, newScore, now)]
    {
      var entry := EntryAt(newScore, now);
      if id in histories {
        var h := histories[id];
        var existing := h.scores + [entry];
        if |existing| > MaxHistory {
          existing := existing[|existing| - MaxHistory..];
        }
        histories := histories[id := HistoryRecord(existing, now, h.totalAnalyses + 1)];
      } else {
        histories := histories[id := HistoryRecord([entry], now, 1)];
      }
      RecordedWellFormed(old(histories), id, newScore, now);
    }

    /** `get_score_history`: the last `limit` entries (all for 0) and their trend. */
    function GetScoreHistory(id: ResumeId, limit: int, now: Instant): (v: ScoreHistoryView)
      reads this
      ensures id !in histories ==> v == ScoreHistoryView([], Neutral, now)
      ensures id in histories ==>
        v.scores == LimitScores(histories[id].scores, limit) && v.trend == TrendOf(v.scores)
        && v.lastAnalysisDate == histories[id].lastAnalysisDate
    {
      if id !in histories then ScoreHistoryView([], Neutral, now)
      else
        var limited := LimitScores(histories[id].scores, limit);
        ScoreHistoryView(limited, TrendOf(limited), histories[id].lastAnalysisDate)
    }
  }

  datatype ScoreHistoryView = ScoreHistoryView(scores: seq<ScoreEntry>, trend: Trend, lastAnalysisDate: Instant)

  /** `scores[-limit:] if limit else scores`. */
  function LimitScores(scores: seq<ScoreEntry>, limit: int): (r: seq<ScoreEntry>)
    ensures limit == 0 ==> r == scores
    ensures limit > 0 ==> r == KeepLast(scores, limit)
    ensures limit < 0 ==> r == scores[Min(-limit, |scores|)..]
  {
    if limit == 0 then scores
    else if limit > 0 then KeepLast(scores, limit)
    else scores[Min(-limit, |scores|)..]
  }

  // ---------------------------------------------------------------------------
  // The improvement trend

  datatype Trend = Neutral | Improving | Declining | Stable

  function ScoreValues(entries: seq<ScoreEntry>): (ys: seq<int>)
    ensures |ys| == |entries| && forall i :: 0 <= i < |ys| ==> ys[i] == entries[i].score
  {
    seq(|entries|, i requires 0 <= i < |entries| => entries[i].score)
  }

  /** `sum(ys[:k])`. */
  function SumY(ys: seq<int>, k: nat): real
    requires k <= |ys|
  {
    if k == 0 then 0.0 else SumY(ys, k - 1) + ys[k - 1] as real
  }

  /** `sum(i * ys[i] for i in range(k))`. */
  function SumXY(ys: seq<int>, k: nat): real
    requires k <= |ys|
  {
    if k == 0 then 0.0 else SumXY(ys, k - 1) + ((k - 1) as real) * (ys[k - 1] as real)
  }

  /** `sum(range(k))`. */
  function SumX(k: nat): real
  {
    if k == 0 then 0.0 else SumX(k - 1) + (k - 1) as real
  }

  /** `sum(i * i for i in range(k))`. */
  function SumXX(k: nat): real
  {
    if k == 0 then 0.0 else SumXX(k - 1) + ((k - 1) as real) * ((k - 1) as real)
  }

  /** `n * sum(x * y) - sum(x) * sum(y)` for the points `(i, ys[i])`. */
  function CrossNumerator(ys: seq<int>): real
  {
    (|ys| as real) * SumXY(ys, |ys|) - SumX(|ys|) * SumY(ys, |ys|)
  }

  /** `n * sum(x * x) - sum(x) ** 2` for the indices `0 .. n - 1`. */
  function CrossDenominator(n: nat): real
  {
    (n as real) * SumXX(n) - SumX(n) * SumX(n)
  }

  /**
   * The trend of the scores, judged without division: the least-squares
   * slope of the last five scores against the indices 0, 1, ... is above 2,
   * below -2, or in between; fewer than two scores give no trend.
   */
  function TrendOf(entries: seq<ScoreEntry>): Trend
  {
    if |entries| < 2 then Neutral
    else
      var ys := ScoreValues(KeepLast(entries, 5));
      Classify(CrossNumerator(ys), CrossDenominator(|ys|))
  }

  /** The trend of a slope `num / den`, compared with 2 and -2 without dividing. */
  function Classify(num: real, den: real): Trend
  {
    if den == 0.0 then Neutral
    else if num > 2.0 * den then Improving
    else if num < -2.0 * den then Declining
    else Stable
  }

  /** `sum((x - x_mean) * (y - y_mean))` over the first `k` points. */
  function CenteredProducts(ys: seq<int>, k: nat, xMean: real, yMean: real): real
    requires k <= |ys|
  {
    if k == 0 then 0.0
    else CenteredProducts(ys, k - 1, xMean, yMean) + ((k - 1) as real - xMean) * (ys[k - 1] as real - yMean)
  }

  /** `sum((x - x_mean) ** 2)` over the first `k` indices. */
  function CenteredSquares(k: nat, xMean: real): real
  {
    if k == 0 then 0.0 else CenteredSquares(k - 1, xMean) + ((k - 1) as real - xMean) * ((k - 1) as real - xMean)
  }

  /** `_calculate_improvement_trend` as the source computes it, with means and the slope's quotient. */
  function SlopeTrend(entries: seq<ScoreEntry>): Trend
  {
    if |entries| < 2 then Neutral
    else
      var ys := ScoreValues(KeepLast(entries, 5));
      var n := |ys| as real;
      var xMean := SumX(|ys|) / n;
      var yMean := SumY(ys, |ys|) / n;
      var numerator := CenteredProducts(ys, |ys|, xMean, yMean);
      var denominator := CenteredSquares(|ys|, xMean);
      if denominator == 0.0 then Neutral
      else
        var slope := numerator / denominator;
        if slope > 2.0 then Improving
        else if slope < -2.0 then Declining
        else Stable
  }

  lemma {:induction false} CenteredProductsExpanded(ys: seq<int>, k: nat, mx: real, my: real)
    requires k <= |ys|
    ensures CenteredProducts(ys, k, mx, my)
      == SumXY(ys, k) - mx * SumY(ys, k) - my * SumX(k) + (k as real) * (mx * my)
  {
    if k > 0 {
      CenteredProductsExpanded(ys, k - 1, mx, my);
      var x := (k - 1) as real;
      var y := ys[k - 1] as real;
      assert (x - mx) * (y - my) == x * y - mx * y - my * x + mx * my;
      assert mx * SumY(ys, k) == mx * SumY(ys, k - 1) + mx * y;
      assert my * SumX(k) == my * SumX(k - 1) + my * x;
      assert (k as real) * (mx * my) == ((k - 1) as real) * (mx * my) + mx * my;
    }
  }

  lemma {:induction false} CenteredSquaresExpanded(k: nat, mx: real)
    ensures CenteredSquares(k, mx) == SumXX(k) - 2.0 * mx * SumX(k) + (k as real) * (mx * mx)
  {
    if k > 0 {
      CenteredSquaresExpanded(k - 1, mx);
      var x := (k - 1) as real;
      assert (x - mx) * (x - mx) == x * x - 2.0 * mx * x + mx * mx;
      assert 2.0 * mx * SumX(k) == 2.0 * mx * SumX(k - 1) + 2.0 * mx * x;
      assert (k as real) * (mx * mx) == ((k - 1) as real) * (mx * mx) + mx * mx;
    }
  }

  /** The index sums for two to five points, and so a positive denominator. */
  lemma DenominatorPositive(n: nat)
    requires 2 <= n <= 5
    ensures CrossDenominator(n) > 0.0
  {
    assert SumX(2) == 1.0 && SumXX(2) == 1.0;
    assert SumX(3) == 3.0 && SumXX(3) == 5.0;
    assert SumX(4) == 6.0 && SumXX(4) == 14.0;
    assert SumX(5) == 10.0 && SumXX(5) == 30.0;
  }

  lemma ScaledProducts(n: real, mx: real, my: real, sx: real, sy: real, sxy: real, cp: real)
    requires n * mx == sx && n * my == sy
    requires cp == sxy - mx * sy - my * sx + n * (mx * my)
    ensures n * cp == n * sxy - sx * sy
  {
    assert n * (mx * sy) == sx * sy;
    assert n * (my * sx) == sx * sy;
    assert n * (n * (mx * my)) == (n * mx) * (n * my);
  }

  lemma ScaledSquares(n: real, mx: real, sx: real, sxx: real, cs: real)
    requires n * mx == sx
    requires cs == sxx - 2.0 * mx * sx + n * (mx * mx)
    ensures n * cs == n * sxx - sx * sx
  {
    assert n * (2.0 * mx * sx) == 2.0 * (sx * sx);
    assert n * (n * (mx * mx)) == (n * mx) * (n * mx);
  }

  lemma MeanTimesCount(total: real, n: real, mean: real)
    requires n != 0.0 && mean == total / n
    ensures n * mean == total
  {
  }

  lemma ProductsScaled(ys: seq<int>, xMean: real, yMean: real)
    requires (|ys| as real) * xMean == SumX(|ys|) && (|ys| as real) * yMean == SumY(ys, |ys|)
    ensures (|ys| as real) * CenteredProducts(ys, |ys|, xMean, yMean) == CrossNumerator(ys)
  {
    CenteredProductsExpanded(ys, |ys|, xMean, yMean);
    ScaledProducts(|ys| as real, xMean, yMean, SumX(|ys|), SumY(ys, |ys|), SumXY(ys, |ys|),
      CenteredProducts(ys, |ys|, xMean, yMean));
  }

  lemma SquaresScaled(k: nat, xMean: real)
    requires (k as real) * xMean == SumX(k)
    ensures (k as real) * CenteredSquares(k, xMean) == CrossDenominator(k)
  {
    CenteredSquaresExpanded(k, xMean);
    ScaledSquares(k as real, xMean, SumX(k), SumXX(k), CenteredSquares(k, xMean));
  }

  /** Dividing by a positive denominator keeps the slope on the same side of 2 and -2. */
  lemma SlopeComparisons(num: real, den: real)
    requires den > 0.0
    ensures num / den > 2.0 <==> num > 2.0 * den
    ensures num / den < -2.0 <==> num < -2.0 * den
  {
    var q := num / den;
    assert q * den == num;
    if q > 2.0 { assert (q - 2.0) * den > 0.0; }
    if q < -2.0 { assert (-2.0 - q) * den > 0.0; }
    if num > 2.0 * den { assert (q - 2.0) * den > 0.0; }
    if num < -2.0 * den { assert (-2.0 - q) * den > 0.0; }
  }

  /**
   * Scaling both centred sums by the same positive `n` keeps the slope's
   * comparisons with 2 and -2: they can be made on the scaled sums without
   * dividing.
   */
  lemma SlopeAgreement(n: real, numerator: real, denominator: real, num: real, den: real)
    requires n > 0.0 && n * numerator == num && n * denominator == den && den > 0.0
    ensures denominator != 0.0
    ensures numerator / denominator > 2.0 <==> num > 2.0 * den
    ensures numerator / denominator < -2.0 <==> num < -2.0 * den
  {
    assert denominator > 0.0;
    var q := numerator / denominator;
    assert q * denominator == numerator;
    assert q * den == num by {
      assert q * den == q * (n * denominator) == n * (q * denominator);
    }
    SlopeComparisons(num, den);
    assert num / den == q;
  }

  /** For two to five points, the source's slope against 2 and -2 is the division-free comparison. */
  lemma SlopeFacts(ys: seq<int>, xMean: real, yMean: real)
    requires 2 <= |ys| <= 5
    requires xMean == SumX(|ys|) / (|ys| as real) && yMean == SumY(ys, |ys|) / (|ys| as real)
    ensures CenteredSquares(|ys|, xMean) != 0.0 && CrossDenominator(|ys|) != 0.0
    ensures CenteredProducts(ys, |ys|, xMean, yMean) / CenteredSquares(|ys|, xMean) > 2.0
      <==> CrossNumerator(ys) > 2.0 * CrossDenominator(|ys|)
    ensures CenteredProducts(ys, |ys|, xMean, yMean) / CenteredSquares(|ys|, xMean) < -2.0
      <==> CrossNumerator(ys) < -2.0 * CrossDenominator(|ys|)
  {
    var n := |ys| as real;
    MeanTimesCount(SumX(|ys|), n, xMean);
    MeanTimesCount(SumY(ys, |ys|), n, yMean);
    ProductsScaled(ys, xMean, yMean);
    SquaresScaled(|ys|, xMean);
    DenominatorPositive(|ys|);
    SlopeAgreement(n, CenteredProducts(ys, |ys|, xMean, yMean), CenteredSquares(|ys|, xMean),
      CrossNumerator(ys), CrossDenominator(|ys|));
  }

  /** The source's slope test and the division-free test agree on every score history. */
  lemma TrendCrossMultiplied(entries: seq<ScoreEntry>)
    ensures SlopeTrend(entries) == TrendOf(entries)
  {
    if |entries| >= 2 {
      var ys := ScoreValues(KeepLast(entries, 5));
      var n := |ys| as real;
      SlopeFacts(ys, SumX(|ys|) / n, SumY(ys, |ys|) / n);
    }
  }

  /** With two or more scores the denominator is positive, so the "neutral" fallback never fires. */
  lemma TrendNeutralOnlyWhenShort(entries: seq<ScoreEntry>)
    ensures TrendOf(entries) == Neutral <==> |entries| < 2
  {
    if |entries| >= 2 {
      DenominatorPositive(|KeepLast(entries, 5)|);
    }
  }

  /** Scores rising by the same step `d` from analysis to analysis. */
  predicate EvenSteps(ys: seq<int>, d: int)
  {
    forall i :: 0 <= i < |ys| - 1 ==> Step(ys, i) == d
  }

  /** The change from the `i`-th score to the next. */
  function Step(ys: seq<int>, i: nat): int
    requires i < |ys| - 1
  {
    ys[i + 1] - ys[i]
  }

  lemma {:induction false} EvenStepsLinear(ys: seq<int>, d: int, k: nat)
    requires EvenSteps(ys, d) && k < |ys|
    ensures ys[k] as real == ys[0] as real + (d as real) * (k as real)
  {
    if k > 0 {
      EvenStepsLinear(ys, d, k - 1);
      assert Step(ys, k - 1) == d;
      assert (d as real) * (k as real) == (d as real) * ((k - 1) as real) + d as real;
    }
  }

  lemma LinearStep(a: real, d: real, x: real, y: real, sy: real, sx: real, j: real, sy': real, sx': real)
    requires y == a + d * x && sy == j * a + d * sx
    requires sy' == sy + y && sx' == sx + x
    ensures sy' == (j + 1.0) * a + d * sx'
  {
  }

  lemma LinearStepXY(a: real, d: real, x: real, y: real, sxy: real, sx: real, sxx: real, sxy': real, sx': real, sxx': real)
    requires y == a + d * x && sxy == a * sx + d * sxx
    requires sxy' == sxy + x * y && sx' == sx + x && sxx' == sxx + x * x
    ensures sxy' == a * sx' + d * sxx'
  {
  }

  lemma {:induction false} LinearSumY(ys: seq<int>, a: real, d: real, k: nat)
    requires k <= |ys|
    requires forall i :: 0 <= i < |ys| ==> ys[i] as real == a + d * (i as real)
    ensures SumY(ys, k) == (k as real) * a + d * SumX(k)
  {
    if k > 0 {
      LinearSumY(ys, a, d, k - 1);
      var x, y := (k - 1) as real, ys[k - 1] as real;
      assert y == a + d * x;
      LinearStep(a, d, x, y, SumY(ys, k - 1), SumX(k - 1), x, SumY(ys, k), SumX(k));
    }
  }

  lemma {:induction false} LinearSumXY(ys: seq<int>, a: real, d: real, k: nat)
    requires k <= |ys|
    requires forall i :: 0 <= i < |ys| ==> ys[i] as real == a + d * (i as real)
    ensures SumXY(ys, k) == a * SumX(k) + d * SumXX(k)
  {
    if k > 0 {
      LinearSumXY(ys, a, d, k - 1);
      var x, y := (k - 1) as real, ys[k - 1] as real;
      assert y == a + d * x;
      assert SumXY(ys, k) == SumXY(ys, k - 1) + x * y;
      assert SumX(k) == SumX(k - 1) + x && SumXX(k) == SumXX(k - 1) + x * x;
      LinearStepXY(a, d, x, y, SumXY(ys, k - 1), SumX(k - 1), SumXX(k - 1), SumXY(ys, k), SumX(k), SumXX(k));
    }
  }

  lemma LineNumerator(n: real, a: real, d: real, sx: real, sxx: real, sy: real, sxy: real)
    requires sy == n * a + d * sx && sxy == a * sx + d * sxx
    ensures n * sxy - sx * sy == d * (n * sxx - sx * sx)
  {
  }

  /** A numerator of `d` times a positive denominator is a slope of `d`. */
  lemma ClassifyLine(d: int, num: real, den: real)
    requires den > 0.0 && num == (d as real) * den
    ensures Classify(num, den) == (if d > 2 then Improving else if d < -2 then Declining else Stable)
  {
    var dr := d as real;
    if d > 2 { assert (dr - 2.0) * den > 0.0; }
    else if d < -2 { assert (-2.0 - dr) * den > 0.0; }
    else {
      assert (2.0 - dr) * den >= 0.0;
      assert (dr + 2.0) * den >= 0.0;
    }
  }

  /** Scores on a line of slope `d` have a numerator of `d` times the denominator. */
  lemma EvenStepsNumerator(ys: seq<int>, d: int)
    requires 2 <= |ys| <= 5 && EvenSteps(ys, d)
    ensures CrossDenominator(|ys|) > 0.0
    ensures CrossNumerator(ys) == (d as real) * CrossDenominator(|ys|)
  {
    var a := ys[0] as real;
    var dr := d as real;
    forall i | 0 <= i < |ys| ensures ys[i] as real == a + dr * (i as real) {
      EvenStepsLinear(ys, d, i);
    }
    var n := |ys|;
    LinearSumY(ys, a, dr, n);
    LinearSumXY(ys, a, dr, n);
    DenominatorPositive(n);
    LineNumerator(n as real, a, dr, SumX(n), SumXX(n), SumY(ys, n), SumXY(ys, n));
  }

  /** The last scores of an evenly stepping history step evenly too. */
  lemma EvenStepsRecent(entries: seq<ScoreEntry>, d: int)
    requires EvenSteps(ScoreValues(entries), d)
    ensures EvenSteps(ScoreValues(KeepLast(entries, 5)), d)
  {
    var recent := KeepLast(entries, 5);
    var ys := ScoreValues(recent);
    var all := ScoreValues(entries);
    var m := |entries| - |recent|;
    forall i | 0 <= i < |ys| - 1 ensures Step(ys, i) == d {
      assert Step(ys, i) == Step(all, m + i);
    }
  }

  lemma EvenStepsClassify(ys: seq<int>, d: int)
    requires 2 <= |ys| <= 5 && EvenSteps(ys, d)
    ensures Classify(CrossNumerator(ys), CrossDenominator(|ys|))
      == (if d > 2 then Improving else if d < -2 then Declining else Stable)
  {
    EvenStepsNumerator(ys, d);
    ClassifyLine(d, CrossNumerator(ys), CrossDenominator(|ys|));
  }

  lemma TrendOfRecent(entries: seq<ScoreEntry>)
    requires |entries| >= 2
    ensures var ys := ScoreValues(KeepLast(entries, 5));
      TrendOf(entries) == Classify(CrossNumerator(ys), CrossDenominator(|ys|))
  {
  }

  /**
   * Scores that change by the same step `d` at every analysis have slope
   * `d`: they improve exactly when `d > 2`, decline exactly when `d < -2`,
   * and are stable otherwise (equal scores included).
   */
  lemma EvenStepsTrend(entries: seq<ScoreEntry>, d: int)
    requires |entries| >= 2 && EvenSteps(ScoreValues(entries), d)
    ensures TrendOf(entries) == (if d > 2 then Improving else if d < -2 then Declining else Stable)
  {
    EvenStepsRecent(entries, d);
    TrendOfRecent(entries);
    EvenStepsClassify(ScoreValues(KeepLast(entries, 5)), d);
  }

  /** Rising scores improve, falling scores decline, and equal scores are stable. */
  lemma TrendExamples(c: int)
    ensures TrendOf(Entries([40, 45, 50, 55, 60])) == Improving
    ensures TrendOf(Entries([60, 55, 50, 45, 40])) == Declining
    ensures TrendOf(Entries([c, c])) == Stable && TrendOf(Entries([c, c, c, c, c, c])) == Stable
  {
    EvenStepsTrend(Entries([40, 45, 50, 55, 60]), 5);
    EvenStepsTrend(Entries([60, 55, 50, 45, 40]), -5);
    EvenStepsTrend(Entries([c, c]), 0);
    EvenStepsTrend(Entries([c, c, c, c, c, c]), 0);
  }

  function Entries(ys: seq<int>): (es: seq<ScoreEntry>)
    ensures |es| == |ys| && ScoreValues(es) == ys
  {
    seq(|ys|, i requires 0 <= i < |ys| => ScoreEntry(ys[i], "", ""))
  }

  // ---------------------------------------------------------------------------
  // User statistics

  /** One stored analysis of a user: its overall score and creation time in seconds. */
  datatype AnalysisRow = AnalysisRow(overallAtsScore: int, createdAt: int)

  datatype UserStatistics = UserStatistics(
    totalAnalyses: nat,
    averageScore: real,
    highestScore: int,
    lowestScore: int,
    improvementOverTime: int,
    lastAnalysisDate: Option<int>,
    analysesThisMonth: Option<nat>)

  const SecondsPerDay := 86400

  /** The rows created at or after `cutoff`. */
  function CountSince(rows: seq<AnalysisRow>, cutoff: int): (n: nat)
    ensures n <= |rows|
  {
    if rows == [] then 0
    else CountSince(rows[..|rows| - 1], cutoff) + (if rows[|rows| - 1].createdAt >= cutoff then 1 else 0)
  }

  function OverallScores(rows: seq<AnalysisRow>): (xs: seq<int>)
    ensures |xs| == |rows| && forall i :: 0 <= i < |rows| ==> xs[i] == rows[i].overallAtsScore
  {
    seq(|rows|, i requires 0 <= i < |rows| => rows[i].overallAtsScore)
  }

  /**
   * `get_user_ats_statistics` over the user's analyses, newest first: the
   * count, the mean (before rounding), the extremes, the newest minus the
   * oldest score, the newest date and the analyses of the last 30 days; all
   * zeros without analyses.
   */
  function UserStats(rows: seq<AnalysisRow>, now: int): UserStatistics
  {
    if rows == [] then UserStatistics(0, 0.0, 0, 0, 0, None, None)
    else
      var scores := OverallScores(rows);
      UserStatistics(
        |rows|,
        (Sum(scores) as real) / (|scores| as real),
        Highest(scores),
        Lowest(scores),
        if |scores| >= 2 then scores[0] - scores[|scores| - 1] else 0,
        Some(rows[0].createdAt),
        Some(CountSince(rows, now - 30 * SecondsPerDay)))
  }

  /**
   * The lowest score is at most the average, which is at most the highest;
   * the improvement is the newest score minus the oldest; the month count
   * never exceeds the total; no analyses give zeros.
   */
  lemma UserStatsShape(rows: seq<AnalysisRow>, now: int)
    ensures rows == [] ==> UserStats(rows, now) == UserStatistics(0, 0.0, 0, 0, 0, None, None)
    ensures rows != [] ==> var st := UserStats(rows, now);
      st.totalAnalyses == |rows|
      && (st.lowestScore as real) <= st.averageScore <= (st.highestScore as real)
      && (exists i | 0 <= i < |rows| :: rows[i].overallAtsScore == st.highestScore)
      && (exists i | 0 <= i < |rows| :: rows[i].overallAtsScore == st.lowestScore)
      && st.improvementOverTime == rows[0].overallAtsScore - rows[|rows| - 1].overallAtsScore
      && st.lastAnalysisDate == Some(rows[0].createdAt)
      && st.analysesThisMonth.Some? && st.analysesThisMonth.value <= |rows|
  {
    if rows != [] {
      var scores := OverallScores(rows);
      SumBetween(scores, Lowest(scores), Highest(scores));
      MeanBetween(Sum(scores), |scores|, Lowest(scores), Highest(scores));
      var hi :| 0 <= hi < |scores| && scores[hi] == Highest(scores);
      var lo :| 0 <= lo < |scores| && scores[lo] == Lowest(scores);
      assert rows[hi].overallAtsScore == Highest(scores);
      assert rows[lo].overallAtsScore == Lowest(scores);
    }
  }

  // ---------------------------------------------------------------------------
  // Industry benchmarks

  datatype Benchmark = Benchmark(
    industry: string,
    roleLevel: string,
    averageAtsScore: int,
    topKeywords: seq<string>,
    recommendedSections: seq<string>,
    minWords: nat,
    maxWords: nat)

  const Benchmarks: seq<Benchmark> := [
    Benchmark("Technology", "Entry", 72, ["programming", "software development", "agile", "git"],
      ["technical_skills", "projects", "education"], 400, 700),
    Benchmark("Technology", "Senior", 78, ["leadership", "architecture", "mentoring", "strategy"],
      ["leadership_experience", "technical_skills", "achievements"], 600, 900),
    Benchmark("Healthcare", "Entry", 68, ["patient care", "clinical", "medical", "healthcare"],
      ["clinical_experience", "certifications", "education"], 400, 650),
    Benchmark("Finance", "Mid", 75, ["financial analysis", "excel", "risk management", "compliance"],
      ["quantifiable_achievements", "certifications", "education"], 500, 750)
  ]

  /** The benchmarks whose industry equals `industry` ignoring case, in table order. */
  function BenchmarksFor(table: seq<Benchmark>, industry: string): (r: seq<Benchmark>)
    ensures forall b :: b in r <==> b in table && EqualsIgnoreCase(b.industry, industry)
  {
    if table == [] then []
    else
      var last := table[|table| - 1];
      BenchmarksFor(table[..|table| - 1], industry) + (if EqualsIgnoreCase(last.industry, industry) then [last] else [])
  }

  /** `get_industry_benchmarks`: all four without an industry, otherwise the case-insensitive matches. */
  function IndustryBenchmarks(industry: string): (r: seq<Benchmark>)
    ensures industry == [] ==> r == Benchmarks
    ensures industry != [] ==> forall b :: b in r <==> b in Benchmarks && EqualsIgnoreCase(b.industry, industry)
  {
    if industry == [] then Benchmarks else BenchmarksFor(Benchmarks, industry)
  }
}
