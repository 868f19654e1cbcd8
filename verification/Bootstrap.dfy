/** Percentile bootstrap intervals of the mean, in exact reals, with the resample indices drawn
    from an input stream: draw k of a run asked for an index below n answers draw(k, n). */
module Bootstrap {
  import opened Prelude
  import opened Metrics

  type Stream = (nat, nat) -> nat

  ghost predicate InRange(draw: Stream) {
    forall k, n: nat :: n > 0 ==> draw(k, n) < n
  }

  function Sum(s: seq<real>): real {
    if s == [] then 0.0 else s[0] + Sum(s[1..])
  }

  function Mean(s: seq<real>): real
    requires s != []
  {
    Sum(s) / |s| as real
  }

  // ---- sorting ------------------------------------------------------------------------------------

  predicate Sorted(s: seq<real>) {
    forall i, j :: 0 <= i < j < |s| ==> s[i] <= s[j]
  }

  function Insert(x: real, s: seq<real>): (r: seq<real>)
    ensures |r| == |s| + 1
  {
    if s == [] then [x]
    else if x <= s[0] then [x] + s
    else [s[0]] + Insert(x, s[1..])
  }

  function Sort(s: seq<real>): (r: seq<real>)
    ensures |r| == |s|
  {
    if s == [] then [] else Insert(s[0], Sort(s[1..]))
  }

  lemma {:induction false} InsertPermutes(x: real, s: seq<real>)
    ensures multiset(Insert(x, s)) == multiset(s) + multiset{x}
  {
    if s != [] {
      assert s == [s[0]] + s[1..];
      if x > s[0] {
        InsertPermutes(x, s[1..]);
      }
    }
  }

  lemma {:induction false} InsertSorts(x: real, s: seq<real>)
    requires Sorted(s)
    ensures Sorted(Insert(x, s))
    ensures s != [] ==> Insert(x, s)[0] == if x <= s[0] then x else s[0]
  {
    if s != [] && x > s[0] {
      InsertSorts(x, s[1..]);
      var rest := Insert(x, s[1..]);
      assert s[0] <= rest[0];
      assert forall i :: 0 < i < |rest| ==> rest[0] <= rest[i];
    }
  }

  lemma {:induction false} SortSorts(s: seq<real>)
    ensures Sorted(Sort(s)) && multiset(Sort(s)) == multiset(s)
  {
    if s != [] {
      SortSorts(s[1..]);
      InsertSorts(s[0], Sort(s[1..]));
      InsertPermutes(s[0], Sort(s[1..]));
      assert s == [s[0]] + s[1..];
    }
  }

  // ---- order statistics move with the sample --------------------------------------------------------

  function CountLe(s: seq<real>, v: real): nat {
    if s == [] then 0 else (if s[0] <= v then 1 else 0) + CountLe(s[1..], v)
  }

  lemma {:induction false} InsertCount(x: real, s: seq<real>, v: real)
    ensures CountLe(Insert(x, s), v) == (if x <= v then 1 else 0) + CountLe(s, v)
  {
    if s != [] && x > s[0] {
      InsertCount(x, s[1..], v);
      assert Insert(x, s)[1..] == Insert(x, s[1..]);
    } else {
      assert Insert(x, s)[1..] == s;
    }
  }

  lemma {:induction false} SortCount(s: seq<real>, v: real)
    ensures CountLe(Sort(s), v) == CountLe(s, v)
  {
    if s != [] {
      SortCount(s[1..], v);
      InsertCount(s[0], Sort(s[1..]), v);
    }
  }

  /** In sorted order the k-th value is at most v exactly when more than k values are. */
  lemma {:induction false} SortedCount(r: seq<real>, k: nat, v: real)
    requires Sorted(r) && k < |r|
    ensures r[k] <= v <==> CountLe(r, v) > k
    decreases |r|
  {
    if r[0] > v {
      assert forall i :: 0 < i < |r| ==> r[0] <= r[i];
      NoneLe(r, v);
    } else if k > 0 {
      SortedCount(r[1..], k - 1, v);
    }
  }

  lemma {:induction false} NoneLe(r: seq<real>, v: real)
    requires forall i :: 0 <= i < |r| ==> r[i] > v
    ensures CountLe(r, v) == 0
  {
    if r != [] {
      NoneLe(r[1..], v);
    }
  }

  predicate Dominated(s: seq<real>, t: seq<real>) {
    |s| == |t| && forall i :: 0 <= i < |s| ==> s[i] <= t[i]
  }

  lemma {:induction false} DominatedCount(s: seq<real>, t: seq<real>, v: real)
    requires Dominated(s, t)
    ensures CountLe(t, v) <= CountLe(s, v)
  {
    if s != [] {
      DominatedCount(s[1..], t[1..], v);
    }
  }

  /** If every value stays or grows, so does every order statistic. */
  lemma SortKeepsDominance(s: seq<real>, t: seq<real>)
    requires Dominated(s, t)
    ensures Dominated(Sort(s), Sort(t))
  {
    SortSorts(s);
    SortSorts(t);
    forall k | 0 <= k < |s| ensures Sort(s)[k] <= Sort(t)[k] {
      var v := Sort(t)[k];
      SortedCount(Sort(t), k, v);
      SortCount(t, v);
      DominatedCount(s, t, v);
      SortCount(s, v);
      SortedCount(Sort(s), k, v);
    }
  }

  lemma {:induction false} SumKeepsDominance(s: seq<real>, t: seq<real>)
    requires Dominated(s, t)
    ensures Sum(s) <= Sum(t)
  {
    if s != [] {
      SumKeepsDominance(s[1..], t[1..]);
    }
  }

  lemma MeanKeepsDominance(s: seq<real>, t: seq<real>)
    requires Dominated(s, t) && s != []
    ensures Mean(s) <= Mean(t)
  {
    SumKeepsDominance(s, t);
    QuotientGrows(Sum(s), Sum(t), |s| as real);
  }

  lemma QuotientGrows(x: real, y: real, n: real)
    requires x <= y && n > 0.0
    ensures x / n <= y / n
  {
    assert (x / n) * n == x && (y / n) * n == y;
    ScaleOrder(y / n, x / n, n);
  }

  // ---- the percentile indices -----------------------------------------------------------------------

  /** Conversion to an integer drops the fraction. */
  function Truncate(x: real): int {
    if x >= 0.0 then x.Floor else -((-x).Floor)
  }

  function LowerIndex(ciLevel: real, n: nat): int {
    Truncate(LowCut(ciLevel, n))
  }

  function UpperIndex(ciLevel: real, n: nat): int {
    var upper := Truncate(HighCut(ciLevel, n)) - 1;
    var clamped := if n - 1 < upper then n - 1 else upper;
    if clamped < LowerIndex(ciLevel, n) then LowerIndex(ciLevel, n) else clamped
  }

  function LowCut(ciLevel: real, n: nat): real {
    (1.0 - ciLevel) / 2.0 * n as real
  }

  function HighCut(ciLevel: real, n: nat): real {
    (1.0 - (1.0 - ciLevel) / 2.0) * n as real
  }

  lemma CutBounds(ciLevel: real, n: nat)
    requires 0.0 < ciLevel < 1.0 && n >= 1
    ensures 0.0 < LowCut(ciLevel, n) < HighCut(ciLevel, n) < n as real
    ensures HighCut(ciLevel, n) - LowCut(ciLevel, n) == ciLevel * n as real
  {
    var tail := (1.0 - ciLevel) / 2.0;
    ScaleOrder(0.0, tail, n as real);
    ScaleOrder(tail, 1.0 - tail, n as real);
    ScaleOrder(1.0 - tail, 1.0, n as real);
    assert 1.0 - tail - tail == ciLevel;
  }

  lemma FloorsCover(low: real, high: real, n: nat)
    requires 0.0 < low < high < n as real
    ensures var lower := Truncate(low);
            var upper := Truncate(high) - 1;
            var clamped := if upper < lower then lower else upper;
            0 <= lower <= clamped < n && high - low - 1.0 < (clamped - lower + 1) as real < high - low + 1.0
    ensures Truncate(high) - 1 <= n - 1
  {
    var l, h := low.Floor, high.Floor;
    assert l as real <= low < (l + 1) as real;
    assert h as real <= high < (h + 1) as real;
  }

  /** Both indices are valid and in order, and the order statistics from one to the other number
      the nominal coverage to within one. */
  lemma PercentileIndicesCover(ciLevel: real, n: nat)
    requires 0.0 < ciLevel < 1.0 && n >= 1
    ensures 0 <= LowerIndex(ciLevel, n) <= UpperIndex(ciLevel, n) < n
    ensures var covered := (UpperIndex(ciLevel, n) - LowerIndex(ciLevel, n) + 1) as real;
            ciLevel * n as real - 1.0 < covered < ciLevel * n as real + 1.0
  {
    CutBounds(ciLevel, n);
    hide LowCut, HighCut, Truncate;
    FloorsCover(LowCut(ciLevel, n), HighCut(ciLevel, n), n);
  }

  // ---- the interval ---------------------------------------------------------------------------------

  datatype BootstrapError = BadLevel | BadCount | NotFinite

  datatype Interval = Interval(point: real, lower: real, upper: real)

  function Resample(values: seq<real>, draw: Stream, pos: nat): (r: seq<real>)
    requires values != [] && forall k, n: nat :: n > 0 ==> draw(k, n) < n
    ensures |r| == |values|
    ensures forall j :: 0 <= j < |r| ==> r[j] == values[draw(pos + j, |values|)]
  {
    seq(|values|, j requires 0 <= j < |values| => values[draw(pos + j, |values|)])
  }

  /** The statistics of the first `count` resamples. */
  function Statistics(values: seq<real>, count: nat, draw: Stream, pos: nat): (r: seq<real>)
    requires values != [] && InRange(draw)
    ensures |r| == count
  {
    if count == 0 then []
    else Statistics(values, count - 1, draw, pos) + [Mean(Resample(values, draw, pos + (count - 1) * |values|))]
  }

  predicate AllFinite(sample: seq<Num>) {
    forall i :: 0 <= i < |sample| ==> sample[i].Finite?
  }

  function Values(sample: seq<Num>): (r: seq<real>)
    requires AllFinite(sample)
    ensures |r| == |sample|
    ensures forall i :: 0 <= i < |sample| ==> r[i] == sample[i].value
  {
    seq(|sample|, i requires 0 <= i < |sample| => sample[i].value)
  }

  function IntervalOf(values: seq<real>, count: nat, ciLevel: real, draw: Stream, pos: nat): Interval
    requires values != [] && InRange(draw) && count >= 1 && 0.0 < ciLevel < 1.0
  {
    PercentileIndicesCover(ciLevel, count);
    var sorted := Sort(Statistics(values, count, draw, pos));
    Interval(Mean(values), sorted[LowerIndex(ciLevel, count)], sorted[UpperIndex(ciLevel, count)])
  }

  method BootstrapCi(sample: seq<Num>, count: int, ciLevel: real, draw: Stream, pos: nat)
    returns (r: Result<Interval, BootstrapError>, next: nat)
    requires InRange(draw)
    ensures !(0.0 < ciLevel < 1.0) ==> r == Err(BadLevel)
    ensures 0.0 < ciLevel < 1.0 && count < 1 ==> r == Err(BadCount)
    ensures 0.0 < ciLevel < 1.0 && count >= 1 ==>
              if sample == [] then r == Ok(Interval(0.0, 0.0, 0.0))
              else if !AllFinite(sample) then r == Err(NotFinite)
              else r == Ok(IntervalOf(Values(sample), count, ciLevel, draw, pos))
    ensures next == if r.Ok? && sample != [] then pos + count * |sample| else pos
  {
    hide Sort, LowerIndex, UpperIndex, Mean;
    next := pos;
    if !(0.0 < ciLevel < 1.0) {
      return Err(BadLevel), next;
    }
    if count < 1 {
      return Err(BadCount), next;
    }
    if sample == [] {
      return Ok(Interval(0.0, 0.0, 0.0)), next;
    }
    if !AllFinite(sample) {
      return Err(NotFinite), next;
    }
    var values := Values(sample);
    var n := |values|;
    var stats: seq<real> := [];
    for b := 0 to count
      invariant next == pos + b * n
      invariant stats == Statistics(values, b, draw, pos)
    {
      var resample: seq<real> := [];
      for j := 0 to n
        invariant next == pos + b * n + j
        invariant |resample| == j
        invariant forall i :: 0 <= i < j ==> resample[i] == values[draw(pos + b * n + i, n)]
      {
        resample := resample + [values[draw(next, n)]];
        next := next + 1;
      }
      assert resample == Resample(values, draw, pos + b * n);
      stats := stats + [Mean(resample)];
    }
    PercentileIndicesCover(ciLevel, count);
    stats := Sort(stats);
    r := Ok(Interval(Mean(values), stats[LowerIndex(ciLevel, count)], stats[UpperIndex(ciLevel, count)]));
  }

  // ---- what the interval means ----------------------------------------------------------------------

  predicate Between(s: seq<real>, lo: real, hi: real) {
    forall i :: 0 <= i < |s| ==> lo <= s[i] <= hi
  }

  lemma {:induction false} SumBetween(s: seq<real>, lo: real, hi: real)
    requires Between(s, lo, hi)
    ensures lo * |s| as real <= Sum(s) <= hi * |s| as real
  {
    if s != [] {
      SumBetween(s[1..], lo, hi);
      assert lo * |s| as real == lo + lo * |s[1..]| as real;
      assert hi * |s| as real == hi + hi * |s[1..]| as real;
    }
  }

  lemma MeanBetween(s: seq<real>, lo: real, hi: real)
    requires s != [] && Between(s, lo, hi)
    ensures lo <= Mean(s) <= hi
  {
    hide Sum, Between;
    SumBetween(s, lo, hi);
    var n := |s| as real;
    QuotientGrows(lo * n, Sum(s), n);
    QuotientGrows(Sum(s), hi * n, n);
    assert lo * n / n == lo && hi * n / n == hi;
  }

  lemma {:induction false} StatisticsBetween(values: seq<real>, count: nat, draw: Stream, pos: nat, lo: real, hi: real)
    requires values != [] && InRange(draw) && Between(values, lo, hi)
    ensures Between(Statistics(values, count, draw, pos), lo, hi)
  {
    if count > 0 {
      hide Mean;
      StatisticsBetween(values, count - 1, draw, pos, lo, hi);
      ResampledMeanBetween(values, draw, pos + (count - 1) * |values|, lo, hi);
    }
  }

  lemma ResampledMeanBetween(values: seq<real>, draw: Stream, pos: nat, lo: real, hi: real)
    requires values != [] && InRange(draw) && Between(values, lo, hi)
    ensures lo <= Mean(Resample(values, draw, pos)) <= hi
  {
    hide Mean;
    MeanBetween(Resample(values, draw, pos), lo, hi);
  }

  /** The interval is in order and lies within any bounds of the sample. */
  lemma IntervalIsBounded(values: seq<real>, count: nat, ciLevel: real, draw: Stream, pos: nat, lo: real, hi: real)
    requires values != [] && InRange(draw) && count >= 1 && 0.0 < ciLevel < 1.0
    requires Between(values, lo, hi)
    ensures var i := IntervalOf(values, count, ciLevel, draw, pos);
            lo <= i.lower <= i.upper <= hi && lo <= i.point <= hi
  {
    hide Mean, Statistics, LowerIndex, UpperIndex, Between;
    var stats := Statistics(values, count, draw, pos);
    PercentileIndicesCover(ciLevel, count);
    StatisticsBetween(values, count, draw, pos, lo, hi);
    SortSorts(stats);
    MeanBetween(values, lo, hi);
    SortBetween(stats, lo, hi);
    BetweenAt(Sort(stats), lo, hi);
  }

  lemma BetweenAt(s: seq<real>, lo: real, hi: real)
    requires Between(s, lo, hi)
    ensures forall i :: 0 <= i < |s| ==> lo <= s[i] <= hi
  {
  }

  /** Some bounds of a sample. */
  lemma {:induction false} Bounds(s: seq<real>) returns (lo: real, hi: real)
    ensures Between(s, lo, hi)
  {
    lo, hi := 0.0, 0.0;
    if s != [] {
      var a, b := Bounds(s[1..]);
      lo, hi := if a < s[0] then a else s[0], if b > s[0] then b else s[0];
      assert forall i :: 0 < i < |s| ==> s[i] == s[1..][i - 1];
    }
  }

  /** The mean times the size is the sum, and the sum is what it should be: of nothing zero, of one
      value that value, and of two samples together the sum of their sums. */
  lemma {:induction false} MeanIsAverage(s: seq<real>, t: seq<real>, x: real)
    ensures Sum([]) == 0.0 && Sum([x]) == x && Sum(s + t) == Sum(s) + Sum(t)
    ensures s != [] ==> Mean(s) * |s| as real == Sum(s)
  {
    assert [x][1..] == [];
    if s == [] {
      assert s + t == t;
    } else {
      assert (s + t)[1..] == s[1..] + t;
      MeanIsAverage(s[1..], t, x);
    }
  }

  /** The statistics are the means of the resamples, each drawn from the sample with its own stretch of
      the index stream. */
  lemma {:induction false} StatisticsAre(values: seq<real>, count: nat, draw: Stream, pos: nat, b: nat, r: seq<real>)
    requires values != [] && InRange(draw) && b < count && |r| == |values|
    requires forall j :: 0 <= j < |r| ==> r[j] == values[draw(pos + b * |values| + j, |values|)]
    ensures Statistics(values, count, draw, pos)[b] == Mean(r)
  {
    if b == count - 1 {
      assert r == Resample(values, draw, pos + b * |values|);
    } else {
      StatisticsAre(values, count - 1, draw, pos, b, r);
    }
  }

  /** The bounds of an interval are two of the ordered statistics, which leave equal tails to within
      one: below the lower index there are as many as half of what the level leaves out, cut to a
      whole number, and above the upper one as many to within one. */
  lemma IntervalReads(values: seq<real>, count: nat, ciLevel: real, draw: Stream, pos: nat)
      returns (ordered: seq<real>, lower: nat, upper: nat)
    requires values != [] && InRange(draw) && count >= 1 && 0.0 < ciLevel < 1.0
    ensures multiset(ordered) == multiset(Statistics(values, count, draw, pos))
    ensures |ordered| == count && forall i, j :: 0 <= i < j < count ==> ordered[i] <= ordered[j]
    ensures lower <= upper < count
    ensures IntervalOf(values, count, ciLevel, draw, pos) == Interval(Mean(values), ordered[lower], ordered[upper])
    ensures var tail := (1.0 - ciLevel) * count as real;
            && 2.0 * lower as real <= tail < 2.0 * (lower as real + 1.0)
            && -2.0 < 2.0 * (count - 1 - upper) as real - tail < 2.0
  {
    var stats := Statistics(values, count, draw, pos);
    PercentileIndicesCover(ciLevel, count);
    SortSorts(stats);
    ordered, lower, upper := Sort(stats), LowerIndex(ciLevel, count), UpperIndex(ciLevel, count);
    TailsAreEqual(ciLevel, count);
  }

  /** The indices cut off equal tails: the lower one exactly, the upper one to within one. */
  lemma TailsAreEqual(ciLevel: real, n: nat)
    requires 0.0 < ciLevel < 1.0 && n >= 1
    ensures var tail := (1.0 - ciLevel) * n as real;
            && 2.0 * LowerIndex(ciLevel, n) as real <= tail < 2.0 * (LowerIndex(ciLevel, n) as real + 1.0)
            && -2.0 < 2.0 * (n - 1 - UpperIndex(ciLevel, n)) as real - tail < 2.0
  {
    var tail := (1.0 - ciLevel) * n as real;
    CutBounds(ciLevel, n);
    assert LowCut(ciLevel, n) == tail / 2.0;
    assert HighCut(ciLevel, n) == n as real - tail / 2.0;
    TailsOfCuts(tail, n, LowCut(ciLevel, n), HighCut(ciLevel, n));
  }

  lemma TailsOfCuts(tail: real, n: nat, low: real, high: real)
    requires 0.0 < low < high < n as real && low == tail / 2.0 && high == n as real - tail / 2.0
    ensures var lower := Truncate(low);
            var upper := Truncate(high) - 1;
            var clamped := if upper < lower then lower else upper;
            && 2.0 * lower as real <= tail < 2.0 * (lower as real + 1.0)
            && -2.0 < 2.0 * (n - 1 - clamped) as real - tail < 2.0
            && upper <= n - 1
  {
    var l, h := low.Floor, high.Floor;
    assert l as real <= low < (l + 1) as real;
    assert h as real <= high < (h + 1) as real;
  }

  lemma SortBetween(s: seq<real>, lo: real, hi: real)
    requires Between(s, lo, hi)
    ensures Between(Sort(s), lo, hi)
  {
    SortSorts(s);
    forall i | 0 <= i < |s| ensures lo <= Sort(s)[i] <= hi {
      assert Sort(s)[i] in multiset(s);
    }
  }

  lemma {:induction false} StatisticsKeepDominance(s: seq<real>, t: seq<real>, count: nat, draw: Stream, pos: nat)
    requires Dominated(s, t) && s != [] && InRange(draw)
    ensures Dominated(Statistics(s, count, draw, pos), Statistics(t, count, draw, pos))
  {
    if count > 0 {
      StatisticsKeepDominance(s, t, count - 1, draw, pos);
      var at := pos + (count - 1) * |s|;
      MeanKeepsDominance(Resample(s, draw, at), Resample(t, draw, at));
    }
  }

  predicate Below(i: Interval, j: Interval) {
    i.point <= j.point && i.lower <= j.lower && i.upper <= j.upper
  }

  /** With the same resample indices, a sample that is nowhere smaller has a mean and both bounds
      that are not smaller either. */
  lemma IntervalIsMonotone(s: seq<real>, t: seq<real>, count: nat, ciLevel: real, draw: Stream, pos: nat)
    requires Dominated(s, t) && s != [] && InRange(draw) && count >= 1 && 0.0 < ciLevel < 1.0
    ensures Below(IntervalOf(s, count, ciLevel, draw, pos), IntervalOf(t, count, ciLevel, draw, pos))
  {
    PercentileIndicesCover(ciLevel, count);
    MeanKeepsDominance(s, t);
    StatisticsKeepDominance(s, t, count, draw, pos);
    SortKeepsDominance(Statistics(s, count, draw, pos), Statistics(t, count, draw, pos));
  }
}
