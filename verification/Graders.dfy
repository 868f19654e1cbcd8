/** Distributional graders: a global interval, one interval per slice, and the conservative pass
    rule on the interval's bound. */
module Graders {
  import opened Prelude
  import opened Metrics
  import opened Bootstrap

  /** One observation with its metric and its slice labels. */
  datatype Sample = Sample(caseId: string, metric: Num, slices: map<string, string>)

  datatype Key = Key(name: string, group: string)

  /** A grader's settings. `order` lists a set of slice keys in sorted order. */
  datatype Settings = Settings(
    threshold: Option<real>,
    higherIsBetter: bool,
    count: int,
    ciLevel: real,
    sliceMin: int,
    draw: Stream,
    order: set<Key> -> seq<Key>)

  datatype SliceReport = SliceReport(key: Key, n: nat, interval: Interval, passed: bool)

  datatype Report = Report(n: nat, count: int, interval: Interval, passed: bool, slices: seq<SliceReport>)

  predicate Passes(g: Settings, i: Interval) {
    if g.threshold.None? then true
    else if g.higherIsBetter then i.lower >= g.threshold.value
    else i.upper <= g.threshold.value
  }

  /** The order enumerates each set of keys once. */
  ghost predicate Enumerates(order: set<Key> -> seq<Key>) {
    forall keys :: Elements(order(keys)) == keys && Distinct(order(keys))
  }

  ghost predicate Usable(g: Settings) {
    InRange(g.draw) && Enumerates(g.order)
  }

  // ---- slices ------------------------------------------------------------------------------------

  predicate Carries(s: Sample, k: Key) {
    k.name in s.slices && s.slices[k.name] == k.group
  }

  function KeysOf(s: Sample): set<Key> {
    set name | name in s.slices :: Key(name, s.slices[name])
  }

  function AllKeys(samples: seq<Sample>): set<Key> {
    if samples == [] then {} else AllKeys(samples[..|samples| - 1]) + KeysOf(samples[|samples| - 1])
  }

  /** The metrics of the samples that carry a key, in their order. */
  function Bucket(samples: seq<Sample>, k: Key): seq<Num> {
    if samples == [] then []
    else
      var rest := Bucket(samples[..|samples| - 1], k);
      if Carries(samples[|samples| - 1], k) then rest + [samples[|samples| - 1].metric] else rest
  }

  function MetricsOf(samples: seq<Sample>): (r: seq<Num>)
    ensures |r| == |samples|
    ensures forall i :: 0 <= i < |samples| ==> r[i] == samples[i].metric
  {
    seq(|samples|, i requires 0 <= i < |samples| => samples[i].metric)
  }

  lemma {:induction false} BucketsAreKeyed(samples: seq<Sample>, k: Key)
    ensures k in AllKeys(samples) <==> Bucket(samples, k) != []
  {
    if samples != [] {
      BucketsAreKeyed(samples[..|samples| - 1], k);
    }
  }

  lemma {:induction false} BucketFinite(samples: seq<Sample>, k: Key)
    requires AllFinite(MetricsOf(samples))
    ensures AllFinite(Bucket(samples, k))
  {
    if samples != [] {
      var last := |samples| - 1;
      assert AllFinite(MetricsOf(samples[..last])) by {
        assert forall i :: 0 <= i < last ==> MetricsOf(samples[..last])[i] == MetricsOf(samples)[i];
      }
      BucketFinite(samples[..last], k);
      assert MetricsOf(samples)[last].Finite?;
    }
  }

  /** The map holds this list under the key, and an empty list by not having the key. */
  predicate Holds(buckets: map<Key, seq<Num>>, k: Key, list: seq<Num>) {
    if list == [] then k !in buckets else k in buckets && buckets[k] == list
  }

  /** The bucket of a key once the labels `done` of one more sample have been filed. */
  function Filed(before: seq<Sample>, s: Sample, done: set<string>, k: Key): seq<Num> {
    if Carries(s, k) && k.name in done then Bucket(before, k) + [s.metric] else Bucket(before, k)
  }

  lemma CarriedNames(s: Sample, k: Key)
    requires Carries(s, k)
    ensures k.name in s.slices
  {
  }

  lemma FileOne(buckets: map<Key, seq<Num>>, before: seq<Sample>, s: Sample, done: set<string>, name: string, k: Key)
    requires name in s.slices && name !in done && Holds(buckets, k, Filed(before, s, done, k))
    ensures var key := Key(name, s.slices[name]);
            Holds(buckets[key := (if key in buckets then buckets[key] else []) + [s.metric]], k,
                  Filed(before, s, done + {name}, k))
  {
    hide Bucket;
  }

  function SliceCount(g: Settings): int {
    if g.count < 200 then g.count else 200
  }

  /** The reports on a list of slices, and the stream position after them. */
  datatype Progress = Progress(reports: seq<SliceReport>, pos: nat)

  ghost function SliceReports(g: Settings, samples: seq<Sample>, keys: seq<Key>, pos: nat): Progress
    requires InRange(g.draw) && g.count >= 1 && 0.0 < g.ciLevel < 1.0
    requires AllFinite(MetricsOf(samples))
  {
    if keys == [] then Progress([], pos)
    else
      var before := SliceReports(g, samples, keys[..|keys| - 1], pos);
      var k := keys[|keys| - 1];
      var bucket := Bucket(samples, k);
      BucketFinite(samples, k);
      if |bucket| < g.sliceMin || bucket == [] then before
      else
        var i := IntervalOf(Values(bucket), SliceCount(g), g.ciLevel, g.draw, before.pos);
        Progress(before.reports + [SliceReport(k, |bucket|, i, Passes(g, i))],
                 before.pos + SliceCount(g) * |bucket|)
  }

  ghost predicate Gradable(g: Settings, samples: seq<Sample>) {
    samples != [] && g.count >= 1 && 0.0 < g.ciLevel < 1.0 && AllFinite(MetricsOf(samples)) && Usable(g)
  }

  ghost function Graded(g: Settings, samples: seq<Sample>, pos: nat): Report
    requires Gradable(g, samples)
  {
    var i := IntervalOf(Values(MetricsOf(samples)), g.count, g.ciLevel, g.draw, pos);
    Report(|samples|, g.count, i, Passes(g, i),
           SliceReports(g, samples, g.order(AllKeys(samples)), pos + g.count * |samples|).reports)
  }

  class DistributionalGrader {
    const g: Settings
    var pos: nat

    constructor (g: Settings)
      ensures this.g == g && pos == 0
    {
      this.g, pos := g, 0;
    }

    /** Group the metrics under every key that any sample carries. */
    method FillBuckets(samples: seq<Sample>) returns (buckets: map<Key, seq<Num>>)
      ensures buckets.Keys == AllKeys(samples)
      ensures forall k :: k in buckets ==> buckets[k] == Bucket(samples, k)
    {
      buckets := map[];
      for i := 0 to |samples|
        invariant forall k :: Holds(buckets, k, Bucket(samples[..i], k))
      {
        assert samples[..i + 1][..i] == samples[..i];
        buckets := AddSample(buckets, samples[i], samples[..i]);
      }
      assert samples[..|samples|] == samples;
      forall k ensures k in buckets <==> k in AllKeys(samples) {
        BucketsAreKeyed(samples, k);
      }
    }

    method AddSample(buckets: map<Key, seq<Num>>, s: Sample, ghost before: seq<Sample>)
      returns (r: map<Key, seq<Num>>)
      requires forall k :: Holds(buckets, k, Bucket(before, k))
      ensures forall k :: Holds(r, k, if Carries(s, k) then Bucket(before, k) + [s.metric] else Bucket(before, k))
    {
      hide Bucket, Holds, Carries;
      r := buckets;
      var todo := s.slices.Keys;
      ghost var done: set<string> := {};
      while todo != {}
        invariant done == s.slices.Keys - todo && todo <= s.slices.Keys
        invariant forall k :: Holds(r, k, Filed(before, s, done, k))
        decreases todo
      {
        var name :| name in todo;
        var key := Key(name, s.slices[name]);
        ghost var filed := r;
        r := r[key := (if key in r then r[key] else []) + [s.metric]];
        forall k ensures Holds(r, k, Filed(before, s, done + {name}, k)) {
          FileOne(filed, before, s, done, name, k);
        }
        todo, done := todo - {name}, done + {name};
      }
      forall k ensures Holds(r, k, if Carries(s, k) then Bucket(before, k) + [s.metric] else Bucket(before, k)) {
        if Carries(s, k) {
          CarriedNames(s, k);
        }
        assert Holds(r, k, Filed(before, s, done, k));
      }
    }

    method Evaluate(samples: seq<Sample>) returns (r: Result<Report, BootstrapError>)
      requires Usable(g)
      modifies this
      ensures samples == [] ==> r == Ok(Report(0, 0, Interval(0.0, 0.0, 0.0), false, []))
      ensures samples != [] ==> (r.Ok? <==> Gradable(g, samples))
      ensures samples != [] ==>
                && (r == Err(BadLevel) <==> !(0.0 < g.ciLevel < 1.0))
                && (r == Err(BadCount) <==> 0.0 < g.ciLevel < 1.0 && g.count < 1)
                && (r == Err(NotFinite) <==> 0.0 < g.ciLevel < 1.0 && g.count >= 1 && !AllFinite(MetricsOf(samples)))
      ensures Gradable(g, samples) ==> r == Ok(Graded(g, samples, old(pos)))
    {
      hide IntervalOf, SliceReports, Passes, Values, AllKeys;
      if samples == [] {
        return Ok(Report(0, 0, Interval(0.0, 0.0, 0.0), false, []));
      }
      var total, next := BootstrapCi(MetricsOf(samples), g.count, g.ciLevel, g.draw, pos);
      pos := next;
      if total.Err? {
        return Err(total.error);
      }
      var buckets := FillBuckets(samples);
      var reports := ReportSlices(samples, buckets);
      r := Ok(Report(|samples|, g.count, total.value, Passes(g, total.value), reports));
    }

    method ReportSlices(samples: seq<Sample>, buckets: map<Key, seq<Num>>) returns (reports: seq<SliceReport>)
      requires Gradable(g, samples)
      requires buckets.Keys == AllKeys(samples) && forall k :: k in buckets ==> buckets[k] == Bucket(samples, k)
      modifies this
      ensures Progress(reports, pos) == SliceReports(g, samples, g.order(AllKeys(samples)), old(pos))
    {
      hide Bucket, AllKeys, IntervalOf, Passes, Values, AllFinite;
      var keys := g.order(buckets.Keys);
      assert forall i :: 0 <= i < |keys| ==> keys[i] in Elements(keys);
      reports := [];
      for i := 0 to |keys|
        invariant Progress(reports, pos) == SliceReports(g, samples, keys[..i], old(pos))
      {
        assert keys[..i + 1][..i] == keys[..i];
        var bucket := buckets[keys[i]];
        BucketsAreKeyed(samples, keys[i]);
        BucketFinite(samples, keys[i]);
        if |bucket| >= g.sliceMin {
          var interval, next := BootstrapCi(bucket, SliceCount(g), g.ciLevel, g.draw, pos);
          pos := next;
          reports := reports + [SliceReport(keys[i], |bucket|, interval.value, Passes(g, interval.value))];
        }
      }
      assert keys[..|keys|] == keys;
    }
  }

  // ---- a better population never fails where a worse one passed ---------------------------------------

  /** The same cases with the same labels, no metric smaller in the second. */
  predicate NowhereSmaller(s: seq<Sample>, t: seq<Sample>) {
    |s| == |t| && forall i :: 0 <= i < |s| ==>
      s[i].metric.Finite? && t[i].metric.Finite? && s[i].metric.value <= t[i].metric.value && s[i].slices == t[i].slices
  }

  lemma {:induction false} SameKeys(s: seq<Sample>, t: seq<Sample>)
    requires NowhereSmaller(s, t)
    ensures AllKeys(s) == AllKeys(t)
  {
    if s != [] {
      SameKeys(s[..|s| - 1], t[..|t| - 1]);
    }
  }

  lemma {:induction false} BucketsDominated(s: seq<Sample>, t: seq<Sample>, k: Key)
    requires NowhereSmaller(s, t)
    ensures AllFinite(Bucket(s, k)) && AllFinite(Bucket(t, k))
    ensures Dominated(Values(Bucket(s, k)), Values(Bucket(t, k)))
  {
    if s != [] {
      BucketsDominated(s[..|s| - 1], t[..|t| - 1], k);
    }
  }

  /** Slice for slice the same key and size, with an interval nowhere smaller. */
  predicate ReportsBelow(a: seq<SliceReport>, b: seq<SliceReport>) {
    |a| == |b| && forall i :: 0 <= i < |a| ==>
      a[i].key == b[i].key && a[i].n == b[i].n && Below(a[i].interval, b[i].interval)
  }

  predicate VerdictsMatch(g: Settings, reports: seq<SliceReport>) {
    forall i :: 0 <= i < |reports| ==> reports[i].passed == Passes(g, reports[i].interval)
  }

  lemma {:induction false} SlicesMonotone(g: Settings, s: seq<Sample>, t: seq<Sample>, keys: seq<Key>, pos: nat)
    requires NowhereSmaller(s, t) && Gradable(g, s) && Gradable(g, t)
    ensures ReportsBelow(SliceReports(g, s, keys, pos).reports, SliceReports(g, t, keys, pos).reports)
    ensures SliceReports(g, s, keys, pos).pos == SliceReports(g, t, keys, pos).pos
    ensures VerdictsMatch(g, SliceReports(g, s, keys, pos).reports)
    ensures VerdictsMatch(g, SliceReports(g, t, keys, pos).reports)
  {
    if keys != [] {
      hide IntervalOf, Bucket, Passes, Values, NowhereSmaller, Below, MetricsOf, AllFinite, Enumerates, ReportsBelow, VerdictsMatch;
      var init, k := keys[..|keys| - 1], keys[|keys| - 1];
      SlicesMonotone(g, s, t, init, pos);
      var a, b := SliceReports(g, s, init, pos), SliceReports(g, t, init, pos);
      OneSliceMonotone(g, s, t, k, a.pos);
      if |Bucket(s, k)| >= g.sliceMin && Bucket(s, k) != [] {
        var i := IntervalOf(Values(Bucket(s, k)), SliceCount(g), g.ciLevel, g.draw, a.pos);
        var j := IntervalOf(Values(Bucket(t, k)), SliceCount(g), g.ciLevel, g.draw, a.pos);
        ReportsAppend(g, a.reports, b.reports, SliceReport(k, |Bucket(s, k)|, i, Passes(g, i)),
                      SliceReport(k, |Bucket(t, k)|, j, Passes(g, j)));
      }
    } else {
      assert ReportsBelow([], []) && VerdictsMatch(g, []);
    }
  }

  lemma OneSliceMonotone(g: Settings, s: seq<Sample>, t: seq<Sample>, k: Key, pos: nat)
    requires NowhereSmaller(s, t) && Gradable(g, s) && Gradable(g, t)
    ensures |Bucket(s, k)| == |Bucket(t, k)| && AllFinite(Bucket(s, k)) && AllFinite(Bucket(t, k))
    ensures Bucket(s, k) != [] ==>
              Below(IntervalOf(Values(Bucket(s, k)), SliceCount(g), g.ciLevel, g.draw, pos),
                    IntervalOf(Values(Bucket(t, k)), SliceCount(g), g.ciLevel, g.draw, pos))
  {
    hide IntervalOf, Bucket, Below, Enumerates, MetricsOf;
    BucketsDominated(s, t, k);
    SameBucketSize(s, t, k);
    if Bucket(s, k) != [] {
      IntervalIsMonotone(Values(Bucket(s, k)), Values(Bucket(t, k)), SliceCount(g), g.ciLevel, g.draw, pos);
    }
  }

  lemma ReportsAppend(g: Settings, a: seq<SliceReport>, b: seq<SliceReport>, x: SliceReport, y: SliceReport)
    requires ReportsBelow(a, b) && VerdictsMatch(g, a) && VerdictsMatch(g, b)
    requires x.key == y.key && x.n == y.n && Below(x.interval, y.interval)
    requires x.passed == Passes(g, x.interval) && y.passed == Passes(g, y.interval)
    ensures ReportsBelow(a + [x], b + [y]) && VerdictsMatch(g, a + [x]) && VerdictsMatch(g, b + [y])
  {
    hide Below, Passes;
  }

  lemma SameBucketSize(s: seq<Sample>, t: seq<Sample>, k: Key)
    requires NowhereSmaller(s, t)
    ensures |Bucket(s, k)| == |Bucket(t, k)|
  {
  }

  /** Grading the second population from the same stream position: the same slices are reported,
      every mean and bound is at least as large, and no verdict, global or per slice, gets worse
      when larger is better; when smaller is better none gets better. */
  lemma GradingIsMonotone(g: Settings, s: seq<Sample>, t: seq<Sample>, pos: nat)
    requires NowhereSmaller(s, t) && Gradable(g, s) && Gradable(g, t)
    ensures var a, b := Graded(g, s, pos), Graded(g, t, pos);
            && Below(a.interval, b.interval) && ReportsBelow(a.slices, b.slices)
            && (g.higherIsBetter ==>
                  (a.passed ==> b.passed)
                  && forall i :: 0 <= i < |a.slices| && a.slices[i].passed ==> b.slices[i].passed)
            && (!g.higherIsBetter ==>
                  (b.passed ==> a.passed)
                  && forall i :: 0 <= i < |a.slices| && b.slices[i].passed ==> a.slices[i].passed)
  {
    hide SliceReports, IntervalOf, AllKeys;
    SameKeys(s, t);
    IntervalIsMonotone(Values(MetricsOf(s)), Values(MetricsOf(t)), g.count, g.ciLevel, g.draw, pos);
    SlicesMonotone(g, s, t, g.order(AllKeys(s)), pos + g.count * |s|);
  }

  // ---- what a verdict says ------------------------------------------------------------------------------

  predicate Misses(g: Settings, v: real) {
    g.threshold.Some? && if g.higherIsBetter then v < g.threshold.value else v > g.threshold.value
  }

  /** Some value from the lower to the upper bound misses the threshold. */
  ghost predicate SomeValueMisses(g: Settings, i: Interval) {
    exists v :: i.lower <= v <= i.upper && Misses(g, v)
  }

  lemma IntervalsAreOrdered(values: seq<real>, count: nat, ciLevel: real, draw: Stream, pos: nat)
    requires values != [] && InRange(draw) && count >= 1 && 0.0 < ciLevel < 1.0
    ensures var i := IntervalOf(values, count, ciLevel, draw, pos);
            i.lower <= i.upper
  {
    hide IntervalOf;
    var lo, hi := Bounds(values);
    IntervalIsBounded(values, count, ciLevel, draw, pos, lo, hi);
  }

  lemma PassesConservatively(g: Settings, i: Interval)
    requires i.lower <= i.upper
    ensures Passes(g, i) <==> !SomeValueMisses(g, i)
  {
    if g.threshold.Some? && !Passes(g, i) {
      assert Misses(g, if g.higherIsBetter then i.lower else i.upper);
    }
  }

  /** A slice's report: its verdict is conservative, and its interval is over the samples that carry it,
      at least as many as asked for, with at most two hundred resamples. */
  ghost predicate SliceReported(g: Settings, samples: seq<Sample>, r: SliceReport)
    requires Gradable(g, samples)
  {
    BucketFinite(samples, r.key);
    var bucket := Bucket(samples, r.key);
    && r.passed == !SomeValueMisses(g, r.interval)
    && r.n == |bucket| && r.n >= g.sliceMin && r.n > 0
    && exists at: nat :: r.interval == IntervalOf(Values(bucket), SliceCount(g), g.ciLevel, g.draw, at)
  }

  lemma OneSliceReported(g: Settings, samples: seq<Sample>, k: Key, pos: nat)
    requires Gradable(g, samples) && |Bucket(samples, k)| >= g.sliceMin && Bucket(samples, k) != []
    ensures AllFinite(Bucket(samples, k))
    ensures var i := IntervalOf(Values(Bucket(samples, k)), SliceCount(g), g.ciLevel, g.draw, pos);
            SliceReported(g, samples, SliceReport(k, |Bucket(samples, k)|, i, Passes(g, i)))
  {
    hide IntervalOf, Passes, SomeValueMisses, Bucket, Values;
    BucketFinite(samples, k);
    var i := IntervalOf(Values(Bucket(samples, k)), SliceCount(g), g.ciLevel, g.draw, pos);
    IntervalsAreOrdered(Values(Bucket(samples, k)), SliceCount(g), g.ciLevel, g.draw, pos);
    PassesConservatively(g, i);
  }

  lemma {:induction false} SliceVerdicts(g: Settings, samples: seq<Sample>, keys: seq<Key>, pos: nat, k: nat)
    requires Gradable(g, samples) && k < |SliceReports(g, samples, keys, pos).reports|
    ensures SliceReported(g, samples, SliceReports(g, samples, keys, pos).reports[k])
  {
    hide IntervalOf, Passes, SomeValueMisses, SliceReported, Bucket, Values;
    if keys != [] {
      var init, key := keys[..|keys| - 1], keys[|keys| - 1];
      var before := SliceReports(g, samples, init, pos);
      BucketFinite(samples, key);
      if k < |before.reports| {
        SliceVerdicts(g, samples, init, pos, k);
        assert SliceReports(g, samples, keys, pos).reports[k] == before.reports[k];
      } else {
        var i := IntervalOf(Values(Bucket(samples, key)), SliceCount(g), g.ciLevel, g.draw, before.pos);
        OneSliceReported(g, samples, key, before.pos);
        assert SliceReports(g, samples, keys, pos).reports[k] == SliceReport(key, |Bucket(samples, key)|, i, Passes(g, i));
      }
    }
  }

  /** The verdicts of a grading are conservative: without a threshold everything passes; with one, the
      whole and each slice pass exactly if no value in their interval misses it. Each slice is
      reported over the samples that carry it, with at most two hundred resamples. */
  lemma VerdictsAreConservative(g: Settings, samples: seq<Sample>, pos: nat, k: nat)
    requires Gradable(g, samples)
    ensures var r := Graded(g, samples, pos);
            && r.passed == !SomeValueMisses(g, r.interval)
            && r.n == |samples| && r.count == g.count && SliceCount(g) == (if g.count < 200 then g.count else 200)
            && (k < |r.slices| ==> SliceReported(g, samples, r.slices[k]))
  {
    hide IntervalOf, Passes, SomeValueMisses, SliceReports, SliceReported, Bucket, Values, AllKeys;
    var values := Values(MetricsOf(samples));
    IntervalsAreOrdered(values, g.count, g.ciLevel, g.draw, pos);
    PassesConservatively(g, IntervalOf(values, g.count, g.ciLevel, g.draw, pos));
    var keys, at := g.order(AllKeys(samples)), pos + g.count * |samples|;
    if k < |SliceReports(g, samples, keys, at).reports| {
      SliceVerdicts(g, samples, keys, at, k);
    }
  }

  /** The positions of the samples that carry a label. */
  function Carriers(samples: seq<Sample>, k: Key): set<int> {
    set i | 0 <= i < |samples| && k.name in samples[i].slices && samples[i].slices[k.name] == k.group
  }

  lemma CarriersGrow(samples: seq<Sample>, k: Key)
    requires samples != []
    ensures var last := |samples| - 1;
            Carriers(samples, k) == Carriers(samples[..last], k) + (if Carries(samples[last], k) then {last} else {})
    ensures forall i :: i in Carriers(samples, k) ==> 0 <= i < |samples|
    ensures var init := samples[..|samples| - 1];
            forall i :: i in Carriers(init, k) ==> 0 <= i < |init|
  {
  }

  lemma BucketGrows(samples: seq<Sample>, k: Key)
    requires samples != []
    ensures var last := |samples| - 1;
            Bucket(samples, k)
            == Bucket(samples[..last], k) + (if Carries(samples[last], k) then [samples[last].metric] else [])
  {
  }

  /** A bucket holds the metrics of the samples that carry the label, each once and in their order. */
  lemma {:induction false} BucketIs(samples: seq<Sample>, k: Key) returns (at: seq<int>)
    ensures |at| == |Bucket(samples, k)|
    ensures forall i, j :: 0 <= i < j < |at| ==> at[i] < at[j]
    ensures forall i :: i in at <==> i in Carriers(samples, k)
    ensures forall j :: 0 <= j < |at| ==> 0 <= at[j] < |samples| && Bucket(samples, k)[j] == samples[at[j]].metric
  {
    at := [];
    if samples != [] {
      hide Carriers, Bucket, Carries;
      var last := |samples| - 1;
      CarriersGrow(samples, k);
      BucketGrows(samples, k);
      at := BucketIs(samples[..last], k);
      if Carries(samples[last], k) {
        at := at + [last];
      }
    } else {
      assert Carriers(samples, k) == {};
    }
  }

  predicate Mentions(reports: seq<SliceReport>, k: Key) {
    exists i :: 0 <= i < |reports| && reports[i].key == k
  }

  lemma MentionsAppend(reports: seq<SliceReport>, r: SliceReport, k: Key)
    ensures Mentions(reports + [r], k) <==> Mentions(reports, k) || r.key == k
  {
    if Mentions(reports, k) {
      var i :| 0 <= i < |reports| && reports[i].key == k;
      assert (reports + [r])[i].key == k;
    }
    assert (reports + [r])[|reports|] == r;
  }

  predicate BigEnough(g: Settings, samples: seq<Sample>, k: Key) {
    Bucket(samples, k) != [] && |Bucket(samples, k)| >= g.sliceMin
  }

  /** The slices reported are exactly those carried by enough samples. */
  lemma {:induction false} SlicesReported(g: Settings, samples: seq<Sample>, keys: seq<Key>, pos: nat, k: Key)
    requires Gradable(g, samples)
    ensures Mentions(SliceReports(g, samples, keys, pos).reports, k) <==> k in keys && BigEnough(g, samples, k)
  {
    if keys != [] {
      hide IntervalOf, Bucket, Passes, Values, Mentions, Gradable;
      var init, last := keys[..|keys| - 1], keys[|keys| - 1];
      SlicesReported(g, samples, init, pos, k);
      InLast(keys, k);
      NextReport(g, samples, keys, pos, k);
    } else {
      assert !Mentions([], k);
    }
  }

  /** A grading reports exactly the slices that enough samples carry. */
  lemma GradingReportsSlices(g: Settings, samples: seq<Sample>, pos: nat, k: Key)
    requires Gradable(g, samples)
    ensures Mentions(Graded(g, samples, pos).slices, k) <==> BigEnough(g, samples, k)
  {
    hide IntervalOf, SliceReports, AllKeys, Bucket, Values, Mentions;
    var keys := g.order(AllKeys(samples));
    assert Elements(keys) == AllKeys(samples);
    assert k in keys <==> k in Elements(keys);
    BucketsAreKeyed(samples, k);
    SlicesReported(g, samples, keys, pos + g.count * |samples|, k);
  }

  lemma InLast(keys: seq<Key>, k: Key)
    requires keys != []
    ensures k in keys <==> k in keys[..|keys| - 1] || k == keys[|keys| - 1]
  {
  }

  lemma NextReport(g: Settings, samples: seq<Sample>, keys: seq<Key>, pos: nat, k: Key)
    requires Gradable(g, samples) && keys != []
    ensures var last := keys[|keys| - 1];
            Mentions(SliceReports(g, samples, keys, pos).reports, k) <==>
            Mentions(SliceReports(g, samples, keys[..|keys| - 1], pos).reports, k)
            || (last == k && BigEnough(g, samples, last))
  {
    hide IntervalOf, Passes, Values, Mentions;
    var before := SliceReports(g, samples, keys[..|keys| - 1], pos);
    var last := keys[|keys| - 1];
    BucketFinite(samples, last);
    if BigEnough(g, samples, last) {
      var i := IntervalOf(Values(Bucket(samples, last)), SliceCount(g), g.ciLevel, g.draw, before.pos);
      MentionsAppend(before.reports, SliceReport(last, |Bucket(samples, last)|, i, Passes(g, i)), k);
    }
  }
}
