/** A latency histogram: what it reports about the samples recorded in it. */
module Histogram {

  import opened HistogramBuckets

  // ── counting samples ──────────────────────────────────────────────────────

  /** How many samples lie between the two bounds, both included. */
  ghost function Within(samples: seq<nat>, low: int, high: int): nat {
    if samples == [] then 0
    else Within(samples[..|samples| - 1], low, high) + (if low <= samples[|samples| - 1] <= high then 1 else 0)
  }

  lemma {:induction false} WithinConcat(a: seq<nat>, b: seq<nat>, low: int, high: int)
    ensures Within(a + b, low, high) == Within(a, low, high) + Within(b, low, high)
    decreases |b|
  {
    if b == [] {
      assert a + b == a;
    } else {
      var n := |b| - 1;
      WithinConcat(a, b[..n], low, high);
      assert (a + b)[..|a + b| - 1] == a + b[..n];
    }
  }

  lemma {:induction false} WithinSplit(samples: seq<nat>, low: int, middle: int, high: int)
    requires low <= middle + 1 && middle <= high
    ensures Within(samples, low, high) == Within(samples, low, middle) + Within(samples, middle + 1, high)
    decreases |samples|
  {
    if samples != [] {
      WithinSplit(samples[..|samples| - 1], low, middle, high);
    }
  }

  lemma {:induction false} WithinAll(samples: seq<nat>, low: int, high: int)
    requires forall x :: x in samples ==> low <= x <= high
    ensures Within(samples, low, high) == |samples|
    decreases |samples|
  {
    if samples != [] {
      var n := |samples| - 1;
      assert samples[n] in samples && forall x :: x in samples[..n] ==> x in samples;
      WithinAll(samples[..n], low, high);
    }
  }

  lemma {:induction false} WithinMember(samples: seq<nat>, low: int, high: int)
    ensures Within(samples, low, high) > 0 <==> exists x :: x in samples && low <= x <= high
    decreases |samples|
  {
    if samples != [] {
      var n := |samples| - 1;
      WithinMember(samples[..n], low, high);
      assert samples == samples[..n] + [samples[n]] && samples[n] in samples;
      if x :| x in samples[..n] && low <= x <= high {
        assert x in samples;
      }
      if x :| x in samples && low <= x <= high {
        assert x in samples[..n] || x == samples[n];
      }
    }
  }

  ghost function Repeat(v: nat, times: nat): (r: seq<nat>)
    ensures |r| == times && forall x :: x in r ==> x == v
  {
    seq(times, i => v)
  }

  ghost function Counts(samples: seq<nat>): (c: seq<nat>)
    ensures |c| == BUCKET_COUNT
  {
    seq(BUCKET_COUNT, i requires 0 <= i < BUCKET_COUNT => Within(samples, Lower(i), Upper(i)))
  }

  ghost function Sum(samples: seq<nat>): nat {
    if samples == [] then 0 else Sum(samples[..|samples| - 1]) + samples[|samples| - 1]
  }

  lemma {:induction false} SumConcat(a: seq<nat>, b: seq<nat>)
    ensures Sum(a + b) == Sum(a) + Sum(b)
    decreases |b|
  {
    if b == [] {
      assert a + b == a;
    } else {
      SumConcat(a, b[..|b| - 1]);
      assert (a + b)[..|a + b| - 1] == a + b[..|b| - 1];
    }
  }

  lemma {:induction false} SumRepeat(v: nat, times: nat)
    ensures Sum(Repeat(v, times)) == v * times
    decreases times
  {
    if times > 0 {
      SumRepeat(v, times - 1);
      assert Repeat(v, times)[..times - 1] == Repeat(v, times - 1);
    }
  }

  /** The least or the greatest of the samples so far: infinite while there are none. */
  datatype Limit = Unset | At(v: nat)

  function Lesser(a: Limit, b: Limit): Limit {
    if a.Unset? then b else if b.Unset? || a.v <= b.v then a else b
  }

  function Greater(a: Limit, b: Limit): Limit {
    if a.Unset? then b else if b.Unset? || a.v >= b.v then a else b
  }

  ghost predicate IsLeast(least: Limit, samples: seq<nat>) {
    && (least.Unset? <==> samples == [])
    && (least.At? ==> least.v in samples && forall x :: x in samples ==> least.v <= x)
  }

  ghost predicate IsGreatest(greatest: Limit, samples: seq<nat>) {
    && (greatest.Unset? <==> samples == [])
    && (greatest.At? ==> greatest.v in samples && forall x :: x in samples ==> x <= greatest.v)
  }

  lemma LimitsConcat(a: seq<nat>, b: seq<nat>, leastA: Limit, leastB: Limit, greatestA: Limit, greatestB: Limit)
    requires IsLeast(leastA, a) && IsLeast(leastB, b) && IsGreatest(greatestA, a) && IsGreatest(greatestB, b)
    ensures IsLeast(Lesser(leastA, leastB), a + b) && IsGreatest(Greater(greatestA, greatestB), a + b)
  {
    assert forall x :: x in a + b <==> x in a || x in b;
  }

  // ── ranks ─────────────────────────────────────────────────────────────────

  /** `v` is the value at this rank: it comes up when the samples are listed in order. */
  ghost predicate AtRank(samples: seq<nat>, rank: nat, v: nat) {
    Within(samples, 0, v - 1) < rank <= Within(samples, 0, v)
  }

  /** Fewer samples below a lower bound. */
  lemma WithinMonotone(samples: seq<nat>, a: int, b: int)
    requires -1 <= a <= b
    ensures Within(samples, 0, a) <= Within(samples, 0, b)
  {
    WithinSplit(samples, 0, a, b);
  }

  /** Every rank up to the count has exactly one value, and it is one of the samples. */
  lemma {:induction false} RankedValue(samples: seq<nat>, rank: nat, high: nat) returns (v: nat)
    requires 1 <= rank <= Within(samples, 0, high)
    ensures AtRank(samples, rank, v) && v in samples
    ensures forall w: nat :: AtRank(samples, rank, w) ==> w == v
    decreases high
  {
    if rank <= Within(samples, 0, high - 1) {
      WithinMember(samples, 0, -1);
      v := RankedValue(samples, rank, high - 1);
    } else {
      v := high;
      WithinSplit(samples, 0, v - 1, v);
      WithinMember(samples, v, v);
    }
    forall w: nat | AtRank(samples, rank, w) ensures w == v {
      if w < v {
        WithinMonotone(samples, w, v - 1);
      } else if w > v {
        WithinMonotone(samples, v, w - 1);
      }
    }
  }

  /** The bucket at which the running count reaches the rank is the ranked value's bucket. */
  lemma RankedBucket(samples: seq<nat>, rank: nat, index: nat, v: nat)
    requires index < BUCKET_COUNT && AtRank(samples, rank, v)
    requires Within(samples, 0, Lower(index) - 1) < rank <= Within(samples, 0, Upper(index))
    ensures Lower(index) <= v <= Upper(index)
  {
    hide Lower, Upper, Within;
    BucketsTile(index);
    if v < Lower(index) {
      WithinMonotone(samples, v, Lower(index) - 1);
    } else if v > Upper(index) {
      WithinMonotone(samples, Upper(index), v - 1);
    }
  }

  /** What may be reported for a rank: at least the true value, and above it by less than 1/1024 of it. */
  ghost predicate Close(samples: seq<nat>, rank: nat, reported: nat) {
    forall v: nat :: AtRank(samples, rank, v) ==> v <= reported && (reported == v || (reported - v) * SUB_BUCKETS < v)
  }

  lemma ReportedIsClose(samples: seq<nat>, rank: nat, index: nat, greatest: nat)
    requires index < BUCKET_COUNT && forall x :: x in samples ==> x <= greatest
    requires Within(samples, 0, Lower(index) - 1) < rank <= Within(samples, 0, Upper(index))
    ensures Close(samples, rank, if Upper(index) < greatest then Upper(index) else greatest)
  {
    var reported := if Upper(index) < greatest then Upper(index) else greatest;
    forall v: nat | AtRank(samples, rank, v) ensures v <= reported && (reported == v || (reported - v) * SUB_BUCKETS < v) {
      hide Lower, Upper, Within;
      RankedBucket(samples, rank, index, v);
      BucketsAreNarrow(v, index);
      var w := RankedValue(samples, rank, v);
    }
  }

  /** The last rank is the greatest sample's. */
  lemma LastRank(samples: seq<nat>, greatest: nat)
    requires IsGreatest(At(greatest), samples)
    ensures AtRank(samples, |samples|, greatest)
  {
    WithinAll(samples, 0, greatest);
    WithinSplit(samples, 0, greatest - 1, greatest);
    WithinMember(samples, greatest, greatest);
  }

  // ── the sparse export ─────────────────────────────────────────────────────

  datatype Format = V1(buckets: seq<(nat, nat)>) | V2(runs: seq<seq<nat>>) | Unknown

  datatype Export = Export(format: Format, unit: string, count: nat, sum: nat, min: Limit, max: Limit, clamped: nat)

  /** A write outside a typed array changes nothing. */
  function Put(counts: seq<nat>, index: nat, n: nat): (c: seq<nat>)
    ensures |c| == |counts|
  {
    if index < |counts| then counts[index := n] else counts
  }

  function PutRun(counts: seq<nat>, run: seq<nat>): (c: seq<nat>)
    ensures |c| == |counts|
  {
    if |run| <= 1 then counts
    else Put(PutRun(counts, run[..|run| - 1]), run[0] + |run| - 2, run[|run| - 1])
  }

  function PutRuns(counts: seq<nat>, runs: seq<seq<nat>>): (c: seq<nat>)
    ensures |c| == |counts|
  {
    if runs == [] then counts else PutRun(PutRuns(counts, runs[..|runs| - 1]), runs[|runs| - 1])
  }

  function PutBuckets(counts: seq<nat>, buckets: seq<(nat, nat)>): (c: seq<nat>)
    ensures |c| == |counts|
  {
    if buckets == [] then counts
    else Put(PutBuckets(counts, buckets[..|buckets| - 1]), buckets[|buckets| - 1].0, buckets[|buckets| - 1].1)
  }

  function Zeros(): (c: seq<nat>)
    ensures |c| == BUCKET_COUNT
  {
    seq(BUCKET_COUNT, i => 0)
  }

  function Unpacked(format: Format): (c: seq<nat>)
    ensures |c| == BUCKET_COUNT
  {
    match format
    case V1(buckets) => PutBuckets(Zeros(), buckets)
    case V2(runs) => PutRuns(Zeros(), runs)
    case Unknown => Zeros()
  }

  /** The samples are among the values passed so far, which the limits bound. */
  ghost predicate Bounds(least: Limit, greatest: Limit, samples: seq<nat>, passed: seq<nat>) {
    && IsLeast(least, passed) && IsGreatest(greatest, passed)
    && (forall x :: x in samples ==> x in passed) && (forall x :: x in passed ==> x <= MAX_VALUE)
  }

  /** The export is that of these samples, recorded among these values; an empty one has no limits. */
  ghost predicate Tells(json: Export, samples: seq<nat>, passed: seq<nat>) {
    && !json.format.Unknown? && Unpacked(json.format) == Counts(samples)
    && json.count == |samples| && json.sum == Sum(samples)
    && Bounds(json.min, json.max, samples, if samples == [] then [] else passed)
  }

  /** The last run reaches up to this bucket. */
  predicate EndsAt(runs: seq<seq<nat>>, i: nat) {
    runs != [] && |runs[|runs| - 1]| >= 1 && runs[|runs| - 1][0] + |runs[|runs| - 1]| - 1 == i
  }

  /** One more count: on the last run if it is open, else on a run of its own. */
  function Grown(runs: seq<seq<nat>>, open: bool, i: nat, c: nat): seq<seq<nat>>
    requires open ==> EndsAt(runs, i)
  {
    if open then runs[..|runs| - 1] + [runs[|runs| - 1] + [c]] else runs + [[i, c]]
  }

  lemma GrownPuts(runs: seq<seq<nat>>, open: bool, i: nat, c: nat)
    requires open ==> EndsAt(runs, i)
    ensures PutRuns(Zeros(), Grown(runs, open, i, c)) == Put(PutRuns(Zeros(), runs), i, c)
  {
    hide PutRuns, PutRun, Zeros;
    if open {
      var n := |runs| - 1;
      LastRun(runs[..n], runs[n]);
      LastRun(runs[..n], runs[n] + [c]);
      LongerRun(PutRuns(Zeros(), runs[..n]), runs[n], c);
      assert runs[..n] + [runs[n]] == runs;
    } else {
      LastRun(runs, [i, c]);
      LongerRun(PutRuns(Zeros(), runs), [i], c);
      ShortRun(PutRuns(Zeros(), runs), i);
      assert [i] + [c] == [i, c];
    }
  }

  lemma LastRun(before: seq<seq<nat>>, run: seq<nat>)
    ensures PutRuns(Zeros(), before + [run]) == PutRun(PutRuns(Zeros(), before), run)
  {
    hide PutRun, Zeros;
    assert (before + [run])[..|before|] == before;
  }

  lemma LongerRun(counts: seq<nat>, run: seq<nat>, c: nat)
    requires |run| >= 1
    ensures PutRun(counts, run + [c]) == Put(PutRun(counts, run), run[0] + |run| - 1, c)
  {
    assert (run + [c])[..|run|] == run;
  }

  lemma ShortRun(counts: seq<nat>, i: nat)
    ensures PutRun(counts, [i]) == counts
  {
  }

  /** Every run holds at least one count, and only counts that are not zero. */
  predicate Compact(runs: seq<seq<nat>>) {
    forall n :: 0 <= n < |runs| ==> |runs[n]| >= 2 && 0 !in runs[n][1..]
  }

  lemma GrownCompact(runs: seq<seq<nat>>, open: bool, i: nat, c: nat)
    requires (open ==> EndsAt(runs, i)) && Compact(runs) && c > 0
    ensures Compact(Grown(runs, open, i, c)) && EndsAt(Grown(runs, open, i, c), i + 1)
  {
    if open {
      var last := runs[|runs| - 1];
      assert (last + [c])[1..] == last[1..] + [c];
    }
  }

  /** The first i counts, and zeros from there on. */
  function CountedTo(counts: seq<nat>, i: nat): seq<nat>
    requires i <= |counts| == BUCKET_COUNT
  {
    counts[..i] + Zeros()[i..]
  }

  lemma OneMoreCount(counts: seq<nat>, i: nat)
    requires i < |counts| == BUCKET_COUNT
    ensures CountedTo(counts, i + 1) == Put(CountedTo(counts, i), i, counts[i])
    ensures counts[i] == 0 ==> CountedTo(counts, i + 1) == CountedTo(counts, i)
    ensures i + 1 == BUCKET_COUNT ==> CountedTo(counts, i + 1) == counts
  {
    var next := CountedTo(counts, i + 1);
    assert next == CountedTo(counts, i)[i := counts[i]];
    assert i + 1 == BUCKET_COUNT ==> next == counts;
  }

  lemma NothingCounted(counts: seq<nat>)
    requires |counts| == BUCKET_COUNT
    ensures CountedTo(counts, 0) == Zeros() && Compact([])
  {
  }

  lemma NoRuns()
    ensures PutRuns(Zeros(), []) == Zeros()
  {
  }

  // ── the histogram ─────────────────────────────────────────────────────────

  datatype Sample = NotFinite | Finite(x: real)

  /** Rounded to an integer; what is negative or not finite counts as 0, what is too large as the largest. */
  function Rounded(value: Sample): nat {
    if value.NotFinite? || (value.x + 0.5).Floor < 0 then 0 else (value.x + 0.5).Floor
  }

  function Clamped(value: Sample): nat {
    if Rounded(value) > MAX_VALUE then MAX_VALUE else Rounded(value)
  }

  datatype Threshold = NaN | MinusInfinity | Finite(x: real) | PlusInfinity

  datatype Fraction = NotANumber | Fraction(value: real)

  /** The threshold rounded to an integer and moved into the recordable range. */
  function Limited(threshold: Threshold): (v: nat)
    requires !threshold.NaN?
    ensures v <= MAX_VALUE
  {
    match threshold
    case MinusInfinity => 0
    case Finite(x) => Clamped(Sample.Finite(x))
    case PlusInfinity => MAX_VALUE
  }

  /** What the buckets above the rounded threshold's hold. */
  ghost function Reported(samples: seq<nat>, threshold: Threshold): nat
    requires !threshold.NaN?
  {
    Within(samples, Upper(IndexFor(Limited(threshold))) + 1, MAX_VALUE)
  }

  function Ceiling(x: real): int {
    -((-x).Floor)
  }

  function Rank(q: real, count: nat): nat {
    var r := Ceiling((q / 100.0) * count as real);
    if r > 1 then r else 1
  }

  lemma CountAt(samples: seq<nat>, i: nat)
    requires i < BUCKET_COUNT
    ensures Counts(samples)[i] == Within(samples, Lower(i), Upper(i))
  {
  }

  class LogLinearHistogram {
    const unit: string
    const counts: array<nat>
    var count: nat
    var sum: nat
    var min: Limit
    var max: Limit
    var clamped: nat
    ghost var samples: seq<nat>
    ghost var passed: seq<nat> // a value recorded no times still moves the limits

    ghost predicate Valid()
      reads this, counts
    {
      && counts.Length == BUCKET_COUNT && counts[..] == Counts(samples)
      && count == |samples| && sum == Sum(samples)
      && Bounds(min, max, samples, passed)
    }

    constructor (unit: string)
      ensures Valid() && fresh(counts) && this.unit == unit && samples == [] && passed == [] && clamped == 0
    {
      this.unit := unit;
      counts := new nat[BUCKET_COUNT](i => 0);
      count, sum, min, max, clamped := 0, 0, Unset, Unset, 0;
      samples, passed := [], [];
      new;
      assert counts[..] == Counts([]);
    }

    method Record(value: Sample, times: nat := 1)
      requires Valid()
      modifies this, counts
      ensures Valid() && samples == old(samples) + Repeat(Clamped(value), times) && passed == old(passed) + [Clamped(value)]
      ensures clamped == old(clamped) + (if Rounded(value) > MAX_VALUE then times else 0)
    {
      hide Lower, Upper, IndexFor, Counts, Within, Sum, Bounds, Repeat, Rounded;
      var v := Rounded(value);
      if v > MAX_VALUE {
        v := MAX_VALUE;
        clamped := clamped + times;
      }
      ValueInItsBucket(v);
      RecordedCounts(samples, v, times);
      SumConcat(samples, Repeat(v, times));
      SumRepeat(v, times);
      PassedToo(min, max, samples, passed, v, times);
      counts[IndexFor(v)] := counts[IndexFor(v)] + times;
      count := count + times;
      sum := sum + v * times;
      min := Lesser(min, At(v));
      max := Greater(max, At(v));
      samples, passed := samples + Repeat(v, times), passed + [v];
    }

    /** Bucket by bucket; adding a histogram's counts to themselves doubles them. */
    method AddCounts(other: LogLinearHistogram)
      requires counts.Length == BUCKET_COUNT && other.counts.Length == BUCKET_COUNT && (other == this || other.counts != counts)
      modifies counts
      ensures forall j :: 0 <= j < BUCKET_COUNT ==> counts[j] == old(counts[j]) + old(other.counts[j])
    {
      var i := 0;
      while i < BUCKET_COUNT
        invariant 0 <= i <= BUCKET_COUNT
        invariant forall j :: 0 <= j < i ==> counts[j] == old(counts[j]) + old(other.counts[j])
        invariant forall j :: i <= j < BUCKET_COUNT ==> counts[j] == old(counts[j]) && other.counts[j] == old(other.counts[j])
      {
        if other.counts[i] != 0 {
          counts[i] := counts[i] + other.counts[i];
        }
        i := i + 1;
      }
    }

    /** Merging is recording the other's samples after one's own; a histogram may be merged with itself. */
    method Merge(other: LogLinearHistogram?)
      requires Valid() && (other != null ==> other.Valid() && (other == this || other.counts != counts))
      modifies this, counts
      ensures Valid()
      ensures samples == old(samples) + (if other == null then [] else old(other.samples))
      ensures passed == old(passed) + (if other == null || old(other.count) == 0 then [] else old(other.passed))
      ensures clamped == old(clamped) + (if other == null || old(other.count) == 0 then 0 else old(other.clamped))
    {
      if other == null || other.count == 0 {
        return;
      }
      hide Counts, Within, Sum, Bounds, Lesser, Greater;
      ghost var mine, theirs := counts[..], other.counts[..];
      AddCounts(other);
      PassedBoth(min, max, samples, passed, other.min, other.max, other.samples, other.passed);
      AddedCounts(counts[..], mine, theirs, samples, other.samples);
      SumConcat(samples, other.samples);
      count, sum, clamped := count + other.count, sum + other.sum, clamped + other.clamped;
      min := Lesser(min, other.min);
      max := Greater(max, other.max);
      samples, passed := samples + other.samples, passed + other.passed;
    }

    /** The first bucket at which the running count reaches the rank, if there is one. */
    method BucketAt(rank: nat) returns (index: nat)
      requires Valid() && rank > 0
      ensures index <= BUCKET_COUNT
      ensures index < BUCKET_COUNT ==> Within(samples, 0, Lower(index) - 1) < rank <= Within(samples, 0, Upper(index))
      ensures index == BUCKET_COUNT ==> Within(samples, 0, MAX_VALUE) < rank
    {
      hide Lower, Upper, Within, Bounds, Sum;
      Edges();
      WithinNone(samples, 0);
      var seen: nat;
      seen, index := 0, 0;
      while index < BUCKET_COUNT
        invariant index <= BUCKET_COUNT && seen == Within(samples, 0, Lower(index) - 1) && seen < rank
      {
        BucketsTile(index);
        WithinSplit(samples, 0, Lower(index) - 1, Upper(index));
        assert counts[..][index] == Within(samples, Lower(index), Upper(index));
        seen := seen + counts[index];
        if seen >= rank {
          return;
        }
        index := index + 1;
      }
      BucketsTile(BUCKET_COUNT - 1);
    }

    /** The value reported for a percentile is its rank's value, too high by less than 1/1024 at most; the greatest sample is exact. */
    method Percentile(q: real) returns (value: Limit)
      requires Valid()
      ensures value.Unset? <==> samples == []
      ensures value.At? ==> max.At? && Close(samples, Rank(q, |samples|), value.v) && value.v <= max.v
      ensures value.At? && Rank(q, |samples|) >= |samples| && max.v in samples ==> value == max
    {
      hide Lower, Upper, Within, Counts, Sum, Close, AtRank, Rank, Bounds;
      if count == 0 {
        return Unset;
      }
      BoundsHold(min, max, samples, passed);
      var rank := Rank(q, count);
      RankIsPositive(q, count);
      var i := BucketAt(rank);
      if i < BUCKET_COUNT {
        ReportedIsClose(samples, rank, i, max.v);
        RankFits(samples, rank, Upper(i));
        value := At(if Upper(i) < max.v then Upper(i) else max.v);
        if rank == |samples| && max.v in samples {
          LastRank(samples, max.v);
          CloseAt(samples, rank, value.v, max.v);
        }
        return;
      }
      NoSuchRank(samples, rank);
      return max;
    }

    method CountAbove(bucket: nat) returns (above: nat)
      requires Valid() && bucket < BUCKET_COUNT
      ensures above == Within(samples, Upper(bucket) + 1, MAX_VALUE)
    {
      hide Lower, Upper, Within, IndexFor, Sum, Bounds, Counts;
      BucketsTile(bucket);
      WithinNone(samples, Upper(bucket) + 1);
      above := 0;
      var i := bucket + 1;
      while i < BUCKET_COUNT
        invariant bucket < i <= BUCKET_COUNT && Upper(bucket) + 1 <= Lower(i)
        invariant above == Within(samples, Upper(bucket) + 1, Lower(i) - 1)
      {
        BucketsTile(i);
        WithinSplit(samples, Upper(bucket) + 1, Lower(i) - 1, Upper(i));
        CountAt(samples, i);
        assert counts[i] == counts[..][i];
        above := above + counts[i];
        i := i + 1;
      }
      Edges();
      BucketsTile(BUCKET_COUNT - 1);
    }

    /** The samples in the buckets above the rounded threshold's, as a fraction of all. */
    method FractionAbove(threshold: Threshold) returns (fraction: Fraction)
      requires Valid()
      ensures count == 0 ==> fraction == Fraction(0.0)
      ensures count > 0 && threshold.NaN? ==> fraction == NotANumber
      ensures count > 0 && !threshold.NaN? ==> fraction == Fraction(Reported(samples, threshold) as real / |samples| as real)
    {
      if count == 0 {
        return Fraction(0.0);
      }
      if threshold.NaN? {
        return NotANumber; // its bucket lies outside the table, and the sum of what is not there is not a number
      }
      hide Lower, Upper, Within, IndexFor, Sum, Bounds, Counts, Limited;
      ValueInItsBucket(Limited(threshold));
      var above := CountAbove(IndexFor(Limited(threshold)));
      return Fraction(above as real / count as real);
    }

    /** The non-empty buckets as runs of consecutive ones. */
    method RunsOfCounts() returns (runs: seq<seq<nat>>)
      requires counts.Length == BUCKET_COUNT
      ensures PutRuns(Zeros(), runs) == counts[..] && Compact(runs)
    {
      hide PutRuns, CountedTo, Compact, Put;
      var open, i := false, 0;
      runs := [];
      NoRuns();
      NothingCounted(counts[..]);
      while i < BUCKET_COUNT
        invariant 0 <= i <= BUCKET_COUNT
        invariant PutRuns(Zeros(), runs) == CountedTo(counts[..], i)
        invariant Compact(runs) && (i == BUCKET_COUNT ==> CountedTo(counts[..], i) == counts[..])
        invariant open ==> EndsAt(runs, i)
      {
        var c := counts[i];
        if c == 0 {
          open := false;
        } else {
          GrownPuts(runs, open, i, c);
          GrownCompact(runs, open, i, c);
          runs, open := Grown(runs, open, i, c), true;
        }
        OneMoreCount(counts[..], i);
        i := i + 1;
      }
    }

    method ToJSON() returns (json: Export)
      requires Valid()
      ensures Tells(json, samples, passed) && json.unit == unit && json.clamped == clamped
      ensures json.format.V2? && Compact(json.format.runs)
    {
      hide Counts, Sum, PutRuns, Compact;
      var runs := RunsOfCounts();
      json := Export(V2(runs), unit, count, sum, if count > 0 then min else Unset, if count > 0 then max else Unset, clamped);
    }

    /** Reading an export back: lossless, whatever samples it tells of. */
    static method FromJSON(json: Export) returns (histogram: LogLinearHistogram?)
      ensures histogram == null <==> json.format.Unknown?
      ensures histogram != null ==> fresh(histogram) && fresh(histogram.counts)
      ensures histogram != null ==> histogram.counts[..] == Unpacked(json.format)
      ensures histogram != null ==> histogram.unit == json.unit && histogram.clamped == json.clamped
      ensures forall s, t :: Tells(json, s, t) ==> histogram.Valid() && Tells(json, histogram.samples, histogram.passed)
    {
      if json.format.Unknown? {
        return null;
      }
      histogram := new LogLinearHistogram(json.unit);
      assert histogram.counts[..] == Zeros();
      if json.format.V1? {
        histogram.PutAllBuckets(json.format.buckets);
      } else {
        histogram.PutAllRuns(json.format.runs);
      }
      histogram.count, histogram.sum, histogram.clamped := json.count, json.sum, json.clamped;
      histogram.min, histogram.max := json.min, json.max;
      if s, t :| Tells(json, s, t) {
        histogram.samples, histogram.passed := s, if s == [] then [] else t;
      }
    }

    method PutAt(index: nat, n: nat)
      modifies counts
      ensures counts[..] == Put(old(counts[..]), index, n)
    {
      if index < counts.Length {
        counts[index] := n;
      }
    }

    method PutAllBuckets(buckets: seq<(nat, nat)>)
      modifies counts
      ensures counts[..] == PutBuckets(old(counts[..]), buckets)
    {
      ghost var before := counts[..];
      var i := 0;
      while i < |buckets|
        invariant i <= |buckets| && counts[..] == PutBuckets(before, buckets[..i])
      {
        PutAt(buckets[i].0, buckets[i].1);
        assert buckets[..i + 1][..i] == buckets[..i];
        i := i + 1;
      }
      assert buckets[..i] == buckets;
    }

    method PutAllRuns(runs: seq<seq<nat>>)
      modifies counts
      ensures counts[..] == PutRuns(old(counts[..]), runs)
    {
      ghost var before := counts[..];
      var i := 0;
      while i < |runs|
        invariant i <= |runs| && counts[..] == PutRuns(before, runs[..i])
      {
        var run, k := runs[i], 1;
        ghost var now := counts[..];
        while k < |run|
          invariant 1 <= k && (k <= |run| || |run| == 0)
          invariant counts[..] == PutRun(now, if k <= |run| then run[..k] else [])
        {
          assert run[..k + 1][..k] == run[..k];
          PutAt(run[0] + k - 1, run[k]);
          k := k + 1;
        }
        assert (if k <= |run| then run[..k] else []) == run;
        assert runs[..i + 1][..i] == runs[..i];
        i := i + 1;
      }
      assert runs[..i] == runs;
    }
  }

  lemma RecordedCounts(samples: seq<nat>, v: nat, times: nat)
    requires v <= MAX_VALUE && IndexFor(v) < BUCKET_COUNT
    ensures Counts(samples + Repeat(v, times)) == Counts(samples)[IndexFor(v) := Counts(samples)[IndexFor(v)] + times]
  {
    forall i: nat | i < BUCKET_COUNT
      ensures Within(samples + Repeat(v, times), Lower(i), Upper(i))
              == Within(samples, Lower(i), Upper(i)) + (if i == IndexFor(v) then times else 0)
    {
      hide Lower, Upper, IndexFor, Within;
      WithinConcat(samples, Repeat(v, times), Lower(i), Upper(i));
      BucketsPartition(v, i);
      RepeatWithin(v, times, Lower(i), Upper(i));
    }
  }

  lemma RepeatWithin(v: nat, times: nat, low: int, high: int)
    ensures Within(Repeat(v, times), low, high) == if low <= v <= high then times else 0
  {
    WithinMember(Repeat(v, times), low, high);
    if low <= v <= high {
      WithinAll(Repeat(v, times), low, high);
    }
  }

  lemma MergedCounts(a: seq<nat>, b: seq<nat>)
    ensures forall i :: 0 <= i < BUCKET_COUNT ==> Counts(a + b)[i] == Counts(a)[i] + Counts(b)[i]
  {
    forall i: nat | i < BUCKET_COUNT ensures Counts(a + b)[i] == Counts(a)[i] + Counts(b)[i] {
      hide Lower, Upper, Within;
      WithinConcat(a, b, Lower(i), Upper(i));
    }
  }

  lemma AddedCounts(both: seq<nat>, mine: seq<nat>, theirs: seq<nat>, a: seq<nat>, b: seq<nat>)
    requires |both| == BUCKET_COUNT && mine == Counts(a) && theirs == Counts(b)
    requires forall j :: 0 <= j < BUCKET_COUNT ==> both[j] == mine[j] + theirs[j]
    ensures both == Counts(a + b)
  {
    hide Counts;
    MergedCounts(a, b);
  }

  lemma WithinNone(samples: seq<nat>, low: int)
    ensures Within(samples, low, low - 1) == 0
  {
    WithinMember(samples, low, low - 1);
  }

  lemma RankIsPositive(q: real, count: nat)
    ensures Rank(q, count) > 0
  {
  }

  lemma {:induction false} WithinAtMostAll(samples: seq<nat>, low: int, high: int)
    ensures Within(samples, low, high) <= |samples|
    decreases |samples|
  {
    if samples != [] {
      WithinAtMostAll(samples[..|samples| - 1], low, high);
    }
  }

  lemma RankFits(samples: seq<nat>, rank: nat, high: int)
    requires rank <= Within(samples, 0, high)
    ensures rank <= |samples|
  {
    WithinAtMostAll(samples, 0, high);
  }

  lemma CloseAt(samples: seq<nat>, rank: nat, reported: nat, v: nat)
    requires Close(samples, rank, reported) && AtRank(samples, rank, v)
    ensures v <= reported
  {
  }

  /** A rank beyond the count has no value. */
  lemma NoSuchRank(samples: seq<nat>, rank: nat)
    requires forall x :: x in samples ==> x <= MAX_VALUE
    requires Within(samples, 0, MAX_VALUE) < rank
    ensures |samples| < rank && forall reported :: Close(samples, rank, reported)
  {
    WithinAll(samples, 0, MAX_VALUE);
    forall v: nat ensures !AtRank(samples, rank, v) {
      if v <= MAX_VALUE {
        WithinMonotone(samples, v, MAX_VALUE);
      } else {
        WithinAll(samples, 0, v);
      }
    }
  }

  /** Limits of what was passed, with one more value, recorded so many times. */
  lemma PassedToo(least: Limit, greatest: Limit, samples: seq<nat>, passed: seq<nat>, v: nat, times: nat)
    requires Bounds(least, greatest, samples, passed) && v <= MAX_VALUE
    ensures Bounds(Lesser(least, At(v)), Greater(greatest, At(v)), samples + Repeat(v, times), passed + [v])
  {
    hide Repeat;
    LimitsConcat(passed, [v], least, At(v), greatest, At(v));
  }

  lemma PassedBoth(least: Limit, greatest: Limit, samples: seq<nat>, passed: seq<nat>,
                   least': Limit, greatest': Limit, samples': seq<nat>, passed': seq<nat>)
    requires Bounds(least, greatest, samples, passed) && Bounds(least', greatest', samples', passed')
    ensures Bounds(Lesser(least, least'), Greater(greatest, greatest'), samples + samples', passed + passed')
  {
    LimitsConcat(passed, passed', least, least', greatest, greatest');
  }

  lemma BoundsHold(least: Limit, greatest: Limit, samples: seq<nat>, passed: seq<nat>)
    requires Bounds(least, greatest, samples, passed) && samples != []
    ensures greatest.At? && Recordable(samples) && forall x :: x in samples ==> x <= greatest.v
  {
    assert samples[0] in passed;
  }

  // ── the fraction above a threshold ────────────────────────────────────────

  ghost predicate Recordable(samples: seq<nat>) {
    forall x :: x in samples ==> x <= MAX_VALUE
  }

  ghost predicate Exceeds(x: nat, threshold: Threshold) {
    match threshold
    case MinusInfinity => true
    case Finite(t) => x as real > t
    case _ => false
  }

  /** How many samples are strictly greater. */
  ghost function Exceeding(samples: seq<nat>, threshold: Threshold): nat {
    if samples == [] then 0
    else Exceeding(samples[..|samples| - 1], threshold) + (if Exceeds(samples[|samples| - 1], threshold) then 1 else 0)
  }

  /** The least recordable value that exceeds the threshold, if there is one. */
  ghost function FirstAbove(threshold: Threshold): nat {
    match threshold
    case MinusInfinity => 0
    case Finite(t) => if t < 0.0 then 0 else if t >= MAX_VALUE as real then MAX_VALUE + 1 else t.Floor + 1
    case _ => MAX_VALUE + 1
  }

  lemma {:induction false} ExceedingIsWithin(samples: seq<nat>, threshold: Threshold)
    requires Recordable(samples)
    ensures Exceeding(samples, threshold) == Within(samples, FirstAbove(threshold), MAX_VALUE)
    decreases |samples|
  {
    if samples != [] {
      var n := |samples| - 1;
      assert samples[n] in samples && forall x :: x in samples[..n] ==> x in samples;
      ExceedingIsWithin(samples[..n], threshold);
      assert Exceeds(samples[n], threshold) <==> FirstAbove(threshold) <= samples[n];
    }
  }

  /** The rounded threshold lies in the bucket of the first value above the threshold, or right before that value. */
  lemma FirstAboveIsNear(threshold: Threshold)
    requires !threshold.NaN?
    ensures var bucket := IndexFor(Limited(threshold));
            bucket < BUCKET_COUNT && Lower(bucket) <= FirstAbove(threshold) <= Upper(bucket) + 1 <= MAX_VALUE + 1
    ensures FirstAbove(threshold) == Upper(IndexFor(Limited(threshold))) + 1 <==> Separates(threshold)
  {
    hide Lower, Upper, IndexFor;
    ValueInItsBucket(Limited(threshold));
    UpperFits(IndexFor(Limited(threshold)));
  }

  /** Every sample that is missed lies between the threshold and the end of the rounded threshold's bucket. */
  lemma MissedSamples(samples: seq<nat>, threshold: Threshold)
    requires Recordable(samples) && !threshold.NaN?
    ensures Exceeding(samples, threshold)
            == Reported(samples, threshold) + Within(samples, FirstAbove(threshold), Upper(IndexFor(Limited(threshold))))
  {
    hide Lower, Upper, IndexFor, Within, Limited, FirstAbove;
    FirstAboveIsNear(threshold);
    ExceedingIsWithin(samples, threshold);
    WithinSplit(samples, FirstAbove(threshold), Upper(IndexFor(Limited(threshold))), MAX_VALUE);
  }

  /** The threshold's rounding neither exceeds it nor shares a bucket with anything greater. */
  ghost predicate Separates(threshold: Threshold) {
    && !threshold.NaN? && !threshold.MinusInfinity?
    && (threshold.Finite? ==> Limited(threshold) as real <= threshold.x)
    && Upper(IndexFor(Limited(threshold))) == Limited(threshold)
  }

  /** The fraction is that of the samples strictly greater, whatever was recorded, exactly for these thresholds. */
  lemma AboveIsExact(threshold: Threshold)
    requires !threshold.NaN?
    ensures (forall samples :: Recordable(samples) ==> Reported(samples, threshold) == Exceeding(samples, threshold))
            <==> Separates(threshold)
  {
    hide Lower, Upper, IndexFor, Within, Limited, FirstAbove, Reported, Exceeding, Separates, Recordable;
    FirstAboveIsNear(threshold);
    var first, last := FirstAbove(threshold), Upper(IndexFor(Limited(threshold)));
    forall samples | Recordable(samples)
      ensures Exceeding(samples, threshold) == Reported(samples, threshold) + Within(samples, first, last)
    {
      MissedSamples(samples, threshold);
    }
    if first <= last {
      OneRecordable(last);
      WithinMember([last], first, last);
      assert last in [last];
      assert Reported([last], threshold) != Exceeding([last], threshold);
    } else {
      forall samples ensures Within(samples, first, last) == 0 {
        WithinNone(samples, first);
      }
    }
  }

  lemma OneRecordable(v: nat)
    requires v <= MAX_VALUE
    ensures Recordable([v])
  {
  }

  // ── what the counts can tell ──────────────────────────────────────────────

  /** Every sample of one bucket moved to the end of it. */
  ghost function Pushed(samples: seq<nat>, bucket: nat): seq<nat> {
    if samples == [] then []
    else
      var n, x := |samples| - 1, samples[|samples| - 1];
      Pushed(samples[..n], bucket) + [if Lower(bucket) <= x <= Upper(bucket) then Upper(bucket) else x]
  }

  lemma {:induction false} PushedWithin(samples: seq<nat>, bucket: nat, low: int, high: int)
    requires bucket < BUCKET_COUNT && Recordable(samples) && low <= high + 1
    requires (low <= Lower(bucket) && Upper(bucket) <= high) || high < Lower(bucket) || Upper(bucket) < low
    ensures Recordable(Pushed(samples, bucket)) && Within(Pushed(samples, bucket), low, high) == Within(samples, low, high)
    decreases |samples|
  {
    if samples != [] {
      var n := |samples| - 1;
      var x := samples[n];
      assert x in samples && forall y :: y in samples[..n] ==> y in samples;
      PushedWithin(samples[..n], bucket, low, high);
      UpperFits(bucket);
      BucketsTile(bucket);
      assert Pushed(samples, bucket)[..n] == Pushed(samples[..n], bucket) by {
        PushedLength(samples[..n], bucket);
      }
      PushedLength(samples, bucket);
    }
  }

  lemma {:induction false} PushedLength(samples: seq<nat>, bucket: nat)
    ensures |Pushed(samples, bucket)| == |samples|
    decreases |samples|
  {
    if samples != [] {
      PushedLength(samples[..|samples| - 1], bucket);
    }
  }

  lemma PushedCounts(samples: seq<nat>, bucket: nat)
    requires bucket < BUCKET_COUNT && Recordable(samples)
    ensures Recordable(Pushed(samples, bucket)) && Counts(Pushed(samples, bucket)) == Counts(samples)
  {
    forall i: nat | i < BUCKET_COUNT ensures Within(Pushed(samples, bucket), Lower(i), Upper(i)) == Within(samples, Lower(i), Upper(i)) {
      hide Lower, Upper, Within, Pushed;
      BucketsTile(i);
      if i < bucket {
        BucketsAscend(i, bucket);
      } else if bucket < i {
        BucketsAscend(bucket, i);
      }
      PushedWithin(samples, bucket, Lower(i), Upper(i));
    }
    BucketsTile(bucket);
    PushedWithin(samples, bucket, Lower(bucket), Upper(bucket));
  }

  /**
   * From its counts a histogram can tell: the fraction is exact, for whatever samples left these counts,
   * exactly when the threshold separates buckets or the rounded threshold's bucket is empty.
   */
  lemma AboveIsExactHere(samples: seq<nat>, threshold: Threshold)
    requires Recordable(samples) && !threshold.NaN?
    ensures IndexFor(Limited(threshold)) < BUCKET_COUNT
    ensures (forall s :: Recordable(s) && Counts(s) == Counts(samples) ==> Reported(s, threshold) == Exceeding(s, threshold))
            <==> Separates(threshold) || Counts(samples)[IndexFor(Limited(threshold))] == 0
  {
    hide Lower, Upper, IndexFor, Within, Limited, FirstAbove, Reported, Exceeding, Separates, Recordable, Counts;
    FirstAboveIsNear(threshold);
    AboveIsExact(threshold);
    var first, bucket := FirstAbove(threshold), IndexFor(Limited(threshold));
    forall s | Recordable(s) && Counts(s) == Counts(samples)
      ensures Exceeding(s, threshold) == Reported(s, threshold) + Within(s, first, Upper(bucket))
      ensures Counts(samples)[bucket] == 0 && first <= Upper(bucket) ==> Within(s, first, Upper(bucket)) == 0
    {
      MissedSamples(s, threshold);
      CountAt(s, bucket);
      if first <= Upper(bucket) {
        FewerWithin(s, Lower(bucket), first, Upper(bucket));
      }
    }
    if first <= Upper(bucket) && Counts(samples)[bucket] != 0 {
      var s := Pushed(samples, bucket);
      PushedCounts(samples, bucket);
      CountAt(samples, bucket);
      PushedToTheEnd(samples, bucket, first);
    }
  }

  lemma FewerWithin(samples: seq<nat>, low: int, middle: int, high: int)
    requires low <= middle <= high + 1
    ensures Within(samples, middle, high) <= Within(samples, low, high)
  {
    WithinSplit(samples, low, middle - 1, high);
  }

  lemma {:induction false} PushedToTheEnd(samples: seq<nat>, bucket: nat, first: nat)
    requires Lower(bucket) <= first <= Upper(bucket)
    ensures Within(Pushed(samples, bucket), first, Upper(bucket)) == Within(samples, Lower(bucket), Upper(bucket))
    decreases |samples|
  {
    hide Lower, Upper;
    if samples != [] {
      var n := |samples| - 1;
      PushedToTheEnd(samples[..n], bucket, first);
      PushedLength(samples[..n], bucket);
      assert Pushed(samples, bucket)[..n] == Pushed(samples[..n], bucket);
    }
  }

  lemma MissedAlone(x: nat, threshold: Threshold, bucket: nat)
    requires !threshold.NaN? && x <= MAX_VALUE && bucket == IndexFor(Limited(threshold))
    requires FirstAbove(threshold) <= x <= Upper(bucket)
    ensures Exceeding([x], threshold) == 1 && Reported([x], threshold) == 0
  {
    hide Lower, Upper, IndexFor, Limited, FirstAbove, Reported;
    assert [x][..0] == [];
    MissedSamples([x], threshold);
    assert Within([x], FirstAbove(threshold), Upper(bucket)) == 1;
    ExceedingIsWithin([x], threshold);
    assert Within([x], FirstAbove(threshold), MAX_VALUE) <= 1;
  }

  lemma ExactBucket(v: nat)
    requires v < EXACT_LIMIT
    ensures IndexFor(v) == v && Upper(v) == v
  {
    assert Exponent(v) == 0 && Pow2(0) == 1;
  }

  /** A sample in the threshold's bucket, one that the threshold is rounded up to, and one that a negative threshold is raised to. */
  lemma AboveMisses()
    ensures Exceeding([2049], Threshold.Finite(2048.0)) == 1 && Reported([2049], Threshold.Finite(2048.0)) == 0
    ensures Exceeding([2], Threshold.Finite(1.6)) == 1 && Reported([2], Threshold.Finite(1.6)) == 0
    ensures Exceeding([0], Threshold.Finite(-1.0)) == 1 && Reported([0], Threshold.Finite(-1.0)) == 0
  {
    hide Within, Exceeding, Reported, IndexFor, Lower, Upper;
    FirstOfTheOctave();
    ExactBucket(2);
    ExactBucket(0);
    MissedAlone(2049, Threshold.Finite(2048.0), 2048);
    MissedAlone(2, Threshold.Finite(1.6), 2);
    MissedAlone(0, Threshold.Finite(-1.0), 0);
  }

  lemma FirstOfTheOctave()
    ensures IndexFor(2048) == 2048 && Upper(2048) == 2049
  {
    assert Lower(2048) == 2048 && Upper(2048) == 2049 by {
      ExponentAndMantissa(1, 1024, 2048);
      assert Pow2(1) == 2;
    }
    hide Lower, Upper, IndexFor;
    BucketsPartition(2048, 2048);
  }

  lemma UpperFits(bucket: nat)
    requires bucket < BUCKET_COUNT
    ensures Upper(bucket) <= MAX_VALUE
  {
    hide Lower, Upper;
    Edges();
    BucketsTile(BUCKET_COUNT - 1);
    if bucket < BUCKET_COUNT - 1 {
      BucketsAscend(bucket, BUCKET_COUNT - 1);
    }
  }
}
