/** Each column of an hourly row as the query states it: which samples it reads,
    how it weighs them, and what the upsert then stores. */
module RollupColumns {
  import opened Rollup

  // ---------- the window clause ----------

  /** WHERE sampled_at >= from AND sampled_at < to. */
  function Selected(points: seq<Point>, w: Window): seq<Point> {
    if points == [] then []
    else
      var front, last := Selected(points[..|points| - 1], w), points[|points| - 1];
      if w.from <= last.at < w.to then front + [last] else front
  }

  /** Seconds to the next selected sample, else from the one before, else and at
      most 150. */
  function Gap(ps: seq<Point>, i: nat): int
    requires i < |ps|
  {
    if i + 1 < |ps| then Min(ps[i + 1].at - ps[i].at, 150)
    else if i > 0 then Min(ps[i].at - ps[i - 1].at, 150)
    else 150
  }

  predicate InHour(p: Point, bucket: int) {
    bucket <= p.at < bucket + 3600
  }

  function Share(p: Point, weighted: bool): real { if weighted then p.value else 1.0 }

  /** The first n selected samples, summed over those of the hour. */
  function HourSum(ps: seq<Point>, bucket: int, n: nat, weighted: bool): real
    requires n <= |ps|
  {
    if n == 0 then 0.0
    else
      HourSum(ps, bucket, n - 1, weighted)
      + if InHour(ps[n - 1], bucket) then Share(ps[n - 1], weighted) * Gap(ps, n - 1) as real else 0.0
  }

  lemma {:induction false} SelectedIsASlice(points: seq<Point>, w: Window)
    requires Sorted(points) && w.from <= w.to
    ensures Before(points, w.from) <= Before(points, w.to)
    ensures Selected(points, w) == points[Before(points, w.from)..Before(points, w.to)]
    decreases |points|
  {
    if points != [] {
      var front, last := points[..|points| - 1], points[|points| - 1];
      SelectedIsASlice(front, w);
      if last.at < w.to {
        AllBefore(front, w.to);
        if last.at < w.from {
          AllBefore(front, w.from);
        }
      } else {
        assert points[Before(front, w.from)..Before(front, w.to)] == front[Before(front, w.from)..Before(front, w.to)];
      }
    }
  }

  lemma AllBefore(points: seq<Point>, t: int)
    requires Sorted(points) && (points != [] ==> points[|points| - 1].at < t)
    ensures Before(points, t) == |points|
  {
  }

  lemma GapIsSpan(points: seq<Point>, lo: nat, hi: nat, j: nat)
    requires lo <= j < hi <= |points|
    ensures points[lo..hi][j - lo] == points[j] && Gap(points[lo..hi], j - lo) == Span(points, lo, hi, j)
  {
    var ps := points[lo..hi];
    assert j + 1 < hi ==> ps[j + 1 - lo] == points[j + 1];
    assert j > lo ==> ps[j - 1 - lo] == points[j - 1];
  }

  lemma {:induction false} NoHourSum(ps: seq<Point>, bucket: int, m: nat, n: nat, weighted: bool)
    requires m <= n <= |ps| && forall j | m <= j < n :: !InHour(ps[j], bucket)
    ensures HourSum(ps, bucket, n, weighted) == HourSum(ps, bucket, m, weighted)
    decreases n
  {
    if m < n {
      NoHourSum(ps, bucket, m, n - 1, weighted);
    }
  }

  lemma HourStep(points: seq<Point>, lo: nat, hi: nat, bucket: int, n: nat, weighted: bool)
    requires lo < n <= hi <= |points| && InHour(points[n - 1], bucket)
    ensures HourSum(points[lo..hi], bucket, n - lo, weighted)
            == HourSum(points[lo..hi], bucket, n - 1 - lo, weighted)
               + Weight(points[n - 1], weighted) * Span(points, lo, hi, n - 1) as real
  {
    GapIsSpan(points, lo, hi, n - 1);
  }

  lemma {:induction false} AllHourSum(points: seq<Point>, lo: nat, hi: nat, bucket: int, p: nat, n: nat, weighted: bool)
    requires lo <= p <= n <= hi <= |points| && forall j | p <= j < n :: InHour(points[j], bucket)
    ensures HourSum(points[lo..hi], bucket, n - lo, weighted)
            == HourSum(points[lo..hi], bucket, p - lo, weighted) + SpanSum(points, lo, hi, p, n, weighted)
    decreases n
  {
    if p < n {
      AllHourSum(points, lo, hi, bucket, p, n - 1, weighted);
      HourStep(points, lo, hi, bucket, n, weighted);
      assert SpanSum(points, lo, hi, p, n, weighted) == SpanSum(points, lo, hi, p, n - 1, weighted)
             + Weight(points[n - 1], weighted) * Span(points, lo, hi, n - 1) as real;
    }
  }

  lemma HourSumIs(points: seq<Point>, lo: nat, hi: nat, bucket: int, p: nat, q: nat, weighted: bool)
    requires lo <= p <= q <= hi <= |points|
    requires forall j | lo <= j < hi :: InHour(points[j], bucket) <==> p <= j < q
    ensures HourSum(points[lo..hi], bucket, hi - lo, weighted) == SpanSum(points, lo, hi, p, q, weighted)
  {
    var ps := points[lo..hi];
    assert forall j | 0 <= j < |ps| :: ps[j] == points[lo + j];
    NoHourSum(ps, bucket, 0, p - lo, weighted);
    AllHourSum(points, lo, hi, bucket, p, q, weighted);
    NoHourSum(ps, bucket, q - lo, hi - lo, weighted);
  }

  /** What a series adds to a bucket is what the query sums. */
  lemma IntegralIsTheQuery(s: Series, w: Window, bucket: int, weighted: bool)
    requires Sorted(s.points) && Aligned(w) && bucket % HOUR == 0
    ensures Integral(s, w, bucket, weighted)
            == HourSum(Selected(s.points, w), bucket, |Selected(s.points, w)|, weighted)
  {
    var points := s.points;
    var lo, hi := Before(points, w.from), Before(points, w.to);
    SelectedIsASlice(points, w);
    if Covers(w, bucket) {
      BoundsOrdered(points, w, bucket);
      HourBetween(points, w, bucket);
      HourSumIs(points, lo, hi, bucket, Before(points, bucket), Before(points, bucket + HOUR), weighted);
    } else {
      NoneInHour(points, w, bucket);
      HourSumIs(points, lo, hi, bucket, lo, lo, weighted);
    }
  }

  /** In a covered hour the samples of the hour are those between two indices;
      an hour not covered has none. */
  lemma HourBetween(points: seq<Point>, w: Window, bucket: int)
    requires Sorted(points) && Covers(w, bucket)
    ensures forall j | Before(points, w.from) <= j < Before(points, w.to) ::
              InHour(points[j], bucket) <==> Before(points, bucket) <= j < Before(points, bucket + HOUR)
  {
    BeforeSplits(points, bucket);
    BeforeSplits(points, bucket + HOUR);
  }

  lemma NoneInHour(points: seq<Point>, w: Window, bucket: int)
    requires Sorted(points) && Aligned(w) && bucket % HOUR == 0 && !Covers(w, bucket)
    ensures forall j | Before(points, w.from) <= j < Before(points, w.to) :: !InHour(points[j], bucket)
  {
    BeforeSplits(points, w.from);
    BeforeSplits(points, w.to);
    assert bucket + HOUR <= w.from || w.to <= bucket;
  }

  // ---------- which series a column reads ----------

  const CPU: set<string> := {"cpu_cores", "cpu", "cpu_usage"}
  const MEMORY: set<string> := {"memory_bytes", "memory", "memory_usage"}
  const GPU: set<string> := {"gpu_count", "gpu"}

  predicate Reads(s: Series, key: Key, names: set<string>) {
    s.user != "" && s.user == key.user && s.hub == key.hub && s.metric in names
  }

  function Sum(data: seq<Series>, key: Key, w: Window, names: set<string>, weighted: bool): real {
    if data == [] then 0.0
    else
      var last := data[|data| - 1];
      var ps := Selected(last.points, w);
      Sum(data[..|data| - 1], key, w, names, weighted)
      + if Reads(last, key, names) then HourSum(ps, key.bucket, |ps|, weighted) else 0.0
  }

  function NamesOf(family: Family): set<string> {
    match family case Cpu => CPU case Memory => MEMORY case Gpu => GPU
  }

  ghost predicate AllSorted(data: seq<Series>) {
    forall s | s in data :: Sorted(s.points)
  }

  lemma {:induction false} TotalIsTheQuery(data: seq<Series>, key: Key, w: Window, family: Family, weighted: bool)
    requires AllSorted(data) && Aligned(w) && key.bucket % HOUR == 0
    ensures Total(data, key, w, family, weighted) == Sum(data, key, w, NamesOf(family), weighted)
    decreases |data|
  {
    if data != [] {
      var front, last := data[..|data| - 1], data[|data| - 1];
      assert last in data && forall s | s in front :: s in data;
      TotalIsTheQuery(front, key, w, family, weighted);
      IntegralIsTheQuery(last, w, key.bucket, weighted);
    }
  }

  // ---------- the samples of a row ----------

  /** p is a selected sample of the hour, of a metric in names. */
  predicate Sampled(data: seq<Series>, key: Key, w: Window, names: set<string>, p: Point) {
    exists s | s in data :: Reads(s, key, names) && p in s.points && w.from <= p.at < w.to && InHour(p, key.bucket)
  }

  function HourCount(ps: seq<Point>, bucket: int): nat {
    if ps == [] then 0
    else HourCount(ps[..|ps| - 1], bucket) + if InHour(ps[|ps| - 1], bucket) then 1 else 0
  }

  function SampleCount(data: seq<Series>, key: Key, w: Window): nat {
    if data == [] then 0
    else
      var last := data[|data| - 1];
      SampleCount(data[..|data| - 1], key, w)
      + if Reads(last, key, CPU + MEMORY + GPU) then HourCount(Selected(last.points, w), key.bucket) else 0
  }

  lemma BucketPointsAre(s: Series, w: Window, bucket: int)
    requires Sorted(s.points) && Aligned(w) && bucket % HOUR == 0
    ensures forall p :: p in BucketPoints(s, w, bucket) <==> p in s.points && w.from <= p.at < w.to && InHour(p, bucket)
  {
    var points := s.points;
    if Covers(w, bucket) {
      BeforeSplits(points, bucket);
      BeforeSplits(points, bucket + HOUR);
      BeforeMonotone(points, bucket, bucket + HOUR);
      forall p
        ensures p in BucketPoints(s, w, bucket) <==> p in points && w.from <= p.at < w.to && InHour(p, bucket)
      {
        MemberOfSlice(points, Before(points, bucket), Before(points, bucket + HOUR), p);
      }
    } else {
      assert bucket + HOUR <= w.from || w.to <= bucket;
    }
  }

  lemma SliceCount(points: seq<Point>, lo: nat, hi: nat, bucket: int, p: nat, q: nat)
    requires lo <= p <= q <= hi <= |points|
    requires forall j | lo <= j < hi :: InHour(points[j], bucket) <==> p <= j < q
    ensures HourCount(points[lo..hi], bucket) == q - p
  {
    var ps := points[lo..hi];
    assert forall j | 0 <= j < |ps| :: ps[j] == points[lo + j];
    HourCountIs(ps, bucket, p - lo, q - lo);
  }

  lemma BucketPointsCount(s: Series, w: Window, bucket: int)
    requires Sorted(s.points) && Aligned(w) && bucket % HOUR == 0
    ensures |BucketPoints(s, w, bucket)| == HourCount(Selected(s.points, w), bucket)
  {
    var points := s.points;
    var lo, hi := Before(points, w.from), Before(points, w.to);
    SelectedIsASlice(points, w);
    if Covers(w, bucket) {
      BoundsOrdered(points, w, bucket);
      HourBetween(points, w, bucket);
      SliceCount(points, lo, hi, bucket, Before(points, bucket), Before(points, bucket + HOUR));
    } else {
      NoneInHour(points, w, bucket);
      SliceCount(points, lo, hi, bucket, lo, lo);
    }
  }

  lemma MemberOfSlice(points: seq<Point>, p: nat, q: nat, x: Point)
    requires p <= q <= |points|
    ensures x in points[p..q] <==> exists i :: p <= i < q && points[i] == x
  {
    if i :| p <= i < q && points[i] == x {
      assert points[p..q][i - p] == x;
    }
  }

  lemma {:induction false} HourCountIs(ps: seq<Point>, bucket: int, p: nat, q: nat)
    requires p <= q && (forall j | 0 <= j < |ps| :: InHour(ps[j], bucket) <==> p <= j < q)
    ensures HourCount(ps, bucket) == if |ps| <= p then 0 else if |ps| <= q then |ps| - p else q - p
    decreases |ps|
  {
    if ps != [] {
      HourCountIs(ps[..|ps| - 1], bucket, p, q);
    }
  }

  function NamesOfAll(metrics: set<Family>): set<string> {
    (if Cpu in metrics then CPU else {}) + (if Memory in metrics then MEMORY else {})
    + if Gpu in metrics then GPU else {}
  }

  lemma ReadsWhich(s: Series, key: Key, metrics: set<Family>)
    ensures Owns(s, key) && (exists f | f in metrics :: InFamily(s.metric, f)) <==> Reads(s, key, NamesOfAll(metrics))
  {
    assert Cpu in metrics && s.metric in CPU ==> InFamily(s.metric, Cpu);
    assert Memory in metrics && s.metric in MEMORY ==> InFamily(s.metric, Memory);
    assert Gpu in metrics && s.metric in GPU ==> InFamily(s.metric, Gpu);
  }

  lemma {:induction false} KeyPointsAre(data: seq<Series>, key: Key, w: Window, metrics: set<Family>)
    requires AllSorted(data) && Aligned(w) && key.bucket % HOUR == 0
    ensures forall p :: p in KeyPoints(data, key, w, metrics) <==> Sampled(data, key, w, NamesOfAll(metrics), p)
    decreases |data|
  {
    if data != [] {
      var front, last := data[..|data| - 1], data[|data| - 1];
      assert last in data && forall s | s in front :: s in data;
      assert forall s | s in data :: s in front || s == last;
      KeyPointsAre(front, key, w, metrics);
      BucketPointsAre(last, w, key.bucket);
      ReadsWhich(last, key, metrics);
    }
  }

  lemma {:induction false} CountsAre(data: seq<Series>, key: Key, w: Window)
    requires AllSorted(data) && Aligned(w) && key.bucket % HOUR == 0
    ensures |KeyPoints(data, key, w, {Cpu, Memory, Gpu})| == SampleCount(data, key, w)
    decreases |data|
  {
    if data != [] {
      var front, last := data[..|data| - 1], data[|data| - 1];
      assert last in data && forall s | s in front :: s in data;
      CountsAre(front, key, w);
      BucketPointsCount(last, w, key.bucket);
      ReadsWhich(last, key, {Cpu, Memory, Gpu});
      assert NamesOfAll({Cpu, Memory, Gpu}) == CPU + MEMORY + GPU;
    }
  }

  // ---------- maxima ----------

  lemma {:induction false} PeakIs(points: seq<Point>)
    ensures points == [] ==> Peak(points) == 0.0
    ensures points != [] ==> exists p | p in points :: p.value == Peak(points)
    ensures forall p | p in points :: p.value <= Peak(points)
    decreases |points|
  {
    if |points| > 1 {
      var front, last := points[..|points| - 1], points[|points| - 1];
      PeakIs(front);
      assert forall p | p in points :: p in front || p == last;
      assert last in points && forall p | p in front :: p in points;
    } else if |points| == 1 {
      assert points[0] in points;
    }
  }

  /** Byte order: the texts agree up to where b goes on or has the larger byte. */
  lemma {:induction false} TextLessIs(a: string, b: string)
    ensures TextLess(a, b) <==> exists i :: 0 <= i < |b| && i <= |a| && a[..i] == b[..i] && (i == |a| || a[i] < b[i])
    decreases |a|
  {
    if b != "" {
      if a == "" || a[0] < b[0] {
        assert a[..0] == b[..0];
      } else if a[0] == b[0] {
        TextLessIs(a[1..], b[1..]);
        if i :| 0 <= i < |b[1..]| && i <= |a[1..]| && a[1..][..i] == b[1..][..i]
                && (i == |a[1..]| || a[1..][i] < b[1..][i]) {
          assert a[..i + 1] == [a[0]] + a[1..][..i] && b[..i + 1] == [b[0]] + b[1..][..i];
        }
        if i :| 0 <= i < |b| && i <= |a| && a[..i] == b[..i] && (i == |a| || a[i] < b[i]) {
          assert i > 0;
          assert a[1..][..i - 1] == a[..i][1..] && b[1..][..i - 1] == b[..i][1..];
        }
      } else {
        forall i | 0 < i < |b| && i <= |a|
          ensures a[..i] != b[..i]
        {
          assert a[..i][0] == a[0] && b[..i][0] == b[0];
        }
      }
    }
  }

  lemma {:induction false} NotLess(a: string, b: string, c: string)
    requires !TextLess(a, b) && TextLess(a, c)
    ensures TextLess(b, c)
    decreases |a|
  {
    if a != "" && b != "" && c != "" && a[0] == b[0] == c[0] {
      NotLess(a[1..], b[1..], c[1..]);
    }
  }

  lemma {:induction false} NeverLess(a: string)
    ensures !TextLess(a, a)
    decreases |a|
  {
    if a != "" {
      NeverLess(a[1..]);
    }
  }

  lemma {:induction false} NamesAreMaxima(points: seq<Point>)
    ensures MaxNetwork(points) == "" || exists p | p in points :: p.network == MaxNetwork(points)
    ensures MaxDepartment(points) == "" || exists p | p in points :: p.department == MaxDepartment(points)
    ensures forall p | p in points :: !TextLess(MaxNetwork(points), p.network)
    ensures forall p | p in points :: !TextLess(MaxDepartment(points), p.department)
    decreases |points|
  {
    if points != [] {
      var front, last := points[..|points| - 1], points[|points| - 1];
      NamesAreMaxima(front);
      NeverLess(last.network);
      NeverLess(last.department);
      assert last in points && forall p | p in front :: p in points;
      forall p | p in points
        ensures !TextLess(MaxNetwork(points), p.network) && !TextLess(MaxDepartment(points), p.department)
      {
        if p in front {
          if TextLess(MaxNetwork(front), last.network) && TextLess(last.network, p.network) {
            LessComposes(MaxNetwork(front), last.network, p.network);
          }
          if TextLess(MaxDepartment(front), last.department) && TextLess(last.department, p.department) {
            LessComposes(MaxDepartment(front), last.department, p.department);
          }
        }
      }
    }
  }

  lemma {:induction false} LessComposes(a: string, b: string, c: string)
    requires TextLess(a, b) && TextLess(b, c)
    ensures TextLess(a, c)
    decreases |a|
  {
    if a != "" && b != "" && c != "" && a[0] == b[0] == c[0] {
      LessComposes(a[1..], b[1..], c[1..]);
    }
  }

  // ---------- runtime ----------

  /** The session ran in second t; an open one runs on. */
  predicate RanAt(s: Session, t: int) {
    s.startedAt <= t && (s.endedAt.Some? ==> t < s.endedAt.value)
  }

  /** The seconds of the hour, inside the window, in which the session ran. */
  function SecondsOf(s: Session, key: Key, w: Window): set<int> {
    set t | key.bucket <= t < key.bucket + 3600 && RanAt(s, t) && w.from <= t < w.to
  }

  function Seconds(sessions: seq<Session>, key: Key, w: Window): nat {
    if sessions == [] then 0
    else
      var last := sessions[|sessions| - 1];
      Seconds(sessions[..|sessions| - 1], key, w)
      + if last.user == key.user && last.hub == key.hub then |SecondsOf(last, key, w)| else 0
  }

  function Interval(a: int, b: int): (r: set<int>)
    ensures forall t :: t in r <==> a <= t < b
    ensures |r| == if a <= b then b - a else 0
    decreases b - a
  {
    if a < b then {a} + Interval(a + 1, b) else {}
  }

  lemma PieceCounts(s: Session, key: Key, w: Window)
    ensures Piece(s, key.bucket, key.bucket + HOUR, w) == |SecondsOf(s, key, w)|
  {
    var a := Max(Max(s.startedAt, key.bucket), w.from);
    var b := Min(Min(EndBy(s, w.to), key.bucket + HOUR), w.to);
    assert SecondsOf(s, key, w) == Interval(a, b);
  }

  lemma {:induction false} RuntimeCounts(sessions: seq<Session>, key: Key, w: Window)
    ensures Runtime(HourlyRollup, Of(sessions, key.user, key.hub), key.bucket, key.bucket + HOUR, w)
            == Seconds(sessions, key, w)
    decreases |sessions|
  {
    if sessions != [] {
      var front, last := sessions[..|sessions| - 1], sessions[|sessions| - 1];
      RuntimeCounts(front, key, w);
      var own := Of(front, key.user, key.hub);
      assert own + [] == own;
      if last.user == key.user && last.hub == key.hub {
        assert (own + [last])[..|own|] == own && (own + [last])[|own|] == last;
        assert Of(sessions, key.user, key.hub) == own + [last];
        JoinedOrNothing(HourlyRollup, last, key.bucket, key.bucket + HOUR, w);
        PieceCounts(last, key, w);
      }
    }
  }

  // ---------- the row ----------

  ghost predicate PeakOf(data: seq<Series>, key: Key, w: Window, names: set<string>, peak: real) {
    && (forall p | Sampled(data, key, w, names, p) :: p.value <= peak)
    && (if exists p :: Sampled(data, key, w, names, p)
        then exists p :: Sampled(data, key, w, names, p) && p.value == peak else peak == 0.0)
  }

  lemma PeakOfFamily(data: seq<Series>, key: Key, w: Window, family: Family)
    requires AllSorted(data) && Aligned(w) && key.bucket % HOUR == 0
    ensures PeakOf(data, key, w, NamesOf(family), Peak(KeyPoints(data, key, w, {family})))
  {
    var points := KeyPoints(data, key, w, {family});
    assert NamesOfAll({family}) == NamesOf(family);
    KeyPointsAre(data, key, w, {family});
    PeakIs(points);
    assert points != [] ==> points[0] in points;
  }

  /** Consumption and coverage, by the metrics each column reads, as the query
      sums them. */
  lemma SecondsAreTheQuery(data: seq<Series>, sessions: seq<Session>, key: Key, w: Window)
    requires AllSorted(data) && Aligned(w) && key.bucket % HOUR == 0
    ensures UsageOf(data, sessions, key, w).cpuSeconds == Sum(data, key, w, CPU, true)
    ensures UsageOf(data, sessions, key, w).memorySeconds == Sum(data, key, w, MEMORY, true)
    ensures UsageOf(data, sessions, key, w).gpuSeconds == Sum(data, key, w, GPU, true)
    ensures UsageOf(data, sessions, key, w).covered == Sum(data, key, w, CPU, false)
  {
    TotalIsTheQuery(data, key, w, Cpu, true);
    TotalIsTheQuery(data, key, w, Memory, true);
    TotalIsTheQuery(data, key, w, Gpu, true);
    TotalIsTheQuery(data, key, w, Cpu, false);
  }

  /** How many samples of counted metrics the hour has. */
  lemma SamplesAreCounted(data: seq<Series>, sessions: seq<Session>, key: Key, w: Window)
    requires AllSorted(data) && Aligned(w) && key.bucket % HOUR == 0
    ensures UsageOf(data, sessions, key, w).samples == SampleCount(data, key, w)
  {
    CountsAre(data, key, w);
  }

  /** For how many seconds of the hour the user's sessions ran. */
  lemma RuntimeIsTheSeconds(data: seq<Series>, sessions: seq<Session>, key: Key, w: Window)
    ensures UsageOf(data, sessions, key, w).runtime == Seconds(sessions, key, w)
  {
    RuntimeCounts(sessions, key, w);
  }

  /** The peaks are those of the hour's samples of their metrics, zero without any. */
  lemma PeaksAreTheQuery(data: seq<Series>, sessions: seq<Session>, key: Key, w: Window)
    requires AllSorted(data) && Aligned(w) && key.bucket % HOUR == 0
    ensures PeakOf(data, key, w, CPU, UsageOf(data, sessions, key, w).cpuPeak)
    ensures PeakOf(data, key, w, MEMORY, UsageOf(data, sessions, key, w).memoryPeak)
  {
    PeakOfFamily(data, key, w, Cpu);
    PeakOfFamily(data, key, w, Memory);
  }

  /** Network and department are the greatest of the row's samples, or blank. */
  lemma NamesAreTheGreatest(data: seq<Series>, sessions: seq<Session>, key: Key, w: Window)
    requires AllSorted(data) && Aligned(w) && key.bucket % HOUR == 0
    ensures var row := UsageOf(data, sessions, key, w);
            && (forall p | Sampled(data, key, w, CPU + MEMORY + GPU, p) ::
                  !TextLess(row.network, p.network) && !TextLess(row.department, p.department))
            && (row.network == ""
                || exists p :: Sampled(data, key, w, CPU + MEMORY + GPU, p) && p.network == row.network)
            && (row.department == ""
                || exists p :: Sampled(data, key, w, CPU + MEMORY + GPU, p) && p.department == row.department)
  {
    KeyPointsAre(data, key, w, {Cpu, Memory, Gpu});
    NamesAreMaxima(KeyPoints(data, key, w, {Cpu, Memory, Gpu}));
  }

  function Keep(data: seq<Series>, names: set<string>): seq<Series> {
    if data == [] then []
    else
      var last := data[|data| - 1];
      Keep(data[..|data| - 1], names) + if last.metric in names then [last] else []
  }

  lemma SumSnoc(front: seq<Series>, last: Series, key: Key, w: Window, names: set<string>, weighted: bool)
    ensures Sum(front + [last], key, w, names, weighted)
            == Sum(front, key, w, names, weighted)
               + if Reads(last, key, names)
                 then HourSum(Selected(last.points, w), key.bucket, |Selected(last.points, w)|, weighted) else 0.0
  {
    assert (front + [last])[..|front|] == front;
  }

  /** Series of other metrics make no difference to a sum. */
  lemma {:induction false} OthersMakeNoDifference(data: seq<Series>, key: Key, w: Window, names: set<string>,
                                                  weighted: bool)
    ensures Sum(data, key, w, names, weighted) == Sum(Keep(data, names), key, w, names, weighted)
    decreases |data|
  {
    if data != [] {
      var front, last := data[..|data| - 1], data[|data| - 1];
      assert data == front + [last];
      OthersMakeNoDifference(front, key, w, names, weighted);
      SumSnoc(front, last, key, w, names, weighted);
      if last.metric in names {
        SumSnoc(Keep(front, names), last, key, w, names, weighted);
      } else {
        assert Keep(data, names) == Keep(front, names);
      }
    }
  }

  /** A column without any series of its metrics is zero. */
  lemma NothingSumsToZero(data: seq<Series>, key: Key, w: Window, names: set<string>, weighted: bool)
    requires Keep(data, names) == []
    ensures Sum(data, key, w, names, weighted) == 0.0
  {
    OthersMakeNoDifference(data, key, w, names, weighted);
  }

  // ---------- what is stored ----------

  /** A run stores exactly the rows it derives: every figure replaces the one
      stored, a blank network or department keeps it; no other row changes. */
  lemma RunStoresWhatItDerives(s: State, now: int, data: seq<Series>, sessions: seq<Session>, key: Key)
    requires StartOf(s.watermark, Trunc(now)) < Trunc(now)
    ensures var t := RollUp(s, now, data, sessions);
            var w := Window(StartOf(s.watermark, Trunc(now)), Trunc(now));
            var rows := Derived(data, sessions, w);
            && t.watermark == Trunc(now)
            && (key in t.hourly <==> key in s.hourly || key in rows)
            && (key !in rows && key in s.hourly ==> t.hourly[key] == s.hourly[key])
            && (key in rows ==>
                  var row, had := UsageOf(data, sessions, key, w), key in s.hourly;
                  t.hourly[key]
                  == Usage(if row.network == "" && had then s.hourly[key].network else row.network,
                           if row.department == "" && had then s.hourly[key].department else row.department,
                           row.cpuSeconds, row.memorySeconds, row.gpuSeconds, row.cpuPeak, row.memoryPeak,
                           row.covered, row.samples, row.runtime))
  {
    DerivedLookup(data, sessions, Window(StartOf(s.watermark, Trunc(now)), Trunc(now)), key);
  }

  /** Which hours a run derives: the last three before the watermark and all
      since, as far as 45 days back, up to the hour in progress. */
  lemma HoursDerivedExactly(s: State, tick: Tick, hour: int)
    requires s.watermark % 3600 == 0 && hour % 3600 == 0
    ensures Derives(s, tick, hour)
            <==> s.watermark - 10_800 <= hour && tick.now - tick.now % 3600 - 3_888_000 <= hour
                 && hour + 3600 <= tick.now
  {
  }
}
