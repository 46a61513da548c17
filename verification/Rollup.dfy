/** The hourly consumption rollup: capped sample spans, session time clipped to
    buckets, the upsert and its watermark. Times are whole seconds. */
module Rollup {
  import opened Text

  const HOUR: int := 3600
  const MAX_SAMPLE_INTERVAL: int := 150
  const LATE_WINDOW: int := 3 * HOUR
  const BACKFILL_LIMIT: int := 45 * 24 * HOUR

  function Min(a: int, b: int): int { if a <= b then a else b }
  function Max(a: int, b: int): int { if a <= b then b else a }

  function Trunc(t: int): (r: int)
    ensures r % HOUR == 0 && r <= t < r + HOUR
  {
    t - t % HOUR
  }

  // ---------- samples and their spans ----------

  datatype Point = Point(at: int, value: real, network: string, department: string)

  /** One partition of the sample table, in the order of the window clause. */
  datatype Series = Series(user: string, hub: string, pod: string, metric: string, points: seq<Point>)

  datatype Window = Window(from: int, to: int)

  ghost predicate Sorted(points: seq<Point>) {
    forall i, j :: 0 <= i < j < |points| ==> points[i].at <= points[j].at
  }

  ghost predicate Aligned(w: Window) {
    w.from % HOUR == 0 && w.to % HOUR == 0 && w.from <= w.to
  }

  /** How many samples come before t. */
  function Before(points: seq<Point>, t: int): (r: nat)
    ensures r <= |points|
  {
    if points == [] then 0
    else if points[|points| - 1].at < t then |points|
    else Before(points[..|points| - 1], t)
  }

  lemma {:induction false} BeforeSplits(points: seq<Point>, t: int)
    requires Sorted(points)
    ensures forall i :: 0 <= i < |points| ==> (points[i].at < t <==> i < Before(points, t))
    decreases |points|
  {
    if points != [] && points[|points| - 1].at >= t {
      var front := points[..|points| - 1];
      BeforeSplits(front, t);
      assert forall i :: 0 <= i < |front| ==> front[i] == points[i];
    }
  }

  lemma BeforeMonotone(points: seq<Point>, s: int, t: int)
    requires Sorted(points) && s <= t
    ensures Before(points, s) <= Before(points, t)
  {
    BeforeSplits(points, s);
    BeforeSplits(points, t);
    if Before(points, t) < |points| {
      assert points[Before(points, t)].at >= s;
    }
  }

  /** The samples of the window counted in a bucket are those between two
      indices: the ones whose truncated time is the bucket. */
  lemma BucketIsTrunc(points: seq<Point>, bucket: int, j: nat)
    requires Sorted(points) && bucket % HOUR == 0 && j < |points|
    ensures Before(points, bucket) <= j < Before(points, bucket + HOUR) <==> Trunc(points[j].at) == bucket
  {
    BeforeSplits(points, bucket);
    BeforeSplits(points, bucket + HOUR);
  }

  /** LEAST(COALESCE(LEAD - at, at - LAG, cap), cap) among points[lo..hi]. */
  function Span(points: seq<Point>, lo: nat, hi: nat, j: nat): int
    requires lo <= j < hi <= |points|
  {
    Min(if j + 1 < hi then points[j + 1].at - points[j].at
        else if j > lo then points[j].at - points[j - 1].at
        else MAX_SAMPLE_INTERVAL,
        MAX_SAMPLE_INTERVAL)
  }

  function Weight(p: Point, weighted: bool): real {
    if weighted then p.value else 1.0
  }

  function SpanSum(points: seq<Point>, lo: nat, hi: nat, p: nat, q: nat, weighted: bool): real
    requires lo <= p <= q <= hi <= |points|
    decreases q
  {
    if p == q then 0.0 else SpanSum(points, lo, hi, p, q - 1, weighted)
                            + Weight(points[q - 1], weighted) * Span(points, lo, hi, q - 1) as real
  }

  predicate Covers(w: Window, bucket: int) {
    w.from <= bucket && bucket + HOUR <= w.to
  }

  /** What one series adds to one bucket. */
  function Integral(s: Series, w: Window, bucket: int, weighted: bool): real {
    var lo, hi := Before(s.points, w.from), Before(s.points, w.to);
    var p, q := Before(s.points, bucket), Before(s.points, bucket + HOUR);
    if Covers(w, bucket) && lo <= p <= q <= hi then SpanSum(s.points, lo, hi, p, q, weighted) else 0.0
  }

  // ---------- how far an integral depends on the window ----------

  lemma BoundsOrdered(points: seq<Point>, w: Window, bucket: int)
    requires Sorted(points) && Covers(w, bucket)
    ensures Before(points, w.from) <= Before(points, bucket) <= Before(points, bucket + HOUR) <= Before(points, w.to)
  {
    BeforeMonotone(points, w.from, bucket);
    BeforeMonotone(points, bucket, bucket + HOUR);
    BeforeMonotone(points, bucket + HOUR, w.to);
  }

  lemma {:induction false} SuccessorsDecide(points: seq<Point>, lo1: nat, hi1: nat, lo2: nat, hi2: nat, p: nat, q: nat,
                                            weighted: bool)
    requires lo1 <= p <= q <= hi1 <= |points| && lo2 <= p <= q <= hi2 <= |points|
    requires p < q ==> q < hi1 && q < hi2
    ensures SpanSum(points, lo1, hi1, p, q, weighted) == SpanSum(points, lo2, hi2, p, q, weighted)
    decreases q
  {
    if p < q {
      SuccessorsDecide(points, lo1, hi1, lo2, hi2, p, q - 1, weighted);
    }
  }

  /** Every sample of the bucket has a successor inside the window. */
  ghost predicate Succeeded(points: seq<Point>, w: Window, bucket: int) {
    forall j | 0 <= j < |points| && Trunc(points[j].at) == bucket :: j + 1 < |points| && points[j + 1].at < w.to
  }

  /** A bucket whose samples all have in-window successors gets the same
      integrals from every window that covers it. */
  lemma SettledBucketIsStable(s: Series, w1: Window, w2: Window, bucket: int, weighted: bool)
    requires Sorted(s.points) && bucket % HOUR == 0 && Covers(w1, bucket) && Covers(w2, bucket)
    requires Succeeded(s.points, w1, bucket) && Succeeded(s.points, w2, bucket)
    ensures Integral(s, w1, bucket, weighted) == Integral(s, w2, bucket, weighted)
  {
    var points := s.points;
    var p, q := Before(points, bucket), Before(points, bucket + HOUR);
    BoundsOrdered(points, w1, bucket);
    BoundsOrdered(points, w2, bucket);
    if p < q {
      BucketIsTrunc(points, bucket, q - 1);
      BeforeSplits(points, w1.to);
      BeforeSplits(points, w2.to);
      assert Trunc(points[q - 1].at) == bucket;
      assert points[q].at < w1.to && points[q].at < w2.to;
    }
    SuccessorsDecide(points, Before(points, w1.from), Before(points, w1.to), Before(points, w2.from),
                     Before(points, w2.to), p, q, weighted);
  }

  /** The one sample whose span a later window start changes: the last of the
      window, alone behind the new start, closer than the cap to the sample that
      fell out. */
  predicate LoneSample(points: seq<Point>, w: Window, later: int, bucket: int) {
    var k := Before(points, later);
    && 0 < k < |points| && Before(points, w.from) < k && Before(points, w.to) == k + 1
    && Trunc(points[k].at) == bucket && points[k].at - points[k - 1].at < MAX_SAMPLE_INTERVAL
  }

  lemma {:induction false} LaterStartSum(points: seq<Point>, lo: nat, later: nat, hi: nat, p: nat, q: nat,
                                         weighted: bool)
    requires lo <= later <= p <= q <= hi <= |points|
    ensures q < hi || hi != later + 1 || lo == later ==>
              SpanSum(points, lo, hi, p, q, weighted) == SpanSum(points, later, hi, p, q, weighted)
    decreases q
  {
    if p < q {
      LaterStartSum(points, lo, later, hi, p, q - 1, weighted);
    }
  }

  /** How much a later window start adds to a series' bucket: the lone sample is
      credited the cap where it was credited its distance to the one dropped. */
  function Shift(points: seq<Point>, w: Window, later: int, bucket: int, weighted: bool): real {
    if LoneSample(points, w, later, bucket) then
      var k := Before(points, later);
      Weight(points[k], weighted) * (MAX_SAMPLE_INTERVAL - (points[k].at - points[k - 1].at)) as real
    else 0.0
  }

  lemma LoneShift(points: seq<Point>, lo: nat, k: nat, weighted: bool)
    requires lo < k < |points| && points[k].at - points[k - 1].at < MAX_SAMPLE_INTERVAL
    ensures SpanSum(points, k, k + 1, k, k + 1, weighted)
            == SpanSum(points, lo, k + 1, k, k + 1, weighted)
               + Weight(points[k], weighted) * (MAX_SAMPLE_INTERVAL - (points[k].at - points[k - 1].at)) as real
  {
    LoneSums(points, lo, k);
    var gap := points[k].at - points[k - 1].at;
    assert (MAX_SAMPLE_INTERVAL - gap) as real == MAX_SAMPLE_INTERVAL as real - gap as real;
    Distribute(Weight(points[k], weighted), gap as real, MAX_SAMPLE_INTERVAL as real);
  }

  lemma Distribute(a: real, x: real, y: real)
    ensures a * y == a * x + a * (y - x)
  {
  }

  /** Which samples of the bucket a lone sample is: the only one. */
  lemma LoneBounds(points: seq<Point>, w: Window, later: int, bucket: int)
    requires Sorted(points) && bucket % HOUR == 0 && w.from <= later <= bucket && bucket + HOUR <= w.to
    ensures var lo, k, hi := Before(points, w.from), Before(points, later), Before(points, w.to);
            var p, q := Before(points, bucket), Before(points, bucket + HOUR);
            && lo <= k <= p <= q <= hi
            && (lo < k && hi == k + 1 ==> (p < q && q == hi <==> Trunc(points[k].at) == bucket))
  {
    var k := Before(points, later);
    BoundsOrdered(points, w, bucket);
    BoundsOrdered(points, Window(later, w.to), bucket);
    BeforeMonotone(points, w.from, later);
    if Before(points, w.to) == k + 1 {
      BucketIsTrunc(points, bucket, k);
    }
  }

  /** By indices: one sample left in the window, alone in its bucket, with one
      dropped before it. */
  predicate Alone(points: seq<Point>, lo: nat, k: nat, hi: nat, p: nat, q: nat)
    requires hi <= |points|
  {
    lo < k && hi == k + 1 && p < q && q == hi && points[k].at - points[k - 1].at < MAX_SAMPLE_INTERVAL
  }

  lemma SumShifts(points: seq<Point>, lo: nat, k: nat, hi: nat, p: nat, q: nat, weighted: bool)
    requires lo <= k <= p <= q <= hi <= |points|
    ensures SpanSum(points, k, hi, p, q, weighted)
            == SpanSum(points, lo, hi, p, q, weighted)
               + if Alone(points, lo, k, hi, p, q)
                 then Weight(points[k], weighted) * (MAX_SAMPLE_INTERVAL - (points[k].at - points[k - 1].at)) as real
                 else 0.0
  {
    LaterStartSum(points, lo, k, hi, p, q, weighted);
    if lo < k && hi == k + 1 && p < q && q == hi {
      if Alone(points, lo, k, hi, p, q) {
        LoneShift(points, lo, k, weighted);
      } else {
        LoneSums(points, lo, k);
      }
    }
  }

  lemma LaterStartShifts(s: Series, w: Window, later: int, bucket: int, weighted: bool)
    requires Sorted(s.points) && bucket % HOUR == 0 && w.from <= later <= bucket && bucket + HOUR <= w.to
    ensures Integral(s, Window(later, w.to), bucket, weighted)
            == Integral(s, w, bucket, weighted) + Shift(s.points, w, later, bucket, weighted)
  {
    LoneBounds(s.points, w, later, bucket);
    SumShifts(s.points, Before(s.points, w.from), Before(s.points, later), Before(s.points, w.to),
              Before(s.points, bucket), Before(s.points, bucket + HOUR), weighted);
  }

  /** No lone sample there, or, in a weighted sum, one of value zero. */
  predicate Harmless(points: seq<Point>, w: Window, later: int, bucket: int, weighted: bool) {
    LoneSample(points, w, later, bucket) ==> weighted && points[Before(points, later)].value == 0.0
  }

  /** Starting the window later leaves a bucket's integral alone exactly when it
      is harmless there. */
  lemma LaterStartChangesExactly(s: Series, w: Window, later: int, bucket: int, weighted: bool)
    requires Sorted(s.points) && bucket % HOUR == 0 && w.from <= later <= bucket && bucket + HOUR <= w.to
    ensures Integral(s, w, bucket, weighted) == Integral(s, Window(later, w.to), bucket, weighted)
            <==> Harmless(s.points, w, later, bucket, weighted)
  {
    LaterStartShifts(s, w, later, bucket, weighted);
    if LoneSample(s.points, w, later, bucket) {
      var k := Before(s.points, later);
      ProductIsZero(Weight(s.points[k], weighted),
                    (MAX_SAMPLE_INTERVAL - (s.points[k].at - s.points[k - 1].at)) as real);
    }
  }

  lemma ProductIsZero(a: real, b: real)
    requires b > 0.0
    ensures a * b == 0.0 <==> a == 0.0
    ensures a >= 0.0 ==> a * b >= 0.0
  {
  }

  ghost predicate NonNegative(points: seq<Point>) {
    forall p | p in points :: p.value >= 0.0
  }

  lemma ShiftNeverNegative(points: seq<Point>, w: Window, later: int, bucket: int, weighted: bool)
    requires NonNegative(points)
    ensures Shift(points, w, later, bucket, weighted) >= 0.0
  {
    if LoneSample(points, w, later, bucket) {
      var k := Before(points, later);
      assert points[k] in points;
      ProductIsZero(Weight(points[k], weighted), (MAX_SAMPLE_INTERVAL - (points[k].at - points[k - 1].at)) as real);
    }
  }

  lemma LaterStartNeverLowers(s: Series, w: Window, later: int, bucket: int, weighted: bool)
    requires Sorted(s.points) && NonNegative(s.points)
    requires bucket % HOUR == 0 && w.from <= later <= bucket && bucket + HOUR <= w.to
    ensures Integral(s, w, bucket, weighted) <= Integral(s, Window(later, w.to), bucket, weighted)
  {
    LaterStartShifts(s, w, later, bucket, weighted);
    ShiftNeverNegative(s.points, w, later, bucket, weighted);
  }

  lemma LoneSums(points: seq<Point>, lo: nat, k: nat)
    requires lo < k < |points|
    ensures forall weighted :: SpanSum(points, lo, k + 1, k, k + 1, weighted)
                               == Weight(points[k], weighted) * Min(points[k].at - points[k - 1].at,
                                                                    MAX_SAMPLE_INTERVAL) as real
    ensures forall weighted :: SpanSum(points, k, k + 1, k, k + 1, weighted)
                              == Weight(points[k], weighted) * MAX_SAMPLE_INTERVAL as real
  {
    forall weighted: bool
      ensures SpanSum(points, lo, k + 1, k, k + 1, weighted)
              == Weight(points[k], weighted) * Min(points[k].at - points[k - 1].at, MAX_SAMPLE_INTERVAL) as real
      ensures SpanSum(points, k, k + 1, k, k + 1, weighted) == Weight(points[k], weighted) * MAX_SAMPLE_INTERVAL as real
    {
      assert SpanSum(points, lo, k + 1, k, k, weighted) == 0.0;
      assert SpanSum(points, k, k + 1, k, k, weighted) == 0.0;
    }
  }

  /** Such a sample takes no more than two samples half a minute apart, one on
      each side of the later start. */
  lemma LoneSampleExists(w: Window, later: int, before: Point, after: Point)
    requires later % HOUR == 0 && w.from <= later - 30 && later + HOUR <= w.to
    requires before.at == later - 30 && after.at == later
    ensures LoneSample([before, after], w, later, later)
  {
    var points := [before, after];
    BeforeSplits(points, later);
    BeforeSplits(points, w.from);
    BeforeSplits(points, w.to);
    assert points[0].at < later <= points[1].at < w.to;
  }

  // ---------- coverage ----------

  /** Successor-measured coverage of a series: every sample but the last. */
  function Covered(points: seq<Point>): int
    decreases |points|
  {
    if |points| < 2 then 0
    else Covered(points[..|points| - 1]) + Min(points[|points| - 1].at - points[|points| - 2].at, MAX_SAMPLE_INTERVAL)
  }

  lemma {:induction false} CoverageFitsTheSeries(points: seq<Point>)
    requires Sorted(points) && points != []
    ensures 0 <= Covered(points) <= points[|points| - 1].at - points[0].at
    decreases |points|
  {
    if |points| >= 2 {
      CoverageFitsTheSeries(points[..|points| - 1]);
    }
  }

  lemma CoveredSnoc(points: seq<Point>, p: Point)
    requires points != []
    ensures Covered(points + [p]) == Covered(points) + Min(p.at - points[|points| - 1].at, MAX_SAMPLE_INTERVAL)
  {
    assert (points + [p])[..|points|] == points;
  }

  lemma {:induction false} CoveredConcat(a: seq<Point>, b: seq<Point>)
    requires a != [] && b != []
    ensures Covered(a + b) == Covered(a) + Min(b[0].at - a[|a| - 1].at, MAX_SAMPLE_INTERVAL) + Covered(b)
    decreases |b|
  {
    var front, last := b[..|b| - 1], b[|b| - 1];
    assert a + b == a + front + [last] && b == front + [last];
    CoveredSnoc(a + front, last);
    if front == [] {
      assert a + front == a;
    } else {
      CoveredConcat(a, front);
      CoveredSnoc(front, last);
    }
  }

  /** A late sample between two others never lowers the coverage. */
  lemma LateSampleNeverLowersCoverage(points: seq<Point>, i: nat, late: Point)
    requires 0 < i < |points| && points[i - 1].at <= late.at <= points[i].at
    ensures Covered(points) <= Covered(points[..i] + [late] + points[i..])
  {
    assert points == points[..i] + points[i..];
    CoveredConcat(points[..i], points[i..]);
    CoveredConcat(points[..i] + [late], points[i..]);
    CoveredSnoc(points[..i], late);
  }

  lemma {:induction false} SpansSplit(points: seq<Point>, lo: nat, hi: nat, p: nat, q: nat, r: nat, weighted: bool)
    requires lo <= p <= q <= r <= hi <= |points|
    ensures SpanSum(points, lo, hi, p, r, weighted) == SpanSum(points, lo, hi, p, q, weighted)
            + SpanSum(points, lo, hi, q, r, weighted)
    decreases r
  {
    if q < r {
      SpansSplit(points, lo, hi, p, q, r - 1, weighted);
    }
  }

  function BucketSum(s: Series, w: Window, bucket: int, hours: nat, weighted: bool): real
    decreases hours
  {
    if hours == 0 then 0.0 else BucketSum(s, w, bucket, hours - 1, weighted)
                                + Integral(s, w, bucket + (hours - 1) * HOUR, weighted)
  }

  /** The spans of the samples in [w.from, to). */
  function SpansBefore(s: Series, w: Window, to: int, weighted: bool): real {
    var lo, hi, q := Before(s.points, w.from), Before(s.points, w.to), Before(s.points, to);
    if lo <= q <= hi then SpanSum(s.points, lo, hi, lo, q, weighted) else 0.0
  }

  lemma OneMoreBucket(s: Series, w: Window, bucket: int, weighted: bool)
    requires Sorted(s.points) && Covers(w, bucket)
    ensures SpansBefore(s, w, bucket + HOUR, weighted) == SpansBefore(s, w, bucket, weighted)
            + Integral(s, w, bucket, weighted)
  {
    BoundsOrdered(s.points, w, bucket);
    SpansSplit(s.points, Before(s.points, w.from), Before(s.points, w.to), Before(s.points, w.from),
               Before(s.points, bucket),
               Before(s.points, bucket + HOUR), weighted);
  }

  /** Totals over a range are exact: crediting a span to its sample's hour moves
      consumption between buckets and loses none. */
  lemma {:induction false} BucketsAddUp(s: Series, w: Window, hours: nat, weighted: bool)
    requires Sorted(s.points) && w.from + hours * HOUR <= w.to
    ensures BucketSum(s, w, w.from, hours, weighted) == SpansBefore(s, w, w.from + hours * HOUR, weighted)
    decreases hours
  {
    if hours == 0 {
      BeforeMonotone(s.points, w.from, w.to);
    } else {
      BucketsAddUp(s, w, hours - 1, weighted);
      OneMoreBucket(s, w, w.from + (hours - 1) * HOUR, weighted);
      assert w.from + (hours - 1) * HOUR + HOUR == w.from + hours * HOUR;
    }
  }

  /** Leaving out the last sample, what the buckets hold of a series is its
      successor-measured coverage. */
  lemma {:induction false} CoverageIsTheSpans(points: seq<Point>, lo: nat, hi: nat, k: nat)
    requires lo <= k < hi <= |points|
    ensures SpanSum(points, lo, hi, lo, k, false) == Covered(points[lo..k + 1]) as real
    decreases k
  {
    if lo < k {
      CoverageIsTheSpans(points, lo, hi, k - 1);
      assert points[lo..k + 1] == points[lo..k] + [points[k]];
      CoveredSnoc(points[lo..k], points[k]);
    }
  }

  // ---------- session time in buckets ----------

  datatype Session = Session(user: string, hub: string, startedAt: int, endedAt: Option<int>)

  function EndBy(s: Session, to: int): int {
    if s.endedAt.Some? then s.endedAt.value else to
  }

  /** A session's seconds in the bucket [a, b) of the query window. */
  function Piece(s: Session, a: int, b: int, w: Window): int {
    Max(0, Min(Min(EndBy(s, w.to), b), w.to) - Max(Max(s.startedAt, a), w.from))
  }

  function Overlap(s: Session, w: Window): int {
    Max(0, Min(EndBy(s, w.to), w.to) - Max(s.startedAt, w.from))
  }

  /** The rollup's join of sessions with hours. */
  predicate Joined(s: Session, a: int, b: int, w: Window) {
    s.startedAt < Min(b, w.to) && EndBy(s, w.to) > Max(a, w.from)
  }

  /** The usage view's: sessions that meet the window, clipped to it, joined with buckets. */
  predicate UsageJoined(s: Session, a: int, b: int, w: Window) {
    && s.startedAt < w.to && EndBy(s, w.to) > w.from
    && Max(s.startedAt, w.from) < Min(b, w.to) && Min(EndBy(s, w.to), w.to) > Max(a, w.from)
  }

  datatype Query = HourlyRollup | UsageView

  predicate JoinedBy(query: Query, s: Session, a: int, b: int, w: Window) {
    if query == HourlyRollup then Joined(s, a, b, w) else UsageJoined(s, a, b, w)
  }

  /** Pairs a join leaves out would add nothing. */
  lemma UnjoinedAddsNothing(query: Query, s: Session, a: int, b: int, w: Window)
    requires !JoinedBy(query, s, a, b, w)
    ensures Piece(s, a, b, w) == 0
  {
  }

  lemma JoinedOrNothing(query: Query, s: Session, a: int, b: int, w: Window)
    ensures Piece(s, a, b, w) == if JoinedBy(query, s, a, b, w) then Piece(s, a, b, w) else 0
  {
    if !JoinedBy(query, s, a, b, w) {
      UnjoinedAddsNothing(query, s, a, b, w);
    }
  }

  function Runtime(query: Query, sessions: seq<Session>, a: int, b: int, w: Window): int {
    if sessions == [] then 0
    else
      var last := sessions[|sessions| - 1];
      Runtime(query, sessions[..|sessions| - 1], a, b, w)
      + if JoinedBy(query, last, a, b, w) then Piece(last, a, b, w) else 0
  }

  function TotalOverlap(sessions: seq<Session>, w: Window): int {
    if sessions == [] then 0 else TotalOverlap(sessions[..|sessions| - 1], w) + Overlap(sessions[|sessions| - 1], w)
  }

  /** The column summed over consecutive buckets with the given boundaries. */
  function BucketRuntime(query: Query, sessions: seq<Session>, bounds: seq<int>, w: Window): int {
    if |bounds| < 2 then 0
    else
      var n := |bounds|;
      BucketRuntime(query, sessions, bounds[..n - 1], w) + Runtime(query, sessions, bounds[n - 2], bounds[n - 1], w)
  }

  ghost predicate Boundaries(bounds: seq<int>) {
    bounds != [] && forall i, j :: 0 <= i < j < |bounds| ==> bounds[i] <= bounds[j]
  }

  lemma PieceSplits(s: Session, a: int, b: int, c: int, w: Window)
    requires a <= b <= c
    ensures Piece(s, a, b, w) + Piece(s, b, c, w) == Piece(s, a, c, w)
  {
  }

  lemma {:induction false} RuntimeSplits(query: Query, sessions: seq<Session>, a: int, b: int, c: int, w: Window)
    requires a <= b <= c
    ensures Runtime(query, sessions, a, b, w) + Runtime(query, sessions, b, c, w) == Runtime(query, sessions, a, c, w)
    decreases |sessions|
  {
    if sessions != [] {
      RuntimeSplits(query, sessions[..|sessions| - 1], a, b, c, w);
      var last := sessions[|sessions| - 1];
      PieceSplits(last, a, b, c, w);
      JoinedOrNothing(query, last, a, b, w);
      JoinedOrNothing(query, last, b, c, w);
      JoinedOrNothing(query, last, a, c, w);
    }
  }

  lemma {:induction false} RuntimeOfWindow(query: Query, sessions: seq<Session>, a: int, b: int, w: Window)
    requires a <= w.from && w.to <= b
    ensures Runtime(query, sessions, a, b, w) == TotalOverlap(sessions, w)
    decreases |sessions|
  {
    if sessions != [] {
      RuntimeOfWindow(query, sessions[..|sessions| - 1], a, b, w);
    }
  }

  lemma {:induction false} BucketsJoin(query: Query, sessions: seq<Session>, bounds: seq<int>, w: Window)
    requires Boundaries(bounds)
    ensures BucketRuntime(query, sessions, bounds, w) == Runtime(query, sessions, bounds[0], bounds[|bounds| - 1], w)
    decreases |bounds|
  {
    var n := |bounds|;
    if n == 1 {
      EmptyBucket(query, sessions, bounds[0], w);
    } else {
      BucketsJoin(query, sessions, bounds[..n - 1], w);
      RuntimeSplits(query, sessions, bounds[0], bounds[n - 2], bounds[n - 1], w);
    }
  }

  lemma {:induction false} EmptyBucket(query: Query, sessions: seq<Session>, a: int, w: Window)
    ensures Runtime(query, sessions, a, a, w) == 0
    decreases |sessions|
  {
    if sessions != [] {
      EmptyBucket(query, sessions[..|sessions| - 1], a, w);
    }
  }

  /** Runtime is conserved by bucketing, whatever the bucket widths, as long as
      the buckets cover the window. */
  lemma RuntimeIsConserved(query: Query, sessions: seq<Session>, bounds: seq<int>, w: Window)
    requires Boundaries(bounds) && bounds[0] <= w.from && w.to <= bounds[|bounds| - 1]
    ensures BucketRuntime(query, sessions, bounds, w) == TotalOverlap(sessions, w)
  {
    BucketsJoin(query, sessions, bounds, w);
    RuntimeOfWindow(query, sessions, bounds[0], bounds[|bounds| - 1], w);
  }

  /** A start is counted in the bucket it falls in, unless the session ended the
      moment the bucket (or the window) began. */
  lemma StartCountedExactly(s: Session, a: int, b: int, w: Window)
    requires s.endedAt.Some? ==> s.startedAt <= s.endedAt.value
    ensures UsageJoined(s, a, b, w) && Max(a, w.from) <= s.startedAt < Min(b, w.to)
            <==> Max(a, w.from) <= s.startedAt < Min(b, w.to) && s.endedAt != Some(Max(a, w.from))
  {
  }

  // ---------- the hourly buckets ----------

  lemma HourlyPiece(s: Session, bucket: int, w: Window)
    ensures 0 <= Piece(s, bucket, bucket + HOUR, w) <= HOUR
    ensures bucket == w.to ==> Piece(s, bucket, bucket + HOUR, w) == 0
  {
  }

  /** The sessions joined to the hour at the end of the window: those that ran
      past it and have ended since. */
  lemma JoinedAtTheEndExactly(s: Session, w: Window)
    requires w.from <= w.to
    ensures Joined(s, w.to, w.to + HOUR, w) <==> s.startedAt < w.to && s.endedAt.Some? && s.endedAt.value > w.to
  {
  }

  lemma PieceIgnoresEarlierStart(s: Session, bucket: int, w: Window, later: int)
    requires w.from <= later <= bucket
    ensures Piece(s, bucket, bucket + HOUR, w) == Piece(s, bucket, bucket + HOUR, Window(later, w.to))
    ensures Joined(s, bucket, bucket + HOUR, w) == Joined(s, bucket, bucket + HOUR, Window(later, w.to))
  {
  }

  // ---------- one run of the rollup ----------

  datatype Family = Cpu | Memory | Gpu

  predicate InFamily(metric: string, family: Family) {
    match family
    case Cpu => metric in {"cpu_cores", "cpu", "cpu_usage"}
    case Memory => metric in {"memory_bytes", "memory", "memory_usage"}
    case Gpu => metric in {"gpu_count", "gpu"}
  }

  predicate Counted(s: Series) {
    s.user != "" && (InFamily(s.metric, Cpu) || InFamily(s.metric, Memory) || InFamily(s.metric, Gpu))
  }

  datatype Key = Key(bucket: int, user: string, hub: string)

  predicate Owns(s: Series, key: Key) {
    Counted(s) && s.user == key.user && s.hub == key.hub
  }

  function Total(data: seq<Series>, key: Key, w: Window, family: Family, weighted: bool): real {
    if data == [] then 0.0
    else
      var last := data[|data| - 1];
      Total(data[..|data| - 1], key, w, family, weighted)
      + if Owns(last, key) && InFamily(last.metric, family) then Integral(last, w, key.bucket, weighted) else 0.0
  }

  /** The window's samples in a bucket. */
  function BucketPoints(s: Series, w: Window, bucket: int): seq<Point> {
    var p, q := Before(s.points, bucket), Before(s.points, bucket + HOUR);
    if Covers(w, bucket) && p <= q then s.points[p..q] else []
  }

  function KeyPoints(data: seq<Series>, key: Key, w: Window, metrics: set<Family>): seq<Point> {
    if data == [] then []
    else
      var last := data[|data| - 1];
      KeyPoints(data[..|data| - 1], key, w, metrics)
      + if Owns(last, key) && exists f | f in metrics ::
          InFamily(last.metric, f) then BucketPoints(last, w, key.bucket) else []
  }

  function Peak(points: seq<Point>): real {
    if points == [] then 0.0
    else if |points| == 1 then points[0].value
    else
      var front := Peak(points[..|points| - 1]);
      if points[|points| - 1].value > front then points[|points| - 1].value else front
  }

  predicate TextLess(a: string, b: string) {
    b != "" && (a == "" || a[0] < b[0] || (a[0] == b[0] && TextLess(a[1..], b[1..])))
  }

  function MaxNetwork(points: seq<Point>): string {
    if points == [] then ""
    else
      var front := MaxNetwork(points[..|points| - 1]);
      if TextLess(front, points[|points| - 1].network) then points[|points| - 1].network else front
  }

  function MaxDepartment(points: seq<Point>): string {
    if points == [] then ""
    else
      var front := MaxDepartment(points[..|points| - 1]);
      if TextLess(front, points[|points| - 1].department) then points[|points| - 1].department else front
  }

  datatype Usage = Usage(network: string, department: string, cpuSeconds: real, memorySeconds: real, gpuSeconds: real,
                         cpuPeak: real, memoryPeak: real, covered: real, samples: nat, runtime: int)

  function Of(sessions: seq<Session>, user: string, hub: string): seq<Session> {
    if sessions == [] then []
    else
      var last := sessions[|sessions| - 1];
      Of(sessions[..|sessions| - 1], user, hub) + if last.user == user && last.hub == hub then [last] else []
  }

  function UsageOf(data: seq<Series>, sessions: seq<Session>, key: Key, w: Window): Usage {
    var all := KeyPoints(data, key, w, {Cpu, Memory, Gpu});
    Usage(MaxNetwork(all), MaxDepartment(all),
          Total(data, key, w, Cpu, true), Total(data, key, w, Memory, true), Total(data, key, w, Gpu, true),
          Peak(KeyPoints(data, key, w, {Cpu})), Peak(KeyPoints(data, key, w, {Memory})),
          Total(data, key, w, Cpu, false), |all|,
          Runtime(HourlyRollup, Of(sessions, key.user, key.hub), key.bucket, key.bucket + HOUR, w))
  }

  function Hours(from: int, last: int): set<int>
    decreases last - from
  {
    if from > last then {} else {from} + Hours(from + HOUR, last)
  }

  /** The groups of integrated: samples in the window. */
  function SampleKeys(data: seq<Series>, w: Window): set<Key> {
    set s, p | s in data && p in s.points && Counted(s) && w.from <= p.at < w.to :: Key(Trunc(p.at), s.user, s.hub)
  }

  /** The groups of session_runtime: hours up to and including the window's end. */
  function SessionKeys(sessions: seq<Session>, w: Window): set<Key> {
    set s, b | s in sessions && b in Hours(Trunc(w.from), Trunc(w.to)) && Joined(s, b, b + HOUR, w)
        && s.user != "" :: Key(b, s.user, s.hub)
  }

  function Derived(data: seq<Series>, sessions: seq<Session>, w: Window): map<Key, Usage> {
    map key | key in SampleKeys(data, w) + SessionKeys(sessions, w) :: UsageOf(data, sessions, key, w)
  }

  function Merge(target: Usage, excluded: Usage): Usage {
    excluded.(network := if excluded.network != "" then excluded.network else target.network,
              department := if excluded.department != "" then excluded.department else target.department)
  }

  function Upsert(table: map<Key, Usage>, rows: map<Key, Usage>): map<Key, Usage> {
    table + map key | key in rows :: if key in table then Merge(table[key], rows[key]) else rows[key]
  }

  datatype State = State(hourly: map<Key, Usage>, watermark: int)

  function StartOf(watermark: int, through: int): int {
    Trunc(Max(watermark - LATE_WINDOW, through - BACKFILL_LIMIT))
  }

  function RollUp(s: State, now: int, data: seq<Series>, sessions: seq<Session>): State {
    var through := Trunc(now);
    var start := StartOf(s.watermark, through);
    if start >= through then s
    else State(Upsert(s.hourly, Derived(data, sessions, Window(start, through))), through)
  }

  // ---------- reruns ----------

  /** Writing rows again, or part of them, changes nothing. */
  lemma UpsertAgain(table: map<Key, Usage>, rows: map<Key, Usage>, again: map<Key, Usage>)
    requires again.Keys <= rows.Keys && forall key | key in again :: again[key] == rows[key]
    ensures Upsert(Upsert(table, rows), again) == Upsert(table, rows)
  {
    var once := Upsert(table, rows);
    forall key | key in again
      ensures Merge(once[key], again[key]) == once[key]
    {
    }
  }

  /** What the sample table holds: series in time order, values that passed the
      filter of its only writer. */
  ghost predicate Recorded(data: seq<Series>) {
    forall s | s in data :: Sorted(s.points) && NonNegative(s.points)
  }

  predicate Feeds(s: Series, key: Key, family: Family) {
    Owns(s, key) && InFamily(s.metric, family)
  }

  /** Every series that feeds the column is harmless in the bucket. */
  predicate AllHarmless(data: seq<Series>, key: Key, w: Window, later: int, family: Family, weighted: bool) {
    forall s | s in data && Feeds(s, key, family) :: Harmless(s.points, w, later, key.bucket, weighted)
  }

  lemma LastHarmless(front: seq<Series>, last: Series, key: Key, w: Window, later: int, family: Family, weighted: bool)
    ensures AllHarmless(front + [last], key, w, later, family, weighted)
            <==> && AllHarmless(front, key, w, later, family, weighted)
                 && (Feeds(last, key, family) ==> Harmless(last.points, w, later, key.bucket, weighted))
  {
    assert last in front + [last] && forall s | s in front :: s in front + [last];
  }

  lemma LastTotal(front: seq<Series>, last: Series, key: Key, w: Window, family: Family, weighted: bool)
    ensures Total(front + [last], key, w, family, weighted)
            == Total(front, key, w, family, weighted)
               + if Feeds(last, key, family) then Integral(last, w, key.bucket, weighted) else 0.0
  {
    assert (front + [last])[..|front|] == front;
  }

  /** Column by column, a bucket is the same from a later window start exactly
      when every series that feeds the column is harmless there. */
  lemma {:induction false} TotalIgnoresLaterStartExactly(data: seq<Series>, key: Key, w: Window, later: int,
                                                         family: Family,
                                                         weighted: bool)
    requires Recorded(data)
    requires key.bucket % HOUR == 0 && w.from <= later <= key.bucket && key.bucket + HOUR <= w.to
    ensures Total(data, key, w, family, weighted) <= Total(data, key, Window(later, w.to), family, weighted)
    ensures Total(data, key, w, family, weighted) == Total(data, key, Window(later, w.to), family, weighted)
            <==> AllHarmless(data, key, w, later, family, weighted)
    decreases |data|
  {
    if data != [] {
      var front, last := data[..|data| - 1], data[|data| - 1];
      assert last in data && forall s | s in front :: s in data;
      assert data == front + [last];
      TotalIgnoresLaterStartExactly(front, key, w, later, family, weighted);
      LastHarmless(front, last, key, w, later, family, weighted);
      LastTotal(front, last, key, w, family, weighted);
      LastTotal(front, last, key, Window(later, w.to), family, weighted);
      LaterStartChangesExactly(last, w, later, key.bucket, weighted);
      LaterStartNeverLowers(last, w, later, key.bucket, weighted);
    }
  }

  lemma {:induction false} PointsIgnoreLaterStart(data: seq<Series>, key: Key, w: Window, later: int,
                                                  metrics: set<Family>)
    requires w.from <= later <= key.bucket
    ensures KeyPoints(data, key, w, metrics) == KeyPoints(data, key, Window(later, w.to), metrics)
    decreases |data|
  {
    if data != [] {
      PointsIgnoreLaterStart(data[..|data| - 1], key, w, later, metrics);
    }
  }

  lemma {:induction false} RuntimeIgnoresLaterStart(sessions: seq<Session>, bucket: int, w: Window, later: int)
    requires w.from <= later <= bucket
    ensures Runtime(HourlyRollup, sessions, bucket, bucket + HOUR, w)
            == Runtime(HourlyRollup, sessions, bucket, bucket + HOUR, Window(later, w.to))
    decreases |sessions|
  {
    if sessions != [] {
      RuntimeIgnoresLaterStart(sessions[..|sessions| - 1], bucket, w, later);
      PieceIgnoresEarlierStart(sessions[|sessions| - 1], bucket, w, later);
    }
  }

  lemma {:induction false} NothingOutside(data: seq<Series>, key: Key, w: Window, family: Family, weighted: bool,
                                          metrics: set<Family>)
    requires !Covers(w, key.bucket)
    ensures Total(data, key, w, family, weighted) == 0.0 && KeyPoints(data, key, w, metrics) == []
    decreases |data|
  {
    if data != [] {
      NothingOutside(data[..|data| - 1], key, w, family, weighted, metrics);
    }
  }

  /** No column of a row is changed through this series: no lone sample, or one
      of value zero that does not count as coverage. */
  predicate Untouched(s: Series, w: Window, later: int, bucket: int) {
    LoneSample(s.points, w, later, bucket) ==> !InFamily(s.metric, Cpu)
                                               && s.points[Before(s.points, later)].value == 0.0
  }

  lemma LoneIsInside(points: seq<Point>, w: Window, later: int, bucket: int)
    requires Sorted(points) && Aligned(w) && LoneSample(points, w, later, bucket)
    ensures bucket + HOUR <= w.to && w.from <= later <= points[Before(points, later)].at < w.to
    ensures later % HOUR == 0 ==> later <= bucket
  {
    var k := Before(points, later);
    BeforeSplits(points, w.from);
    BeforeSplits(points, w.to);
    BeforeSplits(points, later);
    if later < w.from {
      BeforeMonotone(points, later, w.from);
    }
  }

  lemma RowFromTotals(data: seq<Series>, sessions: seq<Session>, key: Key, w: Window, later: int)
    requires w.from <= later <= key.bucket
    ensures var w2 := Window(later, w.to);
            && UsageOf(data, sessions, key, w).network == UsageOf(data, sessions, key, w2).network
            && UsageOf(data, sessions, key, w).department == UsageOf(data, sessions, key, w2).department
            && (UsageOf(data, sessions, key, w) == UsageOf(data, sessions, key, w2)
                <==> && Total(data, key, w, Cpu, true) == Total(data, key, w2, Cpu, true)
                     && Total(data, key, w, Memory, true) == Total(data, key, w2, Memory, true)
                     && Total(data, key, w, Gpu, true) == Total(data, key, w2, Gpu, true)
                     && Total(data, key, w, Cpu, false) == Total(data, key, w2, Cpu, false))
  {
    var w2 := Window(later, w.to);
    PointsIgnoreLaterStart(data, key, w, later, {Cpu, Memory, Gpu});
    PointsIgnoreLaterStart(data, key, w, later, {Cpu});
    PointsIgnoreLaterStart(data, key, w, later, {Memory});
    RuntimeIgnoresLaterStart(Of(sessions, key.user, key.hub), key.bucket, w, later);
    RowOfTotals(data, sessions, key, w);
    RowOfTotals(data, sessions, key, w2);
  }

  /** A row by its four sums and what does not depend on them. */
  lemma RowOfTotals(data: seq<Series>, sessions: seq<Session>, key: Key, w: Window)
    ensures var all := KeyPoints(data, key, w, {Cpu, Memory, Gpu});
            UsageOf(data, sessions, key, w)
            == Usage(MaxNetwork(all), MaxDepartment(all),
                     Total(data, key, w, Cpu, true), Total(data, key, w, Memory, true),
                     Total(data, key, w, Gpu, true), Peak(KeyPoints(data, key, w, {Cpu})),
                     Peak(KeyPoints(data, key, w, {Memory})), Total(data, key, w, Cpu, false), |all|,
                     Runtime(HourlyRollup, Of(sessions, key.user, key.hub), key.bucket, key.bucket + HOUR, w))
  {
  }

  /** A row is the same from a later window start exactly when every series of
      its user and hub is untouched there. */
  lemma UsageIgnoresLaterStartExactly(data: seq<Series>, sessions: seq<Session>, key: Key, w: Window, later: int)
    requires Recorded(data) && Aligned(w) && key.bucket % HOUR == 0 && w.from <= later <= key.bucket
    ensures UsageOf(data, sessions, key, w) == UsageOf(data, sessions, key, Window(later, w.to))
            <==> forall s | s in data && Owns(s, key) :: Untouched(s, w, later, key.bucket)
  {
    RowFromTotals(data, sessions, key, w, later);
    if key.bucket + HOUR <= w.to {
      TotalIgnoresLaterStartExactly(data, key, w, later, Cpu, true);
      TotalIgnoresLaterStartExactly(data, key, w, later, Memory, true);
      TotalIgnoresLaterStartExactly(data, key, w, later, Gpu, true);
      TotalIgnoresLaterStartExactly(data, key, w, later, Cpu, false);
      ColumnsDecide(data, key, w, later);
    } else {
      RowAtTheEnd(data, key, w, later);
    }
  }

  /** Untouched is harmless in every column the series feeds. */
  lemma ColumnsDecide(data: seq<Series>, key: Key, w: Window, later: int)
    ensures (forall s | s in data && Owns(s, key) :: Untouched(s, w, later, key.bucket))
            <==> && AllHarmless(data, key, w, later, Cpu, true) && AllHarmless(data, key, w, later, Memory, true)
                 && AllHarmless(data, key, w, later, Gpu, true) && AllHarmless(data, key, w, later, Cpu, false)
  {
  }

  lemma RowAtTheEnd(data: seq<Series>, key: Key, w: Window, later: int)
    requires Recorded(data) && Aligned(w) && w.to < key.bucket + HOUR
    ensures forall s | s in data :: Untouched(s, w, later, key.bucket)
    ensures forall family, weighted ::
              Total(data, key, w, family, weighted) == Total(data, key, Window(later, w.to), family, weighted)
  {
    forall s | s in data
      ensures !LoneSample(s.points, w, later, key.bucket)
    {
      if LoneSample(s.points, w, later, key.bucket) {
        LoneIsInside(s.points, w, later, key.bucket);
      }
    }
    forall family, weighted
      ensures Total(data, key, w, family, weighted) == Total(data, key, Window(later, w.to), family, weighted)
    {
      NothingOutside(data, key, w, family, weighted, {});
      NothingOutside(data, key, Window(later, w.to), family, weighted, {});
    }
  }

  lemma {:induction false} HoursAre(from: int, last: int, b: int)
    requires from % HOUR == 0
    ensures b in Hours(from, last) <==> from <= b <= last && b % HOUR == 0
    decreases last - from
  {
    if from <= last {
      HoursAre(from + HOUR, last, b);
    }
  }

  predicate Sampled(data: seq<Series>, w: Window, key: Key) {
    exists s | s in data :: Owns(s, key) && exists p | p in s.points ::
        w.from <= p.at < w.to && Trunc(p.at) == key.bucket
  }

  predicate Ran(sessions: seq<Session>, w: Window, key: Key) {
    && w.from <= key.bucket <= w.to && key.bucket % HOUR == 0 && key.user != ""
    && exists s | s in sessions :: s.user == key.user && s.hub == key.hub && Joined(s, key.bucket, key.bucket + HOUR, w)
  }

  lemma SampleKeysAre(data: seq<Series>, w: Window, key: Key)
    ensures key in SampleKeys(data, w) <==> Sampled(data, w, key)
  {
    if Sampled(data, w, key) {
      var s :| s in data && Owns(s, key) && exists p | p in s.points ::
          w.from <= p.at < w.to && Trunc(p.at) == key.bucket;
      var p :| p in s.points && w.from <= p.at < w.to && Trunc(p.at) == key.bucket;
      assert key == Key(Trunc(p.at), s.user, s.hub);
    }
  }

  lemma SessionKeysAre(sessions: seq<Session>, w: Window, key: Key)
    requires Aligned(w)
    ensures key in SessionKeys(sessions, w) <==> Ran(sessions, w, key)
  {
    assert Trunc(w.from) == w.from && Trunc(w.to) == w.to;
    HoursAre(w.from, w.to, key.bucket);
    if Ran(sessions, w, key) {
      var s :| s in sessions && s.user == key.user && s.hub == key.hub && Joined(s, key.bucket, key.bucket + HOUR, w);
      assert key == Key(key.bucket, s.user, s.hub);
    }
  }

  /** The rollup writes a row for every hour a user was sampled or ran in. */
  lemma DerivedKeysAre(data: seq<Series>, sessions: seq<Session>, w: Window, key: Key)
    requires Aligned(w)
    ensures key in Derived(data, sessions, w) <==> Sampled(data, w, key) || Ran(sessions, w, key)
    ensures key in Derived(data, sessions, w) ==> key.bucket % HOUR == 0 && w.from <= key.bucket <= w.to
    ensures key in Derived(data, sessions, w) ==> Derived(data, sessions, w)[key] == UsageOf(data, sessions, key, w)
    ensures Sampled(data, w, key) ==> key.bucket < w.to
  {
    DerivedLookup(data, sessions, w, key);
    SampleKeysAre(data, w, key);
    SessionKeysAre(sessions, w, key);
    SampledBucket(data, w, key);
  }

  lemma DerivedLookup(data: seq<Series>, sessions: seq<Session>, w: Window, key: Key)
    ensures key in Derived(data, sessions, w) <==> key in SampleKeys(data, w) || key in SessionKeys(sessions, w)
    ensures key in Derived(data, sessions, w) ==> Derived(data, sessions, w)[key] == UsageOf(data, sessions, key, w)
  {
    var keys := SampleKeys(data, w) + SessionKeys(sessions, w);
  }

  lemma SampledBucket(data: seq<Series>, w: Window, key: Key)
    requires Aligned(w)
    ensures Sampled(data, w, key) ==> key.bucket % HOUR == 0 && w.from <= key.bucket < w.to
  {
    if Sampled(data, w, key) {
      var s :| s in data && Owns(s, key) && exists p | p in s.points ::
          w.from <= p.at < w.to && Trunc(p.at) == key.bucket;
      var p :| p in s.points && w.from <= p.at < w.to && Trunc(p.at) == key.bucket;
    }
  }

  lemma KeysShrink(data: seq<Series>, sessions: seq<Session>, w: Window, later: int, key: Key)
    requires Aligned(w) && later % HOUR == 0 && w.from <= later <= w.to
    requires Sampled(data, Window(later, w.to), key) || Ran(sessions, Window(later, w.to), key)
    ensures Sampled(data, w, key) || Ran(sessions, w, key)
  {
    var w2 := Window(later, w.to);
    if Ran(sessions, w2, key) {
      var s :| s in sessions && s.user == key.user && s.hub == key.hub && Joined(s, key.bucket, key.bucket + HOUR, w2);
      PieceIgnoresEarlierStart(s, key.bucket, w, later);
    }
  }

  lemma StartIsAligned(watermark: int, through: int)
    requires through % HOUR == 0 && watermark <= through
    ensures StartOf(watermark, through) % HOUR == 0
    ensures StartOf(watermark, through) <= StartOf(through, through) == through - LATE_WINDOW
  {
  }

  /** Writing a row again is seen exactly when the row has changed. */
  lemma MergeDetects(table: map<Key, Usage>, rows: map<Key, Usage>, key: Key, again: Usage)
    requires key in rows && again.network == rows[key].network && again.department == rows[key].department
    ensures var once := Upsert(table, rows);
            && key in once
            && (Merge(once[key], again) == once[key] <==> again == rows[key])
  {
  }

  /** A second write of some of the keys changes nothing exactly when it brings
      the rows of the first. */
  lemma UpsertAgainExactly(table: map<Key, Usage>, rows: map<Key, Usage>, again: map<Key, Usage>)
    requires again.Keys <= rows.Keys
    requires forall key | key in again ::
               again[key].network == rows[key].network && again[key].department == rows[key].department
    ensures Upsert(Upsert(table, rows), again) == Upsert(table, rows)
            <==> forall key | key in again :: again[key] == rows[key]
  {
    var once := Upsert(table, rows);
    forall key | key in again
      ensures key in once && (Merge(once[key], again[key]) == once[key] <==> again[key] == rows[key])
    {
      MergeDetects(table, rows, key, again[key]);
    }
    if Upsert(once, again) == once {
      forall key | key in again
        ensures again[key] == rows[key]
      {
        assert Upsert(once, again)[key] == Merge(once[key], again[key]);
      }
    } else if forall key | key in again :: again[key] == rows[key] {
      UpsertAgain(table, rows, again);
      assert false;
    }
  }

  ghost predicate AllUntouched(data: seq<Series>, w: Window, later: int) {
    forall s, bucket | s in data && Counted(s) :: Untouched(s, w, later, bucket)
  }

  /** A lone sample puts its own row into the second run. */
  lemma LoneIsSampled(data: seq<Series>, s: Series, w: Window, later: int, bucket: int)
    requires s in data && Counted(s) && Sorted(s.points) && Aligned(w) && LoneSample(s.points, w, later, bucket)
    ensures Sampled(data, Window(later, w.to), Key(bucket, s.user, s.hub))
  {
    LoneIsInside(s.points, w, later, bucket);
    assert s.points[Before(s.points, later)] in s.points;
    assert Owns(s, Key(bucket, s.user, s.hub));
  }

  lemma RowsAgreeExactly(data: seq<Series>, sessions: seq<Session>, w: Window, later: int)
    requires Recorded(data) && Aligned(w) && later % HOUR == 0 && w.from <= later <= w.to
    ensures var rows, again := Derived(data, sessions, w), Derived(data, sessions, Window(later, w.to));
            && again.Keys <= rows.Keys
            && (forall key | key in again :: again[key].network == rows[key].network
                                            && again[key].department == rows[key].department)
            && ((forall key | key in again :: again[key] == rows[key]) <==> AllUntouched(data, w, later))
  {
    var w2 := Window(later, w.to);
    var rows, again := Derived(data, sessions, w), Derived(data, sessions, w2);
    forall key | key in again
      ensures key in rows && again[key].network == rows[key].network && again[key].department == rows[key].department
      ensures again[key] == rows[key] <==> forall s | s in data && Owns(s, key) :: Untouched(s, w, later, key.bucket)
    {
      DerivedKeysAre(data, sessions, w2, key);
      KeysShrink(data, sessions, w, later, key);
      DerivedKeysAre(data, sessions, w, key);
      RowFromTotals(data, sessions, key, w, later);
      UsageIgnoresLaterStartExactly(data, sessions, key, w, later);
    }
    forall s, bucket | s in data && Counted(s) && !Untouched(s, w, later, bucket)
      ensures exists key | key in again :: again[key] != rows[key]
    {
      var key := Key(bucket, s.user, s.hub);
      LoneIsSampled(data, s, w, later, bucket);
      DerivedKeysAre(data, sessions, w2, key);
      assert Owns(s, key);
    }
  }

  /** Running the rollup again over unchanged tables changes nothing exactly when
      the first run did nothing either, or the second run's later start leaves no
      counted series a lone sample, but for one of value zero outside the CPU family. */
  lemma RerunChangesNothingExactly(s: State, now: int, data: seq<Series>, sessions: seq<Session>)
    requires Recorded(data) && s.watermark <= Trunc(now)
    ensures var through := Trunc(now);
            var start := StartOf(s.watermark, through);
            RollUp(RollUp(s, now, data, sessions), now, data, sessions) == RollUp(s, now, data, sessions)
            <==> start >= through || AllUntouched(data, Window(start, through), through - LATE_WINDOW)
  {
    var through := Trunc(now);
    var start := StartOf(s.watermark, through);
    if start < through {
      RerunIsAnUpsert(s, now, data, sessions);
      StartIsAligned(s.watermark, through);
      SecondUpsertExactly(s.hourly, data, sessions, Window(start, through), through - LATE_WINDOW);
    }
  }

  lemma SecondUpsertExactly(table: map<Key, Usage>, data: seq<Series>, sessions: seq<Session>, w: Window, later: int)
    requires Recorded(data) && Aligned(w) && later % HOUR == 0 && w.from <= later <= w.to
    ensures var once := Upsert(table, Derived(data, sessions, w));
            Upsert(once, Derived(data, sessions, Window(later, w.to))) == once <==> AllUntouched(data, w, later)
  {
    RowsAgreeExactly(data, sessions, w, later);
    UpsertAgainExactly(table, Derived(data, sessions, w), Derived(data, sessions, Window(later, w.to)));
  }

  lemma RerunIsAnUpsert(s: State, now: int, data: seq<Series>, sessions: seq<Session>)
    requires StartOf(s.watermark, Trunc(now)) < Trunc(now)
    ensures var through := Trunc(now);
            var once := Upsert(s.hourly, Derived(data, sessions, Window(StartOf(s.watermark, through), through)));
            RollUp(RollUp(s, now, data, sessions), now, data, sessions) == RollUp(s, now, data, sessions)
            <==> Upsert(once, Derived(data, sessions, Window(through - LATE_WINDOW, through))) == once
  {
    RunTwice(s, now, data, sessions);
  }

  lemma RunTwice(s: State, now: int, data: seq<Series>, sessions: seq<Session>)
    requires StartOf(s.watermark, Trunc(now)) < Trunc(now)
    ensures var through := Trunc(now);
            var once := RollUp(s, now, data, sessions);
            && once == State(Upsert(s.hourly, Derived(data, sessions, Window(StartOf(s.watermark, through), through))),
                             through)
            && RollUp(once, now, data, sessions)
               == State(Upsert(once.hourly, Derived(data, sessions, Window(through - LATE_WINDOW, through))), through)
  {
    StartIsAligned(Trunc(now), Trunc(now));
  }

  function HalfMinuteApart(user: string, metric: string, at: int, value: real): Series {
    Series(user, "", "pod", metric, [Point(at - 30, value, "", ""), Point(at, value, "", "")])
  }

  /** One sample on each side of the second run's start is enough: whatever the
      counted metric, hour and positive value, a rerun in the same hour changes a row. */
  lemma RerunCanChangeARow(hour: int, user: string, metric: string, value: real)
    requires hour % HOUR == 0 && user != "" && value > 0.0
    requires InFamily(metric, Cpu) || InFamily(metric, Memory) || InFamily(metric, Gpu)
    ensures var data := [HalfMinuteApart(user, metric, hour - LATE_WINDOW, value)];
            var once := RollUp(State(map[], hour - HOUR), hour, data, []);
            Recorded(data) && RollUp(once, hour, data, []) != once
  {
    var later := hour - LATE_WINDOW;
    var series := HalfMinuteApart(user, metric, later, value);
    var s := State(map[], hour - HOUR);
    var w := Window(StartOf(s.watermark, hour), hour);
    assert Trunc(hour) == hour && w.from == hour - 4 * HOUR;
    assert series in [series] && Counted(series);
    LoneSampleExists(w, later, series.points[0], series.points[1]);
    assert series.points == [series.points[0], series.points[1]];
    BeforeSplits(series.points, later);
    assert Before(series.points, later) == 1;
    assert !Untouched(series, w, later, later);
    RerunChangesNothingExactly(s, hour, [series], []);
  }

  // ---------- the in-progress hour ----------

  const NO_USAGE: Usage := Usage("", "", 0.0, 0.0, 0.0, 0.0, 0.0, 0.0, 0, 0)

  lemma {:induction false} NoRuntimeAtTheEnd(sessions: seq<Session>, w: Window)
    ensures Runtime(HourlyRollup, sessions, w.to, w.to + HOUR, w) == 0
    decreases |sessions|
  {
    if sessions != [] {
      NoRuntimeAtTheEnd(sessions[..|sessions| - 1], w);
    }
  }

  /** The hour still in progress gets a row exactly when a session that ran into
      it has ended since, and that row is all zero. */
  lemma InProgressHourExactly(data: seq<Series>, sessions: seq<Session>, w: Window, user: string, hub: string)
    requires Aligned(w)
    ensures Key(w.to, user, hub) in Derived(data, sessions, w)
            <==> user != "" && exists s | s in sessions ::
                s.user == user && s.hub == hub && s.startedAt < w.to && s.endedAt.Some? && s.endedAt.value > w.to
    ensures UsageOf(data, sessions, Key(w.to, user, hub), w) == NO_USAGE
  {
    var key := Key(w.to, user, hub);
    DerivedKeysAre(data, sessions, w, key);
    forall s | s in sessions
      ensures Joined(s, w.to, w.to + HOUR, w) <==> s.startedAt < w.to && s.endedAt.Some? && s.endedAt.value > w.to
    {
      JoinedAtTheEndExactly(s, w);
    }
    EmptyAtTheEnd(data, sessions, w, user, hub);
  }

  lemma EmptyAtTheEnd(data: seq<Series>, sessions: seq<Session>, w: Window, user: string, hub: string)
    requires Aligned(w)
    ensures UsageOf(data, sessions, Key(w.to, user, hub), w) == NO_USAGE
  {
    var key := Key(w.to, user, hub);
    RowOfTotals(data, sessions, key, w);
    NothingOutside(data, key, w, Cpu, true, {Cpu, Memory, Gpu});
    NothingOutside(data, key, w, Cpu, false, {Cpu});
    NothingOutside(data, key, w, Memory, true, {Memory});
    NothingOutside(data, key, w, Gpu, true, {});
    NoRuntimeAtTheEnd(Of(sessions, user, hub), w);
  }

  // ---------- the watermark over any run ----------

  datatype Tick = Tick(now: int, data: seq<Series>, sessions: seq<Session>)

  function Run(s: State, ticks: seq<Tick>): State
    decreases |ticks|
  {
    if ticks == [] then s
    else
      var last := ticks[|ticks| - 1];
      RollUp(Run(s, ticks[..|ticks| - 1]), last.now, last.data, last.sessions)
  }

  ghost predicate ClockForward(s: State, ticks: seq<Tick>) {
    && (ticks != [] ==> s.watermark <= ticks[0].now)
    && forall i, j :: 0 <= i < j < |ticks| ==> ticks[i].now <= ticks[j].now
  }

  lemma RunMovesTo(s: State, tick: Tick)
    ensures var after := RollUp(s, tick.now, tick.data, tick.sessions).watermark;
            after == s.watermark || after == Trunc(tick.now)
  {
  }

  lemma HourBegun(watermark: int, now: int)
    requires watermark % HOUR == 0 && watermark <= now
    ensures watermark <= Trunc(now)
  {
  }

  /** With a clock that never goes back the watermark never does, and never
      passes the hour begun. */
  lemma {:induction false} WatermarkAdvances(s: State, ticks: seq<Tick>)
    requires ClockForward(s, ticks) && s.watermark % HOUR == 0
    ensures s.watermark <= Run(s, ticks).watermark && Run(s, ticks).watermark % HOUR == 0
    ensures ticks != [] ==> Run(s, ticks).watermark <= Trunc(ticks[|ticks| - 1].now)
    decreases |ticks|
  {
    if ticks != [] {
      var front, last := ticks[..|ticks| - 1], ticks[|ticks| - 1];
      WatermarkAdvances(s, front);
      var before := Run(s, front);
      if front != [] {
        assert front[|front| - 1].now <= last.now;
      }
      HourBegun(before.watermark, last.now);
      RunMovesTo(before, last);
    }
  }

  /** A run starts at or before the watermark, leaving no hour out, exactly when
      the watermark is within the backfill limit. */
  lemma StartReachesBackExactly(watermark: int, through: int)
    requires through % HOUR == 0
    ensures StartOf(watermark, through) <= watermark <==> through - watermark <= BACKFILL_LIMIT
    ensures through - watermark > BACKFILL_LIMIT ==> StartOf(watermark, through) == through - BACKFILL_LIMIT
  {
  }

  /** The tick derives every row of the hour. */
  predicate Derives(s: State, tick: Tick, hour: int) {
    StartOf(s.watermark, Trunc(tick.now)) <= hour < Trunc(tick.now)
  }

  /** No run comes more than the backfill limit after the one before it. */
  ghost predicate CloseEnough(s: State, ticks: seq<Tick>) {
    forall k | 0 <= k < |ticks| :: Trunc(ticks[k].now) - Run(s, ticks[..k]).watermark <= BACKFILL_LIMIT
  }

  lemma FrontCloseEnough(s: State, ticks: seq<Tick>)
    requires ticks != [] && CloseEnough(s, ticks)
    ensures var front, last := ticks[..|ticks| - 1], ticks[|ticks| - 1];
            CloseEnough(s, front) && Trunc(last.now) - Run(s, front).watermark <= BACKFILL_LIMIT
  {
    var front := ticks[..|ticks| - 1];
    forall k | 0 <= k < |front|
      ensures Trunc(front[k].now) - Run(s, front[..k]).watermark <= BACKFILL_LIMIT
    {
      assert front[..k] == ticks[..k] && front[k] == ticks[k];
    }
  }

  lemma LastRunDerives(s: State, tick: Tick, hour: int)
    requires Trunc(tick.now) - s.watermark <= BACKFILL_LIMIT
    requires s.watermark <= hour < RollUp(s, tick.now, tick.data, tick.sessions).watermark
    ensures Derives(s, tick, hour)
  {
    StartReachesBackExactly(s.watermark, Trunc(tick.now));
  }

  /** Every hour the watermark passes was derived by some run, if no two runs
      are further apart than the backfill limit. */
  lemma {:induction false} EveryHourIsDerived(s: State, ticks: seq<Tick>, hour: int) returns (i: nat)
    requires CloseEnough(s, ticks) && s.watermark <= hour < Run(s, ticks).watermark
    ensures i < |ticks| && Derives(Run(s, ticks[..i]), ticks[i], hour)
    decreases |ticks|
  {
    var front := ticks[..|ticks| - 1];
    FrontCloseEnough(s, ticks);
    if hour < Run(s, front).watermark {
      i := EveryHourIsDerived(s, front, hour);
      assert front[..i] == ticks[..i];
    } else {
      i := |ticks| - 1;
      LastRunDerives(Run(s, front), ticks[i], hour);
    }
  }

  // ---------- the transaction's code ----------

  class RollupTables {
    var hourly: map<Key, Usage>
    var watermark: int

    function View(): State
      reads this
    {
      State(hourly, watermark)
    }

    constructor ()
      ensures View() == State(map[], 0)
    {
      hourly, watermark := map[], 0;
    }

    method UpsertRows(rows: map<Key, Usage>)
      modifies this`hourly
      ensures hourly == Upsert(old(hourly), rows)
    {
      var before, rest := hourly, rows.Keys;
      while rest != {}
        invariant rest <= rows.Keys
        invariant hourly.Keys == before.Keys + (rows.Keys - rest)
        invariant forall key | key in hourly ::
            hourly[key] == if key in rows && key !in rest
                then (if key in before then Merge(before[key], rows[key]) else rows[key]) else before[key]
        decreases rest
      {
        var key :| key in rest;
        rest := rest - {key};
        hourly := hourly[key := if key in hourly then Merge(hourly[key], rows[key]) else rows[key]];
      }
    }

    method WindowStart(through: int) returns (start: int)
      ensures start == StartOf(watermark, through)
    {
      start := watermark - LATE_WINDOW;
      var earliest := through - BACKFILL_LIMIT;
      if start < earliest {
        start := earliest;
      }
      start := Trunc(start);
    }

    method RollUpResourceUsage(now: int, data: seq<Series>, sessions: seq<Session>) returns (through: int)
      modifies this
      ensures View() == RollUp(old(View()), now, data, sessions)
      ensures through == watermark
    {
      through := Trunc(now);
      var start := WindowStart(through);
      if start >= through {
        return watermark;
      }
      UpsertRows(Derived(data, sessions, Window(start, through)));
      watermark := through;
    }
  }
}
