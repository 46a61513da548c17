/** LLM usage samples: Prometheus series that share jupiq's dimensions are merged
    per minute, then written with an upsert. Values are exact. */
module LlmMetrics {
  import opened Text

  const MINUTE: int := 60
  const BIGINT_END: real := 9223372036854775808.0

  // ---------- points ----------

  /** resolved: the pod matched the pattern and exactly one server. hub and
      network are that server's. */
  datatype Point = Point(resolved: bool, value: real, at: int, username: string, pod: string,
                         hub: string, network: string, model: string, status: string, path: string, route: string)

  datatype Count = Calls | InputTokens | OutputTokens | TotalTokens | Bytes
  datatype Kind = Counter(count: Count) | P50 | P95 | Cost | Unsupported

  function KindOf(metric: string): Kind {
    if metric in {"calls", "request_count", "requests"} then Counter(Calls)
    else if metric == "input_tokens" then Counter(InputTokens)
    else if metric == "output_tokens" then Counter(OutputTokens)
    else if metric == "total_tokens" then Counter(TotalTokens)
    else if metric == "bytes" then Counter(Bytes)
    else if metric in {"latency_p50_ms", "p50_latency_ms"} then P50
    else if metric in {"latency_p95_ms", "p95_latency_ms"} then P95
    else if metric in {"estimated_cost", "estimated_cost_input_tokens", "estimated_cost_output_tokens"} then Cost
    else Unsupported
  }

  predicate FiniteNonNegative(value: real) {
    0.0 <= value < BIGINT_END
  }

  datatype Batch = Batch(kind: Kind, pathMatcher: string)

  predicate Accepted(b: Batch, p: Point) {
    && FiniteNonNegative(p.value) && p.resolved
    && (b.pathMatcher != "" ==> (if p.path == "" then p.route else p.path) == b.pathMatcher)
    && b.kind != Unsupported
  }

  /** The text that is hashed: NUL between the parts. */
  function Join(parts: seq<string>): string {
    if parts == [] then "" else if |parts| == 1 then parts[0] else parts[0] + ['\U{0}'] + Join(parts[1..])
  }

  function Dimensions(p: Point): seq<string> {
    [p.username, p.pod, TrimSpace(p.hub), TrimSpace(p.network), TrimSpace(p.model), TrimSpace(p.status),
     TrimSpace(p.path), TrimSpace(p.route)]
  }

  datatype Key = Key(window: int, fingerprint: string)

  function KeyOf(p: Point): Key {
    Key(p.at - p.at % MINUTE, Join(Dimensions(p)))
  }

  predicate NoNul(s: string) {
    '\U{0}' !in s
  }

  lemma HeadOfJoin(a: string, b: string, x: string, y: string)
    requires NoNul(a) && NoNul(b) && a + ['\U{0}'] + x == b + ['\U{0}'] + y
    ensures a == b && x == y
  {
    var s, t := a + ['\U{0}'] + x, b + ['\U{0}'] + y;
    assert s[|a|] == '\U{0}' && t[|b|] == '\U{0}';
    assert forall i | 0 <= i < |a| :: s[i] == a[i] && a[i] in a;
    assert forall i | 0 <= i < |b| :: t[i] == b[i] && b[i] in b;
    assert |a| == |b|;
    assert a == s[..|a|] && b == t[..|b|];
    assert x == s[|a| + 1..] && y == t[|b| + 1..];
  }

  /** Without NUL in the parts equal fingerprints mean equal parts. */
  lemma {:induction false} JoinIsInjective(a: seq<string>, b: seq<string>)
    requires |a| == |b| && (forall s | s in a :: NoNul(s)) && (forall s | s in b :: NoNul(s))
    requires Join(a) == Join(b)
    ensures a == b
    decreases |a|
  {
    if |a| >= 2 {
      assert a[0] in a && b[0] in b;
      HeadOfJoin(a[0], b[0], Join(a[1..]), Join(b[1..]));
      JoinIsInjective(a[1..], b[1..]);
      assert a == [a[0]] + a[1..] && b == [b[0]] + b[1..];
    } else if |a| == 1 {
      assert a == [a[0]] && b == [b[0]];
    }
  }

  // ---------- merging ----------

  datatype Sample = Sample(first: Point, counter: Option<real>, p50: Option<real>, p95: Option<real>,
                           cost: Option<real>, at: int)

  function Candidate(b: Batch, p: Point): Sample {
    Sample(p,
           if b.kind.Counter? then Some(p.value) else None,
           if b.kind == P50 then Some(p.value) else None,
           if b.kind == P95 then Some(p.value) else None,
           if b.kind == Cost then Some(p.value) else None,
           p.at)
  }

  /** None is the error; the inner option is the absent value. */
  function AddOptional(left: Option<real>, right: Option<real>): Option<Option<real>> {
    if left.None? then Some(right)
    else if right.None? then Some(left)
    else if FiniteNonNegative(left.value + right.value) then Some(Some(left.value + right.value))
    else None
  }

  function MaxOptional(left: Option<real>, right: Option<real>): Option<real> {
    if left.None? || (right.Some? && right.value > left.value) then right else left
  }

  function Merge(current: Sample, candidate: Sample): Option<Sample> {
    var counter := AddOptional(current.counter, candidate.counter);
    var cost := AddOptional(current.cost, candidate.cost);
    if counter.None? || cost.None? then None
    else
      Some(Sample(current.first, counter.value, MaxOptional(current.p50, candidate.p50),
                  MaxOptional(current.p95, candidate.p95),
                  cost.value, if candidate.at > current.at then candidate.at else current.at))
  }

  function Aggregate(b: Batch, points: seq<Point>): Option<map<Key, Sample>>
    decreases |points|
  {
    if points == [] then Some(map[])
    else
      var last := points[|points| - 1];
      match Aggregate(b, points[..|points| - 1])
      case None => None
      case Some(aggregated) =>
        if !Accepted(b, last) then Some(aggregated)
        else if KeyOf(last) !in aggregated then Some(aggregated[KeyOf(last) := Candidate(b, last)])
        else
          match Merge(aggregated[KeyOf(last)], Candidate(b, last))
          case None => None
          case Some(merged) => Some(aggregated[KeyOf(last) := merged])
  }

  // ---------- what a key stands for ----------

  predicate Mine(b: Batch, p: Point, k: Key) {
    Accepted(b, p) && KeyOf(p) == k
  }

  predicate Has(b: Batch, points: seq<Point>, k: Key) {
    exists p | p in points :: Mine(b, p, k)
  }

  function Total(b: Batch, points: seq<Point>, k: Key): real {
    if points == [] then 0.0
    else
      var last := points[|points| - 1];
      Total(b, points[..|points| - 1], k) + if Mine(b, last, k) then last.value else 0.0
  }

  function Peak(b: Batch, points: seq<Point>, k: Key): Option<real> {
    if points == [] then None
    else
      var front, last := Peak(b, points[..|points| - 1], k), points[|points| - 1];
      if Mine(b, last, k) then MaxOptional(front, Some(last.value)) else front
  }

  function Latest(b: Batch, points: seq<Point>, k: Key): Option<int> {
    if points == [] then None
    else
      var front, last := Latest(b, points[..|points| - 1], k), points[|points| - 1];
      if !Mine(b, last, k) then front
      else if front.None? || last.at > front.value then Some(last.at) else front
  }

  function First(b: Batch, points: seq<Point>, k: Key): Option<Point> {
    if points == [] then None
    else
      var front, last := First(b, points[..|points| - 1], k), points[|points| - 1];
      if front.Some? then front else if Mine(b, last, k) then Some(last) else None
  }

  lemma {:induction false} Present(b: Batch, points: seq<Point>, k: Key)
    ensures Has(b, points, k) <==> First(b, points, k).Some?
    ensures Has(b, points, k) <==> Latest(b, points, k).Some?
    ensures Has(b, points, k) <==> Peak(b, points, k).Some?
    ensures !Has(b, points, k) ==> Total(b, points, k) == 0.0
    ensures Total(b, points, k) >= 0.0
    decreases |points|
  {
    if points != [] {
      var front, last := points[..|points| - 1], points[|points| - 1];
      Present(b, front, k);
      assert points == front + [last];
      SnocTotals(b, front, last, k);
      SnocParts(b, front, last, k);
    }
  }

  function Summary(b: Batch, points: seq<Point>, k: Key): Sample
    requires Has(b, points, k)
  {
    Present(b, points, k);
    Totals(b, First(b, points, k).value, Total(b, points, k), Peak(b, points, k).value, Latest(b, points, k).value)
  }

  /** Sums for counters and costs, the maximum for latencies. */
  function Totals(b: Batch, first: Point, total: real, peak: real, at: int): Sample {
    Sample(first,
           if b.kind.Counter? then Some(total) else None,
           if b.kind == P50 then Some(peak) else None,
           if b.kind == P95 then Some(peak) else None,
           if b.kind == Cost then Some(total) else None,
           at)
  }

  predicate Additive(b: Batch) { b.kind.Counter? || b.kind == Cost }

  function Higher(a: real, b: real): real { if b > a then b else a }

  lemma MergeTotals(b: Batch, first: Point, total: real, peak: real, at: int, p: Point)
    requires total >= 0.0 && p.value >= 0.0
    ensures Merge(Totals(b, first, total, peak, at), Candidate(b, p))
            == if Additive(b) && total + p.value >= BIGINT_END then None
               else Some(Totals(b, first, total + p.value, Higher(peak, p.value), if p.at > at then p.at else at))
  {
  }

  /** Every key's sum fits. */
  ghost predicate Fits(b: Batch, points: seq<Point>) {
    Additive(b) ==> forall k :: Total(b, points, k) < BIGINT_END
  }

  ghost predicate Summarised(b: Batch, points: seq<Point>, aggregated: map<Key, Sample>) {
    && (forall k :: k in aggregated <==> Has(b, points, k))
    && forall k | k in aggregated :: aggregated[k] == Summary(b, points, k)
  }

  lemma SnocTotals(b: Batch, front: seq<Point>, last: Point, k: Key)
    ensures var points := front + [last];
            && Total(b, points, k) == Total(b, front, k) + (if Mine(b, last, k) then last.value else 0.0)
            && Total(b, front, k) <= Total(b, points, k)
            && (Has(b, points, k) <==> Has(b, front, k) || Mine(b, last, k))
  {
    var points := front + [last];
    assert points[..|points| - 1] == front;
  }

  lemma SnocParts(b: Batch, front: seq<Point>, last: Point, k: Key)
    ensures var points := front + [last];
            && First(b, points, k) == (if First(b, front, k).Some? then First(b, front, k)
                                       else if Mine(b, last, k) then Some(last) else None)
            && Peak(b, points, k) == (if Mine(b, last, k) then MaxOptional(Peak(b, front, k), Some(last.value))
                                      else Peak(b, front, k))
            && Latest(b, points, k) == if !Mine(b, last, k) then Latest(b, front, k)
                                       else if Latest(b, front, k).None? || last.at > Latest(b, front, k).value
                                            then Some(last.at)
                                       else Latest(b, front, k)
  {
    assert (front + [last])[..|front|] == front;
  }

  lemma SnocOther(b: Batch, front: seq<Point>, last: Point, k: Key)
    requires !Mine(b, last, k) && Has(b, front, k)
    ensures Has(b, front + [last], k) && Summary(b, front + [last], k) == Summary(b, front, k)
  {
    SnocTotals(b, front, last, k);
    SnocParts(b, front, last, k);
  }

  lemma SnocFirst(b: Batch, front: seq<Point>, last: Point, k: Key)
    requires Mine(b, last, k) && !Has(b, front, k)
    ensures Has(b, front + [last], k) && Summary(b, front + [last], k) == Candidate(b, last)
  {
    SnocTotals(b, front, last, k);
    SnocParts(b, front, last, k);
    Present(b, front, k);
  }

  lemma SnocMore(b: Batch, front: seq<Point>, last: Point, k: Key)
    requires Mine(b, last, k) && Has(b, front, k)
    ensures Has(b, front + [last], k)
    ensures Merge(Summary(b, front, k), Candidate(b, last))
            == if Additive(b) && Total(b, front + [last], k) >= BIGINT_END then None
              else Some(Summary(b, front + [last], k))
  {
    SnocTotals(b, front, last, k);
    SnocParts(b, front, last, k);
    Present(b, front, k);
    MergeTotals(b, First(b, front, k).value, Total(b, front, k), Peak(b, front, k).value, Latest(b, front, k).value,
                last);
  }

  /** Aggregation fails exactly when some key's total is out of range; otherwise
      it holds, per key, the sum or the maximum of the accepted points. */
  lemma {:induction false} AggregateSummarises(b: Batch, points: seq<Point>)
    ensures Aggregate(b, points).Some? <==> Fits(b, points)
    ensures Aggregate(b, points).Some? ==> Summarised(b, points, Aggregate(b, points).value)
    decreases |points|
  {
    if points != [] {
      var front, last := points[..|points| - 1], points[|points| - 1];
      assert points == front + [last];
      AggregateSummarises(b, front);
      AggregateStep(b, front, last);
    }
  }

  lemma OthersStay(b: Batch, front: seq<Point>, last: Point, k: Key)
    requires !Mine(b, last, k)
    ensures Total(b, front + [last], k) == Total(b, front, k)
    ensures Has(b, front + [last], k) == Has(b, front, k)
    ensures Has(b, front, k) ==> Summary(b, front + [last], k) == Summary(b, front, k)
  {
    SnocTotals(b, front, last, k);
    if Has(b, front, k) {
      SnocOther(b, front, last, k);
    }
  }

  /** What the last point does to its own key. */
  function Taken(b: Batch, aggregated: map<Key, Sample>, p: Point): Option<Sample> {
    if KeyOf(p) in aggregated then Merge(aggregated[KeyOf(p)], Candidate(b, p)) else Some(Candidate(b, p))
  }

  lemma OwnKey(b: Batch, front: seq<Point>, last: Point, aggregated: map<Key, Sample>)
    requires Accepted(b, last) && Summarised(b, front, aggregated)
    ensures var k, points := KeyOf(last), front + [last];
            && Has(b, points, k)
            && Taken(b, aggregated, last) == if Additive(b) && Total(b, points, k) >= BIGINT_END then None
                 else Some(Summary(b, points, k))
  {
    var k := KeyOf(last);
    SnocTotals(b, front, last, k);
    Present(b, front, k);
    if Has(b, front, k) { SnocMore(b, front, last, k); } else { SnocFirst(b, front, last, k); }
  }

  lemma LastAggregate(b: Batch, front: seq<Point>, last: Point)
    ensures var before := Aggregate(b, front);
            Aggregate(b, front + [last])
            == if before.None? || !Accepted(b, last) then before
               else if Taken(b, before.value, last).None? then None
               else Some(before.value[KeyOf(last) := Taken(b, before.value, last).value])
  {
    assert (front + [last])[..|front|] == front;
  }

  lemma FitsOfFront(b: Batch, front: seq<Point>, last: Point)
    ensures Fits(b, front + [last]) ==> Fits(b, front)
    ensures !Accepted(b, last) && Fits(b, front) ==> Fits(b, front + [last])
    ensures Accepted(b, last) && Fits(b, front) ==>
              (Fits(b, front + [last]) <==> !(Additive(b) && Total(b, front + [last], KeyOf(last)) >= BIGINT_END))
  {
    forall k
      ensures Total(b, front, k) <= Total(b, front + [last], k)
      ensures !Mine(b, last, k) ==> Total(b, front + [last], k) == Total(b, front, k)
    {
      SnocTotals(b, front, last, k);
    }
  }

  lemma AggregateStep(b: Batch, front: seq<Point>, last: Point)
    requires Aggregate(b, front).Some? <==> Fits(b, front)
    requires Aggregate(b, front).Some? ==> Summarised(b, front, Aggregate(b, front).value)
    ensures Aggregate(b, front + [last]).Some? <==> Fits(b, front + [last])
    ensures Aggregate(b, front + [last]).Some? ==> Summarised(b, front + [last], Aggregate(b, front + [last]).value)
  {
    LastAggregate(b, front, last);
    FitsOfFront(b, front, last);
    forall k | !Mine(b, last, k)
      ensures Has(b, front + [last], k) == Has(b, front, k)
      ensures Has(b, front, k) ==> Summary(b, front + [last], k) == Summary(b, front, k)
    {
      OthersStay(b, front, last, k);
    }
    if Accepted(b, last) && Aggregate(b, front).Some? {
      OwnKey(b, front, last, Aggregate(b, front).value);
    }
  }

  // ---------- order ----------

  predicate Reordered(p: seq<Point>, q: seq<Point>) {
    multiset(p) == multiset(q)
  }

  lemma SameMembers(p: seq<Point>, q: seq<Point>, x: Point)
    requires Reordered(p, q)
    ensures x in p <==> x in q
  {
    assert x in p <==> x in multiset(p);
    assert x in q <==> x in multiset(q);
  }

  lemma {:induction false} TotalWithout(b: Batch, q: seq<Point>, i: nat, k: Key)
    requires i < |q|
    ensures Total(b, q, k) == Total(b, q[..i] + q[i + 1..], k) + if Mine(b, q[i], k) then q[i].value else 0.0
    decreases |q|
  {
    var front, last := q[..|q| - 1], q[|q| - 1];
    if i == |q| - 1 {
      assert q[..i] + q[i + 1..] == front;
    } else {
      TotalWithout(b, front, i, k);
      assert q[..i] + q[i + 1..] == front[..i] + front[i + 1..] + [last];
      SnocTotals(b, front[..i] + front[i + 1..], last, k);
    }
  }

  lemma Cut<T>(q: seq<T>, i: nat)
    requires i < |q|
    ensures multiset(q) == multiset(q[..i] + q[i + 1..]) + multiset{q[i]}
  {
    assert q == q[..i] + ([q[i]] + q[i + 1..]);
  }

  lemma RemoveOne<T>(p: seq<T>, q: seq<T>, i: nat)
    requires p != [] && i < |q| && q[i] == p[|p| - 1] && multiset(p) == multiset(q)
    ensures multiset(p[..|p| - 1]) == multiset(q[..i] + q[i + 1..])
  {
    Cut(q, i);
    Cut(p, |p| - 1);
    var front, less, last := p[..|p| - 1], q[..i] + q[i + 1..], q[i];
    assert front + p[|p| - 1 + 1..] == front;
    assert multiset(front) + multiset{last} == multiset(less) + multiset{last};
    assert multiset(front) == multiset(front) + multiset{last} - multiset{last};
  }

  lemma {:induction false} TotalIgnoresOrder(b: Batch, p: seq<Point>, q: seq<Point>, k: Key)
    requires Reordered(p, q)
    ensures Total(b, p, k) == Total(b, q, k)
    decreases |p|
  {
    if p == [] {
      assert |multiset(q)| == 0;
    } else {
      var front, last := p[..|p| - 1], p[|p| - 1];
      assert p == front + [last];
      SameMembers(p, q, last);
      var i :| 0 <= i < |q| && q[i] == last;
      var less := q[..i] + q[i + 1..];
      RemoveOne(p, q, i);
      TotalIgnoresOrder(b, front, less, k);
      TotalWithout(b, q, i, k);
    }
  }

  lemma {:induction false} PeakIsReached(b: Batch, points: seq<Point>, k: Key)
    requires Peak(b, points, k).Some?
    ensures exists p | p in points :: Mine(b, p, k) && p.value == Peak(b, points, k).value
    decreases |points|
  {
    var front, last := points[..|points| - 1], points[|points| - 1];
    if Peak(b, points, k) == Peak(b, front, k) {
      PeakIsReached(b, front, k);
      var p :| p in front && Mine(b, p, k) && p.value == Peak(b, front, k).value;
      assert p in points;
    } else {
      assert last in points;
    }
  }

  lemma {:induction false} PeakIsHighest(b: Batch, points: seq<Point>, k: Key, p: Point)
    requires p in points && Mine(b, p, k)
    ensures Peak(b, points, k).Some? && p.value <= Peak(b, points, k).value
    decreases |points|
  {
    var front, last := points[..|points| - 1], points[|points| - 1];
    assert points == front + [last];
    if p in front {
      PeakIsHighest(b, front, k, p);
    }
  }

  lemma {:induction false} LatestIsReached(b: Batch, points: seq<Point>, k: Key)
    requires Latest(b, points, k).Some?
    ensures exists p | p in points :: Mine(b, p, k) && p.at == Latest(b, points, k).value
    decreases |points|
  {
    var front, last := points[..|points| - 1], points[|points| - 1];
    if Latest(b, points, k) == Latest(b, front, k) {
      LatestIsReached(b, front, k);
      var p :| p in front && Mine(b, p, k) && p.at == Latest(b, front, k).value;
      assert p in points;
    } else {
      assert last in points;
    }
  }

  lemma {:induction false} LatestIsLast(b: Batch, points: seq<Point>, k: Key, p: Point)
    requires p in points && Mine(b, p, k)
    ensures Latest(b, points, k).Some? && p.at <= Latest(b, points, k).value
    decreases |points|
  {
    var front, last := points[..|points| - 1], points[|points| - 1];
    assert points == front + [last];
    if p in front {
      LatestIsLast(b, front, k, p);
    }
  }

  lemma HasIgnoresOrder(b: Batch, p: seq<Point>, q: seq<Point>, k: Key)
    requires Reordered(p, q) && Has(b, p, k)
    ensures Has(b, q, k)
  {
    var x :| x in p && Mine(b, x, k);
    SameMembers(p, q, x);
  }

  lemma PeakAtMost(b: Batch, p: seq<Point>, q: seq<Point>, k: Key)
    requires Reordered(p, q) && Has(b, p, k)
    ensures Peak(b, p, k).Some? && Peak(b, q, k).Some? && Peak(b, p, k).value <= Peak(b, q, k).value
  {
    Present(b, p, k);
    PeakIsReached(b, p, k);
    var x :| x in p && Mine(b, x, k) && x.value == Peak(b, p, k).value;
    SameMembers(p, q, x);
    PeakIsHighest(b, q, k, x);
  }

  lemma LatestAtMost(b: Batch, p: seq<Point>, q: seq<Point>, k: Key)
    requires Reordered(p, q) && Has(b, p, k)
    ensures Latest(b, p, k).Some? && Latest(b, q, k).Some? && Latest(b, p, k).value <= Latest(b, q, k).value
  {
    Present(b, p, k);
    LatestIsReached(b, p, k);
    var x :| x in p && Mine(b, x, k) && x.at == Latest(b, p, k).value;
    SameMembers(p, q, x);
    LatestIsLast(b, q, k, x);
  }

  lemma MaximaIgnoreOrder(b: Batch, p: seq<Point>, q: seq<Point>, k: Key)
    requires Reordered(p, q)
    ensures Has(b, p, k) == Has(b, q, k)
    ensures Peak(b, p, k) == Peak(b, q, k) && Latest(b, p, k) == Latest(b, q, k)
  {
    Present(b, p, k);
    Present(b, q, k);
    if Has(b, p, k) {
      HasIgnoresOrder(b, p, q, k);
      PeakAtMost(b, p, q, k);
      PeakAtMost(b, q, p, k);
      LatestAtMost(b, p, q, k);
      LatestAtMost(b, q, p, k);
    } else if Has(b, q, k) {
      HasIgnoresOrder(b, q, p, k);
    }
  }

  /** Whether a batch is taken, which keys it fills and with which sums, maxima
      and times does not depend on the order of its points. */
  lemma AggregateIgnoresOrder(b: Batch, p: seq<Point>, q: seq<Point>)
    requires Reordered(p, q)
    ensures Aggregate(b, p).Some? == Aggregate(b, q).Some?
    ensures Aggregate(b, p).Some? ==>
              var m, n := Aggregate(b, p).value, Aggregate(b, q).value;
              m.Keys == n.Keys && forall k | k in m :: m[k] == n[k].(first := m[k].first)
  {
    forall k
      ensures Total(b, p, k) == Total(b, q, k) && Has(b, p, k) == Has(b, q, k)
      ensures Peak(b, p, k) == Peak(b, q, k) && Latest(b, p, k) == Latest(b, q, k)
    {
      TotalIgnoresOrder(b, p, q, k);
      MaximaIgnoreOrder(b, p, q, k);
    }
    AggregateSummarises(b, p);
    AggregateSummarises(b, q);
  }

  // ---------- conservation ----------

  function BatchTotal(b: Batch, points: seq<Point>): real {
    if points == [] then 0.0
    else
      var last := points[|points| - 1];
      BatchTotal(b, points[..|points| - 1]) + if Accepted(b, last) then last.value else 0.0
  }

  function KeyTotals(b: Batch, points: seq<Point>, keys: seq<Key>): real {
    if keys == [] then 0.0 else Total(b, points, keys[0]) + KeyTotals(b, points, keys[1..])
  }

  predicate NoRepeats(keys: seq<Key>) {
    forall i, j :: 0 <= i < j < |keys| ==> keys[i] != keys[j]
  }

  lemma {:induction false} OneKeyTakesIt(b: Batch, front: seq<Point>, last: Point, keys: seq<Key>)
    requires NoRepeats(keys)
    ensures KeyTotals(b, front + [last], keys)
            == KeyTotals(b, front, keys) + if Accepted(b, last) && KeyOf(last) in keys then last.value else 0.0
  {
    if keys != [] {
      assert keys == [keys[0]] + keys[1..];
      SnocTotals(b, front, last, keys[0]);
      OneKeyTakesIt(b, front, last, keys[1..]);
    }
  }

  lemma {:induction false} NothingYet(b: Batch, keys: seq<Key>)
    ensures KeyTotals(b, [], keys) == 0.0
  {
    if keys != [] {
      NothingYet(b, keys[1..]);
    }
  }

  /** Over the keys written, each once, the totals add up to the batch's. */
  lemma {:induction false} KeyTotalsAddUp(b: Batch, points: seq<Point>, keys: seq<Key>)
    requires NoRepeats(keys) && forall p | p in points && Accepted(b, p) :: KeyOf(p) in keys
    ensures KeyTotals(b, points, keys) == BatchTotal(b, points)
    decreases |points|
  {
    if points == [] {
      NothingYet(b, keys);
    } else {
      var front, last := points[..|points| - 1], points[|points| - 1];
      assert points == front + [last];
      assert last in points && forall p | p in front :: p in points;
      KeyTotalsAddUp(b, front, keys);
      OneKeyTakesIt(b, front, last, keys);
    }
  }

  // ---------- rows ----------

  datatype Counts = Counts(calls: int, successes: int, errors: int, input: Option<int>, output: Option<int>,
                           total: Option<int>, bytes: Option<int>)

  datatype Row = Row(username: string, pod: string, hub: string, model: string, counts: Counts,
                     p50: Option<real>, p95: Option<real>, cost: Option<real>, at: int, labels: seq<string>)

  const NO_COUNTS: Counts := Counts(0, 0, 0, None, None, None, None)

  /** Halves round up; the value is never negative here. */
  function RoundedCount(value: real): Option<int> {
    if FiniteNonNegative(value) then Some((value + 0.5).Floor) else None
  }

  predicate Succeeded(status: string) {
    "2" <= status || status == "success"
  }

  function FinalizeCounter(kind: Kind, raw: Option<real>, status: string): Option<Counts> {
    if raw.None? || !kind.Counter? then Some(NO_COUNTS)
    else
      match RoundedCount(raw.value)
      case None => None
      case Some(n) =>
        Some(match kind.count
             case Calls =>
               NO_COUNTS.(calls := n,
                          successes := if Succeeded(status) then n else 0,
                          errors := if !Succeeded(status) && status != "" then n else 0)
             case InputTokens => NO_COUNTS.(input := Some(n))
             case OutputTokens => NO_COUNTS.(output := Some(n))
             case TotalTokens => NO_COUNTS.(total := Some(n))
             case Bytes => NO_COUNTS.(bytes := Some(n)))
  }

  function RowOf(kind: Kind, s: Sample): Option<Row> {
    match FinalizeCounter(kind, s.counter, TrimSpace(s.first.status))
    case None => None
    case Some(counts) =>
      Some(Row(s.first.username, s.first.pod, s.first.hub, s.first.model, counts, s.p50, s.p95, s.cost, s.at,
               Dimensions(s.first)))
  }

  lemma FinalizeDecides(kind: Kind, raw: Option<real>, status: string)
    requires raw.Some? ==> FiniteNonNegative(raw.value)
    ensures FinalizeCounter(kind, raw, status).Some?
  {
  }

  /** No merged sample fails at the write. */
  lemma MergedSamplesFinalize(b: Batch, points: seq<Point>, k: Key)
    requires Aggregate(b, points).Some? && k in Aggregate(b, points).value
    ensures RowOf(b.kind, Aggregate(b, points).value[k]).Some?
  {
    AggregateSummarises(b, points);
    Present(b, points, k);
    var s := Aggregate(b, points).value[k];
    assert s == Summary(b, points, k);
    FinalizeDecides(b.kind, s.counter, TrimSpace(s.first.status));
  }

  /** The table, metric by metric. */
  type Table = map<string, map<Key, Row>>

  function RowsFor(table: Table, metric: string): map<Key, Row> {
    if metric in table then table[metric] else map[]
  }

  function Rows(kind: Kind, aggregated: map<Key, Sample>): map<Key, Row> {
    map k | k in aggregated && RowOf(kind, aggregated[k]).Some? :: RowOf(kind, aggregated[k]).value
  }

  /** None is the error: nothing is written. */
  function Save(table: Table, metric: string, pathMatcher: string, points: seq<Point>, enabled: bool): Option<Table> {
    if points == [] || !enabled then Some(table)
    else
      match Aggregate(Batch(KindOf(metric), pathMatcher), points)
      case None => None
      case Some(aggregated) => Some(table[metric := RowsFor(table, metric) + Rows(KindOf(metric), aggregated)])
  }

  /** Saving the same batch twice leaves what saving it once leaves. */
  lemma SavingTwiceIsSavingOnce(table: Table, metric: string, pathMatcher: string, points: seq<Point>, enabled: bool)
    requires Save(table, metric, pathMatcher, points, enabled).Some?
    ensures Save(Save(table, metric, pathMatcher, points, enabled).value, metric, pathMatcher, points, enabled)
            == Save(table, metric, pathMatcher, points, enabled)
  {
    if points != [] && enabled {
      var rows := Rows(KindOf(metric), Aggregate(Batch(KindOf(metric), pathMatcher), points).value);
      var merged := RowsFor(table, metric) + rows;
      var once := table[metric := merged];
      assert Save(table, metric, pathMatcher, points, enabled) == Some(once);
      assert merged + rows == merged;
      assert once[metric := merged] == once;
    }
  }

  // ---------- the two columns taken from the first point ----------

  ghost predicate CleanLabels(points: seq<Point>) {
    forall p, s | p in points && s in Dimensions(p) :: NoNul(s)
  }

  lemma {:induction false} FirstIsMine(b: Batch, points: seq<Point>, k: Key)
    requires Has(b, points, k)
    ensures First(b, points, k).Some? && First(b, points, k).value in points && Mine(b, First(b, points, k).value, k)
    decreases |points|
  {
    var front, last := points[..|points| - 1], points[|points| - 1];
    assert points == front + [last];
    Present(b, points, k);
    Present(b, front, k);
    if Has(b, front, k) {
      FirstIsMine(b, front, k);
    }
  }

  lemma SameKeySameDimensions(p: Point, q: Point)
    requires KeyOf(p) == KeyOf(q)
    requires (forall s | s in Dimensions(p) :: NoNul(s)) && (forall s | s in Dimensions(q) :: NoNul(s))
    ensures Dimensions(p) == Dimensions(q)
    ensures p.username == q.username && p.pod == q.pod && TrimSpace(p.status) == TrimSpace(q.status)
  {
    JoinIsInjective(Dimensions(p), Dimensions(q));
    assert Dimensions(p)[0] == Dimensions(q)[0] && Dimensions(p)[1] == Dimensions(q)[1]
        && Dimensions(p)[5] == Dimensions(q)[5];
  }

  lemma RowFromFirst(kind: Kind, s: Sample, t: Sample)
    requires t == s.(first := t.first) && Dimensions(s.first) == Dimensions(t.first)
    requires s.first.username == t.first.username && s.first.pod == t.first.pod
            && TrimSpace(s.first.status) == TrimSpace(t.first.status)
    ensures RowOf(kind, s).Some? == RowOf(kind, t).Some?
    ensures RowOf(kind, s).Some? ==>
              RowOf(kind, t).value.(hub := s.first.hub, model := s.first.model) == RowOf(kind, s).value
  {
  }

  /** Reordering a batch can change a row only in its hub and model columns. */
  lemma RowsDifferOnlyInNames(b: Batch, p: seq<Point>, q: seq<Point>, k: Key)
    requires Reordered(p, q) && Has(b, p, k) && CleanLabels(p)
    ensures Has(b, q, k)
    ensures RowOf(b.kind, Summary(b, p, k)).Some? == RowOf(b.kind, Summary(b, q, k)).Some?
    ensures RowOf(b.kind, Summary(b, p, k)).Some? ==>
              var r := RowOf(b.kind, Summary(b, p, k)).value;
              RowOf(b.kind, Summary(b, q, k)).value.(hub := r.hub, model := r.model) == r
  {
    TotalIgnoresOrder(b, p, q, k);
    MaximaIgnoreOrder(b, p, q, k);
    FirstIsMine(b, p, k);
    FirstIsMine(b, q, k);
    SameMembers(p, q, First(b, q, k).value);
    SameKeySameDimensions(First(b, p, k).value, First(b, q, k).value);
    RowFromFirst(b.kind, Summary(b, p, k), Summary(b, q, k));
  }

  function Names(p: Point): (string, string) { (p.hub, p.model) }

  ghost predicate OneSpelling(b: Batch, points: seq<Point>, k: Key) {
    forall p, q | p in points && q in points && Mine(b, p, k) && Mine(b, q, k) :: Names(p) == Names(q)
  }

  lemma {:induction false} FirstOfFront(b: Batch, p: Point, rest: seq<Point>, k: Key)
    requires Mine(b, p, k)
    ensures First(b, [p] + rest, k) == Some(p)
    decreases |rest|
  {
    var points := [p] + rest;
    if rest == [] {
      assert points[..|points| - 1] == [];
    } else {
      assert points[..|points| - 1] == [p] + rest[..|rest| - 1];
      FirstOfFront(b, p, rest[..|rest| - 1], k);
    }
  }

  /** The columns as the key's row gets them. */
  function NamesOf(b: Batch, points: seq<Point>, k: Key): Option<(string, string)> {
    if First(b, points, k).Some? then Some(Names(First(b, points, k).value)) else None
  }

  lemma OneSpellingSettles(b: Batch, points: seq<Point>, q: seq<Point>, k: Key)
    requires Has(b, points, k) && Reordered(points, q) && OneSpelling(b, points, k)
    ensures NamesOf(b, q, k) == NamesOf(b, points, k)
  {
    FirstIsMine(b, points, k);
    HasIgnoresOrder(b, points, q, k);
    FirstIsMine(b, q, k);
    SameMembers(points, q, First(b, q, k).value);
  }

  lemma TwoSpellingsShow(b: Batch, points: seq<Point>, k: Key) returns (q: seq<Point>)
    requires Has(b, points, k) && !OneSpelling(b, points, k)
    ensures Reordered(points, q) && NamesOf(b, q, k) != NamesOf(b, points, k)
  {
    FirstIsMine(b, points, k);
    var f := First(b, points, k).value;
    var x :| x in points && Mine(b, x, k) && Names(x) != Names(f);
    var i :| 0 <= i < |points| && points[i] == x;
    var rest := points[..i] + points[i + 1..];
    Cut(points, i);
    q := [x] + rest;
    FirstOfFront(b, x, rest, k);
  }

  /** Those two columns are the same for every order exactly when the key's
      points spell them alike, blanks included. */
  lemma NamesIgnoreOrderExactly(b: Batch, points: seq<Point>, k: Key)
    requires Has(b, points, k)
    ensures (forall q | Reordered(points, q) :: NamesOf(b, q, k) == NamesOf(b, points, k))
            <==> OneSpelling(b, points, k)
  {
    if OneSpelling(b, points, k) {
      forall q | Reordered(points, q)
        ensures NamesOf(b, q, k) == NamesOf(b, points, k)
      {
        OneSpellingSettles(b, points, q, k);
      }
    } else {
      var q := TwoSpellingsShow(b, points, k);
    }
  }

  // ---------- the loops ----------

  class LlmTable {
    var rows: Table

    constructor ()
      ensures rows == map[]
    {
      rows := map[];
    }

    static method AggregatePoints(b: Batch, points: seq<Point>) returns (aggregated: Option<map<Key, Sample>>)
      ensures aggregated == Aggregate(b, points)
    {
      var samples: map<Key, Sample> := map[];
      for i := 0 to |points|
        invariant Aggregate(b, points[..i]) == Some(samples)
      {
        assert points[..i + 1][..i] == points[..i];
        if !Accepted(b, points[i]) {
          continue;
        }
        var key, candidate := KeyOf(points[i]), Candidate(b, points[i]);
        if key in samples {
          var merged := Merge(samples[key], candidate);
          if merged.None? {
            ErrorsStay(b, points, i + 1);
            return None;
          }
          samples := samples[key := merged.value];
        } else {
          samples := samples[key := candidate];
        }
      }
      assert points[..|points|] == points;
      aggregated := Some(samples);
    }

    static lemma {:induction false} ErrorsStay(b: Batch, points: seq<Point>, i: nat)
      requires i <= |points| && Aggregate(b, points[..i]).None?
      ensures Aggregate(b, points).None?
      decreases |points|
    {
      if i == |points| {
        assert points[..i] == points;
      } else {
        assert points[..|points| - 1][..i] == points[..i];
        ErrorsStay(b, points[..|points| - 1], i);
      }
    }

    method SaveLLMMetricPoints(metric: string, pathMatcher: string, points: seq<Point>, enabled: bool)
        returns (ok: bool)
      modifies this
      ensures ok <==> Save(old(rows), metric, pathMatcher, points, enabled).Some?
      ensures rows == if ok then Save(old(rows), metric, pathMatcher, points, enabled).value else old(rows)
    {
      if |points| == 0 || !enabled {
        return true;
      }
      var b := Batch(KindOf(metric), pathMatcher);
      var aggregated := AggregatePoints(b, points);
      if aggregated.None? {
        return false;
      }
      forall k | k in aggregated.value
        ensures RowOf(b.kind, aggregated.value[k]).Some?
      {
        MergedSamplesFinalize(b, points, k);
      }
      assert Rows(b.kind, aggregated.value).Keys == aggregated.value.Keys;
      var written := WriteRows(RowsFor(rows, metric), b.kind, aggregated.value, Rows(b.kind, aggregated.value));
      rows := rows[metric := written];
      ok := true;
    }

    /** want holds the row of every sample. */
    static ghost predicate Wanted(kind: Kind, aggregated: map<Key, Sample>, want: map<Key, Row>) {
      want.Keys == aggregated.Keys && forall k {:trigger RowOf(kind, aggregated[k])} | k in want ::
          RowOf(kind, aggregated[k]) == Some(want[k])
    }

    static method RowFor(kind: Kind, aggregated: map<Key, Sample>, key: Key, ghost want: map<Key, Row>)
        returns (row: Row)
      requires Wanted(kind, aggregated, want) && key in aggregated
      ensures row == want[key]
    {
      var s := aggregated[key];
      assert RowOf(kind, s) == Some(want[key]);
      var counts := FinalizeCounter(kind, s.counter, TrimSpace(s.first.status));
      row := Row(s.first.username, s.first.pod, s.first.hub, s.first.model, counts.value, s.p50, s.p95, s.cost, s.at,
                 Dimensions(s.first));
    }

    static method WriteRows(table: map<Key, Row>, kind: Kind, aggregated: map<Key, Sample>, ghost want: map<Key, Row>)
        returns (written: map<Key, Row>)
      requires Wanted(kind, aggregated, want)
      ensures written == table + want
    {
      var keys := aggregated.Keys;
      written := table;
      while keys != {}
        invariant keys <= want.Keys
        invariant written.Keys == table.Keys + (want.Keys - keys)
        invariant forall k | k in written :: written[k] == if k in want && k !in keys then want[k] else table[k]
        decreases keys
      {
        var key :| key in keys;
        keys := keys - {key};
        var row := RowFor(kind, aggregated, key, want);
        written := written[key := row];
      }
    }
  }
}
