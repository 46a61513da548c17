/** The rows a saved batch of LLM metrics leaves: which column each metric name
    fills, with what, and which points share a row. */
module LlmRows {
  import opened Text
  import opened LlmMetrics

  // ---------- which points share a row ----------

  predicate Plain(p: Point) {
    forall s | s in Dimensions(p) :: NoNul(s)
  }

  /** Two points share a row exactly when they fall into the same minute and agree
      on user, pod, and, blanks aside, on the labels kept. */
  lemma SameRowExactly(p: Point, q: Point)
    requires Plain(p) && Plain(q)
    ensures KeyOf(p) == KeyOf(q)
            <==> && p.at / 60 == q.at / 60 && p.username == q.username && p.pod == q.pod
                 && TrimSpace(p.hub) == TrimSpace(q.hub) && TrimSpace(p.network) == TrimSpace(q.network)
                 && TrimSpace(p.model) == TrimSpace(q.model) && TrimSpace(p.status) == TrimSpace(q.status)
                 && TrimSpace(p.path) == TrimSpace(q.path) && TrimSpace(p.route) == TrimSpace(q.route)
  {
    var a, b := Dimensions(p), Dimensions(q);
    if Join(a) == Join(b) {
      JoinIsInjective(a, b);
      assert a[0] == b[0] && a[1] == b[1] && a[2] == b[2] && a[3] == b[3];
      assert a[4] == b[4] && a[5] == b[5] && a[6] == b[6] && a[7] == b[7];
    }
    assert p.at - p.at % 60 == q.at - q.at % 60 <==> p.at / 60 == q.at / 60;
  }

  /** With a path to watch, a point counts by its path, and by its route only when
      it has no path; points of pods that are nobody's, and values that are no
      count or cost, never do. */
  lemma AcceptedExactly(b: Batch, p: Point)
    ensures Accepted(b, p)
            <==> && b.kind != Unsupported && p.resolved && 0.0 <= p.value < 9223372036854775808.0
                 && (b.pathMatcher == "" || p.path == b.pathMatcher || (p.path == "" && p.route == b.pathMatcher))
  {
  }

  /** The point a row takes its names from is the first of its points. */
  lemma {:induction false} FirstIs(b: Batch, points: seq<Point>, k: Key)
    requires Has(b, points, k)
    ensures First(b, points, k).Some?
    ensures exists i :: 0 <= i < |points| && points[i] == First(b, points, k).value && Mine(b, points[i], k)
                        && forall j :: 0 <= j < i ==> !Mine(b, points[j], k)
    decreases |points|
  {
    Present(b, points, k);
    var n := |points| - 1;
    var front := points[..n];
    if Has(b, front, k) {
      FirstIs(b, front, k);
      var i :| 0 <= i < n && front[i] == First(b, front, k).value && Mine(b, front[i], k)
               && forall j :: 0 <= j < i ==> !Mine(b, front[j], k);
      assert points[i] == front[i] && forall j :: 0 <= j < i ==> points[j] == front[j];
    } else {
      Present(b, front, k);
      assert forall j :: 0 <= j < n ==> points[j] in front;
      assert Mine(b, points[n], k);
    }
  }

  // ---------- the columns ----------

  /** n is value to the nearest integer, halves up. */
  predicate Nearest(value: real, n: int) {
    n as real - 0.5 <= value < n as real + 0.5
  }

  predicate IsCalls(metric: string) { metric == "calls" || metric == "request_count" || metric == "requests" }
  predicate IsP50(metric: string) { metric == "latency_p50_ms" || metric == "p50_latency_ms" }
  predicate IsP95(metric: string) { metric == "latency_p95_ms" || metric == "p95_latency_ms" }

  predicate IsCost(metric: string) {
    metric == "estimated_cost" || metric == "estimated_cost_input_tokens" || metric == "estimated_cost_output_tokens"
  }

  predicate Counted(column: Option<int>, mine: bool, total: real) {
    if mine then column.Some? && Nearest(total, column.value) else column.None?
  }

  /** Calls go to the successes when the status is 2xx or "success", to neither
      side when there is none, and to the errors otherwise. */
  predicate CallsSplit(c: Counts, status: string) {
    if status == "success" || (status != "" && status[0] == '2') then c.successes == c.calls && c.errors == 0
    else if status == "" then c.successes == 0 && c.errors == 0
    else c.successes == 0 && c.errors == c.calls
  }

  /** Each metric name fills its own column, sums for counts and costs and the
      maximum for latencies, and leaves all others blank. */
  ghost predicate Columns(metric: string, r: Row, total: real, peak: real, status: string) {
    && (if IsCalls(metric) then Nearest(total, r.counts.calls) else r.counts.calls == 0)
    && CallsSplit(r.counts, status)
    && Counted(r.counts.input, metric == "input_tokens", total)
    && Counted(r.counts.output, metric == "output_tokens", total)
    && Counted(r.counts.total, metric == "total_tokens", total)
    && Counted(r.counts.bytes, metric == "bytes", total)
    && r.p50 == (if IsP50(metric) then Some(peak) else None)
    && r.p95 == (if IsP95(metric) then Some(peak) else None)
    && r.cost == (if IsCost(metric) then Some(total) else None)
  }

  lemma RoundedIsNearest(value: real)
    requires FiniteNonNegative(value)
    ensures RoundedCount(value).Some? && Nearest(value, RoundedCount(value).value)
  {
  }

  lemma KindsAre(metric: string)
    ensures KindOf(metric) == Counter(Calls) <==> IsCalls(metric)
    ensures KindOf(metric) == Counter(InputTokens) <==> metric == "input_tokens"
    ensures KindOf(metric) == Counter(OutputTokens) <==> metric == "output_tokens"
    ensures KindOf(metric) == Counter(TotalTokens) <==> metric == "total_tokens"
    ensures KindOf(metric) == Counter(Bytes) <==> metric == "bytes"
    ensures KindOf(metric) == P50 <==> IsP50(metric)
    ensures KindOf(metric) == P95 <==> IsP95(metric)
    ensures KindOf(metric) == Cost <==> IsCost(metric)
  {
  }

  lemma CountsOf(kind: Kind, raw: Option<real>, status: string)
    requires raw.Some? ==> FiniteNonNegative(raw.value)
    requires raw.Some? <==> kind.Counter?
    ensures var c := FinalizeCounter(kind, raw, status);
            var total := if raw.Some? then raw.value else 0.0;
            && c.Some? && CallsSplit(c.value, status)
            && (if kind == Counter(Calls) then Nearest(total, c.value.calls) else c.value.calls == 0)
            && Counted(c.value.input, kind == Counter(InputTokens), total)
            && Counted(c.value.output, kind == Counter(OutputTokens), total)
            && Counted(c.value.total, kind == Counter(TotalTokens), total)
            && Counted(c.value.bytes, kind == Counter(Bytes), total)
  {
    if raw.Some? {
      RoundedIsNearest(raw.value);
    }
    assert "2" <= status <==> status != "" && status[0] == '2';
  }

  lemma ColumnsOf(metric: string, b: Batch, first: Point, total: real, peak: real, at: int)
    requires b.kind == KindOf(metric) && b.kind != Unsupported && FiniteNonNegative(total)
    ensures var r := RowOf(b.kind, Totals(b, first, total, peak, at));
            && r.Some? && Columns(metric, r.value, total, peak, TrimSpace(first.status))
            && r.value.username == first.username && r.value.pod == first.pod && r.value.hub == first.hub
            && r.value.model == first.model && r.value.labels == Dimensions(first) && r.value.at == at
  {
    KindsAre(metric);
    CountsOf(b.kind, Totals(b, first, total, peak, at).counter, TrimSpace(first.status));
  }

  lemma TotalOfARow(b: Batch, points: seq<Point>, k: Key)
    requires Aggregate(b, points).Some? && Has(b, points, k)
    ensures Additive(b) ==> FiniteNonNegative(Total(b, points, k))
  {
    AggregateSummarises(b, points);
    Present(b, points, k);
  }

  /** What a saved batch leaves in its metric's table: one row per user, pod,
      minute and labels it has points for, filled from them; the rows of other
      keys and of other metrics stay. */
  lemma SavedRowsExactly(table: Table, metric: string, pathMatcher: string, points: seq<Point>, k: Key)
    requires Save(table, metric, pathMatcher, points, true).Some? && points != []
    ensures var t, b := Save(table, metric, pathMatcher, points, true).value, Batch(KindOf(metric), pathMatcher);
            && (forall other | other != metric :: RowsFor(t, other) == RowsFor(table, other))
            && (!Has(b, points, k) ==> (k in RowsFor(t, metric) <==> k in RowsFor(table, metric))
                                       && (k in RowsFor(t, metric) ==>
                                             RowsFor(t, metric)[k] == RowsFor(table, metric)[k]))
            && (Has(b, points, k) ==> k in RowsFor(t, metric) && Written(b, metric, points, k, RowsFor(t, metric)[k]))
  {
    var b := Batch(KindOf(metric), pathMatcher);
    AggregateSummarises(b, points);
    if Has(b, points, k) {
      RowIsWritten(b, metric, points, k);
    }
  }

  /** The sum of a counted or priced row leaves the range of its column. */
  ghost predicate Overflows(b: Batch, points: seq<Point>) {
    (b.kind.Counter? || b.kind == Cost) && exists k :: Total(b, points, k) >= 9223372036854775808.0
  }

  /** A batch is refused exactly when the feature is on and a row overflows; a
      refused batch, and any batch while the feature is off, writes nothing. */
  lemma SaveRefusedExactly(table: Table, metric: string, pathMatcher: string, points: seq<Point>, enabled: bool)
    ensures Save(table, metric, pathMatcher, points, enabled).None?
            <==> enabled && points != [] && Overflows(Batch(KindOf(metric), pathMatcher), points)
    ensures !enabled || points == [] ==> Save(table, metric, pathMatcher, points, enabled) == Some(table)
  {
    var b := Batch(KindOf(metric), pathMatcher);
    AggregateSummarises(b, points);
    assert Fits(b, points) <==> !Overflows(b, points);
  }

  ghost predicate Written(b: Batch, metric: string, points: seq<Point>, k: Key, r: Row) {
    && First(b, points, k).Some? && Peak(b, points, k).Some? && Latest(b, points, k) == Some(r.at)
    && var first := First(b, points, k).value;
       && r.username == first.username && r.pod == first.pod && r.hub == first.hub && r.model == first.model
       && r.labels == Dimensions(first)
       && Columns(metric, r, Total(b, points, k), Peak(b, points, k).value, TrimSpace(first.status))
  }

  lemma RowIsWritten(b: Batch, metric: string, points: seq<Point>, k: Key)
    requires b.kind == KindOf(metric) && Aggregate(b, points).Some? && Has(b, points, k)
    ensures var aggregated := Aggregate(b, points).value;
            && k in aggregated && RowOf(b.kind, aggregated[k]).Some?
            && Written(b, metric, points, k, RowOf(b.kind, aggregated[k]).value)
  {
    AggregateSummarises(b, points);
    Present(b, points, k);
    var first, total := First(b, points, k).value, Total(b, points, k);
    var peak, at := Peak(b, points, k).value, Latest(b, points, k).value;
    assert Aggregate(b, points).value[k] == Totals(b, first, total, peak, at);
    assert b.kind != Unsupported by {
      var p :| p in points && Mine(b, p, k);
    }
    if Additive(b) {
      TotalOfARow(b, points, k);
      ColumnsOf(metric, b, first, total, peak, at);
    } else {
      ColumnsOf(metric, b, first, 0.0, peak, at);
      assert Totals(b, first, total, peak, at) == Totals(b, first, 0.0, peak, at);
    }
  }
}
