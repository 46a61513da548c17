/** The fixed-window request limiter: at most twice its limit in any window's
    length of time. */
module RequestLimiter {
  import opened WindowTable

  const REQUEST_LIMITER_MAX: nat := 10000

  /** pruned is the table as the call's prune left it. */
  datatype Request = Request(key: string, now: int, pruned: map<string, Entry>)
  datatype Limits = Limits(window: int, limit: nat)

  function Next(l: Limits, r: Request): Entry {
    if r.key !in r.pruned || Expired(r.pruned[r.key], l.window, r.now) then Entry(r.now, 1)
    else Entry(r.pruned[r.key].started, r.pruned[r.key].count + 1)
  }

  function Step(l: Limits, r: Request): map<string, Entry> {
    r.pruned[r.key := Next(l, r)]
  }

  predicate Allowed(l: Limits, r: Request) {
    Next(l, r).count <= l.limit
  }

  ghost predicate Legal(l: Limits, hits: map<string, Entry>, r: Request) {
    Pruned(hits, r.pruned, l.window, REQUEST_LIMITER_MAX, r.now)
  }

  function Run(l: Limits, requests: seq<Request>): map<string, Entry> {
    if requests == [] then map[] else Step(l, requests[|requests| - 1])
  }

  ghost predicate Serial(l: Limits, requests: seq<Request>) {
    forall i | 0 <= i < |requests| :: Legal(l, Run(l, requests[..i]), requests[i])
  }

  predicate ClockForward(requests: seq<Request>) {
    forall i, j :: 0 <= i < j < |requests| ==> requests[i].now <= requests[j].now
  }

  /** The key was never dropped for lack of room. */
  predicate NeverEvicted(l: Limits, requests: seq<Request>, key: string) {
    forall i | 0 <= i < |requests| ::
      var hits := Run(l, requests[..i]);
      key in hits && !Expired(hits[key], l.window, requests[i].now) ==> key in requests[i].pruned
  }

  /** Requests of the key allowed in [from, from + window). */
  function AllowedIn(l: Limits, requests: seq<Request>, key: string, from: int): nat {
    if requests == [] then 0
    else
      var last := requests[|requests| - 1];
      AllowedIn(l, requests[..|requests| - 1], key, from)
      + if last.key == key && from <= last.now < from + l.window && Allowed(l, last) then 1 else 0
  }

  function Least(a: nat, b: nat): nat { if a <= b then a else b }

  /** One window may reach into the interval from before it, and at most one
      more can start inside. */
  ghost predicate Accounted(l: Limits, hits: map<string, Entry>, key: string, from: int, now: int, allowed: nat) {
    && allowed <= 2 * l.limit
    && (key !in hits && now < from + l.window ==> allowed <= l.limit)
    && (key in hits && hits[key].started < from ==> allowed <= Least(hits[key].count, l.limit))
    && (key in hits && from <= hits[key].started < from + l.window
        ==> allowed <= l.limit + Least(hits[key].count, l.limit))
    && (key in hits ==> hits[key].started <= now)
  }

  lemma StepAccounts(l: Limits, hits: map<string, Entry>, r: Request, key: string, from: int, now: int, allowed: nat)
    requires l.window > 0 && now <= r.now && Legal(l, hits, r) && Accounted(l, hits, key, from, now, allowed)
    requires key in hits && !Expired(hits[key], l.window, r.now) ==> key in r.pruned
    requires r.now < from ==> allowed == 0
    ensures Accounted(l, Step(l, r), key, from, r.now,
                      allowed + if r.key == key && from <= r.now < from + l.window && Allowed(l, r) then 1 else 0)
  {
    PrunedIsPart(hits, r.pruned, l.window, REQUEST_LIMITER_MAX, r.now);
  }

  lemma {:induction false} NothingEarly(l: Limits, requests: seq<Request>, key: string, from: int)
    requires ClockForward(requests) && requests != [] && requests[|requests| - 1].now < from
    ensures AllowedIn(l, requests, key, from) == 0
    decreases |requests|
  {
    if |requests| > 1 {
      NothingEarly(l, requests[..|requests| - 1], key, from);
    }
  }

  lemma {:induction false} RunAccounts(l: Limits, requests: seq<Request>, key: string, from: int)
    requires l.window > 0 && Serial(l, requests) && ClockForward(requests) && NeverEvicted(l, requests, key)
            && requests != []
    ensures Accounted(l, Run(l, requests), key, from, requests[|requests| - 1].now, AllowedIn(l, requests, key, from))
    decreases |requests|
  {
    var n := |requests|;
    var front, last := requests[..n - 1], requests[n - 1];
    if n == 1 {
      assert Legal(l, Run(l, requests[..0]), requests[0]);
      StepAccounts(l, map[], last, key, from, last.now, 0);
    } else {
      forall i | 0 <= i < |front|
        ensures front[..i] == requests[..i] && front[i] == requests[i]
      {
      }
      RunAccounts(l, front, key, from);
      if last.now < from {
        NothingEarly(l, front, key, from);
      }
      StepAccounts(l, Run(l, front), last, key, from, front[n - 2].now, AllowedIn(l, front, key, from));
    }
  }

  /** With a clock that never goes back and room for the key, any half-open
      interval one window long sees at most twice the limit. */
  lemma AtMostTwiceTheLimit(l: Limits, requests: seq<Request>, key: string, from: int)
    requires l.window > 0 && Serial(l, requests) && ClockForward(requests) && NeverEvicted(l, requests, key)
    ensures AllowedIn(l, requests, key, from) <= 2 * l.limit
  {
    if requests != [] {
      RunAccounts(l, requests, key, from);
    }
  }

  // ---------- inside one window ----------

  function Requested(requests: seq<Request>, key: string): nat {
    if requests == [] then 0
    else Requested(requests[..|requests| - 1], key) + if requests[|requests| - 1].key == key then 1 else 0
  }

  /** The requests from the first of the key's window on, all within it. */
  ghost predicate OneWindow(l: Limits, before: seq<Request>, burst: seq<Request>, key: string) {
    && burst != [] && burst[0].key == key
    && (key in Run(l, before) ==> burst[0].now - Run(l, before)[key].started >= l.window)
    && forall r | r in burst :: burst[0].now <= r.now < burst[0].now + l.window
  }

  lemma FrontOfRun(l: Limits, before: seq<Request>, burst: seq<Request>, key: string)
    requires |burst| > 1 && OneWindow(l, before, burst, key)
    requires Serial(l, before + burst) && NeverEvicted(l, before + burst, key)
    ensures var front := burst[..|burst| - 1];
            && OneWindow(l, before, front, key) && Serial(l, before + front) && NeverEvicted(l, before + front, key)
  {
    var all, front := before + burst, burst[..|burst| - 1];
    assert before + front == all[..|all| - 1];
    forall i | 0 <= i < |before + front|
      ensures (before + front)[..i] == all[..i] && (before + front)[i] == all[i]
    {
    }
  }

  lemma LastOfRun(l: Limits, before: seq<Request>, burst: seq<Request>, key: string)
    requires burst != [] && Serial(l, before + burst) && NeverEvicted(l, before + burst, key)
    ensures var hits, last := Run(l, before + burst[..|burst| - 1]), burst[|burst| - 1];
            && Within(last.pruned, hits) && Run(l, before + burst) == Step(l, last)
            && (key in hits && !Expired(hits[key], l.window, last.now) ==> key in last.pruned)
  {
    var all := before + burst;
    var i := |all| - 1;
    assert all[..i] == before + burst[..|burst| - 1] && all[i] == burst[|burst| - 1];
    assert Legal(l, Run(l, all[..i]), all[i]);
    PrunedIsPart(Run(l, all[..i]), all[i].pruned, l.window, REQUEST_LIMITER_MAX, all[i].now);
  }

  lemma {:induction false} WindowCounts(l: Limits, before: seq<Request>, burst: seq<Request>, key: string)
    requires l.window > 0 && OneWindow(l, before, burst, key)
    requires Serial(l, before + burst) && NeverEvicted(l, before + burst, key)
    ensures var hits := Run(l, before + burst);
            key in hits && hits[key] == Entry(burst[0].now, Requested(burst, key))
    decreases |burst|
  {
    var front, last := burst[..|burst| - 1], burst[|burst| - 1];
    LastOfRun(l, before, burst, key);
    assert last in burst;
    if |burst| == 1 {
      assert front == [] && before + front == before;
      CountsFirst(l, Run(l, before), last);
      assert Requested(burst, key) == Requested(front, key) + 1;
    } else {
      FrontOfRun(l, before, burst, key);
      WindowCounts(l, before, front, key);
      CountsOn(l, Run(l, before + front), last, key, burst[0].now, Requested(front, key));
      assert front[0] == burst[0];
    }
  }

  lemma CountsFirst(l: Limits, hits: map<string, Entry>, r: Request)
    requires Within(r.pruned, hits) && (r.key in hits ==> r.now - hits[r.key].started >= l.window)
    ensures Step(l, r)[r.key] == Entry(r.now, 1)
  {
  }

  lemma CountsOn(l: Limits, hits: map<string, Entry>, r: Request, key: string, start: int, n: nat)
    requires Within(r.pruned, hits) && key in hits && hits[key] == Entry(start, n) && start <= r.now < start + l.window
    requires key in r.pruned
    ensures key in Step(l, r) && Step(l, r)[key] == Entry(start, n + if r.key == key then 1 else 0)
  {
  }

  /** In a key's window exactly the first `limit` requests of the key are allowed. */
  lemma FirstOfTheWindowAreAllowed(l: Limits, before: seq<Request>, burst: seq<Request>, key: string)
    requires l.window > 0 && OneWindow(l, before, burst, key)
    requires Serial(l, before + burst) && NeverEvicted(l, before + burst, key)
    requires burst[|burst| - 1].key == key
    ensures Allowed(l, burst[|burst| - 1]) <==> Requested(burst, key) <= l.limit
  {
    WindowCounts(l, before, burst, key);
    LastOfRun(l, before, burst, key);
  }

  /** The table never holds more keys than its maximum. */
  lemma TableStaysBounded(l: Limits, requests: seq<Request>)
    requires Serial(l, requests)
    ensures |Run(l, requests)| <= REQUEST_LIMITER_MAX
  {
    if requests != [] {
      var n := |requests|;
      assert Legal(l, Run(l, requests[..n - 1]), requests[n - 1]);
      PrunedIsPart(Run(l, requests[..n - 1]), requests[n - 1].pruned, l.window, REQUEST_LIMITER_MAX,
                   requests[n - 1].now);
      Insertion(requests[n - 1].pruned, requests[n - 1].key, Next(l, requests[n - 1]));
    }
  }

  lemma Insertion(table: map<string, Entry>, key: string, e: Entry)
    ensures |table[key := e]| <= |table| + 1
  {
    assert table[key := e].Keys == table.Keys + {key};
    assert |table[key := e].Keys| == |table[key := e]| && |table.Keys| == |table|;
  }

  class Limiter {
    const limits: Limits
    var hits: map<string, Entry>

    constructor (window: int, limit: nat)
      ensures limits == Limits(window, limit) && hits == map[]
    {
      limits := Limits(window, limit);
      hits := map[];
    }

    /** The real request this call was. */
    method Allow(key: string, now: int) returns (ok: bool, ghost request: Request)
      modifies this
      ensures request.key == key && request.now == now && Legal(limits, old(hits), request)
      ensures hits == Step(limits, request) && (ok <==> Allowed(limits, request))
    {
      hits := Prune(hits, limits.window, REQUEST_LIMITER_MAX, now);
      request := Request(key, now, hits);
      var current := Entry(now, 0);
      if key in hits && !Expired(hits[key], limits.window, now) {
        current := hits[key];
      }
      current := current.(count := current.count + 1);
      hits := hits[key := current];
      ok := current.count <= limits.limit;
    }
  }
}
