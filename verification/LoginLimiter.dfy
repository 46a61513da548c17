/** The login limiter counts failures per address and account, per address and
    per account; handlers check it, authenticate for as long as that takes, and
    report back. */
module LoginLimiter {
  import opened Text
  import opened WindowTable

  const WINDOW: int := 600
  const PAIR_LIMIT: nat := 8
  const IP_LIMIT: nat := 40
  const ACCOUNT_LIMIT: nat := 16
  const LOGIN_LIMITER_MAX: nat := 10000

  const NUL: string := ['\U{0}']

  function PairKey(ip: string, user: string): string { "pair" + NUL + TrimSpace(ip) + NUL + Lower(TrimSpace(user)) }
  function IpKey(ip: string): string { "ip" + NUL + TrimSpace(ip) }
  function AccountKey(user: string): string { "account" + NUL + Lower(TrimSpace(user)) }

  predicate HasPrefix(s: string, prefix: string) { prefix <= s }

  function LoginLimit(key: string): (r: nat)
    ensures r >= 1
  {
    if HasPrefix(key, "ip" + NUL) then IP_LIMIT else if HasPrefix(key, "account" + NUL) then ACCOUNT_LIMIT
                                                     else PAIR_LIMIT
  }

  datatype Login = Login(ip: string, user: string)

  function KeysOf(a: Login): set<string> {
    {PairKey(a.ip, a.user), IpKey(a.ip), AccountKey(a.user)}
  }

  // ---------- the limiter's operations ----------

  predicate Blocks(table: map<string, Entry>, key: string, now: int) {
    key in table && !Expired(table[key], WINDOW, now) && table[key].count >= LoginLimit(key)
  }

  /** allow stops at the first key that blocks; before it, expired entries go. */
  predicate Admits(table: map<string, Entry>, a: Login, now: int) {
    !Blocks(table, PairKey(a.ip, a.user), now) && !Blocks(table, IpKey(a.ip), now)
        && !Blocks(table, AccountKey(a.user), now)
  }

  function Sweep(table: map<string, Entry>, key: string, now: int): map<string, Entry> {
    if key in table && Expired(table[key], WINDOW, now) then table - {key} else table
  }

  function AfterAllow(table: map<string, Entry>, a: Login, now: int): map<string, Entry> {
    var t1 := Sweep(table, PairKey(a.ip, a.user), now);
    if Blocks(table, PairKey(a.ip, a.user), now) then t1
    else
      var t2 := Sweep(t1, IpKey(a.ip), now);
      if Blocks(table, IpKey(a.ip), now) then t2 else Sweep(t2, AccountKey(a.user), now)
  }

  function Count(table: map<string, Entry>, key: string, now: int): map<string, Entry> {
    table[key := if key !in table || Expired(table[key], WINDOW, now) then Entry(now, 1)
          else Entry(table[key].started, table[key].count + 1)]
  }

  function AfterFailed(pruned: map<string, Entry>, a: Login, now: int): map<string, Entry> {
    Count(Count(Count(pruned, PairKey(a.ip, a.user), now), IpKey(a.ip), now), AccountKey(a.user), now)
  }

  function AfterSucceeded(table: map<string, Entry>, a: Login): map<string, Entry> {
    table - {PairKey(a.ip, a.user), AccountKey(a.user)}
  }

  // ---------- handlers in flight ----------

  /** flights holds the logins admitted and not yet reported; peak is the most
      there have been at once. */
  datatype State = State(table: map<string, Entry>, flights: map<nat, Login>, peak: nat)

  datatype Event =
    | Start(id: nat, login: Login, now: int)
    | Fail(id: nat, now: int, pruned: map<string, Entry>)
    | Succeed(id: nat)

  ghost predicate Legal(s: State, e: Event) {
    match e
    case Start(id, _, _) => id !in s.flights
    case Fail(id, now, pruned) => id in s.flights && Pruned(s.table, pruned, WINDOW, LOGIN_LIMITER_MAX, now)
    case Succeed(id) => id in s.flights
  }

  function Step(s: State, e: Event): State {
    match e
    case Start(id, login, now) =>
      var table := AfterAllow(s.table, login, now);
      if !Admits(s.table, login, now) then s.(table := table)
      else
        var flights := s.flights[id := login];
        State(table, flights, if |flights| > s.peak then |flights| else s.peak)
    case Fail(id, now, pruned) =>
      if id in s.flights then State(AfterFailed(pruned, s.flights[id], now), s.flights - {id}, s.peak) else s
    case Succeed(id) =>
      if id in s.flights then State(AfterSucceeded(s.table, s.flights[id]), s.flights - {id}, s.peak) else s
  }

  function Run(events: seq<Event>): State {
    if events == [] then State(map[], map[], 0) else Step(Run(events[..|events| - 1]), events[|events| - 1])
  }

  ghost predicate LegalRun(events: seq<Event>) {
    forall i | 0 <= i < |events| :: Legal(Run(events[..i]), events[i])
  }

  function Flying(flights: map<nat, Login>, key: string): set<nat> {
    set id | id in flights && key in KeysOf(flights[id])
  }

  function Failures(table: map<string, Entry>, key: string): nat {
    if key in table then table[key].count else 0
  }

  // ---------- the bound ----------

  /** Failures counted plus failures that may still come. */
  ghost predicate Bounded(s: State, key: string) {
    && |s.flights| <= s.peak
    && Failures(s.table, key) + |Flying(s.flights, key)| <= LoginLimit(key) - 1 + s.peak
  }

  lemma FlyingFits(flights: map<nat, Login>, key: string)
    ensures |Flying(flights, key)| <= |flights|
  {
    Subset(Flying(flights, key), flights.Keys);
    assert |flights.Keys| == |flights|;
  }

  lemma Subset(a: set<nat>, b: set<nat>)
    requires a <= b
    ensures |a| <= |b|
  {
    assert b == a + (b - a);
  }

  lemma OneMoreFlight(flights: map<nat, Login>, id: nat, login: Login)
    requires id !in flights
    ensures |flights[id := login]| == |flights| + 1
  {
    var more := flights[id := login];
    assert more.Keys == flights.Keys + {id};
    assert |more.Keys| == |more| && |flights.Keys| == |flights|;
  }

  lemma Takeoff(flights: map<nat, Login>, id: nat, login: Login, key: string)
    requires id !in flights
    ensures |Flying(flights[id := login], key)| == |Flying(flights, key)| + if key in KeysOf(login) then 1 else 0
  {
    var more := flights[id := login];
    if key in KeysOf(login) {
      assert Flying(more, key) == Flying(flights, key) + {id};
    } else {
      assert Flying(more, key) == Flying(flights, key);
    }
  }

  lemma Landing(flights: map<nat, Login>, id: nat, key: string)
    requires id in flights
    ensures |flights - {id}| == |flights| - 1
    ensures |Flying(flights - {id}, key)| == |Flying(flights, key)| - if key in KeysOf(flights[id]) then 1 else 0
  {
    var less := flights - {id};
    assert less.Keys == flights.Keys - {id};
    assert |less.Keys| == |less| && |flights.Keys| == |flights|;
    if key in KeysOf(flights[id]) {
      assert Flying(less, key) == Flying(flights, key) - {id};
    } else {
      assert Flying(less, key) == Flying(flights, key);
    }
  }

  lemma AllowLowers(table: map<string, Entry>, a: Login, now: int, key: string)
    ensures Failures(AfterAllow(table, a, now), key) <= Failures(table, key)
    ensures Admits(table, a, now) && key in KeysOf(a)
            ==> Failures(AfterAllow(table, a, now), key) <= LoginLimit(key) - 1
  {
    var p, i, c := PairKey(a.ip, a.user), IpKey(a.ip), AccountKey(a.user);
    if Admits(table, a, now) && key in KeysOf(a) {
      assert key == p || key == i || key == c;
    }
  }

  lemma CountRaises(table: map<string, Entry>, key: string, now: int, k: string)
    ensures Failures(Count(table, key, now), k) <= if k == key then Failures(table, k) + 1 else Failures(table, k)
    ensures k != key ==> (k in Count(table, key, now) <==> k in table)
  {
  }

  lemma KeysDiffer(a: Login)
    ensures PairKey(a.ip, a.user) != IpKey(a.ip) && PairKey(a.ip, a.user) != AccountKey(a.user)
            && IpKey(a.ip) != AccountKey(a.user)
  {
    assert PairKey(a.ip, a.user)[0] == 'p' && IpKey(a.ip)[0] == 'i' && AccountKey(a.user)[0] == 'a';
  }

  lemma FailedRaises(pruned: map<string, Entry>, a: Login, now: int, key: string)
    ensures Failures(AfterFailed(pruned, a, now), key) <= Failures(pruned, key) + if key in KeysOf(a) then 1 else 0
  {
    var p, i, c := PairKey(a.ip, a.user), IpKey(a.ip), AccountKey(a.user);
    KeysDiffer(a);
    CountRaises(pruned, p, now, key);
    CountRaises(Count(pruned, p, now), i, now, key);
    CountRaises(Count(Count(pruned, p, now), i, now), c, now, key);
  }

  lemma StepKeepsBound(s: State, e: Event, key: string)
    requires Legal(s, e) && Bounded(s, key)
    ensures Bounded(Step(s, e), key)
  {
    match e {
      case Start(id, login, now) =>
        AllowLowers(s.table, login, now, key);
        OneMoreFlight(s.flights, id, login);
        Takeoff(s.flights, id, login, key);
        FlyingFits(s.flights[id := login], key);
      case Fail(id, now, pruned) =>
        PrunedIsPart(s.table, pruned, WINDOW, LOGIN_LIMITER_MAX, now);
        FailedRaises(pruned, s.flights[id], now, key);
        Landing(s.flights, id, key);
      case Succeed(id) =>
        Landing(s.flights, id, key);
    }
  }

  lemma {:induction false} RunKeepsBound(events: seq<Event>, key: string)
    requires LegalRun(events)
    ensures Bounded(Run(events), key)
    decreases |events|
  {
    if events == [] {
      assert Flying(map[], key) == {};
    } else {
      var front := events[..|events| - 1];
      forall i | 0 <= i < |front|
        ensures front[..i] == events[..i] && front[i] == events[i]
      {
      }
      RunKeepsBound(front, key);
      StepKeepsBound(Run(front), events[|events| - 1], key);
    }
  }

  /** However handlers interleave, an entry's failures never exceed its limit,
      less one, plus the most attempts that were ever in flight at once. */
  lemma FailuresAreBounded(events: seq<Event>, key: string)
    requires LegalRun(events)
    ensures key in Run(events).table ==> Run(events).table[key].count <= LoginLimit(key) - 1 + Run(events).peak
  {
    RunKeepsBound(events, key);
  }

  // ---------- inside one window ----------

  /** Eight failures per address and account, forty per address, sixteen per account. */
  lemma LimitsAre(ip: string, user: string)
    ensures LoginLimit(PairKey(ip, user)) == 8 && LoginLimit(IpKey(ip)) == 40 && LoginLimit(AccountKey(user)) == 16
  {
    assert PairKey(ip, user)[0] == 'p' && IpKey(ip)[0] == 'i' && AccountKey(user)[0] == 'a';
    assert ("ip" + NUL)[0] == 'i' && ("account" + NUL)[0] == 'a';
    assert IpKey(ip) == "ip" + NUL + TrimSpace(ip) && AccountKey(user) == "account" + NUL + Lower(TrimSpace(user));
  }

  /** Addresses are told apart up to blanks, accounts up to blanks and case. */
  lemma KeysTellApart(ip1: string, user1: string, ip2: string, user2: string)
    requires '\U{0}' !in ip1 && '\U{0}' !in ip2
    ensures IpKey(ip1) == IpKey(ip2) <==> TrimSpace(ip1) == TrimSpace(ip2)
    ensures AccountKey(user1) == AccountKey(user2) <==> EqualFold(TrimSpace(user1), TrimSpace(user2))
    ensures PairKey(ip1, user1) == PairKey(ip2, user2)
            <==> TrimSpace(ip1) == TrimSpace(ip2) && EqualFold(TrimSpace(user1), TrimSpace(user2))
  {
    var a, b := TrimSpace(ip1), TrimSpace(ip2);
    var u, v := Lower(TrimSpace(user1)), Lower(TrimSpace(user2));
    SamePrefix("ip" + NUL, a, b);
    SamePrefix("account" + NUL, u, v);
    SamePrefix("pair" + NUL, a + NUL + u, b + NUL + v);
    PairText(ip1, user1);
    PairText(ip2, user2);
    TrimmedHasNoNul(ip1);
    TrimmedHasNoNul(ip2);
    if a + NUL + u == b + NUL + v {
      FirstNulSplits(a, u, b, v);
    }
  }

  lemma PairText(ip: string, user: string)
    ensures PairKey(ip, user) == ("pair" + NUL) + (TrimSpace(ip) + NUL + Lower(TrimSpace(user)))
  {
  }

  lemma SamePrefix(prefix: string, a: string, b: string)
    ensures prefix + a == prefix + b <==> a == b
  {
    assert (prefix + a)[|prefix|..] == a && (prefix + b)[|prefix|..] == b;
  }

  lemma TrimmedHasNoNul(s: string)
    requires '\U{0}' !in s
    ensures '\U{0}' !in TrimSpace(s)
  {
    var before, after := TrimSpaceIs(s);
    assert forall i :: 0 <= i < |TrimSpace(s)| ==> TrimSpace(s)[i] == s[|before| + i];
  }

  lemma FirstNulSplits(a: string, u: string, b: string, v: string)
    requires '\U{0}' !in a && '\U{0}' !in b && a + NUL + u == b + NUL + v
    ensures a == b && u == v
  {
    var s, t := a + NUL + u, b + NUL + v;
    assert s[|a|] == '\U{0}' && t[|b|] == '\U{0}';
    assert forall i | 0 <= i < |a| :: s[i] == a[i];
    assert forall i | 0 <= i < |b| :: t[i] == b[i];
    assert s[..|a|] == a && t[..|b|] == b && s[|a| + 1..] == u && t[|b| + 1..] == v;
  }

  /** Failures reported under the key from event `from` on. */
  function Reported(events: seq<Event>, from: nat, key: string): nat {
    if |events| <= from then 0
    else
      var front, last := events[..|events| - 1], events[|events| - 1];
      Reported(front, from, key)
      + if last.Fail? && last.id in Run(front).flights && key in KeysOf(Run(front).flights[last.id]) then 1 else 0
  }

  /** What clears a key before its window is over: a success of the account, or
      running out of room. */
  ghost predicate Undisturbed(s: State, e: Event, key: string) {
    match e
    case Start(_, _, _) => true
    case Fail(_, _, pruned) => key in s.table ==> key in pruned
    case Succeed(id) => id in s.flights ==> key != PairKey(s.flights[id].ip, s.flights[id].user)
                                            && key != AccountKey(s.flights[id].user)
  }

  predicate At(e: Event, from: int, to: int) {
    match e
    case Start(_, _, now) => from <= now < to
    case Fail(_, now, _) => from <= now < to
    case Succeed(_) => true
  }

  /** From event `from` on everything happens in the ten minutes after start, at
      which the key had no failures to count, and nothing clears it. */
  ghost predicate OneWindow(events: seq<Event>, from: nat, start: int, key: string) {
    && from <= |events|
    && (key in Run(events[..from]).table ==> Run(events[..from]).table[key].started + 600 <= start)
    && forall i | from <= i < |events| :: At(events[i], start, start + 600)
                                         && Undisturbed(Run(events[..i]), events[i], key)
  }

  ghost predicate Counted(table: map<string, Entry>, start: int, key: string, n: nat) {
    if n == 0 then key in table ==> table[key].started + 600 <= start
    else key in table && start <= table[key].started < start + 600 && table[key].count == n
  }

  lemma AllowCounts(table: map<string, Entry>, a: Login, now: int, start: int, key: string, n: nat)
    requires Counted(table, start, key, n) && start <= now < start + 600
    ensures Counted(AfterAllow(table, a, now), start, key, n)
  {
  }

  lemma FailedCounts(pruned: map<string, Entry>, a: Login, now: int, start: int, key: string, n: nat)
    requires Counted(pruned, start, key, n) && start <= now < start + 600
    ensures Counted(AfterFailed(pruned, a, now), start, key, n + if key in KeysOf(a) then 1 else 0)
  {
    KeysDiffer(a);
  }

  lemma StepCounts(s: State, e: Event, start: int, key: string, n: nat)
    requires Legal(s, e) && Undisturbed(s, e, key) && At(e, start, start + 600) && Counted(s.table, start, key, n)
    ensures Counted(Step(s, e).table, start, key,
                    n + if e.Fail? && e.id in s.flights && key in KeysOf(s.flights[e.id]) then 1 else 0)
  {
    match e
    case Start(_, login, now) => AllowCounts(s.table, login, now, start, key, n);
    case Fail(id, now, pruned) =>
      PrunedIsPart(s.table, pruned, WINDOW, LOGIN_LIMITER_MAX, now);
      FailedCounts(pruned, s.flights[id], now, start, key, n);
    case Succeed(_) =>
  }

  lemma {:induction false} WindowCounts(events: seq<Event>, from: nat, start: int, key: string)
    requires LegalRun(events) && OneWindow(events, from, start, key)
    ensures Counted(Run(events).table, start, key, Reported(events, from, key))
    decreases |events|
  {
    if |events| == from {
      assert events[..from] == events;
    } else {
      var n := |events| - 1;
      var front := events[..n];
      forall i | 0 <= i <= n
        ensures front[..i] == events[..i] && (i < n ==> front[i] == events[i])
      {
      }
      WindowCounts(front, from, start, key);
      assert Legal(Run(front), events[n]);
      StepCounts(Run(front), events[n], start, key, Reported(front, from, key));
    }
  }

  /** Within ten minutes a key blocks exactly when as many failures as its limit
      have been reported under it. */
  lemma BlocksAtTheLimitExactly(events: seq<Event>, from: nat, start: int, key: string, now: int)
    requires LegalRun(events) && OneWindow(events, from, start, key) && start <= now < start + 600
    ensures Blocks(Run(events).table, key, now) <==> Reported(events, from, key) >= LoginLimit(key)
  {
    WindowCounts(events, from, start, key);
  }

  lemma CountGrows(table: map<string, Entry>, key: string, now: int)
    ensures |Count(table, key, now)| <= |table| + 1
  {
    var more := Count(table, key, now);
    assert more.Keys == table.Keys + {key};
    assert |more.Keys| == |more| && |table.Keys| == |table|;
  }

  lemma Shrinks(part: map<string, Entry>, whole: map<string, Entry>)
    requires part.Keys <= whole.Keys
    ensures |part| <= |whole|
  {
    assert whole.Keys == part.Keys + (whole.Keys - part.Keys);
    assert |part.Keys| == |part| && |whole.Keys| == |whole|;
  }

  /** One failure may add three keys to a table just under its maximum. */
  lemma {:induction false} TableStaysBounded(events: seq<Event>)
    requires LegalRun(events)
    ensures |Run(events).table| <= LOGIN_LIMITER_MAX + 2
    decreases |events|
  {
    if events != [] {
      var front, last := events[..|events| - 1], events[|events| - 1];
      forall i | 0 <= i < |front|
        ensures front[..i] == events[..i] && front[i] == events[i]
      {
      }
      TableStaysBounded(front);
      assert Legal(Run(front), last);
      StepStaysBounded(Run(front), last);
    }
  }

  lemma StepStaysBounded(s: State, e: Event)
    requires Legal(s, e) && |s.table| <= LOGIN_LIMITER_MAX + 2
    ensures |Step(s, e).table| <= LOGIN_LIMITER_MAX + 2
  {
    match e {
      case Start(_, login, now) => Shrinks(AfterAllow(s.table, login, now), s.table);
      case Fail(id, now, pruned) =>
        PrunedIsPart(s.table, pruned, WINDOW, LOGIN_LIMITER_MAX, now);
        FailedGrows(pruned, s.flights[id], now);
      case Succeed(id) => Shrinks(AfterSucceeded(s.table, s.flights[id]), s.table);
    }
  }

  lemma FailedGrows(pruned: map<string, Entry>, a: Login, now: int)
    ensures |AfterFailed(pruned, a, now)| <= |pruned| + 3
  {
    CountGrows(pruned, PairKey(a.ip, a.user), now);
    CountGrows(Count(pruned, PairKey(a.ip, a.user), now), IpKey(a.ip), now);
    CountGrows(Count(Count(pruned, PairKey(a.ip, a.user), now), IpKey(a.ip), now), AccountKey(a.user), now);
  }

  /** A success gives an address no fresh budget: its entry stays as it was. */
  lemma SuccessKeepsTheAddress(table: map<string, Entry>, a: Login)
    ensures IpKey(a.ip) in AfterSucceeded(table, a) <==> IpKey(a.ip) in table
    ensures IpKey(a.ip) in table ==> AfterSucceeded(table, a)[IpKey(a.ip)] == table[IpKey(a.ip)]
  {
    KeysDiffer(a);
  }

  /** A success clears the account's own windows and no other. */
  lemma SuccessClearsExactly(table: map<string, Entry>, a: Login, key: string)
    ensures var t := AfterSucceeded(table, a);
            && (key in t <==> key in table && key != PairKey(a.ip, a.user) && key != AccountKey(a.user))
            && (key in t ==> t[key] == table[key])
  {
  }

  // ---------- the code ----------

  class Limiter {
    var attempts: map<string, Entry>

    constructor ()
      ensures attempts == map[]
    {
      attempts := map[];
    }

    method Allow(a: Login, now: int) returns (ok: bool)
      modifies this
      ensures ok <==> Admits(old(attempts), a, now)
      ensures attempts == AfterAllow(old(attempts), a, now)
    {
      KeysDiffer(a);
      ghost var before := attempts;
      var keys := [PairKey(a.ip, a.user), IpKey(a.ip), AccountKey(a.user)];
      for i := 0 to 3
        invariant i > 0 ==> !Blocks(before, keys[0], now)
        invariant i > 1 ==> !Blocks(before, keys[1], now)
        invariant i > 2 ==> !Blocks(before, keys[2], now)
        invariant i == 0 ==> attempts == before
        invariant i == 1 ==> attempts == Sweep(before, keys[0], now)
        invariant i == 2 ==> attempts == Sweep(Sweep(before, keys[0], now), keys[1], now)
        invariant i == 3 ==> attempts == Sweep(Sweep(Sweep(before, keys[0], now), keys[1], now), keys[2], now)
      {
        var key := keys[i];
        if key in attempts {
          if Expired(attempts[key], WINDOW, now) {
            attempts := attempts - {key};
          } else if attempts[key].count >= LoginLimit(key) {
            return false;
          }
        }
      }
      ok := true;
    }

    method Failed(a: Login, now: int) returns (ghost pruned: map<string, Entry>)
      modifies this
      ensures Pruned(old(attempts), pruned, WINDOW, LOGIN_LIMITER_MAX, now)
      ensures attempts == AfterFailed(pruned, a, now)
    {
      attempts := Prune(attempts, WINDOW, LOGIN_LIMITER_MAX, now);
      pruned := attempts;
      var keys := [PairKey(a.ip, a.user), IpKey(a.ip), AccountKey(a.user)];
      for i := 0 to 3
        invariant i == 0 ==> attempts == pruned
        invariant i == 1 ==> attempts == Count(pruned, keys[0], now)
        invariant i == 2 ==> attempts == Count(Count(pruned, keys[0], now), keys[1], now)
        invariant i == 3 ==> attempts == Count(Count(Count(pruned, keys[0], now), keys[1], now), keys[2], now)
      {
        var key := keys[i];
        var attempt := Entry(now, 0);
        if key in attempts && !Expired(attempts[key], WINDOW, now) {
          attempt := attempts[key];
        }
        attempts := attempts[key := attempt.(count := attempt.count + 1)];
      }
    }

    method Succeeded(a: Login)
      modifies this
      ensures attempts == AfterSucceeded(old(attempts), a)
    {
      attempts := attempts - {PairKey(a.ip, a.user)};
      attempts := attempts - {AccountKey(a.user)};
    }
  }
}
