/** The OIDC provider cache: callers joining one discovery per key, discoveries
    finishing on their own time, expiry and forget, in every interleaving of the
    sections the mutex protects. */
module OidcCache {
  import opened Text

  type Time = int
  const TTL: Time := 600

  datatype Key = Key(issuer: string, verifyTLS: bool)

  /** A provider remembers the key it was discovered for. */
  datatype Outcome = Failure | Provider(discoveredFor: Key, expires: Time)

  /** One discovery attempt. outcome is what resolve writes under the mutex;
      closed is the ready channel. */
  datatype Entry = Entry(key: Key, outcome: Option<Outcome>, closed: bool)

  /** The goroutine of one attempt, until it has closed the channel. */
  datatype Resolver = Discovering(key: Key) | Settled

  /** A get that has released the mutex: when it looked, and whether the entry it
      found was still in flight then. */
  datatype Waiter = Waiter(key: Key, entry: int, lookedAt: Time, inFlight: bool)
  datatype Answer = Answer(waiter: Waiter, outcome: Outcome)

  datatype State = State(entries: map<Key, int>, heap: map<int, Entry>, next: int, resolvers: map<int, Resolver>,
                         waiters: map<int, Waiter>, answers: seq<Answer>,
                         started: map<Key, nat>, removed: map<Key, nat>, doubleCloses: nat)

  datatype Event =
    | Get(caller: int, key: Key, now: Time)
    | Resolve(entry: int, found: bool, now: Time)
    | CloseReady(entry: int)
    | Return(caller: int)
    | GiveUp(caller: int)
    | Forget(key: Key)

  function Count(m: map<Key, nat>, k: Key): nat {
    if k in m then m[k] else 0
  }

  /** Finished and past its time; an in-flight entry never is. */
  predicate Expired(e: Entry, now: Time) {
    e.closed && (e.outcome.Some? && e.outcome.value.Provider? ==> !(now < e.outcome.value.expires))
  }

  predicate Doomed(s: State, k: Key, now: Time) {
    k in s.entries && s.entries[k] in s.heap && Expired(s.heap[s.entries[k]], now)
  }

  function Evict(s: State, now: Time): State {
    s.(entries := map k | k in s.entries && !Doomed(s, k, now) :: s.entries[k],
       removed := map k | k in s.removed.Keys + s.entries.Keys ::
                    Count(s.removed, k) + if Doomed(s, k, now) then 1 else 0)
  }

  function RemoveKey(s: State, k: Key): State {
    if k in s.entries then s.(entries := s.entries - {k}, removed := s.removed[k := Count(s.removed, k) + 1]) else s
  }

  function StartDiscovery(s: State, k: Key): State {
    s.(entries := s.entries[k := s.next], heap := s.heap[s.next := Entry(k, None, false)], next := s.next + 1,
       resolvers := s.resolvers[s.next := Discovering(k)], started := s.started[k := Count(s.started, k) + 1])
  }

  /** get up to the unlock. */
  function Lookup(s: State, caller: int, k: Key, now: Time): State {
    var evicted := Evict(s, now);
    var t := if k in evicted.entries then evicted else StartDiscovery(evicted, k);
    var e := t.entries[k];
    if e !in t.heap then t
    else t.(waiters := t.waiters[caller := Waiter(k, e, now, !t.heap[e].closed)])
  }

  /** resolve's locked section, for a discovery that found a provider or failed. */
  function Settle(s: State, e: int, found: bool, now: Time): State {
    if e !in s.resolvers || !s.resolvers[e].Discovering? || e !in s.heap then s
    else
      var k := s.resolvers[e].key;
      var outcome := if found then Provider(k, now + TTL) else Failure;
      var t := if !found && k in s.entries && s.entries[k] == e then RemoveKey(s, k) else s;
      t.(heap := t.heap[e := t.heap[e].(outcome := Some(outcome))], resolvers := t.resolvers[e := Settled])
  }

  function CloseChannel(s: State, e: int): State {
    if e !in s.resolvers || s.resolvers[e] != Settled || e !in s.heap then s
    else
      s.(heap := s.heap[e := s.heap[e].(closed := true)], resolvers := s.resolvers - {e},
         doubleCloses := s.doubleCloses + if s.heap[e].closed then 1 else 0)
  }

  function Deliver(s: State, caller: int): State {
    if caller !in s.waiters || s.waiters[caller].entry !in s.heap then s
    else
      var w := s.waiters[caller];
      var e := s.heap[w.entry];
      if !e.closed || e.outcome.None? then s
      else s.(waiters := s.waiters - {caller}, answers := s.answers + [Answer(w, e.outcome.value)])
  }

  function Step(s: State, event: Event): State {
    match event
    case Get(caller, key, now) => Lookup(s, caller, key, now)
    case Resolve(entry, found, now) => Settle(s, entry, found, now)
    case CloseReady(entry) => CloseChannel(s, entry)
    case Return(caller) => Deliver(s, caller)
    case GiveUp(caller) => s.(waiters := s.waiters - {caller})
    case Forget(key) => RemoveKey(s, key)
  }

  function Run(s: State, events: seq<Event>): State
    decreases |events|
  {
    if events == [] then s else Run(Step(s, events[0]), events[1..])
  }

  const EMPTY := State(map[], map[], 0, map[], map[], [], map[], map[], 0)

  // ---------- invariants ----------

  predicate Present(s: State, k: Key) { k in s.entries }

  ghost predicate EntriesOk(s: State) {
    forall k | k in s.entries ::
      s.entries[k] in s.heap && s.heap[s.entries[k]].key == k && s.heap[s.entries[k]].outcome != Some(Failure)
  }

  /** A resolver exists exactly until its channel is closed; what it will write,
      or has written, is for its entry's own key. */
  ghost predicate HeapOk(s: State) {
    && (forall e | e in s.heap :: e < s.next && (e in s.resolvers <==> !s.heap[e].closed))
    && (forall e | e in s.resolvers :: e in s.heap)
    && (forall e | e in s.resolvers ::
          match s.resolvers[e]
          case Discovering(k) => k == s.heap[e].key && s.heap[e].outcome.None?
          case Settled => s.heap[e].outcome.Some?)
    && (forall e | e in s.heap && s.heap[e].closed :: s.heap[e].outcome.Some?)
    && (forall e | e in s.heap && s.heap[e].outcome.Some? && s.heap[e].outcome.value.Provider? ::
          s.heap[e].outcome.value.discoveredFor == s.heap[e].key)
  }

  ghost predicate Balanced(s: State) {
    forall k :: Count(s.started, k) == Count(s.removed, k) + if Present(s, k) then 1 else 0
  }

  /** Unexpired when looked up, or in flight then. */
  predicate FreshFor(w: Waiter, o: Outcome) {
    o.Provider? ==> o.discoveredFor == w.key && (w.inFlight || w.lookedAt < o.expires)
  }

  ghost predicate WaitersOk(s: State) {
    && (forall c | c in s.waiters ::
          var w := s.waiters[c];
          w.entry in s.heap && s.heap[w.entry].key == w.key
              && (!w.inFlight ==> s.heap[w.entry].closed && s.heap[w.entry].outcome.Some?)
          && (!w.inFlight ==> FreshFor(w, s.heap[w.entry].outcome.value)))
    && (forall a | a in s.answers :: FreshFor(a.waiter, a.outcome))
  }

  ghost predicate Inv(s: State) {
    EntriesOk(s) && HeapOk(s) && Balanced(s) && WaitersOk(s) && s.doubleCloses == 0
  }

  lemma EvictKeeps(s: State, now: Time)
    requires Inv(s)
    ensures var t := Evict(s, now); Inv(t) && forall k | k in t.entries :: !Expired(t.heap[t.entries[k]], now)
  {
    var t := Evict(s, now);
    forall k
      ensures Count(t.started, k) == Count(t.removed, k) + if Present(t, k) then 1 else 0
    {
      assert Count(s.started, k) == Count(s.removed, k) + if Present(s, k) then 1 else 0;
    }
  }

  lemma RemoveKeyKeeps(s: State, k: Key)
    requires Inv(s)
    ensures Inv(RemoveKey(s, k))
  {
    var t := RemoveKey(s, k);
    forall l
      ensures Count(t.started, l) == Count(t.removed, l) + if Present(t, l) then 1 else 0
    {
      assert Count(s.started, l) == Count(s.removed, l) + if Present(s, l) then 1 else 0;
    }
  }

  lemma StartKeeps(s: State, k: Key)
    requires Inv(s) && k !in s.entries
    ensures Inv(StartDiscovery(s, k))
  {
    var t := StartDiscovery(s, k);
    forall l
      ensures Count(t.started, l) == Count(t.removed, l) + if Present(t, l) then 1 else 0
    {
      assert Count(s.started, l) == Count(s.removed, l) + if Present(s, l) then 1 else 0;
    }
  }

  lemma JoinKeeps(s: State, caller: int, k: Key, now: Time)
    requires Inv(s) && k in s.entries && (s.heap[s.entries[k]].closed ==> !Expired(s.heap[s.entries[k]], now))
    ensures var e := s.entries[k]; Inv(s.(waiters := s.waiters[caller := Waiter(k, e, now, !s.heap[e].closed)]))
  {
    var e := s.entries[k];
    SameCounts(s, s.(waiters := s.waiters[caller := Waiter(k, e, now, !s.heap[e].closed)]));
  }

  lemma LookupKeeps(s: State, caller: int, k: Key, now: Time)
    requires Inv(s)
    ensures Inv(Lookup(s, caller, k, now))
  {
    EvictKeeps(s, now);
    var evicted := Evict(s, now);
    if k !in evicted.entries {
      StartKeeps(evicted, k);
    }
    JoinKeeps(if k in evicted.entries then evicted else StartDiscovery(evicted, k), caller, k, now);
  }

  /** Writing an outcome of an entry still being discovered. */
  lemma WriteKeeps(s: State, e: int, outcome: Outcome)
    requires Inv(s) && e in s.heap && e in s.resolvers && s.resolvers[e] == Discovering(s.heap[e].key)
    requires outcome.Provider? ==> outcome.discoveredFor == s.heap[e].key
    requires outcome.Failure? ==> forall k | k in s.entries :: s.entries[k] != e
    ensures Inv(s.(heap := s.heap[e := s.heap[e].(outcome := Some(outcome))], resolvers := s.resolvers[e := Settled]))
  {
    SameCounts(s, s.(heap := s.heap[e := s.heap[e].(outcome := Some(outcome))],
                     resolvers := s.resolvers[e := Settled]));
  }

  lemma SettleKeeps(s: State, e: int, found: bool, now: Time)
    requires Inv(s)
    ensures Inv(Settle(s, e, found, now))
  {
    if e in s.resolvers && s.resolvers[e].Discovering? {
      var k := s.resolvers[e].key;
      if !found && k in s.entries && s.entries[k] == e {
        RemoveKeyKeeps(s, k);
        WriteKeeps(RemoveKey(s, k), e, Failure);
      } else {
        WriteKeeps(s, e, if found then Provider(k, now + TTL) else Failure);
      }
    }
  }

  lemma StepKeeps(s: State, event: Event)
    requires Inv(s)
    ensures Inv(Step(s, event))
  {
    match event
    case Get(caller, key, now) => LookupKeeps(s, caller, key, now);
    case Resolve(entry, found, now) => SettleKeeps(s, entry, found, now);
    case CloseReady(entry) => CloseKeeps(s, entry);
    case Return(caller) => DeliverKeeps(s, caller);
    case GiveUp(caller) => GiveUpKeeps(s, caller);
    case Forget(key) => RemoveKeyKeeps(s, key);
  }

  lemma SameCounts(s: State, t: State)
    requires Balanced(s) && t.started == s.started && t.removed == s.removed && t.entries == s.entries
    ensures Balanced(t)
  {
    forall l
      ensures Count(t.started, l) == Count(t.removed, l) + if Present(t, l) then 1 else 0
    {
      assert Count(s.started, l) == Count(s.removed, l) + if Present(s, l) then 1 else 0;
    }
  }

  lemma CloseKeeps(s: State, e: int)
    requires Inv(s)
    ensures Inv(CloseChannel(s, e))
  {
    SameCounts(s, CloseChannel(s, e));
  }

  lemma DeliverKeeps(s: State, caller: int)
    requires Inv(s)
    ensures Inv(Deliver(s, caller))
  {
    SameCounts(s, Deliver(s, caller));
  }

  lemma GiveUpKeeps(s: State, caller: int)
    requires Inv(s)
    ensures Inv(Step(s, GiveUp(caller)))
  {
    SameCounts(s, Step(s, GiveUp(caller)));
  }

  lemma {:induction false} RunKeeps(s: State, events: seq<Event>)
    requires Inv(s)
    ensures Inv(Run(s, events))
    decreases |events|
  {
    if events != [] {
      StepKeeps(s, events[0]);
      RunKeeps(Step(s, events[0]), events[1..]);
    }
  }

  // ---------- main results ----------

  /** Single flight: discoveries started for a key are its removals plus one if
      it is cached now, so no second one starts while an entry is present. */
  lemma DiscoveriesBalance(events: seq<Event>, k: Key)
    ensures var s := Run(EMPTY, events);
            Count(s.started, k) == Count(s.removed, k) + if k in s.entries then 1 else 0
  {
    RunKeeps(EMPTY, events);
    var s := Run(EMPTY, events);
    assert Count(s.started, k) == Count(s.removed, k) + if Present(s, k) then 1 else 0;
  }

  /** Failures are never kept, every channel is closed once, and an answer is a
      provider of the caller's own key, unexpired or in flight when looked up. */
  lemma CacheSafety(events: seq<Event>)
    ensures var s := Run(EMPTY, events);
            && (forall k | k in s.entries :: s.entries[k] in s.heap && s.heap[s.entries[k]].outcome != Some(Failure))
            && s.doubleCloses == 0
            && (forall a | a in s.answers && a.outcome.Provider? ::
                  a.outcome.discoveredFor == a.waiter.key
                      && (a.waiter.inFlight || a.waiter.lookedAt < a.outcome.expires))
  {
    RunKeeps(EMPTY, events);
    var s := Run(EMPTY, events);
    forall a | a in s.answers && a.outcome.Provider?
      ensures a.outcome.discoveredFor == a.waiter.key && (a.waiter.inFlight || a.waiter.lookedAt < a.outcome.expires)
    {
      assert FreshFor(a.waiter, a.outcome);
    }
  }

  /** A failing discovery removes its own entry or nothing. */
  lemma FailureRemovesOnlyItself(s: State, e: int, now: Time, k: Key)
    requires Inv(s) && k in s.entries && s.entries[k] != e
    ensures k in Settle(s, e, false, now).entries && Settle(s, e, false, now).entries[k] == s.entries[k]
  {
  }

  lemma OutcomeStays(s: State, event: Event, e: int)
    requires Inv(s) && e in s.heap && s.heap[e].outcome.Some?
    ensures var t := Step(s, event);
            && e in t.heap && t.heap[e].outcome == s.heap[e].outcome
            && (s.heap[e].closed ==> t.heap[e].closed)
  {
    match event
    case Get(caller, key, now) =>
      EvictKeeps(s, now);
    case _ =>
  }

  /** An outcome, once written, is what every later reader of the entry sees. */
  lemma {:induction false} OutcomeWrittenOnce(s: State, events: seq<Event>, e: int)
    requires Inv(s) && e in s.heap && s.heap[e].outcome.Some?
    ensures var t := Run(s, events); e in t.heap && t.heap[e].outcome == s.heap[e].outcome
    decreases |events|
  {
    if events != [] {
      StepKeeps(s, events[0]);
      OutcomeStays(s, events[0], e);
      OutcomeWrittenOnce(Step(s, events[0]), events[1..], e);
    }
  }

  // ---------- the cache's methods ----------

  class Cache {
    var entries: map<Key, int>
    var heap: map<int, Entry>
    var next: int
    ghost var resolvers: map<int, Resolver>
    ghost var waiters: map<int, Waiter>
    ghost var started: map<Key, nat>
    ghost var removed: map<Key, nat>

    ghost function View(): State
      reads this
    {
      State(entries, heap, next, resolvers, waiters, [], started, removed, 0)
    }

    constructor ()
      ensures View() == EMPTY && Inv(View())
    {
      entries, heap, next := map[], map[], 0;
      resolvers, waiters, started, removed := map[], map[], map[], map[];
    }

    method EvictExpiredLocked(now: Time)
      requires EntriesOk(View())
      modifies this
      ensures View() == Evict(old(View()), now)
    {
      ghost var s := View();
      var rest := entries.Keys;
      var kept := entries;
      while rest != {}
        invariant rest <= entries.Keys && View() == s
        invariant kept == map k | k in s.entries && (k in rest || !Doomed(s, k, now)) :: s.entries[k]
        decreases rest
      {
        var k :| k in rest;
        rest := rest - {k};
        var e := heap[entries[k]];
        if e.closed && (e.outcome.Some? && e.outcome.value.Provider? ==> !(now < e.outcome.value.expires)) {
          kept := kept - {k};
        }
      }
      entries := kept;
      removed := Evict(s, now).removed;
    }

    /** get up to the unlock; the caller then waits on the entry's channel. */
    method GetLocked(key: Key, now: Time, ghost caller: int) returns (entry: int)
      requires Inv(View())
      modifies this
      ensures View() == Lookup(old(View()), caller, key, now) && Inv(View())
      ensures key in entries && entries[key] == entry
    {
      LookupKeeps(View(), caller, key, now);
      entry := FindOrStart(key, now, caller);
    }

    method Start(key: Key) returns (entry: int)
      modifies this
      ensures View() == StartDiscovery(old(View()), key) && entry == old(next)
    {
      entry := next;
      heap := heap[entry := Entry(key, None, false)];
      entries := entries[key := entry];
      next := next + 1;
      resolvers := resolvers[entry := Discovering(key)];
      started := started[key := Count(started, key) + 1];
    }

    method FindOrStart(key: Key, now: Time, ghost caller: int) returns (entry: int)
      requires EntriesOk(View())
      modifies this
      ensures View() == Lookup(old(View()), caller, key, now)
      ensures key in entries && entries[key] == entry
    {
      EvictExpiredLocked(now);
      if key !in entries {
        entry := Start(key);
      } else {
        entry := entries[key];
      }
      waiters := waiters[caller := Waiter(key, entry, now, !heap[entry].closed)];
    }

    method ResolveLocked(key: Key, entry: int, found: bool, now: Time)
      requires Inv(View()) && entry in resolvers && resolvers[entry] == Discovering(key)
      modifies this
      ensures View() == Settle(old(View()), entry, found, now) && Inv(View())
    {
      SettleKeeps(View(), entry, found, now);
      var outcome := Failure;
      if !found {
        if key in entries && entries[key] == entry {
          entries := entries - {key};
          removed := removed[key := Count(removed, key) + 1];
        }
      } else {
        outcome := Provider(key, now + TTL);
      }
      heap := heap[entry := heap[entry].(outcome := Some(outcome))];
      resolvers := resolvers[entry := Settled];
    }

    method Forget(key: Key)
      requires Inv(View())
      modifies this
      ensures View() == RemoveKey(old(View()), key) && Inv(View()) && key !in entries
    {
      RemoveKeyKeeps(View(), key);
      if key in entries {
        removed := removed[key := Count(removed, key) + 1];
      }
      entries := entries - {key};
    }
  }
}
