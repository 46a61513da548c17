/** What a get, a finished discovery and a return each do: which entry a caller
    joins, when a new discovery begins, and what the caller is told. */
module OidcEffects {
  import opened Text
  import opened OidcCache

  /** The key has an entry that is in flight, or a provider still in its time. */
  predicate Serves(s: State, k: Key, now: Time) {
    k in s.entries && s.entries[k] in s.heap
    && (!s.heap[s.entries[k]].closed || s.heap[s.entries[k]].outcome.None?
        || (s.heap[s.entries[k]].outcome.value.Provider? && now < s.heap[s.entries[k]].outcome.value.expires))
  }

  /** A get joins the entry that serves its key and starts nothing; without one it
      starts one discovery, and waits on it. */
  lemma GetJoinsOrStarts(s: State, caller: int, k: Key, now: Time)
    requires Inv(s)
    ensures var t := Lookup(s, caller, k, now);
            && k in t.entries && t.entries[k] in t.heap && caller in t.waiters
            && t.waiters[caller] == Waiter(k, t.entries[k], now, !t.heap[t.entries[k]].closed)
            && (Serves(s, k, now) ==> && t.entries[k] == s.entries[k] && t.started == s.started
                                      && t.resolvers == s.resolvers && t.heap == s.heap)
            && (!Serves(s, k, now) ==> && t.entries[k] == s.next && s.next !in s.heap
                                       && t.heap == s.heap[s.next := Entry(k, None, false)]
                                       && t.resolvers == s.resolvers[s.next := Discovering(k)]
                                       && t.started == s.started[k := Count(s.started, k) + 1])
  {
  }

  /** A get drops the other keys' entries that no longer serve, and no others. */
  lemma GetDropsOnlyExpired(s: State, caller: int, k: Key, now: Time, other: Key)
    requires Inv(s) && other != k
    ensures var t := Lookup(s, caller, k, now);
            && (other in t.entries <==> Serves(s, other, now))
            && (other in t.entries ==> t.entries[other] == s.entries[other])
  {
  }

  /** A discovery that found a provider serves its key for ten minutes; one that
      failed leaves no entry of its own behind. */
  lemma DiscoveryEnds(s: State, e: int, found: bool, now: Time)
    requires Inv(s) && e in s.resolvers && s.resolvers[e].Discovering?
    ensures var t, k := Settle(s, e, found, now), s.heap[e].key;
            && e in t.heap && t.heap[e].key == k
            && t.heap[e].outcome == Some(if found then Provider(k, now + 600) else Failure)
            && (found ==> t.entries == s.entries)
            && (!found ==> t.entries == if k in s.entries && s.entries[k] == e then s.entries - {k} else s.entries)
  {
  }

  /** The caller is told what came of the entry it waits for, once that is ready. */
  lemma ReturnTells(s: State, caller: int)
    requires Inv(s) && caller in s.waiters
    ensures var t, e := Step(s, Return(caller)), s.waiters[caller].entry;
            && e in s.heap
            && (s.heap[e].closed ==> && s.heap[e].outcome.Some? && caller !in t.waiters
                                     && t.answers == s.answers + [Answer(s.waiters[caller], s.heap[e].outcome.value)])
            && (!s.heap[e].closed ==> t == s)
  {
  }

  /** Forgetting a key makes the next get for it start anew, and touches no other. */
  lemma ForgetStartsAnew(s: State, k: Key, caller: int, now: Time)
    requires Inv(s)
    ensures var t := Step(s, Forget(k));
            && !Serves(t, k, now) && (forall other | other != k :: Serves(t, other, now) <==> Serves(s, other, now))
            && t.waiters == s.waiters && t.heap == s.heap && t.resolvers == s.resolvers
  {
  }

  /** From the moment its channel is closed until ten minutes after it was found,
      a provider answers every get at once. */
  lemma ProviderServes(s: State, k: Key, now: Time, later: Time)
    requires Inv(s) && k in s.entries && s.entries[k] in s.resolvers && s.resolvers[s.entries[k]].Discovering?
    ensures var e := s.entries[k];
            var t := Step(Step(s, Resolve(e, true, now)), CloseReady(e));
            && (Serves(t, k, later) <==> later < now + 600)
            && t.heap[e].closed && t.heap[e].outcome == Some(Provider(k, now + 600))
  {
  }
}
