/** The table both rate limiters keep: one fixed window per key, and the rule
    that keeps the table from growing without bound. */
module WindowTable {
  datatype Entry = Entry(started: int, count: nat)

  predicate Expired(e: Entry, window: int, now: int) {
    now - e.started >= window
  }

  function Live(table: map<string, Entry>, window: int, now: int): map<string, Entry> {
    map key | key in table && !Expired(table[key], window, now) :: table[key]
  }

  ghost predicate Within(part: map<string, Entry>, whole: map<string, Entry>) {
    forall key | key in part :: key in whole && part[key] == whole[key]
  }

  /** No key kept is older than a key dropped. */
  ghost predicate OldestFirst(kept: map<string, Entry>, live: map<string, Entry>) {
    forall k, v | k in kept && k in live && v in live && v !in kept :: live[v].started <= live[k].started
  }

  /** What prune may leave. Go's map order is unspecified, so ties fall either
      way; an empty key also defeats the search for the oldest. */
  ghost predicate Pruned(before: map<string, Entry>, after: map<string, Entry>, window: int, max: nat, now: int) {
    if |before| < max then after == before
    else
      var live := Live(before, window, now);
      && Within(after, live)
      && (if |live| < max then after == live else |after| == max - 1)
      && ("" !in live ==> OldestFirst(after, live))
  }

  lemma PrunedIsPart(before: map<string, Entry>, after: map<string, Entry>, window: int, max: nat, now: int)
    requires 0 < max && Pruned(before, after, window, max, now)
    ensures Within(after, before) && |after| < max
  {
  }

  method Oldest(table: map<string, Entry>) returns (oldestKey: string)
    requires table.Keys != {}
    ensures oldestKey in table
    ensures "" !in table ==> forall k | k in table :: table[oldestKey].started <= table[k].started
  {
    oldestKey := "";
    var oldest := 0;
    var rest := table.Keys;
    while rest != {}
      invariant rest <= table.Keys
      invariant (rest == table.Keys && oldestKey == "")
              || (oldestKey in table.Keys - rest && oldest == table[oldestKey].started)
      invariant "" !in table ==> forall k | k in table.Keys - rest :: oldest <= table[k].started
      decreases rest
    {
      var key :| key in rest;
      rest := rest - {key};
      if oldestKey == "" || table[key].started < oldest {
        oldestKey, oldest := key, table[key].started;
      }
    }
  }

  lemma Removal(table: map<string, Entry>, key: string)
    requires key in table
    ensures |table - {key}| == |table| - 1
  {
    assert (table - {key}).Keys == table.Keys - {key};
    assert |table.Keys| == |table| && |(table - {key}).Keys| == |table - {key}|;
  }

  method Prune(table: map<string, Entry>, window: int, max: nat, now: int) returns (pruned: map<string, Entry>)
    requires 0 < max
    ensures Pruned(table, pruned, window, max, now)
  {
    if |table| < max {
      return table;
    }
    var live := Live(table, window, now);
    pruned := live;
    while |pruned| >= max
      invariant Within(pruned, live) && OldestOut(pruned, live)
      invariant |live| < max ==> pruned == live
      invariant |live| >= max ==> |pruned| >= max - 1
      decreases |pruned|
    {
      assert |pruned.Keys| == |pruned|;
      var oldestKey := Oldest(pruned);
      Removal(pruned, oldestKey);
      pruned := pruned - {oldestKey};
    }
  }

  ghost predicate OldestOut(kept: map<string, Entry>, live: map<string, Entry>) {
    "" !in live ==> OldestFirst(kept, live)
  }
}
