/** The Hub tables as the store changes them: one object whose methods are the
    transactions, each proved to do what HubProtocol and HubSync say. */
module HubStore {
  import opened Text
  import opened Codec
  import opened HubSync
  import P = HubProtocol

  /** Keys of planHubSnapshot and runningServerStates. */
  function PlanKey(user: string, name: string): string {
    user + ['\U{0}'] + name
  }

  lemma FirstNul(user: string, name: string)
    requires TextOk(user)
    ensures PlanKey(user, name)[|user|] == '\U{0}'
            && forall i | 0 <= i < |user| :: PlanKey(user, name)[i] == user[i] && user[i] != '\U{0}'
  {
  }

  lemma PlanKeyIsInjective(u1: string, n1: string, u2: string, n2: string)
    requires TextOk(u1) && TextOk(u2)
    ensures PlanKey(u1, n1) == PlanKey(u2, n2) <==> u1 == u2 && n1 == n2
  {
    if PlanKey(u1, n1) == PlanKey(u2, n2) {
      FirstNul(u1, n1);
      FirstNul(u2, n2);
      assert |u1| == |u2|;
      assert PlanKey(u1, n1)[..|u1|] == u1 && PlanKey(u2, n2)[..|u2|] == u2;
      assert PlanKey(u1, n1)[|u1| + 1..] == n1 && PlanKey(u2, n2)[|u2| + 1..] == n2;
    }
  }

  ghost predicate TextsOk(users: seq<JupyterUser>) {
    && (forall u | u in users :: TextOk(u.name))
    && (forall o | o in AllObserved(users) :: TextOk(o.user) && TextOk(o.name))
  }

  function ActiveKeys(obs: seq<Observation>): set<string> {
    set o | o in obs :: PlanKey(o.user, o.name)
  }

  lemma ActiveKeysJoin(a: seq<Observation>, b: seq<Observation>)
    ensures ActiveKeys(a + b) == ActiveKeys(a) + ActiveKeys(b)
  {
  }

  method PlanUser(user: JupyterUser) returns (active: set<string>)
    ensures active == ActiveKeys(Observed(user))
  {
    active := {};
    for j := 0 to |user.servers|
      invariant active + ActiveKeys(ObserveServers(user.name, user.servers[j..]))
              == ActiveKeys(ObserveServers(user.name, user.servers))
    {
      var (name, raw) := user.servers[j];
      assert user.servers[j..][0] == user.servers[j] && user.servers[j..][1..] == user.servers[j + 1..];
      if ParseStatus(raw) != "stopped" {
        active := active + {PlanKey(user.name, name)};
        ActiveKeysJoin([Observation(user.name, name, ParseStatus(raw), raw.started, raw.lastActivity)],
                       ObserveServers(user.name, user.servers[j + 1..]));
      }
    }
    ghost var legacy := if user.servers == [] && user.server != ""
        then [Observation(user.name, "", "running", None, user.lastActivity)] else [];
    ActiveKeysJoin(ObserveServers(user.name, user.servers), legacy);
    if |user.servers| == 0 && user.server != "" {
      active := active + {PlanKey(user.name, "")};
    }
  }

  /** planHubSnapshot: seen users in order, the string keys of active servers. */
  method PlanHubSnapshot(users: seq<JupyterUser>) returns (seen: seq<string>, active: set<string>, deactivateAll: bool)
    ensures |seen| == |users| && forall i | 0 <= i < |users| :: seen[i] == users[i].name
    ensures active == ActiveKeys(AllObserved(users))
    ensures deactivateAll <==> users == []
  {
    seen, active, deactivateAll := [], {}, |users| == 0;
    for i := 0 to |users|
      invariant |seen| == i && forall j | 0 <= j < i :: seen[j] == users[j].name
      invariant active + ActiveKeys(AllObserved(users[i..])) == ActiveKeys(AllObserved(users))
    {
      seen := seen + [users[i].name];
      var planned := PlanUser(users[i]);
      active := active + planned;
      assert users[i..][0] == users[i] && users[i..][1..] == users[i + 1..];
      ActiveKeysJoin(Observed(users[i]), AllObserved(users[i + 1..]));
    }
  }

  ghost predicate StatesOf(states: map<string, Option<Time>>, existing: map<Key, Option<Time>>, hub: int) {
    forall u: string, n: string | TextOk(u) ::
      (PlanKey(u, n) in states <==> Key(hub, u, n) in existing) &&
      (Key(hub, u, n) in existing ==> states[PlanKey(u, n)] == existing[Key(hub, u, n)])
  }

  /** runningServerStates: the running servers of a Hub by string key. */
  method RunningServerStates(t: Tables, hub: int) returns (states: map<string, Option<Time>>)
    requires forall k | k in t.servers :: TextOk(k.user)
    ensures StatesOf(states, Existing(t, hub), hub)
  {
    states := map[];
    var rows := t.servers.Keys;
    ghost var done: map<Key, Option<Time>> := map[];
    while rows != {}
      invariant rows <= t.servers.Keys && done.Keys !! rows
      invariant forall k | k in Existing(t, hub) && k !in rows :: k in done
      invariant forall k | k in done :: k in Existing(t, hub) && done[k] == Existing(t, hub)[k]
      invariant StatesOf(states, done, hub)
      decreases rows
    {
      var k :| k in rows;
      rows := rows - {k};
      if k.hub == hub && t.servers[k].status != "stopped" {
        ghost var before, known := states, done;
        states := states[PlanKey(k.user, k.name) := t.servers[k].started];
        done := done[k := t.servers[k].started];
        forall u: string, n: string | TextOk(u)
          ensures (PlanKey(u, n) in states <==> Key(hub, u, n) in done)
                  && (Key(hub, u, n) in done ==> states[PlanKey(u, n)] == done[Key(hub, u, n)])
        {
          PlanKeyIsInjective(u, n, k.user, k.name);
          assert PlanKey(u, n) in before <==> Key(hub, u, n) in known;
        }
      }
    }
    assert done == Existing(t, hub);
  }

  lemma {:induction false} BadTextIsRejected(t: Tables, hub: int, users: seq<JupyterUser>, origin: string,
                                             existing: map<Key, Option<Time>>, now: Time)
    requires !TextsOk(users)
    ensures ApplyUsers(t, hub, users, origin, existing, now) == Rejected
    decreases |users|
  {
    if TextOk(users[0].name) {
      var named := UpsertUser(t, hub, users[0], origin).value;
      if exists o | o in Observed(users[0]) :: !TextOk(o.user) || !TextOk(o.name) {
        BadObservationIsRejected(named, hub, Observed(users[0]), origin, existing, now);
      } else {
        assert forall u | u in users :: u == users[0] || u in users[1..];
        assert !TextsOk(users[1..]);
        if ApplyUser(t, hub, users[0], origin, existing, now).Ok? {
          BadTextIsRejected(ApplyUser(t, hub, users[0], origin, existing, now).value, hub, users[1..], origin,
                            existing, now);
        }
      }
    }
  }

  lemma {:induction false} BadObservationIsRejected(t: Tables, hub: int, obs: seq<Observation>, origin: string,
                                                    existing: map<Key, Option<Time>>, now: Time)
    requires exists o | o in obs :: !TextOk(o.user) || !TextOk(o.name)
    ensures ObserveAll(t, hub, obs, origin, existing, now) == Rejected
    decreases |obs|
  {
    if TextOk(obs[0].user) && TextOk(obs[0].name) && Observe(t, hub, obs[0], origin, existing, now).Ok? {
      assert forall o | o in obs :: o == obs[0] || o in obs[1..];
      BadObservationIsRejected(Observe(t, hub, obs[0], origin, existing, now).value, hub, obs[1..], origin, existing,
                               now);
    }
  }

  lemma CloseOneMore(sessions: map<int, Session>, keys: set<Key>, k: Key, now: Time)
    requires k !in keys
    ensures var closed := CloseSessions(sessions, keys, now);
            && CloseSessions(closed, {k}, now) == CloseSessions(sessions, keys + {k}, now)
            && (CanClose(sessions, keys + {k}, now) <==> CanClose(sessions, keys, now) && CanClose(closed, {k}, now))
  {
    var closed := CloseSessions(sessions, keys, now);
    forall i | i in sessions
      ensures CloseSessions(closed, {k}, now)[i] == CloseSessions(sessions, keys + {k}, now)[i]
    {
    }
    assert CloseSessions(closed, {k}, now) == CloseSessions(sessions, keys + {k}, now);
    assert forall i | i in sessions && IsOpen(sessions[i], k) :: closed[i] == sessions[i];
  }

  lemma StopOneMore(t: Tables, keys: set<Key>, k: Key, now: Time)
    requires keys <= t.servers.Keys && k in t.servers && k !in keys && StopServers(t, keys, now).Ok?
    ensures var u := StopServers(t, keys, now).value;
            && k in u.servers && StopServers(u, {k}, now) == StopServers(t, keys + {k}, now)
  {
    CloseOneMore(t.sessions, keys, k, now);
    var u := StopServers(t, keys, now).value;
    if CanClose(u.sessions, {k}, now) {
      assert StopServers(u, {k}, now).value.servers == StopServers(t, keys + {k}, now).value.servers;
    }
  }

  lemma StopNothing(t: Tables, now: Time)
    ensures StopServers(t, {}, now) == Ok(t)
  {
    var u := StopServers(t, {}, now).value;
    assert u.servers == t.servers && u.sessions == t.sessions;
  }

  lemma StopFewer(t: Tables, keys: set<Key>, more: set<Key>, now: Time)
    requires keys <= more <= t.servers.Keys && StopServers(t, keys, now) == Rejected
    ensures StopServers(t, more, now) == Rejected
  {
  }

  lemma PlannedKeys(t: Tables, hub: int, states: map<string, Option<Time>>)
    requires Consistent(t) && StatesOf(states, Existing(t, hub), hub)
    ensures (set k | k in t.servers && k.hub == hub && PlanKey(k.user, k.name) in states) == Existing(t, hub).Keys
  {
    forall k | k in t.servers && k.hub == hub
      ensures PlanKey(k.user, k.name) in states <==> k in Existing(t, hub)
    {
      assert k == Key(hub, k.user, k.name);
    }
  }

  /** The first loop of syncHubUsers: running servers the plan does not list. */
  method StopUnlisted(t0: Tables, hub: int, states: map<string, Option<Time>>, active: set<string>,
                      ghost missing: set<Key>, now: Time) returns (r: Result<Tables>)
    requires Consistent(t0) && StatesOf(states, Existing(t0, hub), hub)
    requires missing == set k | k in Existing(t0, hub) && PlanKey(k.user, k.name) !in active
    ensures missing <= t0.servers.Keys && r == StopServers(t0, missing, now)
  {
    var t := t0;
    var rest := set k | k in t0.servers && k.hub == hub && PlanKey(k.user, k.name) in states;
    PlannedKeys(t0, hub, states);
    ghost var done: set<Key> := {};
    StopNothing(t0, now);
    while rest != {}
      invariant rest <= Existing(t0, hub).Keys && done <= missing <= done + rest && done !! rest
      invariant StopServers(t0, done, now) == Ok(t)
      decreases rest
    {
      var k :| k in rest;
      rest := rest - {k};
      if PlanKey(k.user, k.name) !in active {
        StopOneMore(t0, done, k, now);
        if !CanClose(t.sessions, {k}, now) {
          StopFewer(t0, done + {k}, missing, now);
          return Rejected;
        }
        t := StopServers(t, {k}, now).value;
        done := done + {k};
      }
    }
    assert done == missing;
    r := Ok(t);
  }

  /** reconcileServerSession: close the previous run on a restart, then insert or
      refresh the open session. */
  method ReconcileServerSession(t0: Tables, k: Key, started: Option<Time>, lastActivity: Option<Time>,
                                previous: Option<Option<Time>>, observedAt: Time) returns (r: Result<Tables>)
    ensures r == Reconcile(t0, k, started, lastActivity, previous, observedAt)
  {
    var t := t0;
    var restarted := previous.Some? && started.Some?
        && (previous.value.None? || started.value > previous.value.value + SECOND);
    if restarted {
      var endedAt := observedAt;
      if started.value < observedAt {
        endedAt := started.value;
      }
      if !CanClose(t.sessions, {k}, endedAt) {
        return Rejected;
      }
      t := t.(sessions := CloseSessions(t.sessions, {k}, endedAt));
    }
    var start := observedAt;
    if started.Some? && !(started.value > observedAt + MINUTE) {
      start := started.value;
    } else if previous.Some? && previous.value.Some? {
      start := previous.value.value;
    }
    r := Ok(OpenSession(t, k, start, lastActivity));
  }

  method ObserveServer(t: Tables, hub: int, o: Observation, origin: string, states: map<string, Option<Time>>,
                       ghost existing: map<Key, Option<Time>>, now: Time) returns (r: Result<Tables>)
    requires StatesOf(states, existing, hub)
    ensures r == Observe(t, hub, o, origin, existing, now)
  {
    var k := Key(hub, o.user, o.name);
    if !TextOk(o.user) || !TextOk(o.name) {
      return Rejected;
    }
    var key := PlanKey(o.user, o.name);
    var previous := if key in states then Some(states[key]) else None;
    assert previous == Previous(existing, k);
    r := ReconcileServerSession(UpsertServer(t, k, o, origin), k, o.started, o.lastActivity, previous, now);
  }

  /** The body of the loop over users: the user row, then each active server. */
  method ApplyOneUser(t0: Tables, hub: int, user: JupyterUser, origin: string, states: map<string, Option<Time>>,
                      ghost existing: map<Key, Option<Time>>, now: Time) returns (r: Result<Tables>)
    requires StatesOf(states, existing, hub)
    ensures r == ApplyUser(t0, hub, user, origin, existing, now)
  {
    r := UpsertUser(t0, hub, user, origin);
    if r.Rejected? {
      return;
    }
    ghost var goal := ApplyUser(t0, hub, user, origin, existing, now);
    ghost var legacy := if user.servers == [] && user.server != ""
        then [Observation(user.name, "", "running", None, user.lastActivity)] else [];
    for i := 0 to |user.servers|
      invariant r.Ok? && ObserveAll(r.value, hub, ObserveServers(user.name, user.servers[i..]) + legacy, origin,
                                    existing, now) == goal
    {
      var (name, raw) := user.servers[i];
      ghost var rest := ObserveServers(user.name, user.servers[i + 1..]) + legacy;
      assert user.servers[i..][0] == user.servers[i] && user.servers[i..][1..] == user.servers[i + 1..];
      if ParseStatus(raw) == "stopped" {
        continue;
      }
      var o := Observation(user.name, name, ParseStatus(raw), raw.started, raw.lastActivity);
      assert ObserveServers(user.name, user.servers[i..]) + legacy == [o] + rest;
      assert ([o] + rest)[1..] == rest;
      r := ObserveServer(r.value, hub, o, origin, states, existing, now);
      if r.Rejected? {
        return;
      }
    }
    assert ObserveServers(user.name, user.servers[|user.servers|..]) + legacy == legacy;
    if |user.servers| == 0 && user.server != "" {
      var o := Observation(user.name, "", "running", None, user.lastActivity);
      assert legacy == [o] && legacy[1..] == [];
      r := ObserveServer(r.value, hub, o, origin, states, existing, now);
    }
  }

  /** Omitted fields of an update take the current row's values. */
  method CompleteWrite(current: P.Hub, input: P.HubWrite) returns (w: P.HubWrite)
    ensures w == P.Completed(current, input)
  {
    var n := P.Normalize(input);
    var name, baseURL, network, interval := n.name, n.baseURL, n.network, n.interval;
    if name == "" {
      name := current.name;
    }
    if baseURL == "" {
      baseURL := current.baseURL;
    }
    if network == "" {
      network := current.network;
    }
    var enabled, verifyTLS := current.enabled, current.verifyTLS;
    if n.enabled.Some? {
      enabled := n.enabled.value;
    }
    if n.verifyTLS.Some? {
      verifyTLS := n.verifyTLS.value;
    }
    if interval == 0 {
      interval := current.interval;
    }
    w := n.(name := name, baseURL := baseURL, network := network, enabled := Some(enabled),
            verifyTLS := Some(verifyTLS), interval := interval);
  }

  method Truncated(value: string, max: nat) returns (r: string)
    ensures r == P.Truncate(value, max)
  {
    if |value| <= max {
      return value;
    }
    var cut: nat := max;
    while cut > 0 && !P.RuneStart(value[cut])
      invariant cut <= max && P.CutAt(value, cut) == P.CutAt(value, max)
    {
      cut := cut - 1;
    }
    r := value[..cut];
  }

  class Store {
    var hubs: map<int, P.Hub>
    var tables: Tables
    ghost var entered: map<string, P.Binding>
    ghost var last: map<int, seq<JupyterUser>>

    ghost function View(): P.State
      reads this
    {
      P.State(hubs, tables, entered, map[], [], last)
    }

    ghost predicate Valid()
      reads this
    {
      P.Inv(View())
    }

    constructor ()
      ensures View() == P.INITIAL && Valid()
    {
      hubs, tables, entered, last := map[], Tables(map[], map[], map[], 1, 1), map[], map[];
      new;
      P.HubSafety([]);
      P.RunKeeps(P.INITIAL, []);
    }

    /** CreateHub: id is the next sequence value, cipher what encryption produces. */
    method CreateHub(id: int, input: P.HubWrite, cipher: string) returns (ok: bool)
      requires Valid() && P.Fresh(View(), cipher) && id !in hubs && P.Int64(id)
      modifies this
      ensures Valid() && View() == P.CreateHub(old(View()), id, input, cipher)
      ensures ok <==> id in hubs
    {
      P.CreateKeeps(View(), id, input, cipher);
      ok := InsertHub(id, input, cipher);
    }

    method InsertHub(id: int, input: P.HubWrite, cipher: string) returns (ok: bool)
      requires P.Fresh(View(), cipher) && id !in hubs && P.Int64(id)
      modifies this
      ensures View() == P.CreateHub(old(View()), id, input, cipher)
      ensures ok <==> id in hubs
    {
      var w := P.Normalize(input);
      var enabled, verifyTLS := true, true;
      if w.enabled.Some? {
        enabled := w.enabled.value;
      }
      if w.verifyTLS.Some? {
        verifyTLS := w.verifyTLS.value;
      }
      if w.interval == 0 {
        w := w.(interval := 60);
      }
      if !P.ValidWrite(w, true) {
        return false;
      }
      hubs := hubs[id := P.Hub(w.name, w.baseURL, w.network, enabled, verifyTLS, w.interval, Some(cipher), "unknown",
                               "", "", None)];
      entered := entered[cipher := P.Binding(Authority(w.baseURL), verifyTLS)];
      last := last - {id};
      ok := true;
    }

    /** GetServerActionCredential: the server row and its Hub row in one snapshot. */
    method GetServerActionCredential(serverId: int) returns (action: Option<P.Action>)
      requires Valid()
      ensures action.Some? <==> P.HasServer(tables, serverId)
      ensures action.Some? ==> P.ReadServerAction(View(), serverId).actions == [action.value]
                               && P.ActionOk(View(), action.value)
    {
      var rest := tables.servers.Keys;
      while rest != {}
        invariant rest <= tables.servers.Keys
        invariant forall k | k in tables.servers && k !in rest :: tables.servers[k].id != serverId
        decreases rest
      {
        var k :| k in rest;
        rest := rest - {k};
        if tables.servers[k].id == serverId {
          assert P.HasServer(tables, serverId);
          P.ActionIsOk(View(), k);
          var h := hubs[k.hub];
          return Some(P.Action(tables.servers[k].origin, h.baseURL, h.verifyTLS, h.token));
        }
      }
      action := None;
    }

    /** UpdateHub: cipher is the ciphertext encryption would produce now. */
    method UpdateHub(id: int, input: P.HubWrite, cipher: string) returns (ok: bool)
      requires Valid() && P.Fresh(View(), cipher)
      modifies this
      ensures Valid() && View() == P.UpdateHub(old(View()), id, input, cipher)
      ensures ok <==> id in old(hubs) && P.UpdateAllowed(old(hubs)[id], P.Completed(old(hubs)[id], input))
    {
      P.UpdateKeeps(View(), id, input, cipher);
      ok := WriteHub(id, input, cipher);
    }

    method WriteHub(id: int, input: P.HubWrite, cipher: string) returns (ok: bool)
      requires P.Fresh(View(), cipher)
      modifies this
      ensures View() == P.UpdateHub(old(View()), id, input, cipher)
      ensures ok <==> id in old(hubs) && P.UpdateAllowed(old(hubs)[id], P.Completed(old(hubs)[id], input))
    {
      if id !in hubs {
        return false;
      }
      var current := hubs[id];
      var w := CompleteWrite(current, input);
      var verifyTLS := w.verifyTLS.value;
      if !P.ValidWrite(w, false) {
        return false;
      }
      if w.apiToken == "" && (current.token.None? || P.BindingChanged(current.baseURL, current.verifyTLS, w.baseURL,
                                                                      verifyTLS)) {
        return false;
      }
      var token := current.token;
      if w.apiToken != "" {
        token := Some(cipher);
        entered := entered[cipher := P.Binding(Authority(w.baseURL), verifyTLS)];
      }
      var row := P.Hub(w.name, w.baseURL, w.network, w.enabled.value, verifyTLS, w.interval, token, current.status,
                       current.version, current.lastError, current.healthOrigin);
      var replaceTarget := current.baseURL != w.baseURL;
      if replaceTarget {
        row := row.(status := "unknown", version := "", lastError := "", healthOrigin := None);
        tables := P.DropMaterialized(tables, id);
        last := last - {id};
      }
      hubs := hubs[id := row];
      ok := true;
    }

    method DeleteHub(id: int) returns (ok: bool)
      requires Valid()
      modifies this
      ensures Valid() && View() == P.DeleteHub(old(View()), id)
      ensures ok <==> id in old(hubs)
    {
      P.DeleteKeeps(View(), id);
      ok := id in hubs;
      if ok {
        hubs, tables, last := hubs - {id}, P.DropHub(tables, id), last - {id};
      }
    }

    method GetHubCredential(id: int) returns (c: Option<P.Capture>)
      requires Valid()
      ensures c.Some? <==> id in hubs
      ensures c.Some? ==> P.CaptureOk(View(), c.value) && P.Matches(View(), c.value)
    {
      if id !in hubs {
        return None;
      }
      var h := hubs[id];
      var generation := HubCredentialGeneration(id, h.baseURL, h.verifyTLS, h.enabled, P.TokenText(h.token));
      c := Some(P.Capture(id, h.baseURL, h.verifyTLS, P.TokenText(h.token), generation));
    }

    /** lockAndMatchHubCredential under the row lock. */
    method LockAndMatch(c: P.Capture) returns (current: bool)
      requires P.Int64(c.hub)
      ensures current <==> P.Matches(View(), c)
    {
      if c.hub !in hubs {
        return false;
      }
      var h := hubs[c.hub];
      var generation := HubCredentialGeneration(c.hub, h.baseURL, h.verifyTLS, h.enabled, P.TokenText(h.token));
      current := generation == c.generation;
    }

    method UpdateHubHealthIfCurrent(c: P.Capture, success: bool, version: string, error: string) returns (stored: bool)
      requires Valid() && P.CaptureOk(View(), c)
      modifies this
      ensures Valid() && View() == P.CommitHealthIfCurrent(old(View()), c, success, version, error)
      ensures stored <==> P.Matches(old(View()), c)
    {
      P.CommitHealthKeeps(View(), c, success, version, error);
      stored := LockAndMatch(c);
      if !stored {
        return;
      }
      var h := hubs[c.hub].(healthOrigin := Some(Authority(c.baseURL)));
      if success {
        h := h.(status := "healthy", version := version, lastError := "");
      } else {
        var lastError := Truncated(error, 1000);
        h := h.(status := "degraded", lastError := lastError);
      }
      hubs := hubs[c.hub := h];
    }

    /** SyncHubUsersIfCurrent: the whole transaction, rolled back on any refusal. */
    method SyncHubUsersIfCurrent(c: P.Capture, users: seq<JupyterUser>, observedAt: Time) returns (stored: bool)
      requires Valid() && P.CaptureOk(View(), c)
      modifies this
      ensures Valid() && View() == P.CommitSyncIfCurrent(old(View()), c, users, observedAt)
      ensures stored <==> P.Matches(old(View()), c)
                          && Sync(old(tables), c.hub, users, Authority(c.baseURL), observedAt).Ok?
    {
      P.CommitSyncKeeps(View(), c, users, observedAt);
      var current := LockAndMatch(c);
      if !current {
        return false;
      }
      var r := SyncTables(tables, c.hub, users, Authority(c.baseURL), observedAt);
      stored := r.Ok?;
      if stored {
        tables := r.value;
        last := last[c.hub := users];
      }
    }
  }

  /** The statements of syncHubUsers, on the transaction's view of the tables. */
  method SyncTables(t0: Tables, hub: int, users: seq<JupyterUser>, origin: string, observedAt: Time)
      returns (r: Result<Tables>)
    requires Consistent(t0)
    ensures r == Sync(t0, hub, users, origin, observedAt)
  {
    var seen, active, deactivateAll := PlanHubSnapshot(users);
    var states := RunningServerStates(t0, hub);
    ghost var existing := Existing(t0, hub);
    ghost var missing := set k | k in existing && PlanKey(k.user, k.name) !in active;
    if TextsOk(users) {
      PlanNamesMissing(t0, hub, users, active);
    }
    r := StopUnlisted(t0, hub, states, active, missing, observedAt);
    if r.Rejected? {
      BadTextRefusesSync(t0, hub, users, origin, observedAt);
      return;
    }
    var stopped := r.value;
    r := ApplyAll(stopped, hub, users, origin, states, existing, observedAt);
    if r.Rejected? {
      BadTextRefusesSync(t0, hub, users, origin, observedAt);
      return;
    }
    if !TextsOk(users) {
      BadTextIsRejected(stopped, hub, users, origin, existing, observedAt);
    }
    var t := DeactivateUnlisted(r.value, hub, users, seen, deactivateAll);
    r := Ok(t);
  }

  method DeactivateUnlisted(t0: Tables, hub: int, ghost users: seq<JupyterUser>, seen: seq<string>,
                            deactivateAll: bool) returns (t: Tables)
    requires |seen| == |users| && (forall i | 0 <= i < |users| :: seen[i] == users[i].name)
            && (deactivateAll <==> users == [])
    ensures t == Deactivate(t0, hub, users)
  {
    t := t0;
    if !deactivateAll {
      t := t.(users := map u | u in t.users ::
                         if u.0 == hub && u.1 !in seen then t.users[u].(active := false) else t.users[u]);
    } else {
      t := t.(users := map u | u in t.users :: if u.0 == hub then t.users[u].(active := false) else t.users[u]);
    }
    SeenIsListed(users, seen);
    assert t.users == Deactivate(t0, hub, users).users;
  }

  lemma SeenIsListed(users: seq<JupyterUser>, seen: seq<string>)
    requires |seen| == |users| && forall i | 0 <= i < |users| :: seen[i] == users[i].name
    ensures forall n: string :: n in seen <==> Listed(users, n)
  {
    forall n: string
      ensures n in seen <==> Listed(users, n)
    {
      if n in seen {
        var i :| 0 <= i < |seen| && seen[i] == n;
        assert users[i] in users;
      }
    }
  }

  method ApplyAll(t0: Tables, hub: int, users: seq<JupyterUser>, origin: string, states: map<string, Option<Time>>,
                  ghost existing: map<Key, Option<Time>>, now: Time) returns (r: Result<Tables>)
    requires StatesOf(states, existing, hub)
    ensures r == ApplyUsers(t0, hub, users, origin, existing, now)
  {
    r := Ok(t0);
    for i := 0 to |users|
      invariant r.Ok? && ApplyUsers(r.value, hub, users[i..], origin, existing, now)
              == ApplyUsers(t0, hub, users, origin, existing, now)
    {
      assert users[i..][0] == users[i] && users[i..][1..] == users[i + 1..];
      r := ApplyOneUser(r.value, hub, users[i], origin, states, existing, now);
      if r.Rejected? {
        return;
      }
    }
  }

  lemma PlanNamesMissing(t: Tables, hub: int, users: seq<JupyterUser>, active: set<string>)
    requires Consistent(t) && TextsOk(users) && active == ActiveKeys(AllObserved(users))
    ensures (set k | k in Existing(t, hub) && PlanKey(k.user, k.name) !in active) == Missing(t, hub, users)
  {
    forall k | k in Existing(t, hub)
      ensures PlanKey(k.user, k.name) in active <==> ListedActive(users, k)
    {
      forall o | o in AllObserved(users)
        ensures PlanKey(o.user, o.name) == PlanKey(k.user, k.name) <==> o.user == k.user && o.name == k.name
      {
        PlanKeyIsInjective(o.user, o.name, k.user, k.name);
      }
    }
  }

  lemma BadTextRefusesSync(t: Tables, hub: int, users: seq<JupyterUser>, origin: string, now: Time)
    ensures !TextsOk(users) ==> Sync(t, hub, users, origin, now) == Rejected
  {
    if !TextsOk(users) && StopServers(t, Missing(t, hub, users), now).Ok? {
      BadTextIsRejected(StopServers(t, Missing(t, hub, users), now).value, hub, users, origin, Existing(t, hub), now);
    }
  }
}
