/** What a committed sync did to every row: which sessions it ended and when,
    which it opened and since when, and what it stored of each server and user. */
module SyncEffects {
  import opened Text
  import opened HubSync

  // ---------- reading the snapshot ----------

  /** What a stored status tells about the remote server; none says it stopped. */
  lemma StatusTells(raw: RawServer)
    ensures var status := ParseStatus(raw);
            var pending := if raw.pending.Some? then raw.pending.value else "";
            && (pending != "" <==> "pending_" <= status) && (pending != "" ==> status[8..] == pending)
            && (status == "starting" <==> pending == "" && raw.ready == Some(false))
            && (status == "running" <==> pending == "" && raw.ready != Some(false))
            && status != "stopped"
  {
    assert "starting"[0] != "pending_"[0] && "running"[0] != "pending_"[0] && "stopped"[0] != "pending_"[0];
    assert "starting"[0] != "running"[0] && "starting"[1] == "stopped"[1] && "starting"[2] != "stopped"[2];
    if raw.pending.Some? && raw.pending.value != "" {
      assert ParseStatus(raw)[0] == 'p';
    }
  }

  lemma {:induction false} ServersAre(user: string, servers: seq<(string, RawServer)>, o: Observation)
    ensures o in ObserveServers(user, servers)
            <==> exists i :: 0 <= i < |servers| && o == Observation(user, servers[i].0, ParseStatus(servers[i].1),
                                                                    servers[i].1.started, servers[i].1.lastActivity)
  {
    if servers != [] {
      var (name, raw) := servers[0];
      var rest := servers[1..];
      StatusTells(raw);
      ServersAre(user, rest, o);
      assert forall i :: 0 < i < |servers| ==> servers[i] == rest[i - 1];
    }
  }

  /** Every server a user has is observed, as is the single server of older Hubs. */
  lemma ObservedAre(u: JupyterUser, o: Observation)
    ensures o in Observed(u)
            <==> || (exists i :: 0 <= i < |u.servers|
                                && o == Observation(u.name, u.servers[i].0, ParseStatus(u.servers[i].1),
                                                    u.servers[i].1.started, u.servers[i].1.lastActivity))
                 || (u.servers == [] && u.server != "" && o == Observation(u.name, "", "running", None, u.lastActivity))
  {
    ServersAre(u.name, u.servers, o);
  }

  lemma {:induction false} AllObservedAre(users: seq<JupyterUser>, o: Observation)
    ensures o in AllObserved(users) <==> exists u | u in users :: o in Observed(u)
  {
    if users != [] {
      AllObservedAre(users[1..], o);
      assert forall u | u in users :: u == users[0] || u in users[1..];
    }
  }

  // ---------- a sync as one list of observations ----------

  predicate About(o: Observation, hub: int, k: Key) {
    k.hub == hub && o.user == k.user && o.name == k.name
  }

  lemma ObserveIgnoresUsers(t: Tables, v: map<(int, string), ManagedUser>, hub: int, o: Observation, origin: string,
                            existing: map<Key, Option<Time>>, now: Time)
    ensures Observe(t.(users := v), hub, o, origin, existing, now)
            == match Observe(t, hub, o, origin, existing, now)
               case Rejected => Rejected
               case Ok(u) => Ok(u.(users := v))
  {
  }

  lemma {:induction false} ObserveAllIgnoresUsers(t: Tables, v: map<(int, string), ManagedUser>, hub: int,
                                                  obs: seq<Observation>, origin: string,
                                                  existing: map<Key, Option<Time>>, now: Time)
    ensures ObserveAll(t.(users := v), hub, obs, origin, existing, now)
            == match ObserveAll(t, hub, obs, origin, existing, now)
               case Rejected => Rejected
               case Ok(u) => Ok(u.(users := v))
    decreases |obs|
  {
    if obs != [] {
      ObserveIgnoresUsers(t, v, hub, obs[0], origin, existing, now);
      match Observe(t, hub, obs[0], origin, existing, now)
      case Rejected =>
      case Ok(next) => ObserveAllIgnoresUsers(next, v, hub, obs[1..], origin, existing, now);
    }
  }

  lemma {:induction false} ObserveInTurn(t: Tables, hub: int, a: seq<Observation>, b: seq<Observation>, origin: string,
                                         existing: map<Key, Option<Time>>, now: Time)
    ensures ObserveAll(t, hub, a + b, origin, existing, now)
            == match ObserveAll(t, hub, a, origin, existing, now)
               case Rejected => Rejected
               case Ok(u) => ObserveAll(u, hub, b, origin, existing, now)
    decreases |a|
  {
    if a == [] {
      assert a + b == b;
    } else {
      assert (a + b)[1..] == a[1..] + b;
      match Observe(t, hub, a[0], origin, existing, now)
      case Rejected =>
      case Ok(next) => ObserveInTurn(next, hub, a[1..], b, origin, existing, now);
    }
  }

  /** But for the user rows, the users of a snapshot are their observations in turn. */
  lemma {:induction false} ApplyObserves(t: Tables, hub: int, users: seq<JupyterUser>, origin: string,
                                         existing: map<Key, Option<Time>>, now: Time)
    requires ApplyUsers(t, hub, users, origin, existing, now).Ok?
    ensures var r := ObserveAll(t, hub, AllObserved(users), origin, existing, now);
            var u := ApplyUsers(t, hub, users, origin, existing, now).value;
            r.Ok? && u == r.value.(users := u.users)
    decreases |users|
  {
    if users != [] {
      var named := UpsertUser(t, hub, users[0], origin).value;
      var next := ApplyUser(t, hub, users[0], origin, existing, now).value;
      var u := ApplyUsers(t, hub, users, origin, existing, now).value;
      var first, rest := Observed(users[0]), AllObserved(users[1..]);
      ObserveAllIgnoresUsers(t, named.users, hub, first, origin, existing, now);
      assert named == t.(users := named.users);
      var plain := ObserveAll(t, hub, first, origin, existing, now).value;
      assert next == plain.(users := named.users);
      ApplyObserves(next, hub, users[1..], origin, existing, now);
      ObserveAllIgnoresUsers(plain, named.users, hub, rest, origin, existing, now);
      ObserveInTurn(t, hub, first, rest, origin, existing, now);
    }
  }

  /** The sync stops the servers the snapshot misses, then observes. */
  lemma SyncObserves(t: Tables, hub: int, users: seq<JupyterUser>, origin: string, now: Time)
      returns (stopped: Tables, observed: Tables)
    requires Consistent(t) && Sync(t, hub, users, origin, now).Ok?
    ensures StopServers(t, Missing(t, hub, users), now) == Ok(stopped) && Consistent(stopped)
    ensures ObserveAll(stopped, hub, AllObserved(users), origin, Existing(t, hub), now) == Ok(observed)
    ensures var u := Sync(t, hub, users, origin, now).value; u == observed.(users := u.users)
  {
    stopped := StopMissing(t, hub, users, now);
    ApplyObserves(stopped, hub, users, origin, Existing(t, hub), now);
    observed := ObserveAll(stopped, hub, AllObserved(users), origin, Existing(t, hub), now).value;
  }

  lemma {:induction false} NoneStopped(users: seq<JupyterUser>)
    ensures forall o | o in AllObserved(users) :: o.status != "stopped"
  {
    if users != [] {
      NoneStopped(users[1..]);
    }
  }

  // ---------- when a session ended ----------

  function Earlier(a: Time, b: Time): Time { if a < b then a else b }

  /** The server was running and is reported started again: more than a second
      after the start on record, or with a start where none was on record. */
  predicate Restart(t: Tables, k: Key, o: Observation) {
    Running(t, k) && o.started.Some?
    && (t.servers[k].started.Some? ==> o.started.value - t.servers[k].started.value > 1_000_000)
  }

  predicate SameRun(s: Session, r: Session) {
    s.server == r.server && s.hub == r.hub && s.user == r.user && s.name == r.name && s.started == r.started
  }

  predicate Ends(t: Tables, hub: int, k: Key, o: Observation) {
    About(o, hub, k) && Restart(t, k, o)
  }

  /** What observations do to a session there was before them. */
  ghost predicate Followed(t: Tables, s: Session, r: Session, hub: int, obs: seq<Observation>, now: Time) {
    && SameRun(s, r)
    && (s.ended.Some? || s.server.None? ==> r == s)
    && (s.server.Some? && s.ended.None? ==>
          && (r.ended.Some? <==> exists o | o in obs :: Ends(t, hub, s.server.value, o))
          && (r.ended.Some? ==> exists o | o in obs :: Ends(t, hub, s.server.value, o)
                                                      && r.ended.value == Earlier(o.started.value, now)))
  }

  lemma ObserveEnds(t: Tables, v: Tables, hub: int, o: Observation, origin: string, now: Time, i: int)
    requires Consistent(v) && i in v.sessions && Observe(v, hub, o, origin, Existing(t, hub), now).Ok?
    ensures var u := Observe(v, hub, o, origin, Existing(t, hub), now).value;
            i in u.sessions && Followed(t, v.sessions[i], u.sessions[i], hub, [o], now)
  {
    var k := Key(hub, o.user, o.name);
    var previous := Previous(Existing(t, hub), k);
    var s := v.sessions[i];
    var w := UpsertServer(v, k, o, origin);
    var u := Observe(v, hub, o, origin, Existing(t, hub), now).value;
    assert Restarted(o.started, previous) <==> Restart(t, k, o);
    if Restarted(o.started, previous) {
      var at := EndOfPrevious(o.started.value, now);
      assert at == Earlier(o.started.value, now);
      var closed := w.(sessions := CloseSessions(w.sessions, {k}, at));
      assert u.sessions[i].ended == closed.sessions[i].ended;
    }
    assert o in [o];
    assert s.server == Some(k) ==> (Ends(t, hub, k, o) <==> Restart(t, k, o));
  }

  lemma FollowOn(t: Tables, s: Session, m: Session, r: Session, hub: int, o: Observation, rest: seq<Observation>,
                 now: Time)
    requires Followed(t, s, m, hub, [o], now) && Followed(t, m, r, hub, rest, now)
    ensures Followed(t, s, r, hub, [o] + rest, now)
  {
    assert o in [o] + rest && forall p | p in rest :: p in [o] + rest;
    assert forall p | p in [o] + rest :: p == o || p in rest;
  }

  lemma {:induction false} ObserveAllEnds(t: Tables, v: Tables, hub: int, obs: seq<Observation>, origin: string,
                                          now: Time, i: int)
    requires Consistent(v) && i in v.sessions && (forall o | o in obs :: o.status != "stopped")
    requires ObserveAll(v, hub, obs, origin, Existing(t, hub), now).Ok?
    ensures var u := ObserveAll(v, hub, obs, origin, Existing(t, hub), now).value;
            i in u.sessions && Followed(t, v.sessions[i], u.sessions[i], hub, obs, now)
    decreases |obs|
  {
    if obs != [] {
      var next := Observe(v, hub, obs[0], origin, Existing(t, hub), now).value;
      ObserveKeeps(v, hub, obs[0], origin, Existing(t, hub), now);
      ObserveEnds(t, v, hub, obs[0], origin, now, i);
      ObserveAllEnds(t, next, hub, obs[1..], origin, now, i);
      assert obs == [obs[0]] + obs[1..];
      FollowOn(t, v.sessions[i], next.sessions[i],
               ObserveAll(v, hub, obs, origin, Existing(t, hub), now).value.sessions[i], hub, obs[0], obs[1..], now);
    }
  }

  predicate OpenAt(t: Tables, hub: int, i: int) {
    i in t.sessions && t.sessions[i].server.Some? && t.sessions[i].server.value.hub == hub && t.sessions[i].ended.None?
  }

  /** When the sync ended a session: at the sync if its server is gone from the
      snapshot, and otherwise when the server was reported to have started again. */
  ghost predicate EndedWhen(t: Tables, k: Key, hub: int, users: seq<JupyterUser>, now: Time, ended: Time) {
    if !ListedActive(users, k) then ended == now
    else exists o | o in AllObserved(users) :: Ends(t, hub, k, o) && ended == Earlier(o.started.value, now)
  }

  /** Every session is still there, with the server, user and start it had. One
      that had ended, or belongs to no server or to another Hub, is as it was. An
      open one is ended exactly when its server is gone or was started again. */
  lemma SessionsEndExactly(t: Tables, hub: int, users: seq<JupyterUser>, origin: string, now: Time, i: int)
    requires Consistent(t) && Sync(t, hub, users, origin, now).Ok? && i in t.sessions
    ensures var u := Sync(t, hub, users, origin, now).value;
            && i in u.sessions && SameRun(t.sessions[i], u.sessions[i])
            && (!OpenAt(t, hub, i) ==> u.sessions[i] == t.sessions[i])
            && (OpenAt(t, hub, i) ==>
                  var k := t.sessions[i].server.value;
                  && (u.sessions[i].ended.Some? <==>
                        !ListedActive(users, k) || exists o | o in AllObserved(users) :: Ends(t, hub, k, o))
                  && (u.sessions[i].ended.Some? ==> EndedWhen(t, k, hub, users, now, u.sessions[i].ended.value))
                  && (!ListedActive(users, k) && t.sessions[i].lastActivity.Some? ==>
                        u.sessions[i].lastActivity == t.sessions[i].lastActivity)
                  && (!ListedActive(users, k) && t.sessions[i].lastActivity.None? ==>
                        u.sessions[i].lastActivity == Some(now)))
  {
    var stopped, observed := SyncObserves(t, hub, users, origin, now);
    NoneStopped(users);
    ObserveAllEnds(t, stopped, hub, AllObserved(users), origin, now, i);
    if OpenAt(t, hub, i) {
      StoppedAt(t, hub, users, now, i);
    } else {
      SyncTracksSnapshot(t, hub, users, origin, now);
    }
  }

  lemma StoppedAt(t: Tables, hub: int, users: seq<JupyterUser>, now: Time, i: int)
    requires Consistent(t) && OpenAt(t, hub, i) && StopServers(t, Missing(t, hub, users), now).Ok?
    ensures var s, k := StopServers(t, Missing(t, hub, users), now).value.sessions, t.sessions[i].server.value;
            && i in s
            && (ListedActive(users, k) ==> s[i] == t.sessions[i])
            && (!ListedActive(users, k) ==>
                  && s[i].ended == Some(now) && SameRun(t.sessions[i], s[i])
                  && s[i].lastActivity == if t.sessions[i].lastActivity.Some? then t.sessions[i].lastActivity
                                          else Some(now))
  {
    assert t.sessions[i].server.value in Missing(t, hub, users) <==> !ListedActive(users, t.sessions[i].server.value);
  }

  // ---------- which sessions it began, and since when ----------

  /** The start of a session opened for an observation: the reported one, unless
      it is more than a minute ahead of the sync; else the one on record for a
      server that was running; else the sync itself. */
  predicate Begins(t: Tables, k: Key, o: Observation, now: Time, at: Time) {
    if o.started.Some? && o.started.value - now <= 60_000_000 then at == o.started.value
    else if Running(t, k) && t.servers[k].started.Some? then at == t.servers[k].started.value
    else at == now
  }

  ghost predicate BegunBy(t: Tables, hub: int, obs: seq<Observation>, now: Time, s: Session) {
    && s.server.Some? && s.hub == hub && s.server == Some(Key(hub, s.user, s.name))
    && exists o | o in obs :: About(o, hub, s.server.value) && Begins(t, s.server.value, o, now, s.started)
  }

  lemma ObserveBegins(t: Tables, v: Tables, hub: int, o: Observation, origin: string, now: Time, j: int)
    requires Observe(v, hub, o, origin, Existing(t, hub), now).Ok?
    requires j in Observe(v, hub, o, origin, Existing(t, hub), now).value.sessions && j !in v.sessions
    ensures BegunBy(t, hub, [o], now, Observe(v, hub, o, origin, Existing(t, hub), now).value.sessions[j])
  {
    assert o in [o];
  }

  lemma {:induction false} ObserveAllBegins(t: Tables, v: Tables, hub: int, obs: seq<Observation>, origin: string,
                                            now: Time, j: int)
    requires Consistent(v) && (forall o | o in obs :: o.status != "stopped") && j !in v.sessions
    requires ObserveAll(v, hub, obs, origin, Existing(t, hub), now).Ok?
    requires j in ObserveAll(v, hub, obs, origin, Existing(t, hub), now).value.sessions
    ensures BegunBy(t, hub, obs, now, ObserveAll(v, hub, obs, origin, Existing(t, hub), now).value.sessions[j])
    decreases |obs|
  {
    if obs != [] {
      var next := Observe(v, hub, obs[0], origin, Existing(t, hub), now).value;
      ObserveKeeps(v, hub, obs[0], origin, Existing(t, hub), now);
      if j in next.sessions {
        ObserveBegins(t, v, hub, obs[0], origin, now, j);
        ObserveAllEnds(t, next, hub, obs[1..], origin, now, j);
      } else {
        ObserveAllBegins(t, next, hub, obs[1..], origin, now, j);
      }
    }
  }

  /** Every session a sync opens is for a server it lists, and began when that
      server's report says. */
  lemma SessionsBeginAsReported(t: Tables, hub: int, users: seq<JupyterUser>, origin: string, now: Time, j: int)
    requires Consistent(t) && Sync(t, hub, users, origin, now).Ok?
    requires j in Sync(t, hub, users, origin, now).value.sessions && j !in t.sessions
    ensures BegunBy(t, hub, AllObserved(users), now, Sync(t, hub, users, origin, now).value.sessions[j])
  {
    var stopped, observed := SyncObserves(t, hub, users, origin, now);
    NoneStopped(users);
    ObserveAllBegins(t, stopped, hub, AllObserved(users), origin, now, j);
  }

  // ---------- what the server rows say ----------

  /** The last report that says anything, or what was known before. */
  ghost predicate LastReport<T>(before: Option<T>, reports: seq<Option<T>>, after: Option<T>) {
    || (after == before && forall i :: 0 <= i < |reports| ==> reports[i].None?)
    || exists i :: 0 <= i < |reports| && reports[i].Some? && after == reports[i]
                   && forall j :: i < j < |reports| ==> reports[j].None?
  }

  function Statuses(obs: seq<Observation>, hub: int, k: Key): (r: seq<Option<string>>) {
    seq(|obs|, i requires 0 <= i < |obs| => if About(obs[i], hub, k) then Some(obs[i].status) else None)
  }

  function Starts(obs: seq<Observation>, hub: int, k: Key): (r: seq<Option<Time>>) {
    seq(|obs|, i requires 0 <= i < |obs| => if About(obs[i], hub, k) then obs[i].started else None)
  }

  function Activities(obs: seq<Observation>, hub: int, k: Key): (r: seq<Option<Time>>) {
    seq(|obs|, i requires 0 <= i < |obs| => if About(obs[i], hub, k) then obs[i].lastActivity else None)
  }

  lemma LastReportFollows<T>(before: Option<T>, first: Option<T>, rest: seq<Option<T>>, after: Option<T>)
    requires LastReport(if first.Some? then first else before, rest, after)
    ensures LastReport(before, [first] + rest, after)
  {
    var reports := [first] + rest;
    if i :| 0 <= i < |rest| && rest[i].Some? && after == rest[i] && forall j :: i < j < |rest| ==> rest[j].None? {
      assert reports[i + 1] == after && forall j :: i + 1 < j < |reports| ==> reports[j] == rest[j - 1];
    } else if first.Some? {
      assert reports[0] == after && forall j :: 0 < j < |reports| ==> reports[j] == rest[j - 1];
    }
  }

  function StatusIn(t: Tables, k: Key): Option<string> { if k in t.servers then Some(t.servers[k].status) else None }
  function StartIn(t: Tables, k: Key): Option<Time> { if k in t.servers then t.servers[k].started else None }
  function ActivityIn(t: Tables, k: Key): Option<Time> { if k in t.servers then t.servers[k].lastActivity else None }

  ghost predicate RowFollows(t: Tables, u: Tables, hub: int, obs: seq<Observation>, k: Key) {
    && LastReport(StatusIn(t, k), Statuses(obs, hub, k), StatusIn(u, k))
    && LastReport(StartIn(t, k), Starts(obs, hub, k), StartIn(u, k))
    && LastReport(ActivityIn(t, k), Activities(obs, hub, k), ActivityIn(u, k))
    && (k in t.servers ==> k in u.servers && u.servers[k].id == t.servers[k].id)
  }

  lemma ObserveWrites(t: Tables, hub: int, o: Observation, origin: string, existing: map<Key, Option<Time>>, now: Time,
                      k: Key)
    requires Observe(t, hub, o, origin, existing, now).Ok?
    ensures var u, mine := Observe(t, hub, o, origin, existing, now).value, About(o, hub, k);
            && StatusIn(u, k) == (if mine then Some(o.status) else StatusIn(t, k))
            && StartIn(u, k) == (if mine && o.started.Some? then o.started else StartIn(t, k))
            && ActivityIn(u, k) == (if mine && o.lastActivity.Some? then o.lastActivity else ActivityIn(t, k))
            && (k in t.servers ==> k in u.servers && u.servers[k].id == t.servers[k].id)
  {
  }

  lemma Reports(o: Observation, rest: seq<Observation>, hub: int, k: Key)
    ensures var mine := About(o, hub, k);
            && Statuses([o] + rest, hub, k) == [if mine then Some(o.status) else None] + Statuses(rest, hub, k)
            && Starts([o] + rest, hub, k) == [if mine then o.started else None] + Starts(rest, hub, k)
            && Activities([o] + rest, hub, k) == [if mine then o.lastActivity else None] + Activities(rest, hub, k)
  {
  }

  lemma RowFollowsOn(t: Tables, next: Tables, u: Tables, hub: int, o: Observation, rest: seq<Observation>, k: Key)
    requires RowFollows(next, u, hub, rest, k)
    requires var mine := About(o, hub, k);
             && StatusIn(next, k) == (if mine then Some(o.status) else StatusIn(t, k))
             && StartIn(next, k) == (if mine && o.started.Some? then o.started else StartIn(t, k))
             && ActivityIn(next, k) == (if mine && o.lastActivity.Some? then o.lastActivity else ActivityIn(t, k))
             && (k in t.servers ==> k in next.servers && next.servers[k].id == t.servers[k].id)
    ensures RowFollows(t, u, hub, [o] + rest, k)
  {
    var mine := About(o, hub, k);
    Reports(o, rest, hub, k);
    LastReportFollows(StatusIn(t, k), if mine then Some(o.status) else None, Statuses(rest, hub, k), StatusIn(u, k));
    LastReportFollows(StartIn(t, k), if mine then o.started else None, Starts(rest, hub, k), StartIn(u, k));
    LastReportFollows(ActivityIn(t, k), if mine then o.lastActivity else None, Activities(rest, hub, k),
                      ActivityIn(u, k));
  }

  lemma {:induction false} ObserveAllWrites(t: Tables, hub: int, obs: seq<Observation>, origin: string,
                                            existing: map<Key, Option<Time>>, now: Time, k: Key)
    requires ObserveAll(t, hub, obs, origin, existing, now).Ok?
    ensures RowFollows(t, ObserveAll(t, hub, obs, origin, existing, now).value, hub, obs, k)
    decreases |obs|
  {
    if obs != [] {
      var next := Observe(t, hub, obs[0], origin, existing, now).value;
      ObserveAllWrites(next, hub, obs[1..], origin, existing, now, k);
      ObserveWrites(t, hub, obs[0], origin, existing, now, k);
      assert obs == [obs[0]] + obs[1..];
      RowFollowsOn(t, next, ObserveAll(t, hub, obs, origin, existing, now).value, hub, obs[0], obs[1..], k);
    }
  }

  /** A server row after a sync: its identity stays; a listed server has the
      status, start and activity last reported, a server no longer listed is
      stopped and otherwise as it was. */
  lemma ServerRowsFollowReports(t: Tables, hub: int, users: seq<JupyterUser>, origin: string, now: Time, k: Key)
    requires Consistent(t) && Sync(t, hub, users, origin, now).Ok? && k.hub == hub
    ensures var u := Sync(t, hub, users, origin, now).value;
            && (k in u.servers <==> k in t.servers || ListedActive(users, k))
            && (ListedActive(users, k) ==> RowFollows(t, u, hub, AllObserved(users), k))
            && (!ListedActive(users, k) && k in t.servers ==>
                  u.servers[k] == t.servers[k].(status := "stopped"))
  {
    var stopped, observed := SyncObserves(t, hub, users, origin, now);
    var obs := AllObserved(users);
    ObserveAllWrites(stopped, hub, obs, origin, Existing(t, hub), now, k);
    NoneStopped(users);
    ObserveAllKeeps(stopped, hub, obs, origin, Existing(t, hub), now);
    assert k in Missing(t, hub, users) ==> !ListedActive(users, k);
    assert k in KeysOf(hub, obs) <==> ListedActive(users, k);
  }

  // ---------- what the user rows say ----------

  predicate LastNamed(users: seq<JupyterUser>, i: int) {
    0 <= i < |users| && forall j :: i < j < |users| ==> users[j].name != users[i].name
  }

  lemma {:induction false} LastOfName(users: seq<JupyterUser>, name: string) returns (i: int)
    requires Listed(users, name)
    ensures LastNamed(users, i) && users[i].name == name
    decreases |users|
  {
    i := |users| - 1;
    if users[i].name != name {
      var front := users[..i];
      assert forall v | v in users :: v in front || v == users[i];
      i := LastOfName(front, name);
      assert forall j :: i < j < |front| ==> users[j] == front[j];
    }
  }

  lemma {:induction false} LastUserWins(t: Tables, hub: int, users: seq<JupyterUser>, origin: string,
                                        existing: map<Key, Option<Time>>, now: Time, i: int)
    requires Consistent(t) && ApplyUsers(t, hub, users, origin, existing, now).Ok? && LastNamed(users, i)
    ensures var u, v := ApplyUsers(t, hub, users, origin, existing, now).value, users[i];
            (hub, v.name) in u.users && u.users[(hub, v.name)] == ManagedUser(v.admin, true, v.lastActivity, origin)
    decreases |users|
  {
    var next := ApplyUser(t, hub, users[0], origin, existing, now).value;
    ApplyUserKeeps(t, hub, users[0], origin, existing, now);
    if i > 0 {
      LastUserWins(next, hub, users[1..], origin, existing, now, i - 1);
    } else {
      var named := UpsertUser(t, hub, users[0], origin).value;
      ObserveAllKeeps(named, hub, Observed(users[0]), origin, existing, now);
      ApplyUsersKeeps(next, hub, users[1..], origin, existing, now);
      assert users[0].name !in NamesOf(users[1..]);
    }
  }

  /** A listed user's row is what the snapshot last says; a user no longer listed
      is inactive and otherwise as before. */
  lemma UserRowsFollowReports(t: Tables, hub: int, users: seq<JupyterUser>, origin: string, now: Time, name: string)
    requires Consistent(t) && Sync(t, hub, users, origin, now).Ok?
    ensures var u, id := Sync(t, hub, users, origin, now).value, (hub, name);
            && (id in u.users <==> id in t.users || Listed(users, name))
            && (forall i | LastNamed(users, i) && users[i].name == name ::
                  u.users[id] == ManagedUser(users[i].admin, true, users[i].lastActivity, origin))
            && (!Listed(users, name) && id in t.users ==> u.users[id] == t.users[id].(active := false))
  {
    var stopped := StopMissing(t, hub, users, now);
    ApplyUsersKeeps(stopped, hub, users, origin, Existing(t, hub), now);
    ListedNames(users);
    forall i | LastNamed(users, i) && users[i].name == name
      ensures Sync(t, hub, users, origin, now).value.users[(hub, name)]
              == ManagedUser(users[i].admin, true, users[i].lastActivity, origin)
    {
      LastUserWins(stopped, hub, users, origin, Existing(t, hub), now, i);
    }
  }

  // ---------- a server listed once ----------

  ghost predicate SameSessions(t: Tables, u: Tables, k: Key) {
    && t.sessions.Keys <= u.sessions.Keys
    && (forall i | i in t.sessions && t.sessions[i].server == Some(k) :: u.sessions[i] == t.sessions[i])
    && (forall i | i in u.sessions && u.sessions[i].server == Some(k) :: i in t.sessions)
    && (forall i | i in t.sessions :: u.sessions[i].server == t.sessions[i].server)
  }

  lemma OthersLeave(t: Tables, hub: int, obs: seq<Observation>, origin: string, existing: map<Key, Option<Time>>,
                    now: Time, k: Key)
    requires Consistent(t) && ObserveAll(t, hub, obs, origin, existing, now).Ok?
    requires forall o | o in obs :: o.status != "stopped" && !About(o, hub, k)
    ensures var u := ObserveAll(t, hub, obs, origin, existing, now).value;
            && Consistent(u)
            && SameSessions(t, u, k)
  {
    ObserveAllKeeps(t, hub, obs, origin, existing, now);
    assert k !in KeysOf(hub, obs);
  }

  /** The sessions of a server when the snapshot lists it once. */
  ghost predicate OnceListed(t: Tables, u: Tables, k: Key, o: Observation, now: Time) {
    && (forall i | i in t.sessions && IsOpen(t.sessions[i], k) ::
          && i in u.sessions
          && (!Restart(t, k, o) ==>
                u.sessions[i] == t.sessions[i].(lastActivity := if o.lastActivity.Some? then o.lastActivity
                                                                else t.sessions[i].lastActivity))
          && (Restart(t, k, o) ==>
                var at := Earlier(o.started.value, now);
                u.sessions[i] == t.sessions[i].(ended := Some(at),
                                                lastActivity := if t.sessions[i].lastActivity.Some?
                                                                then t.sessions[i].lastActivity else Some(at))))
    && (Running(t, k) && !Restart(t, k, o) ==>
          forall j | j in u.sessions && u.sessions[j].server == Some(k) :: j in t.sessions)
    && (!Running(t, k) || Restart(t, k, o) ==>
          exists j :: j in u.sessions && j !in t.sessions
                      && Fresh(u.sessions[j], k, o) && Begins(t, k, o, now, u.sessions[j].started)
                      && forall l | l in u.sessions && u.sessions[l].server == Some(k) :: l in t.sessions || l == j)
  }

  predicate Fresh(s: Session, k: Key, o: Observation) {
    s == Session(Some(k), k.hub, k.user, k.name, s.started, None, o.lastActivity)
  }

  lemma ObserveOnce(t: Tables, v: Tables, hub: int, o: Observation, origin: string, now: Time)
    requires Consistent(v) && o.status != "stopped"
    requires var k := Key(hub, o.user, o.name); HasOpen(v.sessions, k) <==> Running(t, k)
    requires Observe(v, hub, o, origin, Existing(t, hub), now).Ok?
    ensures Turns(t, v, Observe(v, hub, o, origin, Existing(t, hub), now).value, Key(hub, o.user, o.name), o, now)
  {
    var k := Key(hub, o.user, o.name);
    var w := UpsertServer(v, k, o, origin);
    var previous := Previous(Existing(t, hub), k);
    assert w.sessions == v.sessions;
    if Restarted(o.started, previous) {
      CloseKeepsUnique(w.sessions, {k}, EndOfPrevious(o.started.value, now), w.nextSession);
    }
  }

  /** One observation of a server, and nothing but it. */
  ghost predicate Turns(t: Tables, v: Tables, u: Tables, k: Key, o: Observation, now: Time) {
    && v.sessions.Keys <= u.sessions.Keys
    && (forall i | i in v.sessions :: u.sessions[i].server == v.sessions[i].server)
    && (forall i | i in v.sessions && IsOpen(v.sessions[i], k) ::
          u.sessions[i] == Touched(t, v.sessions[i], k, o, now))
    && (Running(t, k) && !Restart(t, k, o) ==> u.sessions.Keys == v.sessions.Keys)
    && (!Running(t, k) || Restart(t, k, o) ==>
          && u.sessions.Keys == v.sessions.Keys + {v.nextSession} && v.nextSession !in v.sessions
          && Fresh(u.sessions[v.nextSession], k, o)
          && Begins(t, k, o, now, u.sessions[v.nextSession].started))
  }

  function Touched(t: Tables, s: Session, k: Key, o: Observation, now: Time): Session {
    if Restart(t, k, o) then
      var at := Earlier(o.started.value, now);
      s.(ended := Some(at), lastActivity := if s.lastActivity.Some? then s.lastActivity else Some(at))
    else s.(lastActivity := if o.lastActivity.Some? then o.lastActivity else s.lastActivity)
  }

  /** A server listed once that goes on running keeps its session, with the
      activity reported; one that is new or was started again has exactly one new
      session, and the one it had before is ended. */
  lemma OnceListedExactly(t: Tables, hub: int, users: seq<JupyterUser>, origin: string, now: Time,
                          before: seq<Observation>, o: Observation, after: seq<Observation>)
    requires Consistent(t) && Sync(t, hub, users, origin, now).Ok? && AllObserved(users) == before + ([o] + after)
    requires var k := Key(hub, o.user, o.name); forall p | p in before || p in after :: !About(p, hub, k)
    ensures OnceListed(t, Sync(t, hub, users, origin, now).value, Key(hub, o.user, o.name), o, now)
  {
    var k := Key(hub, o.user, o.name);
    var stopped, observed := SyncObserves(t, hub, users, origin, now);
    NoneStopped(users);
    assert forall p | p in before || p in after :: p in AllObserved(users);
    assert o in AllObserved(users) && ListedActive(users, k);
    ObserveInTurn(stopped, hub, before, [o] + after, origin, Existing(t, hub), now);
    var v := ObserveAll(stopped, hub, before, origin, Existing(t, hub), now).value;
    OthersLeave(stopped, hub, before, origin, Existing(t, hub), now, k);
    assert ([o] + after)[1..] == after;
    var w := Observe(v, hub, o, origin, Existing(t, hub), now).value;
    ListedIsLeft(t, hub, users, now, k);
    SameOpen(t, v, k);
    ObserveOnce(t, v, hub, o, origin, now);
    ObserveKeeps(v, hub, o, origin, Existing(t, hub), now);
    OthersLeave(w, hub, after, origin, Existing(t, hub), now, k);
    TurnAlone(t, v, w, observed, k, o, now);
  }

  lemma TurnAlone(t: Tables, v: Tables, w: Tables, u: Tables, k: Key, o: Observation, now: Time)
    requires SameSessions(t, v, k) && Turns(t, v, w, k, o, now) && SameSessions(w, u, k)
    ensures OnceListed(t, u, k, o, now)
  {
    if !Running(t, k) || Restart(t, k, o) {
      var j := v.nextSession;
      assert j in u.sessions && j !in t.sessions && u.sessions[j] == w.sessions[j];
    }
  }

  lemma ListedIsLeft(t: Tables, hub: int, users: seq<JupyterUser>, now: Time, k: Key)
    requires Consistent(t) && ListedActive(users, k) && StopServers(t, Missing(t, hub, users), now).Ok?
    ensures var stopped := StopServers(t, Missing(t, hub, users), now).value;
            SameSessions(t, stopped, k)
  {
  }

  lemma SameOpen(t: Tables, v: Tables, k: Key)
    requires Consistent(t) && SameSessions(t, v, k)
    ensures HasOpen(v.sessions, k) <==> Running(t, k)
  {
    OpenExactlyWhenRunning(t);
    if HasOpen(t.sessions, k) {
      var i :| i in t.sessions && IsOpen(t.sessions[i], k);
      assert IsOpen(v.sessions[i], k);
    }
    if HasOpen(v.sessions, k) {
      var i :| i in v.sessions && IsOpen(v.sessions[i], k);
      assert IsOpen(t.sessions[i], k);
    }
  }
}
