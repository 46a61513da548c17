/** Applying one JupyterHub snapshot to the servers, server_sessions and
    managed_users tables: the transaction of syncHubUsers as a function on table
    values, what it keeps, and exactly when PostgreSQL refuses it. */
module HubSync {
  import opened Text

  type Time = int // microseconds
  const SECOND: Time := 1_000_000
  const MINUTE: Time := 60 * SECOND

  datatype Result<+T> = Ok(value: T) | Rejected

  // ---------- the remote snapshot ----------

  datatype RawServer = RawServer(pending: Option<string>, ready: Option<bool>, started: Option<Time>,
                                 lastActivity: Option<Time>)
  datatype JupyterUser = JupyterUser(name: string, admin: bool, lastActivity: Option<Time>, server: string,
                                     servers: seq<(string, RawServer)>)
  datatype Observation = Observation(user: string, name: string, status: string, started: Option<Time>,
                                     lastActivity: Option<Time>)

  function ParseStatus(raw: RawServer): string {
    if raw.pending.Some? && raw.pending.value != "" then "pending_" + raw.pending.value
    else if raw.ready == Some(false) then "starting"
    else "running"
  }

  function ObserveServers(user: string, servers: seq<(string, RawServer)>): (obs: seq<Observation>)
    ensures forall o | o in obs :: o.user == user && o.status != "stopped"
  {
    if servers == [] then []
    else
      var (name, raw) := servers[0];
      var rest := ObserveServers(user, servers[1..]);
      if ParseStatus(raw) == "stopped" then rest
      else [Observation(user, name, ParseStatus(raw), raw.started, raw.lastActivity)] + rest
  }

  /** Older Hubs list a single default server as a URL instead of a server map. */
  function Observed(u: JupyterUser): (obs: seq<Observation>)
    ensures forall o | o in obs :: o.user == u.name && o.status != "stopped"
  {
    ObserveServers(u.name, u.servers) +
    (if u.servers == [] && u.server != "" then [Observation(u.name, "", "running", None, u.lastActivity)] else [])
  }

  // ---------- the tables ----------

  /** `origin` is the authority whose response last wrote the row; the program
      does not store it, the provenance theorems read it. */
  datatype Key = Key(hub: int, user: string, name: string)
  datatype Server = Server(id: int, status: string, started: Option<Time>, lastActivity: Option<Time>, origin: string)
  datatype Session = Session(server: Option<Key>, hub: int, user: string, name: string,
                             started: Time, ended: Option<Time>, lastActivity: Option<Time>)
  datatype ManagedUser = ManagedUser(admin: bool, active: bool, lastActivity: Option<Time>, origin: string)
  datatype Tables = Tables(servers: map<Key, Server>, sessions: map<int, Session>,
                           users: map<(int, string), ManagedUser>,
                           nextServer: int, nextSession: int)

  function Coalesce<T>(a: Option<T>, b: Option<T>): Option<T> {
    if a.Some? then a else b
  }

  /** PostgreSQL text holds no NUL byte. */
  predicate TextOk(s: string) { '\U{0}' !in s }

  predicate IsOpen(s: Session, k: Key) {
    s.server == Some(k) && s.ended.None?
  }

  predicate Running(t: Tables, k: Key) {
    k in t.servers && t.servers[k].status != "stopped"
  }

  predicate HasOpen(sessions: map<int, Session>, k: Key) {
    exists i :: i in sessions && IsOpen(sessions[i], k)
  }

  /** Every running server outside `except` has an open session. */
  ghost predicate Covered(t: Tables, except: set<Key>) {
    forall k | k in t.servers && Running(t, k) && k !in except :: HasOpen(t.sessions, k)
  }

  /** No two open sessions share a server. */
  ghost predicate UniqueOpen(sessions: map<int, Session>) {
    forall i, j | i in sessions && j in sessions && sessions[i].server.Some? && sessions[i].ended.None?
      && IsOpen(sessions[j], sessions[i].server.value) :: i == j
  }

  /** Session identifiers are behind the sequence; no session ends before it starts. */
  ghost predicate Dated(sessions: map<int, Session>, next: int) {
    && (forall i | i in sessions :: i < next)
    && (forall i | i in sessions && sessions[i].ended.Some? :: sessions[i].started <= sessions[i].ended.value)
  }

  /** Foreign keys hold and agree on the Hub, and an open session's server is running. */
  ghost predicate Linked(t: Tables) {
    forall i | i in t.sessions && t.sessions[i].server.Some? ::
      && t.sessions[i].server.value in t.servers && t.sessions[i].hub == t.sessions[i].server.value.hub
      && (t.sessions[i].ended.None? ==> Running(t, t.sessions[i].server.value))
  }

  ghost predicate Identified(servers: map<Key, Server>, next: int) {
    && (forall k | k in servers :: servers[k].id < next && TextOk(k.user) && TextOk(k.name))
    && (forall k, l | k in servers && l in servers && servers[k].id == servers[l].id :: k == l)
  }

  ghost predicate Sound(t: Tables) {
    UniqueOpen(t.sessions) && Dated(t.sessions, t.nextSession) && Linked(t) && Identified(t.servers, t.nextServer)
  }

  ghost predicate Consistent(t: Tables) {
    Sound(t) && Covered(t, {})
  }

  // ---------- statements ----------

  function Close(s: Session, at: Time): Session {
    s.(ended := Some(at), lastActivity := Coalesce(s.lastActivity, Some(at)))
  }

  /** UPDATE server_sessions SET ended_at ... WHERE server_id IN keys AND ended_at IS NULL */
  function CloseSessions(sessions: map<int, Session>, keys: set<Key>, at: Time): map<int, Session> {
    map i | i in sessions ::
      if sessions[i].server.Some? && sessions[i].server.value in keys && sessions[i].ended.None?
          then Close(sessions[i], at) else sessions[i]
  }

  /** The table's CHECK (ended_at >= started_at) accepts that update. */
  predicate CanClose(sessions: map<int, Session>, keys: set<Key>, at: Time) {
    forall i | i in sessions && sessions[i].server.Some? && sessions[i].server.value in keys
        && sessions[i].ended.None? ::
      sessions[i].started <= at
  }

  function StopServers(t: Tables, keys: set<Key>, now: Time): Result<Tables>
    requires keys <= t.servers.Keys
  {
    if CanClose(t.sessions, keys, now) then
      Ok(t.(servers := map k | k in t.servers :: if k in keys then t.servers[k].(status := "stopped") else t.servers[k],
            sessions := CloseSessions(t.sessions, keys, now)))
    else Rejected
  }

  function UpsertUser(t: Tables, hub: int, u: JupyterUser, origin: string): Result<Tables> {
    if !TextOk(u.name) then Rejected
    else Ok(t.(users := t.users[(hub, u.name) := ManagedUser(u.admin, true, u.lastActivity, origin)]))
  }

  function UpsertServer(t: Tables, k: Key, o: Observation, origin: string): Tables {
    if k in t.servers then
      var row := t.servers[k];
      t.(servers := t.servers[k := Server(row.id, o.status, Coalesce(o.started, row.started),
                                          Coalesce(o.lastActivity, row.lastActivity), origin)])
    else
      t.(servers := t.servers[k := Server(t.nextServer, o.status, o.started, o.lastActivity, origin)],
         nextServer := t.nextServer + 1)
  }

  /** previous: None when the server was not running at the start of the
      transaction, otherwise the start time its row held then. */
  predicate Restarted(started: Option<Time>, previous: Option<Option<Time>>) {
    previous.Some? && started.Some? && (previous.value.None? || started.value > previous.value.value + SECOND)
  }

  function EndOfPrevious(started: Time, now: Time): Time {
    if started < now then started else now
  }

  function SessionStart(started: Option<Time>, previous: Option<Option<Time>>, now: Time): Time {
    if started.Some? && !(started.value > now + MINUTE) then started.value
    else if previous.Some? && previous.value.Some? then previous.value.value
    else now
  }

  /** INSERT ... ON CONFLICT on the partial unique index over open sessions. */
  function OpenSession(t: Tables, k: Key, start: Time, lastActivity: Option<Time>): Tables {
    if HasOpen(t.sessions, k) then
      t.(sessions := map i | i in t.sessions ::
           if IsOpen(t.sessions[i], k) then t.sessions[i].(lastActivity := Coalesce(lastActivity,
               t.sessions[i].lastActivity)) else t.sessions[i])
    else
      t.(sessions := t.sessions[t.nextSession := Session(Some(k), k.hub, k.user, k.name, start, None, lastActivity)],
         nextSession := t.nextSession + 1)
  }

  function Reconcile(t: Tables, k: Key, started: Option<Time>, lastActivity: Option<Time>,
                     previous: Option<Option<Time>>, now: Time): Result<Tables> {
    var start := SessionStart(started, previous, now);
    if !Restarted(started, previous) then Ok(OpenSession(t, k, start, lastActivity))
    else
      var at := EndOfPrevious(started.value, now);
      if !CanClose(t.sessions, {k}, at) then Rejected
      else Ok(OpenSession(t.(sessions := CloseSessions(t.sessions, {k}, at)), k, start, lastActivity))
  }

  function Existing(t: Tables, hub: int): map<Key, Option<Time>> {
    map k | k in t.servers && k.hub == hub && t.servers[k].status != "stopped" :: t.servers[k].started
  }

  function Previous(existing: map<Key, Option<Time>>, k: Key): Option<Option<Time>> {
    if k in existing then Some(existing[k]) else None
  }

  function Observe(t: Tables, hub: int, o: Observation, origin: string, existing: map<Key, Option<Time>>,
                   now: Time): Result<Tables> {
    var k := Key(hub, o.user, o.name);
    if !TextOk(o.user) || !TextOk(o.name) then Rejected
    else Reconcile(UpsertServer(t, k, o, origin), k, o.started, o.lastActivity, Previous(existing, k), now)
  }

  function ObserveAll(t: Tables, hub: int, obs: seq<Observation>, origin: string, existing: map<Key, Option<Time>>,
                      now: Time): Result<Tables>
    decreases |obs|
  {
    if obs == [] then Ok(t)
    else
      match Observe(t, hub, obs[0], origin, existing, now)
      case Rejected => Rejected
      case Ok(next) => ObserveAll(next, hub, obs[1..], origin, existing, now)
  }

  function ApplyUser(t: Tables, hub: int, u: JupyterUser, origin: string, existing: map<Key, Option<Time>>,
                     now: Time): Result<Tables> {
    match UpsertUser(t, hub, u, origin)
    case Rejected => Rejected
    case Ok(next) => ObserveAll(next, hub, Observed(u), origin, existing, now)
  }

  function ApplyUsers(t: Tables, hub: int, users: seq<JupyterUser>, origin: string, existing: map<Key, Option<Time>>,
                      now: Time): Result<Tables>
    decreases |users|
  {
    if users == [] then Ok(t)
    else
      match ApplyUser(t, hub, users[0], origin, existing, now)
      case Rejected => Rejected
      case Ok(next) => ApplyUsers(next, hub, users[1..], origin, existing, now)
  }

  predicate Listed(users: seq<JupyterUser>, name: string) {
    exists u | u in users :: u.name == name
  }

  function Deactivate(t: Tables, hub: int, users: seq<JupyterUser>): Tables {
    t.(users := map u | u in t.users ::
                  if u.0 == hub && !Listed(users, u.1) then t.users[u].(active := false) else t.users[u])
  }

  function AllObserved(users: seq<JupyterUser>): seq<Observation> {
    if users == [] then [] else Observed(users[0]) + AllObserved(users[1..])
  }

  /** The snapshot lists the server as active. */
  predicate ListedActive(users: seq<JupyterUser>, k: Key) {
    exists o | o in AllObserved(users) :: o.user == k.user && o.name == k.name
  }

  function Missing(t: Tables, hub: int, users: seq<JupyterUser>): set<Key> {
    set k | k in t.servers && k.hub == hub && t.servers[k].status != "stopped" && !ListedActive(users, k)
  }

  function Sync(t: Tables, hub: int, users: seq<JupyterUser>, origin: string, now: Time): Result<Tables> {
    match StopServers(t, Missing(t, hub, users), now)
    case Rejected => Rejected
    case Ok(stopped) =>
      match ApplyUsers(stopped, hub, users, origin, Existing(t, hub), now)
      case Rejected => Rejected
      case Ok(applied) => Ok(Deactivate(applied, hub, users))
  }

  // ---------- what each statement keeps ----------

  /** Only rows of the keys in `touched` differ; sessions cut off from their
      server are never written again. */
  ghost predicate Frame(t: Tables, u: Tables, touched: set<Key>) {
    && (forall k | k !in touched :: (k in t.servers <==> k in u.servers)
                                   && (k in t.servers ==> t.servers[k] == u.servers[k]))
    && t.sessions.Keys <= u.sessions.Keys
    && (forall i | i in t.sessions && (t.sessions[i].server.None? || t.sessions[i].server.value !in touched) ::
            u.sessions[i] == t.sessions[i])
    && (forall i | i in t.sessions :: u.sessions[i].server == t.sessions[i].server)
    && (forall i | i in u.sessions && i !in t.sessions ::
            u.sessions[i].server.Some? && u.sessions[i].server.value in touched)
    && t.servers.Keys <= u.servers.Keys
  }

  lemma StopServersFrame(t: Tables, keys: set<Key>, now: Time)
    requires keys <= t.servers.Keys && StopServers(t, keys, now).Ok?
    ensures var u := StopServers(t, keys, now).value;
            Frame(t, u, keys) && u.users == t.users
                && forall k | k in u.servers :: Running(u, k) <==> Running(t, k) && k !in keys
  {
  }

  lemma StopServersKeeps(t: Tables, keys: set<Key>, now: Time)
    requires Consistent(t) && keys <= t.servers.Keys && StopServers(t, keys, now).Ok?
    ensures var u := StopServers(t, keys, now).value;
            Consistent(u) && Frame(t, u, keys) && u.users == t.users &&
            forall k | k in u.servers :: Running(u, k) <==> Running(t, k) && k !in keys
  {
    var u := StopServers(t, keys, now).value;
    StopServersFrame(t, keys, now);
    forall k | k in u.servers && Running(u, k)
      ensures HasOpen(u.sessions, k)
    {
      assert Running(t, k);
      var i :| i in t.sessions && IsOpen(t.sessions[i], k);
      assert IsOpen(u.sessions[i], k);
    }
  }

  lemma OpenSessionKeeps(t: Tables, k: Key, start: Time, lastActivity: Option<Time>)
    requires k in t.servers && Running(t, k)
    requires forall i | i in t.sessions :: i < t.nextSession
    ensures var u := OpenSession(t, k, start, lastActivity);
            && u.servers == t.servers && u.users == t.users && Frame(t, u, {k}) && HasOpen(u.sessions, k)
            && (forall l | l != k :: HasOpen(u.sessions, l) <==> HasOpen(t.sessions, l))
            && (forall i | i in t.sessions :: u.sessions[i].ended == t.sessions[i].ended
                                             && u.sessions[i].started == t.sessions[i].started)
            && (forall i | i in u.sessions && i !in t.sessions ::
                    u.sessions[i].ended.None? && !HasOpen(t.sessions, k) && i == t.nextSession)
  {
    var u := OpenSession(t, k, start, lastActivity);
    if HasOpen(t.sessions, k) {
      var i :| i in t.sessions && IsOpen(t.sessions[i], k);
      assert IsOpen(u.sessions[i], k);
    } else {
      assert IsOpen(u.sessions[t.nextSession], k);
    }
    forall l | l != k
      ensures HasOpen(u.sessions, l) <==> HasOpen(t.sessions, l)
    {
      if HasOpen(t.sessions, l) {
        var i :| i in t.sessions && IsOpen(t.sessions[i], l);
        assert IsOpen(u.sessions[i], l);
      }
      if HasOpen(u.sessions, l) {
        var i :| i in u.sessions && IsOpen(u.sessions[i], l);
        assert IsOpen(t.sessions[i], l);
      }
    }
  }

  lemma IdentifiedUpsert(servers: map<Key, Server>, next: int, k: Key, row: Server)
    requires Identified(servers, next) && TextOk(k.user) && TextOk(k.name)
    requires row.id == if k in servers then servers[k].id else next
    ensures Identified(servers[k := row], if k in servers then next else next + 1)
  {
  }

  lemma UpsertServerFrame(t: Tables, k: Key, o: Observation, origin: string)
    requires o.status != "stopped"
    ensures var u := UpsertServer(t, k, o, origin);
            && Frame(t, u, {k}) && u.users == t.users && u.sessions == t.sessions && Running(u, k)
            && u.servers[k].origin == origin
            && forall l :: Running(u, l) <==> Running(t, l) || l == k
  {
  }

  lemma UpsertServerKeeps(t: Tables, k: Key, o: Observation, origin: string)
    requires Consistent(t) && o.status != "stopped" && TextOk(k.user) && TextOk(k.name)
    ensures var u := UpsertServer(t, k, o, origin);
            Sound(u) && Covered(u, {k}) && Frame(t, u, {k}) && u.users == t.users && u.sessions == t.sessions
                && Running(u, k) && u.servers[k].origin == origin
  {
    var u := UpsertServer(t, k, o, origin);
    IdentifiedUpsert(t.servers, t.nextServer, k, u.servers[k]);
    UpsertServerFrame(t, k, o, origin);
  }

  lemma CloseKeepsUnique(sessions: map<int, Session>, keys: set<Key>, at: Time, next: int)
    requires UniqueOpen(sessions) && Dated(sessions, next) && CanClose(sessions, keys, at)
    ensures var closed := CloseSessions(sessions, keys, at);
            && UniqueOpen(closed) && Dated(closed, next)
            && (forall l :: HasOpen(closed, l) <==> HasOpen(sessions, l) && l !in keys)
  {
    var closed := CloseSessions(sessions, keys, at);
    forall l
      ensures HasOpen(closed, l) <==> HasOpen(sessions, l) && l !in keys
    {
      if HasOpen(sessions, l) && l !in keys {
        var i :| i in sessions && IsOpen(sessions[i], l);
        assert IsOpen(closed[i], l);
      }
      if HasOpen(closed, l) {
        var i :| i in closed && IsOpen(closed[i], l);
        assert IsOpen(sessions[i], l);
      }
    }
  }

  lemma CloseOneKeeps(t: Tables, k: Key, at: Time)
    requires Sound(t) && Covered(t, {k}) && CanClose(t.sessions, {k}, at)
    ensures var u := t.(sessions := CloseSessions(t.sessions, {k}, at));
            Sound(u) && Covered(u, {k}) && Frame(t, u, {k})
  {
    CloseKeepsUnique(t.sessions, {k}, at, t.nextSession);
    var u := t.(sessions := CloseSessions(t.sessions, {k}, at));
    assert forall l :: Running(u, l) <==> Running(t, l);
    assert Linked(u);
  }

  lemma OpenOneKeeps(t: Tables, k: Key, start: Time, lastActivity: Option<Time>)
    requires Sound(t) && Covered(t, {k}) && k in t.servers && Running(t, k)
    ensures var u := OpenSession(t, k, start, lastActivity);
            Consistent(u) && Frame(t, u, {k}) && u.servers == t.servers && u.users == t.users
  {
    OpenSessionKeeps(t, k, start, lastActivity);
  }

  lemma ObserveKeeps(t: Tables, hub: int, o: Observation, origin: string, existing: map<Key, Option<Time>>, now: Time)
    requires Consistent(t) && o.status != "stopped"
    requires Observe(t, hub, o, origin, existing, now).Ok?
    ensures var u, k := Observe(t, hub, o, origin, existing, now).value, Key(hub, o.user, o.name);
            Consistent(u) && Frame(t, u, {k}) && u.users == t.users && Running(u, k) && u.servers[k].origin == origin
  {
    var k := Key(hub, o.user, o.name);
    var previous := Previous(existing, k);
    var start := SessionStart(o.started, previous, now);
    var written := UpsertServer(t, k, o, origin);
    UpsertServerKeeps(t, k, o, origin);
    if Restarted(o.started, previous) {
      var closed := written.(sessions := CloseSessions(written.sessions, {k}, EndOfPrevious(o.started.value, now)));
      CloseOneKeeps(written, k, EndOfPrevious(o.started.value, now));
      OpenOneKeeps(closed, k, start, o.lastActivity);
      FrameComposes(t, written, closed, {k});
      FrameComposes(t, closed, OpenSession(closed, k, start, o.lastActivity), {k});
    } else {
      OpenOneKeeps(written, k, start, o.lastActivity);
      FrameComposes(t, written, OpenSession(written, k, start, o.lastActivity), {k});
    }
  }

  lemma FrameComposes(t: Tables, u: Tables, v: Tables, touched: set<Key>)
    requires Frame(t, u, touched) && Frame(u, v, touched)
    ensures Frame(t, v, touched)
  {
  }

  // ---------- the whole snapshot ----------

  function KeysOf(hub: int, obs: seq<Observation>): set<Key> {
    set o | o in obs :: Key(hub, o.user, o.name)
  }

  lemma {:induction false} ObserveAllKeeps(t: Tables, hub: int, obs: seq<Observation>, origin: string,
                                           existing: map<Key, Option<Time>>, now: Time)
    requires Consistent(t) && (forall o | o in obs :: o.status != "stopped")
    requires ObserveAll(t, hub, obs, origin, existing, now).Ok?
    ensures var u := ObserveAll(t, hub, obs, origin, existing, now).value;
            && Consistent(u) && Frame(t, u, KeysOf(hub, obs)) && u.users == t.users
            && forall k | k in KeysOf(hub, obs) :: Running(u, k) && u.servers[k].origin == origin
    decreases |obs|
  {
    if obs != [] {
      var k := Key(hub, obs[0].user, obs[0].name);
      var next := Observe(t, hub, obs[0], origin, existing, now).value;
      ObserveKeeps(t, hub, obs[0], origin, existing, now);
      ObserveAllKeeps(next, hub, obs[1..], origin, existing, now);
      assert KeysOf(hub, obs) == {k} + KeysOf(hub, obs[1..]);
      FrameComposes(t, next, ObserveAll(t, hub, obs, origin, existing, now).value, KeysOf(hub, obs));
    }
  }

  /** The managed_users rows of the names in `names` were written active from
      `origin`; all others are as before. */
  ghost predicate UsersWritten(t: Tables, u: Tables, hub: int, names: set<string>, origin: string) {
    && (forall n | n in names :: (hub, n) in u.users && u.users[(hub, n)].active && u.users[(hub, n)].origin == origin)
    && (forall id: (int, string) | id.0 != hub || id.1 !in names ::
            (id in t.users <==> id in u.users) && (id in t.users ==> t.users[id] == u.users[id]))
  }

  lemma ApplyUserKeeps(t: Tables, hub: int, v: JupyterUser, origin: string, existing: map<Key, Option<Time>>, now: Time)
    requires Consistent(t) && ApplyUser(t, hub, v, origin, existing, now).Ok?
    ensures var u := ApplyUser(t, hub, v, origin, existing, now).value;
            && Consistent(u) && Frame(t, u, KeysOf(hub, Observed(v))) && UsersWritten(t, u, hub, {v.name}, origin)
            && forall k | k in KeysOf(hub, Observed(v)) :: Running(u, k) && u.servers[k].origin == origin
  {
    var named := UpsertUser(t, hub, v, origin).value;
    ObserveAllKeeps(named, hub, Observed(v), origin, existing, now);
    FrameComposes(t, named, ApplyUser(t, hub, v, origin, existing, now).value, KeysOf(hub, Observed(v)));
  }

  function NamesOf(users: seq<JupyterUser>): set<string> {
    set v | v in users :: v.name
  }

  lemma {:induction false} ApplyUsersKeeps(t: Tables, hub: int, users: seq<JupyterUser>, origin: string,
                                           existing: map<Key, Option<Time>>, now: Time)
    requires Consistent(t) && ApplyUsers(t, hub, users, origin, existing, now).Ok?
    ensures var u := ApplyUsers(t, hub, users, origin, existing, now).value;
            && Consistent(u) && Frame(t, u, KeysOf(hub, AllObserved(users)))
            && UsersWritten(t, u, hub, NamesOf(users), origin)
            && forall k | k in KeysOf(hub, AllObserved(users)) :: Running(u, k) && u.servers[k].origin == origin
    decreases |users|
  {
    if users != [] {
      ApplyUserKeeps(t, hub, users[0], origin, existing, now);
      var next := ApplyUser(t, hub, users[0], origin, existing, now).value;
      ApplyUsersKeeps(next, hub, users[1..], origin, existing, now);
      var u := ApplyUsers(t, hub, users, origin, existing, now).value;
      KeysCompose(hub, users);
      TouchMore(t, next, u, KeysOf(hub, Observed(users[0])), KeysOf(hub, AllObserved(users[1..])));
      WriteMore(t, next, u, hub, {users[0].name}, NamesOf(users[1..]), origin);
    }
  }

  lemma KeysCompose(hub: int, users: seq<JupyterUser>)
    requires users != []
    ensures KeysOf(hub, AllObserved(users)) == KeysOf(hub, Observed(users[0])) + KeysOf(hub, AllObserved(users[1..]))
    ensures NamesOf(users) == {users[0].name} + NamesOf(users[1..])
  {
  }

  lemma TouchMore(t: Tables, u: Tables, v: Tables, first: set<Key>, second: set<Key>)
    requires Frame(t, u, first) && Frame(u, v, second)
    ensures Frame(t, v, first + second)
  {
  }

  lemma WriteMore(t: Tables, u: Tables, v: Tables, hub: int, first: set<string>, second: set<string>, origin: string)
    requires UsersWritten(t, u, hub, first, origin) && UsersWritten(u, v, hub, second, origin)
    ensures UsersWritten(t, v, hub, first + second, origin)
  {
  }

  /** What one committed sync establishes. */
  ghost predicate Tracks(u: Tables, hub: int, users: seq<JupyterUser>) {
    && (forall k: Key | k.hub == hub :: Running(u, k) <==> ListedActive(users, k))
    && (forall k: Key | k.hub == hub :: HasOpen(u.sessions, k) <==> ListedActive(users, k))
    && (forall n: string :: (hub, n) in u.users && u.users[(hub, n)].active <==> Listed(users, n))
  }

  ghost predicate OtherHubsUntouched(t: Tables, u: Tables, hub: int) {
    && (forall k: Key | k.hub != hub :: (k in t.servers <==> k in u.servers)
                                       && (k in t.servers ==> t.servers[k] == u.servers[k]))
    && (forall id: (int, string) | id.0 != hub :: (id in t.users <==> id in u.users)
                                                 && (id in t.users ==> t.users[id] == u.users[id]))
    && (forall i | i in t.sessions && (t.sessions[i].server.None? || t.sessions[i].server.value.hub != hub) ::
          i in u.sessions && u.sessions[i] == t.sessions[i])
  }

  /** Every row of the Hub either kept its recorded origin or was written now. */
  ghost predicate OriginsFrom(t: Tables, u: Tables, hub: int, origin: string) {
    && (forall k | k in u.servers && k.hub == hub ::
            u.servers[k].origin == origin || (k in t.servers && t.servers[k].origin == u.servers[k].origin))
    && (forall id | id in u.users && id.0 == hub ::
            u.users[id].origin == origin || (id in t.users && t.users[id].origin == u.users[id].origin))
  }

  lemma StopMissing(t: Tables, hub: int, users: seq<JupyterUser>, now: Time) returns (stopped: Tables)
    requires Consistent(t) && StopServers(t, Missing(t, hub, users), now).Ok?
    ensures StopServers(t, Missing(t, hub, users), now) == Ok(stopped)
    ensures Consistent(stopped) && Frame(t, stopped, Missing(t, hub, users)) && stopped.users == t.users
    ensures forall k | k in stopped.servers && k.hub == hub && Running(stopped, k) :: ListedActive(users, k)
    ensures forall k | k in stopped.servers :: k in t.servers && t.servers[k].origin == stopped.servers[k].origin
  {
    stopped := StopServers(t, Missing(t, hub, users), now).value;
    StopServersKeeps(t, Missing(t, hub, users), now);
  }

  /** The tables just before the final deactivation of unlisted users. */
  lemma SyncApplies(t: Tables, hub: int, users: seq<JupyterUser>, origin: string, now: Time) returns (applied: Tables)
    requires Consistent(t) && Sync(t, hub, users, origin, now).Ok?
    ensures Sync(t, hub, users, origin, now) == Ok(Deactivate(applied, hub, users))
    ensures Consistent(applied) && OriginsFrom(t, applied, hub, origin)
            && UsersWritten(t, applied, hub, NamesOf(users), origin)
    ensures Frame(t, applied, Missing(t, hub, users) + KeysOf(hub, AllObserved(users)))
    ensures forall k: Key | k.hub == hub :: Running(applied, k) <==> ListedActive(users, k)
  {
    var missing, touched := Missing(t, hub, users), KeysOf(hub, AllObserved(users));
    var stopped := StopMissing(t, hub, users, now);
    applied := ApplyUsers(stopped, hub, users, origin, Existing(t, hub), now).value;
    ApplyUsersKeeps(stopped, hub, users, origin, Existing(t, hub), now);
    TouchMore(t, stopped, applied, missing, touched);
    RunningMatches(stopped, applied, hub, users);
    OriginsFollow(t, stopped, applied, hub, missing, touched, NamesOf(users), origin);
  }

  lemma OriginsFollow(t: Tables, stopped: Tables, applied: Tables, hub: int, missing: set<Key>, touched: set<Key>,
                      names: set<string>, origin: string)
    requires Frame(t, applied, missing + touched) && Frame(stopped, applied, touched)
            && UsersWritten(t, applied, hub, names, origin)
    requires forall k | k in touched :: k in applied.servers && applied.servers[k].origin == origin
    requires forall k | k in stopped.servers :: k in t.servers && t.servers[k].origin == stopped.servers[k].origin
    ensures OriginsFrom(t, applied, hub, origin)
  {
    forall k | k in applied.servers && k.hub == hub
      ensures applied.servers[k].origin == origin || (k in t.servers
                                                      && t.servers[k].origin == applied.servers[k].origin)
    {
      assert k in touched || k in stopped.servers;
    }
  }

  /** A committed sync leaves the Hub's servers, open sessions and active users
      exactly those of the snapshot, and nothing of any other Hub changed. */
  lemma SyncTracksSnapshot(t: Tables, hub: int, users: seq<JupyterUser>, origin: string, now: Time)
    requires Consistent(t) && Sync(t, hub, users, origin, now).Ok?
    ensures var u := Sync(t, hub, users, origin, now).value;
            Consistent(u) && Tracks(u, hub, users) && OtherHubsUntouched(t, u, hub) && OriginsFrom(t, u, hub, origin)
  {
    var applied := SyncApplies(t, hub, users, origin, now);
    var u := Deactivate(applied, hub, users);
    DeactivateKeeps(applied, hub, users);
    assert Tracks(u, hub, users) by {
      OpenExactlyWhenRunning(u);
      ListedNames(users);
      assert forall k :: Running(u, k) <==> Running(applied, k);
    }
    OthersUntouched(t, applied, u, hub, Missing(t, hub, users) + KeysOf(hub, AllObserved(users)));
  }

  lemma RunningMatches(stopped: Tables, applied: Tables, hub: int, users: seq<JupyterUser>)
    requires var touched := KeysOf(hub, AllObserved(users));
             Frame(stopped, applied, touched) && forall k | k in touched :: Running(applied, k)
    requires forall k | k in stopped.servers && k.hub == hub && Running(stopped, k) :: ListedActive(users, k)
    ensures forall k: Key | k.hub == hub :: Running(applied, k) <==> ListedActive(users, k)
  {
    var touched := KeysOf(hub, AllObserved(users));
    forall k: Key | k.hub == hub
      ensures Running(applied, k) <==> ListedActive(users, k)
    {
      assert k in touched <==> ListedActive(users, k);
      assert k !in touched ==> (Running(applied, k) <==> Running(stopped, k));
    }
  }

  lemma OthersUntouched(t: Tables, applied: Tables, u: Tables, hub: int, touched: set<Key>)
    requires Frame(t, applied, touched) && (forall k | k in touched :: k.hub == hub)
    requires forall id: (int, string) | id.0 != hub ::
            (id in t.users <==> id in applied.users) && (id in t.users ==> t.users[id] == applied.users[id])
    requires u.servers == applied.servers && u.sessions == applied.sessions
    requires forall id: (int, string) | id.0 != hub ::
            (id in applied.users <==> id in u.users) && (id in u.users ==> u.users[id] == applied.users[id])
    ensures OtherHubsUntouched(t, u, hub)
  {
  }

  lemma ListedNames(users: seq<JupyterUser>)
    ensures forall n: string :: n in NamesOf(users) <==> Listed(users, n)
  {
  }

  lemma DeactivateKeeps(t: Tables, hub: int, users: seq<JupyterUser>)
    requires Consistent(t)
    ensures Consistent(Deactivate(t, hub, users))
  {
  }

  lemma OpenExactlyWhenRunning(t: Tables)
    requires Consistent(t)
    ensures forall k :: HasOpen(t.sessions, k) <==> Running(t, k)
  {
    forall k | HasOpen(t.sessions, k)
      ensures Running(t, k)
    {
      var i :| i in t.sessions && IsOpen(t.sessions[i], k);
    }
  }

  // ---------- exactly when the database refuses a snapshot ----------

  /** live holds the start of every open session, by server. */
  ghost predicate Shows(sessions: map<int, Session>, live: map<Key, Time>) {
    && (forall k :: k in live <==> HasOpen(sessions, k))
    && (forall i | i in sessions && sessions[i].server.Some? && IsOpen(sessions[i], sessions[i].server.value) ::
          sessions[i].server.value in live && live[sessions[i].server.value] == sessions[i].started)
  }

  ghost function OpenSince(sessions: map<int, Session>): map<Key, Time> {
    map k | k in OpenKeys(sessions) :: StartedAt(sessions, k)
  }

  function OpenKeys(sessions: map<int, Session>): set<Key> {
    set i | i in sessions && sessions[i].server.Some? && sessions[i].ended.None? :: sessions[i].server.value
  }

  ghost function StartedAt(sessions: map<int, Session>, k: Key): Time {
    if i :| i in sessions && IsOpen(sessions[i], k) then sessions[i].started else 0
  }

  lemma OpenSinceShows(sessions: map<int, Session>)
    requires UniqueOpen(sessions)
    ensures Shows(sessions, OpenSince(sessions))
  {
    forall i | i in sessions && sessions[i].server.Some? && IsOpen(sessions[i], sessions[i].server.value)
      ensures sessions[i].server.value in OpenKeys(sessions)
      ensures StartedAt(sessions, sessions[i].server.value) == sessions[i].started
    {
    }
  }

  /** When the session open after the observation began. */
  function SinceAfter(live: map<Key, Time>, k: Key, o: Observation, previous: Option<Option<Time>>, now: Time): Time {
    if k in live && !Restarted(o.started, previous) then live[k] else SessionStart(o.started, previous, now)
  }

  /** The database takes this observation: its text has no NUL, and a restart
      does not end the replaced session before it began. */
  predicate Takes(live: map<Key, Time>, hub: int, o: Observation, existing: map<Key, Option<Time>>, now: Time) {
    var k := Key(hub, o.user, o.name);
    && TextOk(o.user) && TextOk(o.name)
    && (Restarted(o.started, Previous(existing, k)) && k in live ==> live[k] <= EndOfPrevious(o.started.value, now))
  }

  function LiveAfter(live: map<Key, Time>, hub: int, o: Observation, existing: map<Key, Option<Time>>,
                     now: Time): map<Key, Time> {
    var k := Key(hub, o.user, o.name);
    live[k := SinceAfter(live, k, o, Previous(existing, k), now)]
  }

  function LiveAfterAll(live: map<Key, Time>, hub: int, obs: seq<Observation>, existing: map<Key, Option<Time>>,
                        now: Time): map<Key, Time>
    decreases |obs|
  {
    if obs == [] then live else LiveAfterAll(LiveAfter(live, hub, obs[0], existing, now), hub, obs[1..], existing, now)
  }

  /** Every observation in turn, a server named twice being seen twice. */
  predicate TakesAll(live: map<Key, Time>, hub: int, obs: seq<Observation>, existing: map<Key, Option<Time>>, now: Time)
    decreases |obs|
  {
    obs == [] || (Takes(live, hub, obs[0], existing, now)
                  && TakesAll(LiveAfter(live, hub, obs[0], existing, now), hub, obs[1..], existing, now))
  }

  /** Decided by the tables before the transaction: only the starts of open
      sessions are followed. */
  ghost predicate Accepts(t: Tables, hub: int, users: seq<JupyterUser>, now: Time) {
    var missing := Missing(t, hub, users);
    && CanClose(t.sessions, missing, now)
    && (forall u | u in users :: TextOk(u.name))
    && TakesAll(OpenSince(t.sessions) - missing, hub, AllObserved(users), Existing(t, hub), now)
  }

  lemma CanCloseShown(sessions: map<int, Session>, live: map<Key, Time>, k: Key, at: Time)
    requires Shows(sessions, live)
    ensures CanClose(sessions, {k}, at) <==> (k in live ==> live[k] <= at)
  {
    if k in live {
      var i :| i in sessions && IsOpen(sessions[i], k);
    }
  }

  lemma CloseShows(sessions: map<int, Session>, live: map<Key, Time>, keys: set<Key>, at: Time)
    requires Shows(sessions, live)
    ensures Shows(CloseSessions(sessions, keys, at), live - keys)
  {
    var closed := CloseSessions(sessions, keys, at);
    forall k
      ensures HasOpen(closed, k) <==> HasOpen(sessions, k) && k !in keys
    {
      if HasOpen(sessions, k) && k !in keys {
        var i :| i in sessions && IsOpen(sessions[i], k);
        assert IsOpen(closed[i], k);
      }
      if HasOpen(closed, k) {
        var i :| i in closed && IsOpen(closed[i], k);
        assert IsOpen(sessions[i], k);
      }
    }
  }

  lemma OpenShows(t: Tables, live: map<Key, Time>, k: Key, start: Time, lastActivity: Option<Time>)
    requires Shows(t.sessions, live) && forall i | i in t.sessions :: i < t.nextSession
    ensures Shows(OpenSession(t, k, start, lastActivity).sessions, live[k := if k in live then live[k] else start])
  {
    var u := OpenSession(t, k, start, lastActivity);
    if HasOpen(t.sessions, k) {
      forall l
        ensures HasOpen(u.sessions, l) <==> HasOpen(t.sessions, l)
      {
        if HasOpen(t.sessions, l) {
          var i :| i in t.sessions && IsOpen(t.sessions[i], l);
          assert IsOpen(u.sessions[i], l);
        }
        if HasOpen(u.sessions, l) {
          var i :| i in u.sessions && IsOpen(u.sessions[i], l);
          assert IsOpen(t.sessions[i], l);
        }
      }
    } else {
      assert IsOpen(u.sessions[t.nextSession], k);
      forall l
        ensures HasOpen(u.sessions, l) <==> HasOpen(t.sessions, l) || l == k
      {
        if HasOpen(t.sessions, l) {
          var i :| i in t.sessions && IsOpen(t.sessions[i], l);
          assert IsOpen(u.sessions[i], l);
        }
      }
    }
  }

  lemma ReconcileFollows(t: Tables, live: map<Key, Time>, k: Key, o: Observation, previous: Option<Option<Time>>,
                         now: Time)
    requires Shows(t.sessions, live) && forall i | i in t.sessions :: i < t.nextSession
    ensures var r := Reconcile(t, k, o.started, o.lastActivity, previous, now);
            && (r.Ok? <==> (Restarted(o.started, previous) && k in live
                            ==> live[k] <= EndOfPrevious(o.started.value, now)))
            && (r.Ok? ==> Shows(r.value.sessions, live[k := SinceAfter(live, k, o, previous, now)]))
  {
    var start := SessionStart(o.started, previous, now);
    if Restarted(o.started, previous) {
      var at := EndOfPrevious(o.started.value, now);
      CanCloseShown(t.sessions, live, k, at);
      CloseShows(t.sessions, live, {k}, at);
      OpenShows(t.(sessions := CloseSessions(t.sessions, {k}, at)), live - {k}, k, start, o.lastActivity);
      assert (live - {k})[k := start] == live[k := start];
    } else {
      OpenShows(t, live, k, start, o.lastActivity);
    }
  }

  lemma ObserveFollows(t: Tables, live: map<Key, Time>, hub: int, o: Observation, origin: string,
                       existing: map<Key, Option<Time>>, now: Time)
    requires Consistent(t) && Shows(t.sessions, live)
    ensures var r := Observe(t, hub, o, origin, existing, now);
            && (r.Ok? <==> Takes(live, hub, o, existing, now))
            && (r.Ok? ==> Shows(r.value.sessions, LiveAfter(live, hub, o, existing, now)))
  {
    var k := Key(hub, o.user, o.name);
    ReconcileFollows(UpsertServer(t, k, o, origin), live, k, o, Previous(existing, k), now);
  }

  lemma {:induction false} ObserveAllFollows(t: Tables, live: map<Key, Time>, hub: int, obs: seq<Observation>,
                                             origin: string,
                                             existing: map<Key, Option<Time>>, now: Time)
    requires Consistent(t) && Shows(t.sessions, live) && forall o | o in obs :: o.status != "stopped"
    ensures var r := ObserveAll(t, hub, obs, origin, existing, now);
            && (r.Ok? <==> TakesAll(live, hub, obs, existing, now))
            && (r.Ok? ==> Shows(r.value.sessions, LiveAfterAll(live, hub, obs, existing, now)))
    decreases |obs|
  {
    if obs != [] {
      ObserveFollows(t, live, hub, obs[0], origin, existing, now);
      if Takes(live, hub, obs[0], existing, now) {
        var next := Observe(t, hub, obs[0], origin, existing, now).value;
        ObserveKeeps(t, hub, obs[0], origin, existing, now);
        ObserveAllFollows(next, LiveAfter(live, hub, obs[0], existing, now), hub, obs[1..], origin, existing, now);
      }
    }
  }

  lemma {:induction false} TakesInTurn(live: map<Key, Time>, hub: int, a: seq<Observation>, b: seq<Observation>,
                                       existing: map<Key, Option<Time>>, now: Time)
    ensures TakesAll(live, hub, a + b, existing, now)
            <==> TakesAll(live, hub, a, existing, now)
                 && TakesAll(LiveAfterAll(live, hub, a, existing, now), hub, b, existing, now)
    decreases |a|
  {
    if a == [] {
      assert a + b == b;
    } else {
      assert (a + b)[1..] == a[1..] + b;
      TakesInTurn(LiveAfter(live, hub, a[0], existing, now), hub, a[1..], b, existing, now);
    }
  }

  lemma {:induction false} ApplyUsersFollows(t: Tables, live: map<Key, Time>, hub: int, users: seq<JupyterUser>,
                                             origin: string,
                                             existing: map<Key, Option<Time>>, now: Time)
    requires Consistent(t) && Shows(t.sessions, live)
    ensures ApplyUsers(t, hub, users, origin, existing, now).Ok?
            <==> (forall u | u in users :: TextOk(u.name)) && TakesAll(live, hub, AllObserved(users), existing, now)
    decreases |users|
  {
    if users != [] {
      var first := Observed(users[0]);
      assert forall u | u in users :: u == users[0] || u in users[1..];
      TakesInTurn(live, hub, first, AllObserved(users[1..]), existing, now);
      if TextOk(users[0].name) {
        var named := UpsertUser(t, hub, users[0], origin).value;
        ObserveAllFollows(named, live, hub, first, origin, existing, now);
        if ApplyUser(t, hub, users[0], origin, existing, now).Ok? {
          var next := ApplyUser(t, hub, users[0], origin, existing, now).value;
          ApplyUserKeeps(t, hub, users[0], origin, existing, now);
          ApplyUsersFollows(next, LiveAfterAll(live, hub, first, existing, now), hub, users[1..], origin, existing,
                            now);
        }
      }
    }
  }

  /** The transaction commits exactly when Accepts holds of the tables it started
      from, whatever the snapshot, servers and users named twice included. */
  lemma SyncCommitsExactlyWhenAccepted(t: Tables, hub: int, users: seq<JupyterUser>, origin: string, now: Time)
    requires Consistent(t)
    ensures Sync(t, hub, users, origin, now).Ok? <==> Accepts(t, hub, users, now)
  {
    var missing := Missing(t, hub, users);
    if CanClose(t.sessions, missing, now) {
      var stopped := StopMissing(t, hub, users, now);
      OpenSinceShows(t.sessions);
      CloseShows(t.sessions, OpenSince(t.sessions), missing, now);
      ApplyUsersFollows(stopped, OpenSince(t.sessions) - missing, hub, users, origin, Existing(t, hub), now);
    }
  }

  /** A session open since `since` is never replaced by an earlier one, so an
      earlier start is refused wherever it stands in the snapshot. */
  lemma {:induction false} EarlierIsNotTaken(live: map<Key, Time>, hub: int, obs: seq<Observation>, o: Observation,
                                             since: Time,
                                             existing: map<Key, Option<Time>>, now: Time)
    requires var k := Key(hub, o.user, o.name); k in live && since <= live[k] && Previous(existing, k) == Some(None)
    requires o in obs && o.started.Some? && o.started.value < since
    ensures !TakesAll(live, hub, obs, existing, now)
    decreases |obs|
  {
    if obs[0] != o {
      assert o in obs[1..];
      SinceNeverFalls(live, hub, obs[0], o, since, existing, now);
      if Takes(live, hub, obs[0], existing, now) {
        EarlierIsNotTaken(LiveAfter(live, hub, obs[0], existing, now), hub, obs[1..], o, since, existing, now);
      }
    }
  }

  lemma SinceNeverFalls(live: map<Key, Time>, hub: int, first: Observation, o: Observation, since: Time,
                           existing: map<Key, Option<Time>>, now: Time)
    requires var k := Key(hub, o.user, o.name); k in live && since <= live[k] && Previous(existing, k) == Some(None)
    ensures var k := Key(hub, o.user, o.name);
            Takes(live, hub, first, existing, now) ==> since <= LiveAfter(live, hub, first, existing, now)[k]
  {
  }

  /** A server first listed without a start time opens a session at the sync
      time; every later snapshot that reports an earlier start is refused, at any
      time, so the Hub's inventory stops following the remote side. */
  lemma EarlierStartIsRefused(t: Tables, hub: int, users: seq<JupyterUser>, o: Observation, i: int, origin: string,
                              now: Time)
    requires Consistent(t) && o in AllObserved(users)
    requires var k := Key(hub, o.user, o.name);
             Running(t, k) && t.servers[k].started.None? && i in t.sessions && IsOpen(t.sessions[i], k)
    requires o.started.Some? && o.started.value < t.sessions[i].started
    ensures Sync(t, hub, users, origin, now) == Rejected
  {
    var k := Key(hub, o.user, o.name);
    SyncCommitsExactlyWhenAccepted(t, hub, users, origin, now);
    OpenSinceShows(t.sessions);
    assert ListedActive(users, k);
    EarlierIsNotTaken(OpenSince(t.sessions) - Missing(t, hub, users), hub, AllObserved(users), o, t.sessions[i].started,
                      Existing(t, hub), now);
  }

  const QUIET := JupyterUser("ana", false, None, "", [("", RawServer(None, None, None, None))])
  const EMPTY := Tables(map[], map[], map[], 1, 1)

  function ReportedSince(start: Time): JupyterUser {
    JupyterUser("ana", false, None, "", [("", RawServer(None, None, Some(start), None))])
  }

  lemma OneServer(start: Option<Time>)
    ensures var u := JupyterUser("ana", false, None, "", [("", RawServer(None, None, start, None))]);
            AllObserved([u]) == [Observation("ana", "", "running", start, None)]
  {
    var u := JupyterUser("ana", false, None, "", [("", RawServer(None, None, start, None))]);
    var (name, raw) := u.servers[0];
    assert ParseStatus(raw) == "running";
    assert ObserveServers("ana", u.servers[1..]) == [];
    assert Observed(u) == [Observation("ana", "", "running", start, None)];
    assert AllObserved([u][1..]) == [];
  }

  lemma FirstObservation(t: Tables, now: Time)
    requires t.servers == map[] && t.sessions == map[] && t.nextServer == t.nextSession == 1
    ensures var k := Key(1, "ana", "");
            ObserveAll(t, 1, [Observation("ana", "", "running", None, None)], "http://hub", map[], now) ==
            Ok(t.(servers := map[k := Server(1, "running", None, None, "http://hub")],
                  sessions := map[1 := Session(Some(k), 1, "ana", "", now, None, None)], nextServer := 2,
                      nextSession := 2))
  {
    var seen := Observation("ana", "", "running", None, None);
    assert !HasOpen(t.sessions, Key(1, "ana", ""));
    assert ObserveAll(t, 1, [seen], "http://hub", map[], now) == Observe(t, 1, seen, "http://hub", map[], now);
  }

  lemma FirstSync(now: Time)
    ensures var k, r := Key(1, "ana", ""), Sync(EMPTY, 1, [QUIET], "http://hub", now);
            r.Ok? && Consistent(r.value) && Running(r.value, k) && r.value.servers[k].started.None?
            && 1 in r.value.sessions && IsOpen(r.value.sessions[1], k) && r.value.sessions[1].started == now
  {
    OneServer(None);
    assert Missing(EMPTY, 1, [QUIET]) == {} && Existing(EMPTY, 1) == map[];
    assert StopServers(EMPTY, {}, now) == Ok(EMPTY);
    var named := UpsertUser(EMPTY, 1, QUIET, "http://hub").value;
    assert Observed(QUIET) == AllObserved([QUIET]) by {
      assert AllObserved([QUIET][1..]) == [];
    }
    FirstObservation(named, now);
    var applied := ApplyUser(EMPTY, 1, QUIET, "http://hub", map[], now);
    assert ApplyUsers(EMPTY, 1, [QUIET], "http://hub", map[], now) == applied;
    SyncTracksSnapshot(EMPTY, 1, [QUIET], "http://hub", now);
  }

  /** Such tables arise: one sync of one server without a start time, after which
      a report of any earlier start is refused at every later time. */
  lemma EarlierStartIsReachable(now: Time, start: Time, later: Time)
    requires start < now
    ensures var first := Sync(EMPTY, 1, [QUIET], "http://hub", now);
            first.Ok? && Sync(first.value, 1, [ReportedSince(start)], "http://hub", later) == Rejected
  {
    FirstSync(now);
    OneServer(Some(start));
    var o := Observation("ana", "", "running", Some(start), None);
    EarlierStartIsRefused(Sync(EMPTY, 1, [QUIET], "http://hub", now).value, 1, [ReportedSince(start)], o, 1,
                          "http://hub", later);
  }
}
