/** Hub rows, their credentials and the operations in flight against them, as a
    state machine whose steps are single transactions. A caller reads a Hub's
    endpoint and token, goes remote, and commits the response any time later;
    create, update and delete may happen in between. */
module HubProtocol {
  import opened Text
  import opened Codec
  import opened HubSync

  /** What a token was entered for. */
  datatype Binding = Binding(authority: string, verifyTLS: bool)

  /** `healthOrigin` is the authority whose answer last set status. */
  datatype Hub = Hub(name: string, baseURL: string, network: string, enabled: bool, verifyTLS: bool, interval: int,
                     token: Option<string>, status: string, version: string, lastError: string,
                     healthOrigin: Option<string>)

  /** endpointOk is the verdict of ValidateEndpoint on the resulting URL. */
  datatype HubWrite = HubWrite(name: string, baseURL: string, network: string, enabled: Option<bool>,
                               verifyTLS: Option<bool>,
                               interval: int, apiToken: string, endpointOk: bool)

  datatype Capture = Capture(hub: int, baseURL: string, verifyTLS: bool, token: string, generation: string)
  datatype Action = Action(usernameOrigin: string, endpoint: string, verifyTLS: bool, token: Option<string>)

  /** entered: for every ciphertext ever produced, the binding it was entered
      under. last: the snapshot most recently committed for a Hub's current target. */
  datatype State = State(hubs: map<int, Hub>, tables: Tables, entered: map<string, Binding>,
                         captures: map<int, Capture>,
                         actions: seq<Action>, last: map<int, seq<JupyterUser>>)

  datatype Event =
    | Create(id: int, input: HubWrite, cipher: string)
    | Update(id: int, input: HubWrite, cipher: string)
    | Delete(id: int)
    | ReadCredential(op: int, id: int)
    | CommitSync(op: int, users: seq<JupyterUser>, now: Time)
    | CommitHealth(op: int, success: bool, version: string, error: string)
    | ReadAction(serverId: int)

  // ---------- validation ----------

  function Normalize(w: HubWrite): HubWrite {
    w.(name := TrimSpace(w.name), baseURL := Authority(w.baseURL), network := TrimSpace(w.network),
       apiToken := TrimSpace(w.apiToken))
  }

  predicate ValidWrite(w: HubWrite, requireToken: bool) {
    && w.name != "" && w.network != "" && w.baseURL != "" && (requireToken ==> w.apiToken != "")
    && |w.name| <= 256 && |w.network| <= 256 && |w.baseURL| <= 4096 && |w.apiToken| <= 65536
    && 30 <= w.interval <= 3600 && w.endpointOk
  }

  function GetOr<T>(o: Option<T>, default: T): T {
    if o.Some? then o.value else default
  }

  predicate BindingChanged(currentURL: string, currentTLS: bool, nextURL: string, nextTLS: bool) {
    Authority(currentURL) != Authority(nextURL) || currentTLS != nextTLS
  }

  /** A fresh ciphertext: encryption draws a random nonce. */
  predicate Fresh(s: State, cipher: string) {
    cipher !in s.entered && cipher != [] && |cipher| < WORD
  }

  predicate Int64(id: int) { -(WORD / 2) <= id < WORD / 2 }

  // ---------- generations ----------

  function TokenText(token: Option<string>): string { GetOr(token, []) }

  function Generation(id: int, h: Hub): string
    requires Int64(id)
  {
    HubStream(HubCredential(id, Authority(h.baseURL), h.verifyTLS, h.enabled, TokenText(h.token)))
  }

  predicate Matches(s: State, c: Capture) {
    c.hub in s.hubs && Int64(c.hub) && Generation(c.hub, s.hubs[c.hub]) == c.generation
  }

  // ---------- transactions ----------

  function CreateHub(s: State, id: int, input: HubWrite, cipher: string): State {
    var w := Normalize(input);
    var w := w.(interval := if w.interval == 0 then 60 else w.interval);
    if !ValidWrite(w, true) || id in s.hubs || !Int64(id) || !Fresh(s, cipher) then s
    else
      var tls := GetOr(w.verifyTLS, true);
      s.(hubs := s.hubs[id := Hub(w.name, w.baseURL, w.network, GetOr(w.enabled, true), tls, w.interval, Some(cipher),
                                  "unknown", "", "", None)],
         entered := s.entered[cipher := Binding(Authority(w.baseURL), tls)],
         last := s.last - {id})
  }

  /** Omitted fields take the current row's values. */
  function Completed(current: Hub, input: HubWrite): HubWrite {
    var w := Normalize(input);
    w.(name := if w.name == "" then current.name else w.name,
       baseURL := if w.baseURL == "" then current.baseURL else w.baseURL,
       network := if w.network == "" then current.network else w.network,
       enabled := Some(GetOr(w.enabled, current.enabled)),
       verifyTLS := Some(GetOr(w.verifyTLS, current.verifyTLS)),
       interval := if w.interval == 0 then current.interval else w.interval)
  }

  predicate UpdateAllowed(current: Hub, w: HubWrite)
    requires w.verifyTLS.Some?
  {
    ValidWrite(w, false) &&
    (w.apiToken == "" ==> current.token.Some? && !BindingChanged(current.baseURL, current.verifyTLS, w.baseURL,
                                                                 w.verifyTLS.value))
  }

  function UpdatedRow(current: Hub, w: HubWrite, cipher: string): Hub
    requires w.enabled.Some? && w.verifyTLS.Some?
  {
    var replace := current.baseURL != w.baseURL;
    Hub(w.name, w.baseURL, w.network, w.enabled.value, w.verifyTLS.value, w.interval,
        if w.apiToken == "" then current.token else Some(cipher),
        if replace then "unknown" else current.status, if replace then "" else current.version,
        if replace then "" else current.lastError, if replace then None else current.healthOrigin)
  }

  /** DELETE FROM servers / managed_users of the Hub; the sessions of the deleted
      servers stay, their server_id set to NULL. */
  function DropMaterialized(t: Tables, hub: int): Tables {
    t.(servers := map k | k in t.servers && k.hub != hub :: t.servers[k],
       users := map u | u in t.users && u.0 != hub :: t.users[u],
       sessions := map i | i in t.sessions ::
         if t.sessions[i].server.Some? && t.sessions[i].server.value.hub == hub then t.sessions[i].(server := None)
           else t.sessions[i])
  }

  function UpdateHub(s: State, id: int, input: HubWrite, cipher: string): State {
    if id !in s.hubs then s
    else
      var current := s.hubs[id];
      var w := Completed(current, input);
      if !UpdateAllowed(current, w) || (w.apiToken != "" && !Fresh(s, cipher)) then s
      else
        var replace := current.baseURL != w.baseURL;
        s.(hubs := s.hubs[id := UpdatedRow(current, w, cipher)],
           entered := if w.apiToken == "" then s.entered
             else s.entered[cipher := Binding(Authority(w.baseURL), w.verifyTLS.value)],
           tables := if replace then DropMaterialized(s.tables, id) else s.tables,
           last := if replace then s.last - {id} else s.last)
  }

  /** Rows that reference the Hub go with it, sessions included. */
  function DropHub(t: Tables, id: int): Tables {
    var u := DropMaterialized(t, id);
    u.(sessions := map i | i in u.sessions && u.sessions[i].hub != id :: u.sessions[i])
  }

  function DeleteHub(s: State, id: int): State {
    if id !in s.hubs then s
    else
      s.(hubs := s.hubs - {id}, last := s.last - {id}, tables := DropHub(s.tables, id))
  }

  function ReadHubCredential(s: State, op: int, id: int): State {
    if id !in s.hubs || !Int64(id) then s
    else
      var h := s.hubs[id];
      s.(captures := s.captures[op := Capture(id, h.baseURL, h.verifyTLS, TokenText(h.token), Generation(id, h))])
  }

  /** The response of the captured endpoint, committed while the generation still matches. */
  ghost function CommitSyncIfCurrent(s: State, c: Capture, users: seq<JupyterUser>, now: Time): State {
    if !Matches(s, c) then s
    else
      match Sync(s.tables, c.hub, users, Authority(c.baseURL), now)
      case Rejected => s
      case Ok(t) => s.(tables := t, last := s.last[c.hub := users])
  }

  /** A byte that begins a character in UTF-8. */
  predicate RuneStart(c: char) {
    !(0x80 <= c as int < 0xC0)
  }

  function CutAt(value: string, cut: nat): (r: nat)
    requires cut < |value|
    ensures r <= cut
  {
    if cut > 0 && !RuneStart(value[cut]) then CutAt(value, cut - 1) else cut
  }

  function Truncate(value: string, max: nat): string {
    if |value| <= max then value else value[..CutAt(value, max)]
  }

  function CommitHealthIfCurrent(s: State, c: Capture, success: bool, version: string, error: string): State {
    if !Matches(s, c) then s
    else
      var h := s.hubs[c.hub];
      var origin := Some(Authority(c.baseURL));
      s.(hubs := s.hubs[c.hub := if success then h.(status := "healthy", version := version, lastError := "",
                                                    healthOrigin := origin)
                                 else h.(status := "degraded",
                                         lastError := Truncate(error, 1000),
                                         healthOrigin := origin)])
  }

  ghost predicate HasServer(t: Tables, serverId: int) {
    exists k :: k in t.servers && t.servers[k].id == serverId
  }

  /** One statement joins the server row with its Hub row. */
  ghost function ReadServerAction(s: State, serverId: int): State {
    if !HasServer(s.tables, serverId) then s
    else
      var k :| k in s.tables.servers && s.tables.servers[k].id == serverId;
      ActOn(s, k)
  }

  function ActOn(s: State, k: Key): State
    requires k in s.tables.servers
  {
    if k.hub !in s.hubs then s
    else
      var h := s.hubs[k.hub];
      s.(actions := s.actions + [Action(s.tables.servers[k].origin, h.baseURL, h.verifyTLS, h.token)])
  }

  ghost function Step(s: State, e: Event): State {
    match e
    case Create(id, input, cipher) => CreateHub(s, id, input, cipher)
    case Update(id, input, cipher) => UpdateHub(s, id, input, cipher)
    case Delete(id) => DeleteHub(s, id)
    case ReadCredential(op, id) => ReadHubCredential(s, op, id)
    case CommitSync(op, users, now) =>
      if op in s.captures then CommitSyncIfCurrent(s, s.captures[op], users, now) else s
    case CommitHealth(op, success, version, error) =>
      if op in s.captures then CommitHealthIfCurrent(s, s.captures[op], success, version, error) else s
    case ReadAction(serverId) => ReadServerAction(s, serverId)
  }

  ghost function Run(s: State, events: seq<Event>): State
    decreases |events|
  {
    if events == [] then s else Run(Step(s, events[0]), events[1..])
  }

  // ---------- invariants ----------

  /** Every materialised row was written from the Hub's current authority. */
  ghost predicate Provenance(s: State) {
    && (forall k | k in s.tables.servers :: k.hub in s.hubs
                                           && s.tables.servers[k].origin == Authority(s.hubs[k.hub].baseURL))
    && (forall u | u in s.tables.users :: u.0 in s.hubs && s.tables.users[u].origin == Authority(s.hubs[u.0].baseURL))
    && (forall id | id in s.hubs && s.hubs[id].healthOrigin.Some? ::
            s.hubs[id].healthOrigin.value == Authority(s.hubs[id].baseURL))
  }

  /** Every Hub has a token, entered for the authority and TLS mode now stored. */
  ghost predicate TokensBound(s: State) {
    forall id | id in s.hubs ::
      && Int64(id) && |s.hubs[id].baseURL| <= 4096 && s.hubs[id].token.Some?
      && var c := s.hubs[id].token.value;
         c in s.entered && c != [] && s.entered[c] == Binding(Authority(s.hubs[id].baseURL), s.hubs[id].verifyTLS)
  }

  /** A capture's generation is that of the credential it holds. */
  ghost predicate CaptureOk(s: State, c: Capture) {
    && Int64(c.hub) && |c.baseURL| <= 4096 && |c.token| < WORD && c.token != [] && c.token in s.entered
    && exists enabled :: c.generation == HubStream(HubCredential(c.hub, Authority(c.baseURL), c.verifyTLS, enabled,
                                                                 c.token))
  }

  ghost predicate ActionOk(s: State, a: Action) {
    && a.usernameOrigin == Authority(a.endpoint)
    && (a.token.Some? ==> a.token.value in s.entered
                          && s.entered[a.token.value] == Binding(Authority(a.endpoint), a.verifyTLS))
  }

  ghost predicate Inv(s: State) {
    && Consistent(s.tables) && Provenance(s) && TokensBound(s)
    && (forall c | c in s.entered :: |c| < WORD)
    && (forall op | op in s.captures :: CaptureOk(s, s.captures[op]))
    && (forall a | a in s.actions :: ActionOk(s, a))
    && (forall hub | hub in s.last :: Tracks(s.tables, hub, s.last[hub]))
  }

  // ---------- every step keeps the invariant ----------

  lemma AuthorityShorter(url: string)
    ensures |Authority(url)| <= |url|
  {
  }

  lemma DropKeeps(t: Tables, hub: int)
    requires Consistent(t)
    ensures var u := DropMaterialized(t, hub);
            Consistent(u) && (forall k: Key | k.hub != hub :: Running(u, k) <==> Running(t, k))
  {
    var u := DropMaterialized(t, hub);
    forall k | k in u.servers && Running(u, k)
      ensures HasOpen(u.sessions, k)
    {
      assert Running(t, k);
      var i :| i in t.sessions && IsOpen(t.sessions[i], k);
      assert IsOpen(u.sessions[i], k);
    }
  }

  lemma DeleteSessionsKeeps(t: Tables, hub: int)
    requires Consistent(t) && forall k | k in t.servers :: k.hub != hub
    ensures Consistent(t.(sessions := map i | i in t.sessions && t.sessions[i].hub != hub :: t.sessions[i]))
  {
    var u := t.(sessions := map i | i in t.sessions && t.sessions[i].hub != hub :: t.sessions[i]);
    forall k | k in u.servers && Running(u, k)
      ensures HasOpen(u.sessions, k)
    {
      assert Running(t, k);
      var i :| i in t.sessions && IsOpen(t.sessions[i], k);
      assert IsOpen(u.sessions[i], k);
    }
  }

  /** Tracking a Hub only reads that Hub's server and user rows. */
  lemma TracksCarries(t: Tables, u: Tables, hub: int, users: seq<JupyterUser>)
    requires Consistent(t) && Consistent(u) && Tracks(t, hub, users)
    requires forall k: Key | k.hub == hub :: Running(u, k) <==> Running(t, k)
    requires forall n: string :: (hub, n) in u.users && u.users[(hub, n)].active
                                <==> (hub, n) in t.users && t.users[(hub, n)].active
    ensures Tracks(u, hub, users)
  {
    OpenExactlyWhenRunning(t);
    OpenExactlyWhenRunning(u);
  }

  lemma AllTrackersCarry(t: Tables, u: Tables, last: map<int, seq<JupyterUser>>, except: int)
    requires Consistent(t) && Consistent(u)
    requires forall hub | hub in last && hub != except :: Tracks(t, hub, last[hub])
    requires forall k: Key | k.hub != except :: Running(u, k) <==> Running(t, k)
    requires forall id: (int, string) | id.0 != except ::
            (id in t.users <==> id in u.users) && (id in t.users ==> t.users[id] == u.users[id])
    ensures forall hub | hub in last && hub != except :: Tracks(u, hub, last[hub])
  {
    forall hub | hub in last && hub != except
      ensures Tracks(u, hub, last[hub])
    {
      TracksCarries(t, u, hub, last[hub]);
    }
  }

  lemma CreateKeepsTokens(s: State, id: int, input: HubWrite, cipher: string)
    requires TokensBound(s)
    ensures TokensBound(CreateHub(s, id, input, cipher))
  {
  }

  lemma CreateKeeps(s: State, id: int, input: HubWrite, cipher: string)
    requires Inv(s)
    ensures Inv(CreateHub(s, id, input, cipher))
  {
    CreateKeepsTokens(s, id, input, cipher);
    CapturesSurvive(s, CreateHub(s, id, input, cipher));
  }

  /** Ciphertexts are only ever added, so captures and actions stay described. */
  lemma CapturesSurvive(s: State, u: State)
    requires forall c | c in s.entered :: c in u.entered && u.entered[c] == s.entered[c]
    requires forall op | op in s.captures :: CaptureOk(s, s.captures[op])
    requires forall a | a in s.actions :: ActionOk(s, a)
    ensures forall op | op in s.captures :: CaptureOk(u, s.captures[op])
    ensures forall a | a in s.actions :: ActionOk(u, a)
  {
  }

  lemma UpdateKeepsTokens(s: State, id: int, input: HubWrite, cipher: string)
    requires Inv(s)
    ensures TokensBound(UpdateHub(s, id, input, cipher))
  {
  }

  lemma UpdateKeepsRows(s: State, id: int, input: HubWrite, cipher: string)
    requires Inv(s)
    ensures var u := UpdateHub(s, id, input, cipher);
            Consistent(u.tables) && Provenance(u) && forall hub | hub in u.last :: Tracks(u.tables, hub, u.last[hub])
  {
    UpdateKeepsTracks(s, id, input, cipher);
    UpdateKeepsOrigins(s, id, input, cipher);
  }

  lemma UpdateKeepsTracks(s: State, id: int, input: HubWrite, cipher: string)
    requires Inv(s)
    ensures var u := UpdateHub(s, id, input, cipher);
            Consistent(u.tables) && forall hub | hub in u.last :: Tracks(u.tables, hub, u.last[hub])
  {
    var u := UpdateHub(s, id, input, cipher);
    if u.tables != s.tables {
      assert u.tables == DropMaterialized(s.tables, id) && u.last == s.last - {id};
      DropKeeps(s.tables, id);
      AllTrackersCarry(s.tables, u.tables, u.last, id);
    }
  }

  lemma UpdateKeepsOrigins(s: State, id: int, input: HubWrite, cipher: string)
    requires Provenance(s)
    ensures Provenance(UpdateHub(s, id, input, cipher))
  {
  }

  lemma UpdateKeeps(s: State, id: int, input: HubWrite, cipher: string)
    requires Inv(s)
    ensures Inv(UpdateHub(s, id, input, cipher))
  {
    var u := UpdateHub(s, id, input, cipher);
    UpdateKeepsTokens(s, id, input, cipher);
    UpdateKeepsRows(s, id, input, cipher);
    assert u.captures == s.captures && u.actions == s.actions;
    CapturesSurvive(s, u);
  }

  lemma DropHubKeeps(t: Tables, id: int)
    requires Consistent(t)
    ensures Forgets(t, DropHub(t, id), id)
  {
    DropKeeps(t, id);
    DeleteSessionsKeeps(DropMaterialized(t, id), id);
  }

  ghost predicate Forgets(t: Tables, u: Tables, id: int) {
    && Consistent(u) && (forall k: Key | k.hub != id :: Running(u, k) <==> Running(t, k))
    && (forall k | k in u.servers :: k.hub != id && k in t.servers && u.servers[k] == t.servers[k])
    && (forall v | v in u.users :: v.0 != id)
    && (forall v: (int, string) | v.0 != id :: (v in t.users <==> v in u.users)
                                              && (v in t.users ==> t.users[v] == u.users[v]))
  }

  lemma ForgettingKeepsOrigins(s: State, id: int, t: Tables)
    requires Provenance(s) && Forgets(s.tables, t, id)
    ensures Provenance(s.(hubs := s.hubs - {id}, last := s.last - {id}, tables := t))
  {
  }

  lemma ForgettingKeepsTracks(s: State, id: int, t: Tables)
    requires Inv(s) && Forgets(s.tables, t, id)
    ensures forall hub | hub in s.last && hub != id :: Tracks(t, hub, s.last[hub])
  {
    AllTrackersCarry(s.tables, t, s.last, id);
  }

  lemma DeleteKeepsRows(s: State, id: int)
    requires Inv(s)
    ensures var u := DeleteHub(s, id);
            Consistent(u.tables) && Provenance(u) && forall hub | hub in u.last :: Tracks(u.tables, hub, u.last[hub])
  {
    if id in s.hubs {
      DropHubKeeps(s.tables, id);
      ForgettingKeepsOrigins(s, id, DropHub(s.tables, id));
      ForgettingKeepsTracks(s, id, DropHub(s.tables, id));
    }
  }

  lemma DeleteKeeps(s: State, id: int)
    requires Inv(s)
    ensures Inv(DeleteHub(s, id))
  {
    var u := DeleteHub(s, id);
    assert u.captures == s.captures && u.actions == s.actions;
    CapturesSurvive(s, u);
    DeleteKeepsRows(s, id);
  }

  lemma ReadCredentialKeeps(s: State, op: int, id: int)
    requires Inv(s)
    ensures Inv(ReadHubCredential(s, op, id))
  {
    var u := ReadHubCredential(s, op, id);
    CapturesSurvive(s, u);
    if id in s.hubs && Int64(id) {
      var h := s.hubs[id];
      assert u.captures[op].generation == HubStream(HubCredential(id, Authority(h.baseURL), h.verifyTLS, h.enabled,
                                                                  TokenText(h.token)));
      assert CaptureOk(u, u.captures[op]);
    }
  }

  /** A generation that still matches names the same authority, TLS mode and
      ciphertext as the capture. */
  lemma MatchMeansSameCredential(s: State, c: Capture)
    requires Inv(s) && CaptureOk(s, c) && Matches(s, c)
    ensures var h := s.hubs[c.hub];
            Authority(h.baseURL) == Authority(c.baseURL) && h.verifyTLS == c.verifyTLS && TokenText(h.token) == c.token
  {
    var h := s.hubs[c.hub];
    var enabled :| c.generation == HubStream(HubCredential(c.hub, Authority(c.baseURL), c.verifyTLS, enabled, c.token));
    var captured := HubCredential(c.hub, Authority(c.baseURL), c.verifyTLS, enabled, c.token);
    var current := HubCredential(c.hub, Authority(h.baseURL), h.verifyTLS, h.enabled, TokenText(h.token));
    AuthorityShorter(h.baseURL);
    AuthorityShorter(c.baseURL);
    assert WORD > 4096;
    HubGenerationIsInjective(captured, current);
  }

  lemma SyncKeepsProvenance(s: State, t: Tables, hub: int, users: seq<JupyterUser>, now: Time)
    requires Consistent(s.tables) && Provenance(s) && hub in s.hubs
    requires Sync(s.tables, hub, users, Authority(s.hubs[hub].baseURL), now) == Ok(t)
    ensures Provenance(s.(tables := t, last := s.last[hub := users]))
  {
    SyncTracksSnapshot(s.tables, hub, users, Authority(s.hubs[hub].baseURL), now);
  }

  lemma SyncKeepsTrackers(s: State, t: Tables, hub: int, users: seq<JupyterUser>, origin: string, now: Time)
    requires Consistent(s.tables) && Sync(s.tables, hub, users, origin, now) == Ok(t)
    requires forall other | other in s.last :: Tracks(s.tables, other, s.last[other])
    ensures var last := s.last[hub := users];
            && Consistent(t)
            && forall other | other in last :: Tracks(t, other, last[other])
  {
    SyncTracksSnapshot(s.tables, hub, users, origin, now);
    AllTrackersCarry(s.tables, t, s.last, hub);
  }

  lemma CommitSyncKeeps(s: State, c: Capture, users: seq<JupyterUser>, now: Time)
    requires Inv(s) && CaptureOk(s, c)
    ensures Inv(CommitSyncIfCurrent(s, c, users, now))
  {
    var u := CommitSyncIfCurrent(s, c, users, now);
    CapturesSurvive(s, u);
    if Matches(s, c) && Sync(s.tables, c.hub, users, Authority(c.baseURL), now).Ok? {
      MatchMeansSameCredential(s, c);
      SyncKeepsProvenance(s, u.tables, c.hub, users, now);
      SyncKeepsTrackers(s, u.tables, c.hub, users, Authority(c.baseURL), now);
    }
  }

  lemma CommitHealthKeeps(s: State, c: Capture, success: bool, version: string, error: string)
    requires Inv(s) && CaptureOk(s, c)
    ensures Inv(CommitHealthIfCurrent(s, c, success, version, error))
  {
    if Matches(s, c) {
      MatchMeansSameCredential(s, c);
      var h := CommitHealthIfCurrent(s, c, success, version, error).hubs[c.hub];
      HealthKeeps(s, c.hub, h);
    }
  }

  lemma HealthKeeps(s: State, id: int, h: Hub)
    requires Inv(s) && id in s.hubs
    requires h.baseURL == s.hubs[id].baseURL && h.verifyTLS == s.hubs[id].verifyTLS && h.token == s.hubs[id].token
    requires h.healthOrigin == Some(Authority(h.baseURL))
    ensures Inv(s.(hubs := s.hubs[id := h]))
  {
    HealthKeepsHubs(s, id, h);
    CapturesSurvive(s, s.(hubs := s.hubs[id := h]));
  }

  lemma HealthKeepsHubs(s: State, id: int, h: Hub)
    requires Provenance(s) && TokensBound(s) && id in s.hubs
    requires h.baseURL == s.hubs[id].baseURL && h.verifyTLS == s.hubs[id].verifyTLS && h.token == s.hubs[id].token
    requires h.healthOrigin == Some(Authority(h.baseURL))
    ensures Provenance(s.(hubs := s.hubs[id := h])) && TokensBound(s.(hubs := s.hubs[id := h]))
  {
  }

  lemma ActionIsOk(s: State, k: Key)
    requires Provenance(s) && TokensBound(s) && k in s.tables.servers
    ensures var h := s.hubs[k.hub]; ActionOk(s, Action(s.tables.servers[k].origin, h.baseURL, h.verifyTLS, h.token))
  {
  }

  lemma ActOnKeeps(s: State, k: Key)
    requires Inv(s) && k in s.tables.servers
    ensures Inv(ActOn(s, k))
  {
    ActionIsOk(s, k);
    var h := s.hubs[k.hub];
    OneMoreAction(s, Action(s.tables.servers[k].origin, h.baseURL, h.verifyTLS, h.token));
  }

  lemma OneMoreAction(s: State, a: Action)
    requires Inv(s) && ActionOk(s, a)
    ensures Inv(s.(actions := s.actions + [a]))
  {
    CapturesSurvive(s, s.(actions := s.actions + [a]));
  }

  lemma ReadActionKeeps(s: State, serverId: int)
    requires Inv(s)
    ensures Inv(ReadServerAction(s, serverId))
  {
    if HasServer(s.tables, serverId) {
      var k :| k in s.tables.servers && ReadServerAction(s, serverId) == ActOn(s, k);
      ActOnKeeps(s, k);
    }
  }

  lemma StepKeeps(s: State, e: Event)
    requires Inv(s)
    ensures Inv(Step(s, e))
  {
    match e
    case Create(id, input, cipher) => CreateKeeps(s, id, input, cipher);
    case Update(id, input, cipher) => UpdateKeeps(s, id, input, cipher);
    case Delete(id) => DeleteKeeps(s, id);
    case ReadCredential(op, id) => ReadCredentialKeeps(s, op, id);
    case CommitSync(op, users, now) => if op in s.captures { CommitSyncKeeps(s, s.captures[op], users, now); }
    case CommitHealth(op, success, version, error) =>
      if op in s.captures { CommitHealthKeeps(s, s.captures[op], success, version, error); }
    case ReadAction(serverId) => ReadActionKeeps(s, serverId);
  }

  lemma {:induction false} RunKeeps(s: State, events: seq<Event>)
    requires Inv(s)
    ensures Inv(Run(s, events))
    decreases |events|
  {
    if events != [] {
      StepKeeps(s, events[0]);
      RunKeeps(Step(s, events[0]), events[1..]);
    }
  }

  const INITIAL := State(map[], Tables(map[], map[], map[], 1, 1), map[], map[], [], map[])

  /** In every interleaving: rows, tokens, actions and tracked snapshots. */
  lemma HubSafety(events: seq<Event>)
    ensures var s := Run(INITIAL, events);
            && Provenance(s) && TokensBound(s) && (forall a | a in s.actions :: ActionOk(s, a))
            && Consistent(s.tables) && (forall hub | hub in s.last :: Tracks(s.tables, hub, s.last[hub]))
  {
    RunKeeps(INITIAL, events);
  }

  // ---------- captures that can never commit again ----------

  /** The captured ciphertext is no longer the Hub's. */
  ghost predicate Retired(s: State, c: Capture) {
    c.token != [] && c.token in s.entered && (c.hub in s.hubs ==> TokenText(s.hubs[c.hub].token) != c.token)
  }

  lemma CreateTokens(s: State, id: int, input: HubWrite, cipher: string)
    ensures var u := CreateHub(s, id, input, cipher).hubs;
            forall other | other in u :: (other in s.hubs && u[other] == s.hubs[other])
                                        || (u[other].token == Some(cipher) && Fresh(s, cipher))
  {
  }

  lemma HealthLeavesTokens(s: State, c: Capture, success: bool, version: string, error: string)
    ensures var u := CommitHealthIfCurrent(s, c, success, version, error).hubs;
            forall id | id in u :: id in s.hubs && u[id].token == s.hubs[id].token
  {
  }

  lemma ReadsLeaveHubs(s: State, op: int, id: int)
    ensures ReadHubCredential(s, op, id).hubs == s.hubs && ReadServerAction(s, id).hubs == s.hubs
  {
  }

  /** A Hub's ciphertext only ever changes to one never produced before. */
  lemma TokensAreNeverReused(s: State, e: Event, id: int)
    requires id in Step(s, e).hubs
    ensures var token := TokenText(Step(s, e).hubs[id].token);
            token == [] || token !in s.entered || (id in s.hubs && token == TokenText(s.hubs[id].token))
  {
    match e
    case Create(target, input, cipher) => CreateTokens(s, target, input, cipher);
    case Update(target, input, cipher) => UpdateTokens(s, target, input, cipher);
    case Delete(_) =>
    case ReadCredential(op, target) => ReadsLeaveHubs(s, op, target);
    case CommitSync(op, users, now) => if op in s.captures { SyncLeavesHubs(s, s.captures[op], users, now); }
    case CommitHealth(op, success, version, error) =>
      if op in s.captures { HealthLeavesTokens(s, s.captures[op], success, version, error); }
    case ReadAction(serverId) => ReadsLeaveHubs(s, 0, serverId);
  }

  lemma UpdateTokens(s: State, id: int, input: HubWrite, cipher: string)
    ensures var u := UpdateHub(s, id, input, cipher).hubs;
            && u.Keys == s.hubs.Keys && (forall other | other in s.hubs && other != id :: u[other] == s.hubs[other])
            && (id in s.hubs ==> u[id].token == s.hubs[id].token || (u[id].token == Some(cipher) && Fresh(s, cipher)))
  {
  }

  lemma SyncLeavesHubs(s: State, c: Capture, users: seq<JupyterUser>, now: Time)
    ensures CommitSyncIfCurrent(s, c, users, now).hubs == s.hubs
  {
  }

  lemma RetiredStays(s: State, e: Event, c: Capture)
    requires Inv(s) && Retired(s, c)
    ensures Retired(Step(s, e), c)
  {
    EnteredGrows(s, e);
    if c.hub in Step(s, e).hubs {
      TokensAreNeverReused(s, e, c.hub);
      if c.hub !in s.hubs {
        assert TokenText(Step(s, e).hubs[c.hub].token) !in s.entered || TokenText(Step(s, e).hubs[c.hub].token) == [];
      }
    }
  }

  lemma {:induction false} RetiredForever(s: State, events: seq<Event>, c: Capture)
    requires Inv(s) && Retired(s, c) && CaptureOk(s, c)
    ensures !Matches(Run(s, events), c)
    decreases |events|
  {
    if events == [] {
      if Matches(s, c) {
        MatchMeansSameCredential(s, c);
      }
    } else {
      StepKeeps(s, events[0]);
      RetiredStays(s, events[0], c);
      EnteredGrows(s, events[0]);
      CapturesSurvive(s.(captures := map[0 := c], actions := []), Step(s, events[0]));
      RetiredForever(Step(s, events[0]), events[1..], c);
    }
  }

  lemma EnteredGrows(s: State, e: Event)
    ensures forall c | c in s.entered :: c in Step(s, e).entered && Step(s, e).entered[c] == s.entered[c]
  {
  }

  /** Once a Hub's authority or TLS mode has been changed, or its token re-entered,
      no response requested before that, under that credential or an older one, is
      ever committed, even if the old settings are entered again later. */
  lemma RetargetRetiresCaptures(s: State, id: int, input: HubWrite, cipher: string, op: int, events: seq<Event>)
    requires Inv(s) && op in s.captures && s.captures[op].hub == id && id in s.hubs
    requires var u := UpdateHub(s, id, input, cipher);
             u.hubs[id].token != s.hubs[id].token || BindingChanged(s.hubs[id].baseURL, s.hubs[id].verifyTLS,
                                                                    u.hubs[id].baseURL, u.hubs[id].verifyTLS)
    ensures !Matches(Run(UpdateHub(s, id, input, cipher), events), s.captures[op])
  {
    var u := UpdateHub(s, id, input, cipher);
    UpdateKeeps(s, id, input, cipher);
    assert u.captures == s.captures;
    assert Retired(u, s.captures[op]);
    RetiredForever(u, events, s.captures[op]);
  }

  // ---------- sessions that lost their server ----------

  lemma OrphanStays(s: State, e: Event, i: int)
    requires Inv(s) && i in s.tables.sessions && s.tables.sessions[i].server.None?
    requires e != Delete(s.tables.sessions[i].hub)
    ensures i in Step(s, e).tables.sessions && Step(s, e).tables.sessions[i] == s.tables.sessions[i]
  {
    match e
    case CommitSync(op, users, now) =>
      if op in s.captures { OrphanStaysOnCommit(s, s.captures[op], users, now, i); }
    case _ =>
  }

  lemma OrphanStaysOnCommit(s: State, c: Capture, users: seq<JupyterUser>, now: Time, i: int)
    requires Inv(s) && i in s.tables.sessions && s.tables.sessions[i].server.None?
    ensures var u := CommitSyncIfCurrent(s, c, users, now).tables;
            i in u.sessions && u.sessions[i] == s.tables.sessions[i]
  {
    if Matches(s, c) && Sync(s.tables, c.hub, users, Authority(c.baseURL), now).Ok? {
      SyncTracksSnapshot(s.tables, c.hub, users, Authority(c.baseURL), now);
    }
  }

  /** Replacing a Hub's target detaches its open sessions without ending them, and
      nothing short of deleting the Hub ends them afterwards. */
  lemma {:induction false} OrphanedSessionNeverEnds(s: State, events: seq<Event>, i: int)
    requires Inv(s) && i in s.tables.sessions && s.tables.sessions[i].server.None? && s.tables.sessions[i].ended.None?
    requires forall e | e in events :: e != Delete(s.tables.sessions[i].hub)
    ensures i in Run(s, events).tables.sessions && Run(s, events).tables.sessions[i].ended.None?
    decreases |events|
  {
    if events != [] {
      assert events[0] in events && forall e | e in events[1..] :: e in events;
      OrphanStays(s, events[0], i);
      StepKeeps(s, events[0]);
      OrphanedSessionNeverEnds(Step(s, events[0]), events[1..], i);
    }
  }

  lemma RetargetDetachesSessions(s: State, id: int, input: HubWrite, cipher: string, i: int)
    requires id in s.hubs && i in s.tables.sessions
    requires s.tables.sessions[i].ended.None? && s.tables.sessions[i].server.Some?
            && s.tables.sessions[i].server.value.hub == id
    requires UpdateHub(s, id, input, cipher).hubs[id].baseURL != s.hubs[id].baseURL
    ensures var u := UpdateHub(s, id, input, cipher).tables;
            i in u.sessions && u.sessions[i].server.None? && u.sessions[i].ended.None?
  {
  }
}
