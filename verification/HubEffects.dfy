/** What Hub forms, health reports and deletions store, which forms are taken, and
    exactly when a response captured earlier may still be written. */
module HubEffects {
  import opened Text
  import opened Codec
  import opened HubSync
  import opened HubProtocol

  // ---------- creating ----------

  /** The limits of a Hub's fields, once trimmed. */
  predicate WithinLimits(name: string, url: string, network: string, token: string) {
    && 1 <= |name| <= 256 && 1 <= |network| <= 256 && 1 <= |url| <= 4096 && |token| <= 65_536
  }

  /** A new Hub is taken exactly when its fields keep their limits, it has a token
      and its interval is left out or between half a minute and an hour. */
  lemma CreateAcceptedExactly(s: State, id: int, input: HubWrite, cipher: string)
    requires id !in s.hubs && Int64(id) && HubProtocol.Fresh(s, cipher)
    ensures id in CreateHub(s, id, input, cipher).hubs
            <==> && WithinLimits(TrimSpace(input.name), Authority(input.baseURL), TrimSpace(input.network),
                                 TrimSpace(input.apiToken))
                 && TrimSpace(input.apiToken) != "" && input.endpointOk
                 && (input.interval == 0 || 30 <= input.interval <= 3600)
  {
  }

  /** It is stored as the form says, enabled, checking certificates and collected
      every minute unless the form says otherwise, its state not yet known. */
  lemma CreateStoresTheForm(s: State, id: int, input: HubWrite, cipher: string)
    requires id !in s.hubs && id in CreateHub(s, id, input, cipher).hubs
    ensures var u := CreateHub(s, id, input, cipher);
            var h := u.hubs[id];
            && h.name == TrimSpace(input.name) && h.network == TrimSpace(input.network)
            && h.baseURL == Authority(input.baseURL)
            && (h.enabled <==> input.enabled != Some(false)) && (h.verifyTLS <==> input.verifyTLS != Some(false))
            && h.interval == (if input.interval == 0 then 60 else input.interval)
            && h.token == Some(cipher) && h.status == "unknown" && h.version == "" && h.lastError == ""
            && u.tables == s.tables
            && forall other | other in s.hubs :: other in u.hubs && u.hubs[other] == s.hubs[other]
  {
  }

  // ---------- updating ----------

  predicate Given(text: string) { TrimSpace(text) != "" }

  /** An update is taken exactly when the fields it leads to keep their limits, and
      it brings a token or leaves target and TLS mode alone. */
  lemma UpdateAcceptedExactly(s: State, id: int, input: HubWrite)
    requires id in s.hubs
    ensures var h := s.hubs[id];
            var name := if Given(input.name) then TrimSpace(input.name) else h.name;
            var network := if Given(input.network) then TrimSpace(input.network) else h.network;
            var url := if Authority(input.baseURL) != "" then Authority(input.baseURL) else h.baseURL;
            var interval := if input.interval != 0 then input.interval else h.interval;
            UpdateAllowed(h, Completed(h, input))
            <==> && WithinLimits(name, url, network, TrimSpace(input.apiToken)) && input.endpointOk
                 && 30 <= interval <= 3600
                 && (Given(input.apiToken)
                     || (&& h.token.Some? && Authority(url) == Authority(h.baseURL)
                         && (input.verifyTLS.Some? ==> input.verifyTLS.value == h.verifyTLS)))
  {
  }

  /** Every field is the one the form gives, or as it was where the form leaves it
      out; a new target makes the Hub's state unknown again. */
  lemma UpdateStoresTheForm(s: State, id: int, input: HubWrite, cipher: string)
    requires id in s.hubs && UpdateAllowed(s.hubs[id], Completed(s.hubs[id], input)) && HubProtocol.Fresh(s, cipher)
    ensures var h, u := s.hubs[id], UpdateHub(s, id, input, cipher);
            id in u.hubs
            && var r := u.hubs[id];
               && r.name == (if Given(input.name) then TrimSpace(input.name) else h.name)
               && r.network == (if Given(input.network) then TrimSpace(input.network) else h.network)
               && r.baseURL == (if Authority(input.baseURL) != "" then Authority(input.baseURL) else h.baseURL)
               && (input.enabled.Some? ==> r.enabled == input.enabled.value)
               && (input.enabled.None? ==> r.enabled == h.enabled)
               && (input.verifyTLS.Some? ==> r.verifyTLS == input.verifyTLS.value)
               && (input.verifyTLS.None? ==> r.verifyTLS == h.verifyTLS)
               && r.interval == (if input.interval != 0 then input.interval else h.interval)
               && r.token == (if Given(input.apiToken) then Some(cipher) else h.token)
               && (r.baseURL == h.baseURL ==> r.status == h.status && r.version == h.version
                                              && r.lastError == h.lastError && r.healthOrigin == h.healthOrigin)
               && (r.baseURL != h.baseURL ==> r.status == "unknown" && r.version == "" && r.lastError == ""
                                              && r.healthOrigin == None)
  {
  }

  lemma RefusedUpdatesChangeNothing(s: State, id: int, input: HubWrite, cipher: string)
    requires id in s.hubs && !UpdateAllowed(s.hubs[id], Completed(s.hubs[id], input))
    ensures UpdateHub(s, id, input, cipher) == s
  {
  }

  /** A session as it is but for the server it belongs to. */
  predicate Detached(before: Session, after: Session) {
    after.server.None? && before.hub == after.hub && before.user == after.user && before.name == after.name
    && before.started == after.started && before.ended == after.ended && before.lastActivity == after.lastActivity
  }

  /** An update keeps every row unless it replaces the target; then the Hub's
      servers and users go, its sessions stay without their server, and nothing of
      another Hub changes. */
  lemma UpdateDropsExactly(s: State, id: int, input: HubWrite, cipher: string)
    requires id in s.hubs
    ensures var u := UpdateHub(s, id, input, cipher);
            && u.hubs.Keys == s.hubs.Keys
            && (forall other | other in s.hubs && other != id :: u.hubs[other] == s.hubs[other])
            && (u.hubs[id].baseURL == s.hubs[id].baseURL ==> u.tables == s.tables)
            && (u.hubs[id].baseURL != s.hubs[id].baseURL ==> Dropped(s.tables, u.tables, id))
  {
    DroppingIsExact(s.tables, id);
    var u := UpdateHub(s, id, input, cipher);
    assert u.tables == s.tables || u.tables == DropMaterialized(s.tables, id);
  }

  lemma DroppingIsExact(t: Tables, hub: int)
    ensures Dropped(t, DropMaterialized(t, hub), hub)
  {
  }

  ghost predicate Dropped(t: Tables, u: Tables, hub: int) {
    && (forall k :: k in u.servers <==> k in t.servers && k.hub != hub)
    && (forall k | k in u.servers :: u.servers[k] == t.servers[k])
    && (forall v :: v in u.users <==> v in t.users && v.0 != hub)
    && (forall v | v in u.users :: u.users[v] == t.users[v])
    && u.sessions.Keys == t.sessions.Keys
    && forall i | i in t.sessions ::
         if t.sessions[i].server.Some? && t.sessions[i].server.value.hub == hub
         then Detached(t.sessions[i], u.sessions[i]) else u.sessions[i] == t.sessions[i]
  }

  // ---------- deleting ----------

  /** A deleted Hub takes its servers, users and sessions along, and nothing else. */
  lemma DeleteRemovesExactly(s: State, id: int)
    requires id in s.hubs && Consistent(s.tables)
    ensures var u := DeleteHub(s, id);
            && u.hubs.Keys == s.hubs.Keys - {id} && (forall other | other in u.hubs :: u.hubs[other] == s.hubs[other])
            && (forall k :: k in u.tables.servers <==> k in s.tables.servers && k.hub != id)
            && (forall k | k in u.tables.servers :: u.tables.servers[k] == s.tables.servers[k])
            && (forall v :: v in u.tables.users <==> v in s.tables.users && v.0 != id)
            && (forall v | v in u.tables.users :: u.tables.users[v] == s.tables.users[v])
            && (forall i :: i in u.tables.sessions <==> i in s.tables.sessions && s.tables.sessions[i].hub != id)
            && (forall i | i in u.tables.sessions :: u.tables.sessions[i] == s.tables.sessions[i])
  {
  }

  // ---------- health ----------

  /** A report that is still current sets status, version and error, and nothing
      else; an error keeps the version last seen, its text cut to a thousand bytes. */
  lemma HealthIsStored(s: State, c: Capture, success: bool, version: string, error: string)
    requires Matches(s, c)
    ensures var u, h := CommitHealthIfCurrent(s, c, success, version, error), s.hubs[c.hub];
            && u.hubs.Keys == s.hubs.Keys && u.tables == s.tables
            && (forall other | other in s.hubs && other != c.hub :: u.hubs[other] == s.hubs[other])
            && var r := u.hubs[c.hub];
               && r.name == h.name && r.baseURL == h.baseURL && r.network == h.network && r.enabled == h.enabled
               && r.verifyTLS == h.verifyTLS && r.interval == h.interval && r.token == h.token
               && (success ==> r.status == "healthy" && r.version == version && r.lastError == "")
               && (!success ==> && r.status == "degraded" && r.version == h.version
                                && Cut(error, 1000, r.lastError))
  {
    CutExactly(error, 1000);
  }

  /** The longest beginning of the text that fits and splits no character; the text
      itself if it fits. */
  predicate Cut(value: string, max: nat, r: string) {
    && r <= value && |r| <= max && (|value| <= max ==> r == value)
    && (|value| > max ==> && (r != "" ==> RuneStart(value[|r|]))
                          && forall i | |r| < i <= max :: !RuneStart(value[i]))
  }

  lemma {:induction false} CutAtIs(value: string, cut: nat)
    requires cut < |value|
    ensures CutAt(value, cut) > 0 ==> RuneStart(value[CutAt(value, cut)])
    ensures forall i | CutAt(value, cut) < i <= cut :: !RuneStart(value[i])
  {
    if cut > 0 && !RuneStart(value[cut]) {
      CutAtIs(value, cut - 1);
    }
  }

  lemma CutExactly(value: string, max: nat)
    ensures Cut(value, max, Truncate(value, max))
  {
    if |value| > max {
      CutAtIs(value, max);
    }
  }

  // ---------- when a captured response may be written ----------

  /** A response captured when the state was s may be written in state t exactly
      when the Hub is still there, with the same authority, TLS mode, enabled flag
      and ciphertext. */
  lemma CaptureMatchesExactly(s: State, op: int, id: int, t: State)
    requires Inv(s) && Inv(t) && id in s.hubs
    ensures var captures := ReadHubCredential(s, op, id).captures;
            && op in captures
            && (Matches(t, captures[op])
                <==> && id in t.hubs && Authority(t.hubs[id].baseURL) == Authority(s.hubs[id].baseURL)
                     && t.hubs[id].verifyTLS == s.hubs[id].verifyTLS && t.hubs[id].enabled == s.hubs[id].enabled
                     && t.hubs[id].token == s.hubs[id].token)
  {
    if id in t.hubs {
      SameGeneration(id, s.hubs[id], t.hubs[id]);
      KnownTokens(s, id);
      KnownTokens(t, id);
    }
  }

  lemma KnownTokens(s: State, id: int)
    requires Inv(s) && id in s.hubs
    ensures Int64(id) && s.hubs[id].token.Some? && |s.hubs[id].baseURL| < WORD && |s.hubs[id].token.value| < WORD
  {
    assert WORD == 0x1_0000_0000_0000_0000 by {
      assert Pow256(8) == 256 * Pow256(7) && Pow256(7) == 256 * Pow256(6) && Pow256(6) == 256 * Pow256(5);
      assert Pow256(5) == 256 * Pow256(4) && Pow256(4) == 256 * Pow256(3) && Pow256(3) == 256 * Pow256(2);
    }
  }

  lemma SameGeneration(id: int, g: Hub, h: Hub)
    requires Int64(id) && g.token.Some? && h.token.Some?
    requires |g.baseURL| < WORD && |h.baseURL| < WORD && |g.token.value| < WORD && |h.token.value| < WORD
    ensures Generation(id, g) == Generation(id, h)
            <==> && Authority(g.baseURL) == Authority(h.baseURL) && g.verifyTLS == h.verifyTLS && g.enabled == h.enabled
                 && g.token == h.token
  {
    AuthorityShorter(g.baseURL);
    AuthorityShorter(h.baseURL);
    HubGenerationIsInjective(HubCredential(id, Authority(g.baseURL), g.verifyTLS, g.enabled, TokenText(g.token)),
                             HubCredential(id, Authority(h.baseURL), h.verifyTLS, h.enabled, TokenText(h.token)));
  }

  // ---------- server actions ----------

  /** A server action is sent to the server's own Hub, with that Hub's token. */
  lemma ActionGoesToTheServersHub(s: State, k: Key)
    requires Inv(s) && k in s.tables.servers
    ensures var u := ReadServerAction(s, s.tables.servers[k].id);
            && k.hub in s.hubs && |u.actions| == |s.actions| + 1 && u.actions[..|s.actions|] == s.actions
            && var a, h := u.actions[|s.actions|], s.hubs[k.hub];
               a.endpoint == h.baseURL && a.verifyTLS == h.verifyTLS && a.token == h.token
  {
    assert HasServer(s.tables, s.tables.servers[k].id);
    assert forall l | l in s.tables.servers && s.tables.servers[l].id == s.tables.servers[k].id :: l == k;
  }
}
