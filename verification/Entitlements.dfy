/** Who sees what, in the terms of the stored rows: the permission texts, the
    scope clauses as they are stored, and the API key's own list. */
module Entitlements {
  import opened Text
  import opened Permissions
  import opened Scopes
  import opened Access
  import Codec

  // ---------- the restricted bindings ----------

  ghost predicate Canonical(scopes: seq<Clause>) {
    forall c | c in scopes :: CanonicalClause(c) == Some(c)
  }

  predicate States(scopes: seq<Clause>, kind: string) {
    exists c | c in scopes :: c.kind == kind
  }

  /** The stored clauses name the target: its Hub's id if they name Hubs, its
      department, case aside, if they name departments. */
  predicate Names(scopes: seq<Clause>, hub: int, department: string) {
    && scopes != []
    && (States(scopes, "hub") ==> Clause("hub", Codec.Decimal(hub)) in scopes)
    && (States(scopes, "department") ==>
          exists c | c in scopes :: c.kind == "department" && EqualFold(c.value, TrimSpace(department)))
  }

  lemma CanonicalReads(c: Clause, hub: int)
    requires CanonicalClause(c) == Some(c)
    ensures c.kind == "hub" || c.kind == "department"
    ensures c.kind == "hub" ==> HubOf(c).Some? && DepartmentOf(c).None?
    ensures c.kind == "department" ==> HubOf(c).None? && DepartmentOf(c) == Some(c.value)
    ensures HubOf(c) == Some(hub) <==> c == Clause("hub", Codec.Decimal(hub))
  {
    TrimSpaceSettles(c.value);
    if c.kind == "hub" {
      var id := ParseHubScope(TrimSpace(c.value)).value;
      assert c.value == Codec.Decimal(id);
      HubScopeRoundTrip(id);
      if c.value == Codec.Decimal(hub) {
        Codec.DecimalInverts(id);
        Codec.DecimalInverts(hub);
      }
    } else {
      assert TrimSpace(c.value) == c.value && c.value != "";
    }
  }

  lemma NamesExactly(scopes: seq<Clause>, hub: int, department: string)
    requires Canonical(scopes)
    ensures ClausesMatch(scopes, hub, department) <==> Names(scopes, hub, department)
  {
    forall c | c in scopes
      ensures c.kind == "hub" || c.kind == "department"
      ensures HubOf(c).Some? <==> c.kind == "hub"
      ensures DepartmentOf(c) == if c.kind == "department" then Some(c.value) else None
      ensures HubOf(c) == Some(hub) <==> c == Clause("hub", Codec.Decimal(hub))
    {
      CanonicalReads(c, hub);
    }
    assert scopes != [] <==> HasHub(scopes) || HasDepartment(scopes) by {
      assert scopes != [] ==> scopes[0] in scopes;
    }
  }

  // ---------- the global bindings ----------

  lemma {:induction false} GlobalRowsAre(bindings: seq<StoredBinding>, p: string)
    ensures p in GlobalRows(bindings) <==> exists b | b in bindings :: b.global && p in b.permissions
    decreases |bindings|
  {
    if bindings != [] {
      var front, last := bindings[..|bindings| - 1], bindings[|bindings| - 1];
      GlobalRowsAre(front, p);
      assert forall b | b in bindings :: b in front || b == last;
      assert last in bindings && forall b | b in front :: b in bindings;
    }
  }

  /** A permission of a global binding, unless one that differs from it only in
      case was read before it. */
  ghost predicate GloballyGranted(bindings: seq<StoredBinding>, permission: string) {
    exists i :: First([], GlobalRows(bindings), i) && Grants(GlobalRows(bindings)[i], permission)
  }

  lemma GloballyGrantedIs(bindings: seq<StoredBinding>, permission: string)
    ensures EnsurePermission(FoldUnion([], GlobalRows(bindings)), permission) <==> GloballyGranted(bindings, permission)
  {
    var rows := GlobalRows(bindings);
    if p :| p in FoldUnion([], rows) && Grants(p, permission) {
      FoldUnionKeepsFirsts([], rows, p);
    }
    if i :| First([], rows, i) && Grants(rows[i], permission) {
      FoldUnionKeepsFirsts([], rows, rows[i]);
    }
  }

  /** What is granted globally comes from a global binding; without case variants
      every permission of every global binding counts. */
  lemma GlobalGrantsExactly(bindings: seq<StoredBinding>, permission: string)
    ensures GloballyGranted(bindings, permission)
            ==> exists b | b in bindings :: b.global && EnsurePermission(b.permissions, permission)
    ensures NoCaseVariants(Members(GlobalRows(bindings))) ==>
              (GloballyGranted(bindings, permission)
               <==> exists b | b in bindings :: b.global && EnsurePermission(b.permissions, permission))
  {
    var rows := GlobalRows(bindings);
    if i :| First([], rows, i) && Grants(rows[i], permission) {
      GlobalRowsAre(bindings, rows[i]);
    }
    if NoCaseVariants(Members(rows)) {
      if b :| b in bindings && b.global && EnsurePermission(b.permissions, permission) {
        var p :| p in b.permissions && Grants(p, permission);
        GlobalRowsAre(bindings, p);
        FoldUnionIsFaithful(rows);
        assert p in Members(FoldUnion([], rows));
        GloballyGrantedIs(bindings, permission);
      }
    }
  }

  // ---------- end to end ----------

  /** An API key only narrows: without one everything passes, with one what its own
      list grants. */
  predicate KeyAllows(apiKeyScopes: Option<seq<string>>, permission: string) {
    apiKeyScopes.None? || EnsurePermission(apiKeyScopes.value, permission)
  }

  ghost predicate MaySee(bindings: seq<StoredBinding>, apiKeyScopes: Option<seq<string>>, permission: string, hub: int,
                         department: string) {
    && KeyAllows(apiKeyScopes, permission)
    && (GloballyGranted(bindings, permission)
        || exists b | b in bindings :: !b.global && EnsurePermission(b.permissions, permission)
                                       && Names(b.scopes, hub, department))
  }

  lemma MaySeeIs(bindings: seq<StoredBinding>, apiKeyScopes: Option<seq<string>>, permission: string, hub: int,
                 department: string)
    requires forall b | b in bindings :: Canonical(b.scopes)
    ensures var p := PrincipalOf(bindings, apiKeyScopes);
            MaySee(bindings, apiKeyScopes, permission, hub, department)
            <==> ApiKeyAllows(p, permission)
                 && (EnsurePermission(p.globalPermissions, permission)
                     || Entitled(bindings, permission, hub, department))
  {
    GloballyGrantedIs(bindings, permission);
    forall b | b in bindings
      ensures ClausesMatch(b.scopes, hub, department) <==> Names(b.scopes, hub, department)
    {
      NamesExactly(b.scopes, hub, department);
    }
  }

  /** One target is allowed, and a list query returns one row, exactly when the
      caller may see it: by the permission texts of the stored roles, the scope
      clauses as stored, and the API key's list. */
  lemma AccessExactly(bindings: seq<StoredBinding>, apiKeyScopes: Option<seq<string>>, permission: string,
                      firstArg: int, row: Row)
    requires row.hub > 0 && forall b | b in bindings :: Canonical(b.scopes)
    ensures var filter := FilterOf(PrincipalOf(bindings, apiKeyScopes), permission);
            && (TargetAllowed(filter, row.hub, row.department)
                <==> MaySee(bindings, apiKeyScopes, permission, row.hub, row.department))
            && (Selects(PredicateOf(filter, true, true, firstArg), ArgsOf(filter, true, true, firstArg), firstArg, row)
                <==> MaySee(bindings, apiKeyScopes, permission, row.hub, row.department))
  {
    MaySeeIs(bindings, apiKeyScopes, permission, row.hub, row.department);
    TargetAllowedExactly(bindings, apiKeyScopes, permission, row.hub, row.department);
    QueryReturnsExactlyTheEntitled(bindings, apiKeyScopes, permission, firstArg, row);
  }
}
