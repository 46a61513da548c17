/** What saving, deleting and assigning roles leave in the tables, and exactly
    which of them are accepted. */
module RbacEffects {
  import opened Text
  import opened Permissions
  import opened Scopes
  import opened Rbac
  import Codec

  // ---------- what is stored ----------

  /** An accepted save stores the form, trimmed, as a new role or in place of the
      old one; a system role keeps its key. Nothing else changes. */
  lemma SaveStoresTheForm(s: State, input: RoleInput, actor: int, order: seq<int>)
    requires Wf(s) && ErrorOf(s, Save(input, actor, order)).None?
    ensures var t, id := Step(s, Save(input, actor, order)), if input.id == 0 then s.nextRole else input.id;
            && t.users == s.users && t.bindings == s.bindings && t.roles.Keys == s.roles.Keys + {id}
            && (input.id == 0 <==> id !in s.roles) && (input.id == 0 ==> t.nextRole > id)
            && (forall r | r in s.roles && r != id :: t.roles[r] == s.roles[r])
            && var role := t.roles[id];
               && role.name == TrimSpace(input.name) && role.description == TrimSpace(input.description)
               && role.permissions == input.permissions
               && role.system == (id in s.roles && s.roles[id].system)
               && role.key == (if role.system then s.roles[id].key else TrimSpace(input.key))
  {
  }

  /** An accepted deletion takes the role and its assignments, and nothing else. */
  lemma DeleteRemovesExactly(s: State, id: int, actor: int, order: seq<int>, u: int)
    requires Wf(s) && ErrorOf(s, Delete(id, actor, order)).None?
    ensures var t := Step(s, Delete(id, actor, order));
            && id in s.roles && !s.roles[id].system
            && t.users == s.users && t.roles == s.roles - {id} && t.nextRole == s.nextRole
            && BindingsOf(t, u) == BindingsOf(s, u) - {id}
  {
  }

  lemma {:induction false} TableHolds(bound: seq<Bound>, i: nat)
    requires i < |bound| && DistinctRoles(bound)
    ensures bound[i].roleId in Table(bound)
    ensures Table(bound)[bound[i].roleId] == Binding(bound[i].global, bound[i].scopes)
    decreases |bound|
  {
    if i < |bound| - 1 {
      TableHolds(bound[..|bound| - 1], i);
    }
  }

  lemma {:induction false} TableHoldsNoMore(bound: seq<Bound>, r: int)
    requires r in Table(bound)
    ensures exists i :: 0 <= i < |bound| && bound[i].roleId == r
    decreases |bound|
  {
    var n := |bound| - 1;
    if bound[n].roleId != r {
      TableHoldsNoMore(bound[..n], r);
      var i :| 0 <= i < n && bound[..n][i].roleId == r;
      assert bound[i].roleId == r;
    }
  }

  /** The stored bindings are those of the form. */
  ghost predicate Stores(table: map<int, Binding>, inputs: seq<BindingInput>) {
    && (forall i | 0 <= i < |inputs| ::
          && inputs[i].roleId in table && AllCanonical(inputs[i].scopes)
          && table[inputs[i].roleId]
             == Binding(TrimSpace(inputs[i].mode) == "global", CanonicalScopes(inputs[i].scopes)))
    && (forall r | r in table :: exists i :: 0 <= i < |inputs| && inputs[i].roleId == r)
  }

  lemma TableStores(inputs: seq<BindingInput>)
    requires BindingsOk(inputs)
    ensures Stores(Table(NormalBindings(inputs)), inputs)
  {
    var bound := NormalBindings(inputs);
    forall i | 0 <= i < |inputs|
      ensures inputs[i].roleId in Table(bound)
              && Table(bound)[inputs[i].roleId]
                 == Binding(TrimSpace(inputs[i].mode) == "global", CanonicalScopes(inputs[i].scopes))
    {
      TableHolds(bound, i);
    }
    forall r | r in Table(bound)
      ensures exists i :: 0 <= i < |inputs| && inputs[i].roleId == r
    {
      TableHoldsNoMore(bound, r);
      var i :| 0 <= i < |bound| && bound[i].roleId == r;
      assert inputs[i].roleId == r;
    }
  }

  /** An accepted assignment leaves the user exactly the bindings of the form, in
      the mode and with the clauses it states in their stored form; roles and other
      users' bindings stay. */
  lemma BindStoresTheForm(s: State, user: int, inputs: seq<BindingInput>, legacy: bool, actor: int, order: seq<int>,
                          hubs: set<int>)
    requires ErrorOf(s, Bind(user, inputs, legacy, actor, order, hubs)).None?
    ensures var t := Step(s, Bind(user, inputs, legacy, actor, order, hubs));
            && t.users == s.users && t.roles == s.roles && t.nextRole == s.nextRole
            && (forall u | u != user :: BindingsOf(t, u) == BindingsOf(s, u))
            && Stores(BindingsOf(t, user), inputs)
  {
    BindRebinds(s, user, inputs, legacy, actor, order, hubs);
    TableStores(inputs);
  }

  lemma BindRebinds(s: State, user: int, inputs: seq<BindingInput>, legacy: bool, actor: int, order: seq<int>,
                    hubs: set<int>)
    requires ErrorOf(s, Bind(user, inputs, legacy, actor, order, hubs)).None?
    ensures BindingsOk(inputs)
    ensures Step(s, Bind(user, inputs, legacy, actor, order, hubs))
            == s.(bindings := s.bindings[user := Table(NormalBindings(inputs))])
  {
  }

  lemma RefusedChangesNothing(s: State, e: Event)
    requires ErrorOf(s, e).Some?
    ensures Step(s, e) == s
  {
  }

  // ---------- the ceiling ----------

  /** The actor holds it globally, as the query merges the permissions. */
  predicate Holds(s: State, actor: int, order: seq<int>, permission: string) {
    Active(s, actor) && EnsurePermission(AssignedPermissions(s, actor, true, order), permission)
  }

  /** Everything the list grants is held; nothing is asked of the program itself. */
  ghost predicate MayGrant(s: State, actor: int, order: seq<int>, permissions: seq<string>) {
    actor > 0 ==> forall r: string | EnsurePermission(permissions, r) :: Holds(s, actor, order, r)
  }

  predicate MayWriteRoles(s: State, actor: int, order: seq<int>) {
    actor > 0 ==> Holds(s, actor, order, "roles:write")
  }

  /** What is held so is granted by a global role, and, unless two permissions of
      the role table differ only in case, everything so granted is held. */
  lemma HoldsExactly(s: State, actor: int, order: seq<int>, permission: string)
    requires Enumerates(order, s.roles)
    ensures Holds(s, actor, order, permission) ==> HoldsGlobally(s, actor, permission)
    ensures NoCaseVariants(AllPermissions(s)) ==>
              (Holds(s, actor, order, permission) <==> HoldsGlobally(s, actor, permission))
  {
    var rows := Rows(s.roles, order, AssignedRoles(s, actor, true));
    RowsGrant(s, actor, true, order, permission);
    if EnsurePermission(FoldUnion([], rows), permission) {
      FoldUnionGrantsNoMore(rows, permission);
    }
    if NoCaseVariants(AllPermissions(s)) && EnsurePermission(rows, permission) {
      WithinCeilingIsInclusion(FoldUnion([], rows), FoldUnion([], rows));
      FoldedRowsCover(s, order, AssignedRoles(s, actor, true), FoldUnion([], rows), permission);
    }
  }

  lemma CeilingExactly(s: State, actor: int, order: seq<int>)
    ensures CeilingOf(s, actor, order).Ceiling? <==> MayWriteRoles(s, actor, order)
    ensures CeilingOf(s, actor, order).Refused? ==>
              CeilingOf(s, actor, order).error == if actor in s.users then GrantCeiling else NotFound
  {
  }

  lemma GrantExactly(s: State, actor: int, order: seq<int>, permissions: seq<string>)
    requires CeilingOf(s, actor, order).Ceiling?
    ensures (actor > 0 ==> WithinCeiling(permissions, CeilingOf(s, actor, order).permissions))
            <==> MayGrant(s, actor, order, permissions)
  {
    WithinCeilingIsInclusion(permissions, CeilingOf(s, actor, order).permissions);
  }

  // ---------- which changes are accepted ----------

  predicate FormOk(key: string, name: string, description: string, permissions: seq<string>) {
    && 1 <= |key| <= 100 && 1 <= |name| <= 256 && |description| <= 4096 && 1 <= |permissions| <= 64
    && forall p | p in permissions :: |p| <= 100
  }

  /** No active user would be left with a global "*" by another role. */
  predicate NoOtherAdmin(s: State, role: int) {
    forall u, r | u in s.users && r in s.roles && r != role :: !WildcardAdmin(s, u, r)
  }

  predicate HasHolder(s: State, role: int) {
    exists u | u in s.users :: Active(s, u) && Assigned(s, u, true, role)
  }

  predicate KeyFree(s: State, key: string, except: int) {
    forall r | r in s.roles && r != except :: s.roles[r].key != key
  }

  lemma LocksOutExactly(s: State, role: int)
    ensures LocksOut(s, role) <==> HasHolder(s, role) && NoOtherAdmin(s, role)
    ensures forall key, except :: KeyTaken(s, key, except) <==> !KeyFree(s, key, except)
  {
  }

  /** A new role is accepted exactly when its fields keep their limits, the actor
      may write roles and holds all it grants, and its key is free. */
  lemma NewRoleAcceptedExactly(s: State, input: RoleInput, actor: int, order: seq<int>)
    requires Wf(s) && input.id == 0
    ensures ErrorOf(s, Save(input, actor, order)).None?
            <==> && FormOk(TrimSpace(input.key), TrimSpace(input.name), TrimSpace(input.description), input.permissions)
                 && MayWriteRoles(s, actor, order) && MayGrant(s, actor, order, input.permissions)
                 && forall r | r in s.roles :: s.roles[r].key != TrimSpace(input.key)
  {
    CeilingExactly(s, actor, order);
    if CeilingOf(s, actor, order).Ceiling? {
      GrantExactly(s, actor, order, input.permissions);
    }
    assert KeyTaken(s, TrimSpace(input.key), 0) <==> exists r | r in s.roles :: s.roles[r].key == TrimSpace(input.key);
  }

  ghost predicate ReplacementOk(s: State, input: RoleInput, actor: int, order: seq<int>) {
    input.id in s.roles
    && var current := s.roles[input.id];
       && MayGrant(s, actor, order, current.permissions)
       && (current.key == "super_admin" ==> input.permissions == ["*"])
       && ("*" in current.permissions && "*" !in input.permissions && HasHolder(s, input.id)
           ==> !NoOtherAdmin(s, input.id))
       && KeyFree(s, if current.system then current.key else TrimSpace(input.key), input.id)
  }

  /** A role is replaced exactly when, besides, the actor holds what it granted so
      far, super_admin keeps "*" alone, the last administrators keep theirs, and the
      key it ends up with is no other role's. */
  lemma ReplacedRoleAcceptedExactly(s: State, input: RoleInput, actor: int, order: seq<int>)
    requires Wf(s) && input.id != 0
    ensures ErrorOf(s, Save(input, actor, order)).None?
            <==> && FormOk(TrimSpace(input.key), TrimSpace(input.name), TrimSpace(input.description), input.permissions)
                 && MayWriteRoles(s, actor, order) && MayGrant(s, actor, order, input.permissions)
                 && ReplacementOk(s, input, actor, order)
  {
    CeilingExactly(s, actor, order);
    if CeilingOf(s, actor, order).Ceiling? {
      GrantExactly(s, actor, order, input.permissions);
      if input.id in s.roles {
        GrantExactly(s, actor, order, s.roles[input.id].permissions);
      }
    }
    LocksOutExactly(s, input.id);
  }

  /** A role is deleted exactly when it is no system role, the actor may write roles
      and holds what it grants, and administrators remain. */
  lemma DeletionAcceptedExactly(s: State, id: int, actor: int, order: seq<int>)
    ensures ErrorOf(s, Delete(id, actor, order)).None?
            <==> && MayWriteRoles(s, actor, order) && id in s.roles && !s.roles[id].system
                 && MayGrant(s, actor, order, s.roles[id].permissions)
                 && ("*" in s.roles[id].permissions && HasHolder(s, id) ==> !NoOtherAdmin(s, id))
  {
    CeilingExactly(s, actor, order);
    if CeilingOf(s, actor, order).Ceiling? && id in s.roles {
      GrantExactly(s, actor, order, s.roles[id].permissions);
    }
    LocksOutExactly(s, id);
  }

  /** Every Hub clause is the id of a Hub there is. */
  predicate HubsKnown(bound: seq<Bound>, hubs: set<int>) {
    forall b, c | b in bound && c in b.scopes && c.kind == "hub" ::
        exists id | id in hubs :: c.value == Codec.Decimal(id)
  }

  lemma StoredHubIs(inputs: seq<BindingInput>, b: Bound, c: Clause, hubs: set<int>)
    requires BindingsOk(inputs) && b in NormalBindings(inputs) && c in b.scopes && c.kind == "hub"
    ensures (ParseHubScope(c.value).Some? && ParseHubScope(c.value).value in hubs)
            <==> exists id | id in hubs :: c.value == Codec.Decimal(id)
  {
    var i :| 0 <= i < |inputs| && NormalBindings(inputs)[i] == b;
    var j :| 0 <= j < |b.scopes| && b.scopes[j] == c;
    var from := inputs[i].scopes[j];
    assert CanonicalClause(from) == Some(c);
    ClauseExactly(from, c);
    var id :| ParseHubScope(from.value) == Some(id) && c == Clause("hub", Codec.Decimal(id));
    HubScopeRoundTrip(id);
    if other :| other in hubs && c.value == Codec.Decimal(other) {
      Codec.DecimalInverts(id);
      Codec.DecimalInverts(other);
    }
  }

  lemma HubsKnownExactly(inputs: seq<BindingInput>, hubs: set<int>)
    requires BindingsOk(inputs)
    ensures HubsExist(NormalBindings(inputs), hubs) <==> HubsKnown(NormalBindings(inputs), hubs)
  {
    forall b, c | b in NormalBindings(inputs) && c in b.scopes && c.kind == "hub"
      ensures (ParseHubScope(c.value).Some? && ParseHubScope(c.value).value in hubs)
              <==> exists id | id in hubs :: c.value == Codec.Decimal(id)
    {
      StoredHubIs(inputs, b, c, hubs);
    }
  }

  /** The user is the last global wildcard administrator and would be none. */
  predicate EndsLastAdmin(s: State, user: int, bound: seq<Bound>) {
    && (exists r | r in s.roles :: WildcardAdmin(s, user, r))
    && (forall b | b in bound && b.global && b.roleId in s.roles :: "*" !in s.roles[b.roleId].permissions)
    && (forall u, r | u in s.users && r in s.roles && u != user :: !WildcardAdmin(s, u, r))
  }

  /** The lists an assignment compares: what the user has in any mode, and what
      the roles asked for grant, each merged as the query merges it. */
  ghost predicate AssignmentOk(s: State, user: int, bound: seq<Bound>, legacy: bool, actor: int, order: seq<int>,
                               hubs: set<int>) {
    && user in s.users && RoleIds(bound) <= s.roles.Keys
    && (legacy ==> forall r | r in BindingsOf(s, user) :: BindingsOf(s, user)[r].global)
    && MayGrant(s, actor, order, AssignedPermissions(s, user, false, order))
    && MayGrant(s, actor, order, FoldUnion([], Rows(s.roles, order, RoleIds(bound))))
    && HubsKnown(bound, hubs) && !EndsLastAdmin(s, user, bound)
  }

  /** An assignment is accepted exactly when the form is well formed, the actor may
      write roles and holds what is taken and what is given, users, roles and Hubs
      exist, an old form meets no restricted binding, and an administrator remains. */
  lemma AssignmentAcceptedExactly(s: State, user: int, inputs: seq<BindingInput>, legacy: bool, actor: int,
                                  order: seq<int>, hubs: set<int>)
    requires Wf(s)
    ensures ErrorOf(s, Bind(user, inputs, legacy, actor, order, hubs)).None?
            <==> && |inputs| <= 64 && BindingsOk(inputs) && MayWriteRoles(s, actor, order)
                 && AssignmentOk(s, user, NormalBindings(inputs), legacy, actor, order, hubs)
  {
    CeilingExactly(s, actor, order);
    BindErrorIs(s, user, inputs, legacy, actor, order, hubs);
    if BindingsOk(inputs) && CeilingOf(s, actor, order).Ceiling? {
      HubsKnownExactly(inputs, hubs);
      BoundAcceptedExactly(s, user, NormalBindings(inputs), legacy, actor, order, hubs);
    }
  }

  lemma BindErrorIs(s: State, user: int, inputs: seq<BindingInput>, legacy: bool, actor: int, order: seq<int>,
                    hubs: set<int>)
    ensures ErrorOf(s, Bind(user, inputs, legacy, actor, order, hubs)).None?
            <==> && |inputs| <= 64 && BindingsOk(inputs) && CeilingOf(s, actor, order).Ceiling?
                 && BoundError(s, user, NormalBindings(inputs), legacy, actor, CeilingOf(s, actor, order).permissions,
                               order, hubs).None?
  {
  }

  lemma BoundAcceptedExactly(s: State, user: int, bound: seq<Bound>, legacy: bool, actor: int, order: seq<int>,
                             hubs: set<int>)
    requires CeilingOf(s, actor, order).Ceiling? && (HubsExist(bound, hubs) <==> HubsKnown(bound, hubs))
    ensures BoundError(s, user, bound, legacy, actor, CeilingOf(s, actor, order).permissions, order, hubs).None?
            <==> AssignmentOk(s, user, bound, legacy, actor, order, hubs)
  {
    GrantExactly(s, actor, order, AssignedPermissions(s, user, false, order));
    GrantExactly(s, actor, order, FoldUnion([], Rows(s.roles, order, RoleIds(bound))));
    if user in s.users {
      LastAdminExactly(s, user, bound);
    }
  }

  lemma LastAdminExactly(s: State, user: int, bound: seq<Bound>)
    requires user in s.users
    ensures LosesLastAdmin(s, user, bound) <==> EndsLastAdmin(s, user, bound)
  {
    assert forall r | WildcardAdmin(s, user, r) :: Active(s, user);
  }
}
