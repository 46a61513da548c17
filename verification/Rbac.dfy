/** Role saves, role deletions and role assignments: transactions over the role
    and binding tables, each serialized by one advisory lock, and what every run
    of them keeps. */
module Rbac {
  import opened Text
  import opened Permissions
  import opened Scopes

  datatype Role = Role(key: string, name: string, description: string, permissions: seq<string>, system: bool)
  datatype Binding = Binding(global: bool, scopes: seq<Clause>)

  /** users tells who is active; bindings is keyed by user, then role. */
  datatype State = State(users: map<int, bool>, roles: map<int, Role>, bindings: map<int, map<int, Binding>>,
                         nextRole: int)

  datatype RoleInput = RoleInput(id: int, key: string, name: string, description: string, permissions: seq<string>)
  datatype Error = Invalid | GrantCeiling | NotFound | ImmutableRole | LastSuperAdmin | ScopeRequired | DuplicateKey

  // ---------- what users are granted ----------

  function BindingsOf(s: State, u: int): map<int, Binding> {
    if u in s.bindings then s.bindings[u] else map[]
  }

  predicate Active(s: State, u: int) {
    u in s.users && s.users[u]
  }

  /** r is assigned to u, and globally when only global assignments count. */
  predicate Assigned(s: State, u: int, globalOnly: bool, r: int) {
    r in s.roles && r in BindingsOf(s, u) && (globalOnly ==> BindingsOf(s, u)[r].global)
  }

  predicate Granted(s: State, u: int, globalOnly: bool, permission: string) {
    exists r | r in s.roles :: Assigned(s, u, globalOnly, r) && EnsurePermission(s.roles[r].permissions, permission)
  }

  predicate HoldsGlobally(s: State, u: int, permission: string) {
    Active(s, u) && Granted(s, u, true, permission)
  }

  predicate WildcardAdmin(s: State, u: int, r: int) {
    Active(s, u) && Assigned(s, u, true, r) && "*" in s.roles[r].permissions
  }

  // ---------- the queries ----------

  /** The permissions of the wanted roles as a query returns them: the rows come
      in some order of the role table, each row's list in its own order. */
  function Rows(roles: map<int, Role>, order: seq<int>, wanted: set<int>): seq<string> {
    if order == [] then []
    else (if order[0] in roles && order[0] in wanted then roles[order[0]].permissions else [])
         + Rows(roles, order[1..], wanted)
  }

  predicate Enumerates(order: seq<int>, roles: map<int, Role>) {
    forall r | r in roles :: r in order
  }

  function AssignedRoles(s: State, u: int, globalOnly: bool): set<int> {
    set r | r in BindingsOf(s, u) && Assigned(s, u, globalOnly, r)
  }

  function AssignedPermissions(s: State, u: int, globalOnly: bool, order: seq<int>): seq<string> {
    FoldUnion([], Rows(s.roles, order, AssignedRoles(s, u, globalOnly)))
  }

  lemma {:induction false} RowsMembers(roles: map<int, Role>, order: seq<int>, wanted: set<int>, p: string)
    ensures p in Rows(roles, order, wanted) <==> exists r | r in order ::
            r in roles && r in wanted && p in roles[r].permissions
  {
    if order != [] {
      RowsMembers(roles, order[1..], wanted, p);
      assert forall r | r in order :: r == order[0] || r in order[1..];
      assert forall r | r in order[1..] :: r in order;
    }
  }

  /** The query's list grants what the assigned roles grant. */
  lemma RowsGrant(s: State, u: int, globalOnly: bool, order: seq<int>, permission: string)
    requires Enumerates(order, s.roles)
    ensures EnsurePermission(Rows(s.roles, order, AssignedRoles(s, u, globalOnly)), permission)
            <==> Granted(s, u, globalOnly, permission)
  {
    var wanted := AssignedRoles(s, u, globalOnly);
    var rows := Rows(s.roles, order, wanted);
    if EnsurePermission(rows, permission) {
      var p :| p in rows && Grants(p, permission);
      RowsMembers(s.roles, order, wanted, p);
    }
    if Granted(s, u, globalOnly, permission) {
      var r :| r in s.roles && Assigned(s, u, globalOnly, r) && EnsurePermission(s.roles[r].permissions, permission);
      var p :| p in s.roles[r].permissions && Grants(p, permission);
      RowsMembers(s.roles, order, wanted, p);
      assert r in order;
    }
  }

  // ---------- guards ----------

  datatype Ceiling = Ceiling(permissions: seq<string>) | Refused(error: Error)

  /** roleMutationActorCeiling. */
  function CeilingOf(s: State, actor: int, order: seq<int>): Ceiling {
    if actor <= 0 then Ceiling([])
    else if actor !in s.users then Refused(NotFound)
    else if !s.users[actor] then Refused(GrantCeiling)
    else
      var permissions := AssignedPermissions(s, actor, true, order);
      if EnsurePermission(permissions, "roles:write") then Ceiling(permissions) else Refused(GrantCeiling)
  }

  predicate ScopesValid(scopes: seq<string>) {
    1 <= |scopes| <= 64 && forall p | p in scopes :: |p| <= 100
  }

  predicate LocksOut(s: State, role: int) {
    && (exists u | u in s.users :: Active(s, u) && Assigned(s, u, true, role))
    && !(exists u, r | u in s.users && r in s.roles :: r != role && WildcardAdmin(s, u, r))
  }

  predicate KeyTaken(s: State, key: string, except: int) {
    exists r | r in s.roles :: r != except && s.roles[r].key == key
  }

  // ---------- saving a role ----------

  function Trimmed(input: RoleInput): RoleInput {
    input.(key := TrimSpace(input.key), name := TrimSpace(input.name), description := TrimSpace(input.description))
  }

  predicate FieldsOk(input: RoleInput) {
    && input.key != "" && input.name != ""
    && |input.key| <= 100 && |input.name| <= 256 && |input.description| <= 4096
    && ScopesValid(input.permissions)
  }

  function KeyFor(s: State, input: RoleInput): string {
    if input.id in s.roles && s.roles[input.id].system then s.roles[input.id].key else input.key
  }

  function ReplaceError(s: State, input: RoleInput, actor: int, ceiling: seq<string>): Option<Error> {
    if input.id !in s.roles then Some(NotFound)
    else
      var current := s.roles[input.id];
      if actor > 0 && !WithinCeiling(current.permissions, ceiling) then Some(GrantCeiling)
      else if current.key == "super_admin" && input.permissions != ["*"] then Some(ImmutableRole)
      else if "*" in current.permissions && "*" !in input.permissions && LocksOut(s, input.id) then Some(LastSuperAdmin)
      else if KeyTaken(s, KeyFor(s, input), input.id) then Some(DuplicateKey)
      else None
  }

  function SaveError(s: State, input: RoleInput, actor: int, order: seq<int>): Option<Error> {
    if !FieldsOk(input) then Some(Invalid)
    else
      match CeilingOf(s, actor, order)
      case Refused(error) => Some(error)
      case Ceiling(ceiling) =>
        if actor > 0 && !WithinCeiling(input.permissions, ceiling) then Some(GrantCeiling)
        else if input.id != 0 then ReplaceError(s, input, actor, ceiling)
        else if KeyTaken(s, input.key, 0) then Some(DuplicateKey)
        else None
  }

  function Saved(s: State, input: RoleInput): State {
    if input.id == 0 then
      s.(roles := s.roles[s.nextRole := Role(input.key, input.name, input.description, input.permissions, false)],
         nextRole := s.nextRole + 1)
    else if input.id in s.roles then
      s.(roles := s.roles[input.id := Role(KeyFor(s, input), input.name, input.description, input.permissions,
                                           s.roles[input.id].system)])
    else s
  }

  // ---------- deleting a role ----------

  function DeleteError(s: State, id: int, actor: int, order: seq<int>): Option<Error> {
    match CeilingOf(s, actor, order)
    case Refused(error) => Some(error)
    case Ceiling(ceiling) =>
      if id !in s.roles || s.roles[id].system then Some(NotFound)
      else if actor > 0 && !WithinCeiling(s.roles[id].permissions, ceiling) then Some(GrantCeiling)
      else if "*" in s.roles[id].permissions && LocksOut(s, id) then Some(LastSuperAdmin)
      else None
  }

  /** user_roles rows go with their role. */
  function Deleted(s: State, id: int): State {
    s.(roles := s.roles - {id}, bindings := map u | u in s.bindings :: s.bindings[u] - {id})
  }

  // ---------- replacing a user's bindings ----------

  function RoleIds(bound: seq<Bound>): set<int> {
    set b | b in bound :: b.roleId
  }

  function Table(bound: seq<Bound>): map<int, Binding> {
    if bound == [] then map[]
    else var last := bound[|bound| - 1]; Table(bound[..|bound| - 1])[last.roleId := Binding(last.global, last.scopes)]
  }

  predicate HubsExist(bound: seq<Bound>, hubs: set<int>) {
    forall b, c | b in bound && c in b.scopes && c.kind == "hub" ::
        ParseHubScope(c.value).Some? && ParseHubScope(c.value).value in hubs
  }

  predicate LosesLastAdmin(s: State, user: int, bound: seq<Bound>) {
    && Active(s, user)
    && (exists r | r in s.roles :: WildcardAdmin(s, user, r))
    && !(exists b | b in bound :: b.global && b.roleId in s.roles && "*" in s.roles[b.roleId].permissions)
    && !(exists u, r | u in s.users && r in s.roles :: u != user && WildcardAdmin(s, u, r))
  }

  function BindError(s: State, user: int, inputs: seq<BindingInput>, legacy: bool, actor: int, order: seq<int>,
                     hubs: set<int>): Option<Error> {
    if |inputs| > 64 || !BindingsOk(inputs) then Some(Invalid)
    else
      match CeilingOf(s, actor, order)
      case Refused(error) => Some(error)
      case Ceiling(ceiling) => BoundError(s, user, NormalBindings(inputs), legacy, actor, ceiling, order, hubs)
  }

  function BoundError(s: State, user: int, bound: seq<Bound>, legacy: bool, actor: int, ceiling: seq<string>,
                      order: seq<int>, hubs: set<int>): Option<Error> {
    if user !in s.users then Some(NotFound)
    else if legacy && (exists r | r in BindingsOf(s, user) :: !BindingsOf(s, user)[r].global) then Some(ScopeRequired)
    else if !(RoleIds(bound) <= s.roles.Keys) then Some(NotFound)
    else if actor > 0 && !WithinCeiling(AssignedPermissions(s, user, false, order), ceiling) then Some(GrantCeiling)
    else if actor > 0 && !WithinCeiling(FoldUnion([], Rows(s.roles, order, RoleIds(bound))), ceiling)
         then Some(GrantCeiling)
    else if !HubsExist(bound, hubs) then Some(NotFound)
    else if LosesLastAdmin(s, user, bound) then Some(LastSuperAdmin)
    else None
  }

  function Rebound(s: State, user: int, bound: seq<Bound>): State {
    s.(bindings := s.bindings[user := Table(bound)])
  }

  // ---------- runs ----------

  /** order is the order the queries of that transaction return role rows in;
      hubs the Hubs that exist then. */
  datatype Event =
    | Save(input: RoleInput, actor: int, order: seq<int>)
    | Delete(id: int, actor: int, order: seq<int>)
    | Bind(user: int, inputs: seq<BindingInput>, legacy: bool, actor: int, order: seq<int>, hubs: set<int>)

  function ErrorOf(s: State, e: Event): Option<Error> {
    match e
    case Save(input, actor, order) => SaveError(s, Trimmed(input), actor, order)
    case Delete(id, actor, order) => DeleteError(s, id, actor, order)
    case Bind(user, inputs, legacy, actor, order, hubs) => BindError(s, user, inputs, legacy, actor, order, hubs)
  }

  function Step(s: State, e: Event): State {
    if ErrorOf(s, e).Some? then s
    else
      match e
      case Save(input, _, _) => Saved(s, Trimmed(input))
      case Delete(id, _, _) => Deleted(s, id)
      case Bind(user, inputs, _, _, _, _) => if BindingsOk(inputs) then Rebound(s, user, NormalBindings(inputs)) else s
  }

  function Run(s: State, events: seq<Event>): State
    decreases |events|
  {
    if events == [] then s else Step(Run(s, events[..|events| - 1]), events[|events| - 1])
  }

  /** Foreign keys, the unique role key, and ids not yet given out. */
  ghost predicate Wf(s: State) {
    && (forall u | u in s.bindings :: u in s.users && s.bindings[u].Keys <= s.roles.Keys)
    && (forall r | r in s.roles :: 0 < r < s.nextRole)
    && 0 < s.nextRole
    && (forall q, r | q in s.roles && r in s.roles && s.roles[q].key == s.roles[r].key :: q == r)
  }

  lemma {:induction false} TableKeys(bound: seq<Bound>)
    ensures Table(bound).Keys == RoleIds(bound)
    ensures forall r | r in Table(bound) :: exists b | b in bound :: b.roleId == r && b.global == Table(bound)[r].global
    decreases |bound|
  {
    if bound != [] {
      var front, last := bound[..|bound| - 1], bound[|bound| - 1];
      TableKeys(front);
      assert bound == front + [last];
      assert RoleIds(bound) == RoleIds(front) + {last.roleId};
      assert last in bound;
      assert forall b | b in front :: b in bound;
    }
  }

  lemma StepWf(s: State, e: Event)
    requires Wf(s)
    ensures Wf(Step(s, e)) && Step(s, e).users == s.users
  {
    if ErrorOf(s, e).None? {
      match e {
        case Save(input, _, _) => SaveWf(s, Trimmed(input), e.actor, e.order);
        case Delete(_, _, _) =>
        case Bind(_, inputs, _, _, _, _) => TableKeys(NormalBindings(inputs));
      }
    }
  }

  lemma SaveWf(s: State, input: RoleInput, actor: int, order: seq<int>)
    requires Wf(s) && SaveError(s, input, actor, order).None?
    ensures Wf(Saved(s, input))
  {
  }

  lemma {:induction false} RunWf(s: State, events: seq<Event>)
    requires Wf(s)
    ensures Wf(Run(s, events)) && Run(s, events).users == s.users
    decreases |events|
  {
    if events != [] {
      RunWf(s, events[..|events| - 1]);
      StepWf(Run(s, events[..|events| - 1]), events[|events| - 1]);
    }
  }

  // ---------- who may grant what ----------

  lemma CeilingIsHeld(s: State, actor: int, order: seq<int>, permission: string)
    requires actor > 0 && Enumerates(order, s.roles)
    requires CeilingOf(s, actor, order).Ceiling? && EnsurePermission(CeilingOf(s, actor, order).permissions, permission)
    ensures HoldsGlobally(s, actor, permission)
  {
    FoldUnionGrantsNoMore(Rows(s.roles, order, AssignedRoles(s, actor, true)), permission);
    RowsGrant(s, actor, true, order, permission);
  }

  lemma UnderCeiling(s: State, actor: int, order: seq<int>, permissions: seq<string>, permission: string)
    requires actor > 0 && Enumerates(order, s.roles)
    requires CeilingOf(s, actor, order).Ceiling? && WithinCeiling(permissions, CeilingOf(s, actor, order).permissions)
    requires EnsurePermission(permissions, permission)
    ensures HoldsGlobally(s, actor, permission)
  {
    WithinCeilingIsInclusion(permissions, CeilingOf(s, actor, order).permissions);
    CeilingIsHeld(s, actor, order, permission);
  }

  /** A user's grants differ before and after. */
  predicate Changes(s: State, t: State, u: int, globalOnly: bool, permission: string) {
    Granted(s, u, globalOnly, permission) != Granted(t, u, globalOnly, permission)
  }

  lemma SaveChangesOnlyHeld(s: State, input: RoleInput, actor: int, order: seq<int>, u: int, globalOnly: bool,
                            permission: string)
    requires Wf(s) && actor > 0 && Enumerates(order, s.roles) && SaveError(s, input, actor, order).None?
    requires Changes(s, Saved(s, input), u, globalOnly, permission)
    ensures HoldsGlobally(s, actor, permission)
  {
    var t := Saved(s, input);
    if Granted(s, u, globalOnly, permission) {
      var r :| r in s.roles && Assigned(s, u, globalOnly, r) && EnsurePermission(s.roles[r].permissions, permission);
      assert Assigned(t, u, globalOnly, r);
      assert r == input.id;
      UnderCeiling(s, actor, order, s.roles[r].permissions, permission);
    } else {
      var r :| r in t.roles && Assigned(t, u, globalOnly, r) && EnsurePermission(t.roles[r].permissions, permission);
      assert r in s.roles && Assigned(s, u, globalOnly, r);
      assert r == input.id;
      UnderCeiling(s, actor, order, input.permissions, permission);
    }
  }

  lemma DeleteChangesOnlyHeld(s: State, id: int, actor: int, order: seq<int>, u: int, globalOnly: bool,
                              permission: string)
    requires Wf(s) && actor > 0 && Enumerates(order, s.roles) && DeleteError(s, id, actor, order).None?
    requires Changes(s, Deleted(s, id), u, globalOnly, permission)
    ensures Granted(s, u, globalOnly, permission) && HoldsGlobally(s, actor, permission)
  {
    var t := Deleted(s, id);
    var r :| r in s.roles && Assigned(s, u, globalOnly, r) && EnsurePermission(s.roles[r].permissions, permission);
    if r != id {
      assert Assigned(t, u, globalOnly, r);
    }
    UnderCeiling(s, actor, order, s.roles[id].permissions, permission);
  }

  // ---------- replacing bindings ----------

  lemma ReboundGrants(s: State, user: int, bound: seq<Bound>, globalOnly: bool, permission: string)
    requires RoleIds(bound) <= s.roles.Keys
    ensures forall u | u != user :: Granted(Rebound(s, user, bound), u, globalOnly, permission)
                                   == Granted(s, u, globalOnly, permission)
    ensures Granted(Rebound(s, user, bound), user, globalOnly, permission)
            ==> exists b | b in bound :: b.roleId in s.roles
                                        && EnsurePermission(s.roles[b.roleId].permissions, permission)
  {
    var t := Rebound(s, user, bound);
    TableKeys(bound);
    forall u | u != user
      ensures Granted(t, u, globalOnly, permission) == Granted(s, u, globalOnly, permission)
    {
      assert forall r | r in s.roles :: Assigned(t, u, globalOnly, r) == Assigned(s, u, globalOnly, r);
    }
    if Granted(t, user, globalOnly, permission) {
      var r :| r in t.roles && Assigned(t, user, globalOnly, r) && EnsurePermission(t.roles[r].permissions, permission);
      assert r in Table(bound);
      var b :| b in bound && b.roleId == r;
    }
  }

  lemma SelectedGrants(s: State, order: seq<int>, ids: set<int>, permission: string)
    requires Enumerates(order, s.roles)
    ensures EnsurePermission(Rows(s.roles, order, ids), permission)
            <==> exists r | r in ids :: r in s.roles && EnsurePermission(s.roles[r].permissions, permission)
  {
    if EnsurePermission(Rows(s.roles, order, ids), permission) {
      var p :| p in Rows(s.roles, order, ids) && Grants(p, permission);
      RowsMembers(s.roles, order, ids, p);
    }
    if r :| r in ids && r in s.roles && EnsurePermission(s.roles[r].permissions, permission) {
      var p :| p in s.roles[r].permissions && Grants(p, permission);
      RowsMembers(s.roles, order, ids, p);
      assert r in order;
    }
  }

  /** The roles the new bindings give in the mode asked for. */
  function SelectedRoles(bound: seq<Bound>, globalOnly: bool): set<int> {
    set b | b in bound && (globalOnly ==> b.global) :: b.roleId
  }

  predicate DistinctRoles(bound: seq<Bound>) {
    forall i, j :: 0 <= i < j < |bound| ==> bound[i].roleId != bound[j].roleId
  }

  lemma {:induction false} TableMode(bound: seq<Bound>, b: Bound)
    requires b in bound && DistinctRoles(bound)
    ensures b.roleId in Table(bound) && Table(bound)[b.roleId].global == b.global
    decreases |bound|
  {
    var front, last := bound[..|bound| - 1], bound[|bound| - 1];
    assert bound == front + [last];
    if b != last {
      assert b in front;
      TableMode(front, b);
      var i :| 0 <= i < |front| && front[i] == b;
      assert bound[i].roleId != last.roleId;
    }
  }

  lemma TableSelects(bound: seq<Bound>, globalOnly: bool, r: int)
    requires DistinctRoles(bound)
    ensures r in Table(bound) && (globalOnly ==> Table(bound)[r].global) <==> r in SelectedRoles(bound, globalOnly)
  {
    TableKeys(bound);
    if r in Table(bound) {
      var b :| b in bound && b.roleId == r && b.global == Table(bound)[r].global;
    }
    if r in SelectedRoles(bound, globalOnly) {
      var b :| b in bound && b.roleId == r && (globalOnly ==> b.global);
      TableMode(bound, b);
    }
  }

  /** After a replacement the user is granted what the selected roles grant. */
  lemma ReboundExactly(s: State, user: int, bound: seq<Bound>, globalOnly: bool, permission: string)
    requires RoleIds(bound) <= s.roles.Keys && DistinctRoles(bound)
    ensures Granted(Rebound(s, user, bound), user, globalOnly, permission)
            <==> exists r | r in SelectedRoles(bound, globalOnly) ::
                   r in s.roles && EnsurePermission(s.roles[r].permissions, permission)
  {
    var t := Rebound(s, user, bound);
    forall r | r in s.roles
      ensures Assigned(t, user, globalOnly, r) <==> r in SelectedRoles(bound, globalOnly)
    {
      TableSelects(bound, globalOnly, r);
    }
  }

  /** Every permission text in the role table. */
  function AllPermissions(s: State): set<string> {
    set r, p | r in s.roles && p in s.roles[r].permissions :: p
  }

  lemma FoldedRowsCover(s: State, order: seq<int>, ids: set<int>, ceiling: seq<string>, permission: string)
    requires NoCaseVariants(AllPermissions(s))
    requires WithinCeiling(FoldUnion([], Rows(s.roles, order, ids)), ceiling)
    requires EnsurePermission(Rows(s.roles, order, ids), permission)
    ensures EnsurePermission(ceiling, permission)
  {
    var rows := Rows(s.roles, order, ids);
    forall p | p in rows
      ensures p in AllPermissions(s)
    {
      RowsMembers(s.roles, order, ids, p);
    }
    FoldUnionIsFaithful(rows);
    var p :| p in rows && Grants(p, permission);
    assert p in Members(rows);
    assert p in FoldUnion([], rows);
    WithinCeilingIsInclusion(FoldUnion([], rows), ceiling);
  }

  lemma BindFacts(s: State, user: int, inputs: seq<BindingInput>, legacy: bool, actor: int, order: seq<int>,
                  hubs: set<int>)
    requires actor > 0 && BindError(s, user, inputs, legacy, actor, order, hubs).None?
    ensures BindingsOk(inputs) && RoleIds(NormalBindings(inputs)) <= s.roles.Keys && CeilingOf(s, actor, order).Ceiling?
    ensures var ceiling := CeilingOf(s, actor, order).permissions;
            && WithinCeiling(AssignedPermissions(s, user, false, order), ceiling)
            && WithinCeiling(FoldUnion([], Rows(s.roles, order, RoleIds(NormalBindings(inputs)))), ceiling)
  {
  }

  lemma BindChangesOnlyHeld(s: State, user: int, inputs: seq<BindingInput>, legacy: bool, actor: int, order: seq<int>,
                            hubs: set<int>,
                            u: int, globalOnly: bool, permission: string)
    requires Wf(s) && actor > 0 && Enumerates(order, s.roles) && NoCaseVariants(AllPermissions(s))
    requires BindError(s, user, inputs, legacy, actor, order, hubs).None?
    requires Changes(s, Rebound(s, user, NormalBindings(inputs)), u, globalOnly, permission)
    ensures HoldsGlobally(s, actor, permission)
  {
    BindFacts(s, user, inputs, legacy, actor, order, hubs);
    var bound, ceiling := NormalBindings(inputs), CeilingOf(s, actor, order).permissions;
    ReboundGrants(s, user, bound, globalOnly, permission);
    if Granted(s, u, globalOnly, permission) {
      GrantedAnyMode(s, u, globalOnly, permission);
      RowsGrant(s, user, false, order, permission);
      FoldedRowsCover(s, order, AssignedRoles(s, user, false), ceiling, permission);
    } else {
      var b :| b in bound && b.roleId in s.roles && EnsurePermission(s.roles[b.roleId].permissions, permission);
      SelectedGrants(s, order, RoleIds(bound), permission);
      FoldedRowsCover(s, order, RoleIds(bound), ceiling, permission);
    }
    CeilingIsHeld(s, actor, order, permission);
  }

  lemma GrantedAnyMode(s: State, u: int, globalOnly: bool, permission: string)
    requires Granted(s, u, globalOnly, permission)
    ensures Granted(s, u, false, permission)
  {
    var r :| r in s.roles && Assigned(s, u, globalOnly, r) && EnsurePermission(s.roles[r].permissions, permission);
    assert Assigned(s, u, false, r);
  }

  /** In the mode asked for, the user gains only what the actor holds or the
      user already had. */
  ghost predicate GivesOnlyHeld(s: State, user: int, bound: seq<Bound>, actor: int, globalOnly: bool) {
    forall permission: string ::
      Granted(Rebound(s, user, bound), user, globalOnly, permission)
      ==> Granted(s, user, globalOnly, permission) || HoldsGlobally(s, actor, permission)
  }

  /** Exactly when an accepted assignment gives nothing the actor does not hold:
      when the permissions of the roles it gives, none dropped as case variants,
      stay within what the actor holds and the user already had. Both for grants
      in any mode and for global ones. */
  lemma AssignmentEscalatesExactly(s: State, user: int, inputs: seq<BindingInput>, legacy: bool, actor: int,
                                   order: seq<int>,
                                   hubs: set<int>, globalOnly: bool)
    requires Wf(s) && actor > 0 && Enumerates(order, s.roles)
    requires BindError(s, user, inputs, legacy, actor, order, hubs).None?
    ensures BindingsOk(inputs)
    ensures GivesOnlyHeld(s, user, NormalBindings(inputs), actor, globalOnly)
            <==> WithinCeiling(Rows(s.roles, order, SelectedRoles(NormalBindings(inputs), globalOnly)),
                               Rows(s.roles, order, AssignedRoles(s, user, globalOnly))
                                   + Rows(s.roles, order, AssignedRoles(s, actor, true)))
  {
    BindFacts(s, user, inputs, legacy, actor, order, hubs);
    var bound := NormalBindings(inputs);
    var selected := Rows(s.roles, order, SelectedRoles(bound, globalOnly));
    var had, held := Rows(s.roles, order, AssignedRoles(s, user, globalOnly)),
        Rows(s.roles, order, AssignedRoles(s, actor, true));
    WithinCeilingIsInclusion(selected, had + held);
    forall permission: string
      ensures EnsurePermission(selected, permission) <==> Granted(Rebound(s, user, bound), user, globalOnly, permission)
      ensures EnsurePermission(had + held, permission)
              <==> Granted(s, user, globalOnly, permission) || HoldsGlobally(s, actor, permission)
    {
      SelectedGrants(s, order, SelectedRoles(bound, globalOnly), permission);
      ReboundExactly(s, user, bound, globalOnly, permission);
      RowsGrant(s, user, globalOnly, order, permission);
      RowsGrant(s, actor, true, order, permission);
      EnsureAppend(had, held, permission);
    }
  }

  lemma EnsureAppend(a: seq<string>, b: seq<string>, permission: string)
    ensures EnsurePermission(a + b, permission) <==> EnsurePermission(a, permission) || EnsurePermission(b, permission)
  {
    assert forall p | p in a :: p in a + b;
    assert forall p | p in b :: p in a + b;
  }

  // ---------- an escalation ----------

  /** User 1 may write roles and holds a; role 2 is a, role 3 its case variant b. */
  function TwoSpellings(a: string, b: string): State {
    State(map[1 := true, 2 := true],
          map[1 := Role("e", "Editor", "", ["roles:write", a], false),
              2 := Role("r", "Reader", "", [a], false),
              3 := Role("s", "Reader", "", [b], false)],
          map[1 := map[1 := Binding(true, [])]], 4)
  }

  const ALL_ROLES: seq<int> := [1, 2, 3]
  const BOTH_READERS: seq<BindingInput> := [BindingInput(2, "global", []), BindingInput(3, "global", [])]
  const BOTH_BOUND: seq<Bound> := [Bound(2, true, []), Bound(3, true, [])]

  lemma BothReadersNormal()
    ensures BindingsOk(BOTH_READERS) && NormalBindings(BOTH_READERS) == BOTH_BOUND
  {
    TrimSpaceKeeps("global");
    BindingDecides(BOTH_READERS[0]);
    BindingDecides(BOTH_READERS[1]);
    assert NormalBindings(BOTH_READERS)[0] == BOTH_BOUND[0] && NormalBindings(BOTH_READERS)[1] == BOTH_BOUND[1];
  }

  lemma SpellingRows(a: string, b: string, ids: set<int>)
    ensures Rows(TwoSpellings(a, b).roles, ALL_ROLES, ids)
            == (if 1 in ids then ["roles:write", a] else [])
                + ((if 2 in ids then [a] else []) + if 3 in ids then [b] else [])
  {
    var roles := TwoSpellings(a, b).roles;
    assert ALL_ROLES[1..] == [2, 3] && [2, 3][1..] == [3] && [3][1..] == [];
    assert Rows(roles, [3], ids) == (if 3 in ids then [b] else []) + [];
    assert Rows(roles, [2, 3], ids) == (if 2 in ids then [a] else []) + Rows(roles, [3], ids);
    assert roles[1].permissions == ["roles:write", a];
  }

  lemma EditorHolds(a: string, b: string)
    ensures Rows(TwoSpellings(a, b).roles, ALL_ROLES, AssignedRoles(TwoSpellings(a, b), 1, true)) == ["roles:write", a]
  {
    assert AssignedRoles(TwoSpellings(a, b), 1, true) == {1};
    SpellingRows(a, b, {1});
    assert ["roles:write", a] + ([] + []) == ["roles:write", a];
  }

  lemma WriterCeiling(s: State, actor: int, order: seq<int>, p: string)
    requires actor > 0 && Active(s, actor) && AssignedPermissions(s, actor, true, order) == ["roles:write", p]
    ensures CeilingOf(s, actor, order) == Ceiling(["roles:write", p])
  {
    var held := ["roles:write", p];
    assert held[0] in held && Grants(held[0], "roles:write");
  }

  lemma EditorCeiling(a: string, b: string)
    requires !EqualFold("roles:write", a)
    ensures CeilingOf(TwoSpellings(a, b), 1, ALL_ROLES) == Ceiling(["roles:write", a])
  {
    EditorHolds(a, b);
    FoldTwo("roles:write", a);
    WriterCeiling(TwoSpellings(a, b), 1, ALL_ROLES, a);
  }

  lemma BothRoles()
    ensures RoleIds(BOTH_BOUND) == {2, 3} && HubsExist(BOTH_BOUND, {})
  {
    assert BOTH_BOUND[0].roleId == 2 && BOTH_BOUND[1].roleId == 3;
    assert BOTH_BOUND[0] in BOTH_BOUND && BOTH_BOUND[1] in BOTH_BOUND;
  }

  /** A user without assignments is stripped of nothing. */
  lemma NothingToLose(s: State, user: int, bound: seq<Bound>, order: seq<int>)
    requires user !in s.bindings
    ensures AssignedPermissions(s, user, false, order) == [] && !LosesLastAdmin(s, user, bound)
    ensures forall globalOnly, permission :: !Granted(s, user, globalOnly, permission)
  {
    assert AssignedRoles(s, user, false) == {};
    NoRows(s.roles, order);
    assert forall r | r in s.roles :: !Assigned(s, user, true, r) && !Assigned(s, user, false, r);
  }

  lemma {:induction false} NoRows(roles: map<int, Role>, order: seq<int>)
    ensures Rows(roles, order, {}) == []
  {
    if order != [] {
      NoRows(roles, order[1..]);
    }
  }

  lemma ReadersFold(a: string, b: string)
    requires EqualFold(a, b)
    ensures FoldUnion([], Rows(TwoSpellings(a, b).roles, ALL_ROLES, {2, 3})) == [a]
    ensures WithinCeiling([a], ["roles:write", a])
  {
    SpellingRows(a, b, {2, 3});
    assert [] + ([a] + [b]) == [a, b];
    FoldTwo(a, b);
    assert a in ["roles:write", a] && Grants(a, a);
    assert EnsurePermission(["roles:write", a], a);
  }

  lemma ReadersPass(a: string, b: string)
    requires EqualFold(a, b)
    ensures BoundError(TwoSpellings(a, b), 2, BOTH_BOUND, false, 1, ["roles:write", a], ALL_ROLES, {}).None?
  {
    BothRoles();
    NothingToLose(TwoSpellings(a, b), 2, BOTH_BOUND, ALL_ROLES);
    ReadersFold(a, b);
  }

  lemma AllRolesListed(a: string, b: string)
    ensures Enumerates(ALL_ROLES, TwoSpellings(a, b).roles)
  {
    assert ALL_ROLES[0] == 1 && ALL_ROLES[1] == 2 && ALL_ROLES[2] == 3;
  }

  lemma SpellingsWf(a: string, b: string)
    ensures Wf(TwoSpellings(a, b))
  {
    var s := TwoSpellings(a, b);
    assert s.roles[1].key[0] == 'e' && s.roles[2].key[0] == 'r' && s.roles[3].key[0] == 's';
  }

  lemma VariantIsGranted(a: string, b: string)
    ensures Granted(Rebound(TwoSpellings(a, b), 2, BOTH_BOUND), 2, true, b)
  {
    var s := TwoSpellings(a, b);
    BothRoles();
    assert BOTH_BOUND[1] in BOTH_BOUND && BOTH_BOUND[1].global;
    assert 3 in SelectedRoles(BOTH_BOUND, true) && 3 in s.roles;
    assert s.roles[3].permissions == [b] && b in [b] && Grants(b, b);
    assert EnsurePermission(s.roles[3].permissions, b);
    ReboundExactly(s, 2, BOTH_BOUND, true, b);
  }

  lemma VariantIsNew(a: string, b: string)
    requires !Grants(a, b) && !Grants("roles:write", b)
    ensures !Granted(TwoSpellings(a, b), 1, false, b) && !Granted(TwoSpellings(a, b), 1, true, b)
  {
    var s := TwoSpellings(a, b);
    assert forall globalOnly, r | r in s.roles :: Assigned(s, 1, globalOnly, r) ==> r == 1;
    assert s.roles[1].permissions == ["roles:write", a] && !EnsurePermission(["roles:write", a], b);
  }

  /** A real escalation: the assignment is accepted, and gives the user a
      permission that neither the user nor the actor had. */
  lemma VariantEscalates(a: string, b: string)
    requires EqualFold(a, b) && !Grants(a, b) && !Grants("roles:write", b) && !EqualFold("roles:write", a)
    ensures var s := TwoSpellings(a, b);
            && Wf(s) && Enumerates(ALL_ROLES, s.roles) && Active(s, 1)
            && BindError(s, 2, BOTH_READERS, false, 1, ALL_ROLES, {}).None? && BindingsOk(BOTH_READERS)
            && Granted(Rebound(s, 2, NormalBindings(BOTH_READERS)), 2, true, b)
            && !Granted(s, 2, false, b) && !Granted(s, 2, true, b) && !Granted(s, 1, false, b)
            && !Granted(s, 1, true, b)
  {
    SpellingsWf(a, b);
    AllRolesListed(a, b);
    BothReadersNormal();
    EditorCeiling(a, b);
    ReadersPass(a, b);
    VariantIsGranted(a, b);
    VariantIsNew(a, b);
    NothingToLose(TwoSpellings(a, b), 2, BOTH_BOUND, ALL_ROLES);
  }

  lemma WriteIsAnotherPermission()
    ensures !Grants("roles:write", "Hubs:read") && !EqualFold("roles:write", "hubs:read")
  {
    var write := "roles:write";
    assert |write| == 11 && |"hubs:read"| == 9 && |"Hubs:read"| == 9;
    assert write[|write| - 2..][0] == 't';
  }

  /** For instance with "hubs:read" and "Hubs:read". */
  lemma HubsReadEscalates()
    ensures var s := TwoSpellings("hubs:read", "Hubs:read");
            && Wf(s) && Enumerates(ALL_ROLES, s.roles) && BindError(s, 2, BOTH_READERS, false, 1, ALL_ROLES, {}).None?
            && BindingsOk(BOTH_READERS) && !GivesOnlyHeld(s, 2, NormalBindings(BOTH_READERS), 1, true)
  {
    CaseVariantsExist();
    WriteIsAnotherPermission();
    VariantEscalates("hubs:read", "Hubs:read");
    NotOnlyHeld(TwoSpellings("hubs:read", "Hubs:read"), 2, NormalBindings(BOTH_READERS), 1, true, "Hubs:read");
  }

  lemma NotOnlyHeld(s: State, user: int, bound: seq<Bound>, actor: int, globalOnly: bool, permission: string)
    requires Granted(Rebound(s, user, bound), user, globalOnly, permission)
    requires !Granted(s, user, globalOnly, permission) && !HoldsGlobally(s, actor, permission)
    ensures !GivesOnlyHeld(s, user, bound, actor, globalOnly)
  {
  }

  // ---------- authorised runs ----------

  ghost predicate Authorised(s: State, e: Event) {
    e.actor > 0 && Enumerates(e.order, s.roles) && (e.Bind? ==> NoCaseVariants(AllPermissions(s)))
  }

  ghost predicate AuthorisedRun(s: State, events: seq<Event>) {
    forall i | 0 <= i < |events| :: Authorised(Run(s, events[..i]), events[i])
  }

  /** No step gives or takes a permission its actor does not hold globally. */
  lemma StepChangesOnlyHeld(s: State, e: Event, u: int, globalOnly: bool, permission: string)
    requires Wf(s) && Authorised(s, e) && Changes(s, Step(s, e), u, globalOnly, permission)
    ensures HoldsGlobally(s, e.actor, permission)
  {
    match e {
      case Save(input, actor, order) => SaveChangesOnlyHeld(s, Trimmed(input), actor, order, u, globalOnly, permission);
      case Delete(id, actor, order) => DeleteChangesOnlyHeld(s, id, actor, order, u, globalOnly, permission);
      case Bind(user, inputs, legacy, actor, order, hubs) =>
        BindChangesOnlyHeld(s, user, inputs, legacy, actor, order, hubs, u, globalOnly, permission);
    }
  }

  lemma PrefixAuthorised(s: State, events: seq<Event>)
    requires events != [] && AuthorisedRun(s, events)
    ensures AuthorisedRun(s, events[..|events| - 1])
    ensures Authorised(Run(s, events[..|events| - 1]), events[|events| - 1])
  {
    var front := events[..|events| - 1];
    forall i | 0 <= i < |front|
      ensures Authorised(Run(s, front[..i]), front[i])
    {
      assert front[..i] == events[..i] && front[i] == events[i];
    }
  }

  /** Step i of the run changes the user's grant, and its actor holds the permission. */
  ghost predicate GrantedAt(s: State, events: seq<Event>, i: nat, u: int, globalOnly: bool, permission: string)
    requires i < |events|
  {
    var before := Run(s, events[..i]);
    Changes(before, Step(before, events[i]), u, globalOnly, permission)
        && HoldsGlobally(before, events[i].actor, permission)
  }

  lemma GrantedInFront(s: State, events: seq<Event>, i: nat, u: int, globalOnly: bool, permission: string)
    requires events != [] && i < |events| - 1 && GrantedAt(s, events[..|events| - 1], i, u, globalOnly, permission)
    ensures GrantedAt(s, events, i, u, globalOnly, permission)
  {
    assert events[..|events| - 1][..i] == events[..i] && events[..|events| - 1][i] == events[i];
  }

  lemma GrantedLast(s: State, events: seq<Event>, u: int, globalOnly: bool, permission: string)
    requires events != [] && Wf(s) && AuthorisedRun(s, events)
    requires Changes(Run(s, events[..|events| - 1]), Run(s, events), u, globalOnly, permission)
    ensures GrantedAt(s, events, |events| - 1, u, globalOnly, permission)
  {
    var front := events[..|events| - 1];
    PrefixAuthorised(s, events);
    RunWf(s, front);
    StepChangesOnlyHeld(Run(s, front), events[|events| - 1], u, globalOnly, permission);
  }

  /** Whoever's grants a run has changed had them changed in a step whose actor
      was active and globally granted that permission just before it. */
  lemma {:induction false} EscalationNeedsAHolder(s: State, events: seq<Event>, u: int, globalOnly: bool,
                                                  permission: string) returns (i: nat)
    requires Wf(s) && AuthorisedRun(s, events)
    requires Changes(s, Run(s, events), u, globalOnly, permission)
    ensures i < |events| && GrantedAt(s, events, i, u, globalOnly, permission)
    decreases |events|
  {
    var front := events[..|events| - 1];
    if Changes(s, Run(s, front), u, globalOnly, permission) {
      PrefixAuthorised(s, events);
      i := EscalationNeedsAHolder(s, front, u, globalOnly, permission);
      GrantedInFront(s, events, i, u, globalOnly, permission);
    } else {
      i := |events| - 1;
      GrantedLast(s, events, u, globalOnly, permission);
    }
  }

  ghost predicate Unheld(s: State, permission: string) {
    forall u | u in s.users :: !HoldsGlobally(s, u, permission)
  }

  lemma UnheldStep(s: State, e: Event, permission: string)
    requires Wf(s) && Authorised(s, e) && Unheld(s, permission)
    ensures forall u, globalOnly :: !Changes(s, Step(s, e), u, globalOnly, permission)
  {
    forall u, globalOnly
      ensures !Changes(s, Step(s, e), u, globalOnly, permission)
    {
      if Changes(s, Step(s, e), u, globalOnly, permission) {
        StepChangesOnlyHeld(s, e, u, globalOnly, permission);
      }
    }
  }

  /** A permission no active user holds globally stays exactly where it is. */
  lemma {:induction false} UnheldNeverMoves(s: State, events: seq<Event>, permission: string)
    requires Wf(s) && AuthorisedRun(s, events) && Unheld(s, permission)
    ensures forall u, globalOnly :: !Changes(s, Run(s, events), u, globalOnly, permission)
    decreases |events|
  {
    if events != [] {
      var front := events[..|events| - 1];
      PrefixAuthorised(s, events);
      UnheldNeverMoves(s, front, permission);
      RunWf(s, front);
      var t := Run(s, front);
      forall u | u in t.users
        ensures !HoldsGlobally(t, u, permission)
      {
        assert !Changes(s, t, u, true, permission) && !HoldsGlobally(s, u, permission);
      }
      UnheldStep(t, events[|events| - 1], permission);
      forall u, globalOnly
        ensures !Changes(s, Run(s, events), u, globalOnly, permission)
      {
        assert !Changes(s, t, u, globalOnly, permission);
        assert !Changes(t, Step(t, events[|events| - 1]), u, globalOnly, permission);
      }
    }
  }

  // ---------- the last administrator ----------

  predicate HasAdmin(s: State) {
    exists u, r | u in s.users && r in s.roles :: WildcardAdmin(s, u, r)
  }

  lemma SaveKeepsAdmin(s: State, input: RoleInput, actor: int, order: seq<int>, u: int, r: int)
    requires Wf(s) && SaveError(s, input, actor, order).None? && WildcardAdmin(s, u, r)
    ensures HasAdmin(Saved(s, input))
  {
    var t := Saved(s, input);
    if r == input.id && "*" !in input.permissions {
      assert Active(s, u) && Assigned(s, u, true, r);
      assert !LocksOut(s, r);
      var v, q :| v in s.users && q in s.roles && q != r && WildcardAdmin(s, v, q);
      assert WildcardAdmin(t, v, q);
    } else {
      assert WildcardAdmin(t, u, r);
    }
  }

  lemma DeleteKeepsAdmin(s: State, id: int, actor: int, order: seq<int>, u: int, r: int)
    requires Wf(s) && DeleteError(s, id, actor, order).None? && WildcardAdmin(s, u, r)
    ensures HasAdmin(Deleted(s, id))
  {
    var t := Deleted(s, id);
    if r == id {
      assert Active(s, u) && Assigned(s, u, true, r);
      assert !LocksOut(s, r);
      var v, q :| v in s.users && q in s.roles && q != r && WildcardAdmin(s, v, q);
      assert WildcardAdmin(t, v, q);
    } else {
      assert WildcardAdmin(t, u, r);
    }
  }

  lemma BindKeepsAdmin(s: State, user: int, bound: seq<Bound>, u: int, r: int)
    requires Wf(s) && user in s.users && RoleIds(bound) <= s.roles.Keys && WildcardAdmin(s, u, r)
    requires DistinctRoles(bound) && !LosesLastAdmin(s, user, bound)
    ensures HasAdmin(Rebound(s, user, bound))
  {
    var t := Rebound(s, user, bound);
    if u != user {
      assert WildcardAdmin(t, u, r);
    } else if b :| b in bound && b.global && b.roleId in s.roles && "*" in s.roles[b.roleId].permissions {
      TableMode(bound, b);
      assert WildcardAdmin(t, u, b.roleId);
    } else {
      var v, q :| v in s.users && q in s.roles && v != user && WildcardAdmin(s, v, q);
      assert WildcardAdmin(t, v, q);
    }
  }

  lemma StepKeepsAdmin(s: State, e: Event)
    requires Wf(s) && HasAdmin(s)
    ensures HasAdmin(Step(s, e))
  {
    if ErrorOf(s, e).None? {
      var u, r :| u in s.users && r in s.roles && WildcardAdmin(s, u, r);
      match e {
        case Save(input, actor, order) => SaveKeepsAdmin(s, Trimmed(input), actor, order, u, r);
        case Delete(id, actor, order) => DeleteKeepsAdmin(s, id, actor, order, u, r);
        case Bind(user, inputs, _, _, _, _) => BindKeepsAdmin(s, user, NormalBindings(inputs), u, r);
      }
    }
  }

  /** Whatever roles are saved, deleted and reassigned, by anyone, an active
      user with a global wildcard role remains. */
  lemma {:induction false} AnAdminRemains(s: State, events: seq<Event>)
    requires Wf(s) && HasAdmin(s)
    ensures HasAdmin(Run(s, events))
    decreases |events|
  {
    if events != [] {
      var front := events[..|events| - 1];
      RunWf(s, front);
      AnAdminRemains(s, front);
      StepKeepsAdmin(Run(s, front), events[|events| - 1]);
    }
  }

  // ---------- the break-glass role ----------

  predicate SuperAdminAt(s: State, id: int) {
    id in s.roles && s.roles[id].key == "super_admin" && s.roles[id].system && s.roles[id].permissions == ["*"]
  }

  lemma StepKeepsSuperAdmin(s: State, e: Event, id: int)
    requires Wf(s) && SuperAdminAt(s, id)
    ensures SuperAdminAt(Step(s, e), id)
  {
  }

  /** The super_admin role keeps its key, its system mark and exactly ["*"], and
      no other role ever takes its key. */
  lemma {:induction false} SuperAdminIsFixed(s: State, events: seq<Event>, id: int)
    requires Wf(s) && SuperAdminAt(s, id)
    ensures SuperAdminAt(Run(s, events), id)
    ensures forall r | r in Run(s, events).roles && Run(s, events).roles[r].key == "super_admin" :: r == id
    decreases |events|
  {
    RunWf(s, events);
    if events != [] {
      var front := events[..|events| - 1];
      RunWf(s, front);
      SuperAdminIsFixed(s, front, id);
      StepKeepsSuperAdmin(Run(s, front), events[|events| - 1], id);
    }
  }

  // ---------- the transactions' code ----------

  lemma {:induction false} FoldUnionAppend(kept: seq<string>, a: seq<string>, b: seq<string>)
    ensures FoldUnion(kept, a + b) == FoldUnion(FoldUnion(kept, a), b)
    decreases |a|
  {
    if a == [] {
      assert a + b == b;
    } else {
      assert (a + b)[1..] == a[1..] + b;
      FoldUnionAppend(if ContainsFold(kept, a[0]) then kept else kept + [a[0]], a[1..], b);
    }
  }

  class RbacTables {
    var users: map<int, bool>
    var roles: map<int, Role>
    var bindings: map<int, map<int, Binding>>
    var nextRole: int

    function View(): State
      reads this
    {
      State(users, roles, bindings, nextRole)
    }

    constructor (s: State)
      ensures View() == s
    {
      users, roles, bindings, nextRole := s.users, s.roles, s.bindings, s.nextRole;
    }

    /** The scan loop of assignedPermissions and rolePermissions. */
    method CollectPermissions(order: seq<int>, wanted: set<int>) returns (permissions: seq<string>)
      ensures permissions == FoldUnion([], Rows(roles, order, wanted))
    {
      permissions := [];
      for i := 0 to |order|
        invariant FoldUnion(permissions, Rows(roles, order[i..], wanted)) == FoldUnion([], Rows(roles, order, wanted))
      {
        assert order[i..][0] == order[i] && order[i..][1..] == order[i + 1..];
        if order[i] in roles && order[i] in wanted {
          var current := roles[order[i]].permissions;
          FoldUnionAppend(permissions, current, Rows(roles, order[i + 1..], wanted));
          permissions := AppendNew(permissions, current);
        } else {
          assert Rows(roles, order[i..], wanted) == Rows(roles, order[i + 1..], wanted);
        }
      }
    }

    static method AppendNew(kept: seq<string>, more: seq<string>) returns (permissions: seq<string>)
      ensures permissions == FoldUnion(kept, more)
    {
      permissions := kept;
      for i := 0 to |more|
        invariant FoldUnion(permissions, more[i..]) == FoldUnion(kept, more)
      {
        assert more[i..][0] == more[i] && more[i..][1..] == more[i + 1..];
        if !ContainsFold(permissions, more[i]) {
          permissions := permissions + [more[i]];
        }
      }
    }

    method RoleMutationActorCeiling(actor: int, order: seq<int>) returns (ceiling: Ceiling)
      ensures ceiling == CeilingOf(View(), actor, order)
    {
      if actor <= 0 {
        return Ceiling([]);
      }
      if actor !in users {
        return Refused(NotFound);
      }
      if !users[actor] {
        return Refused(GrantCeiling);
      }
      var permissions := CollectPermissions(order, AssignedRoles(View(), actor, true));
      if !EnsurePermission(permissions, "roles:write") {
        return Refused(GrantCeiling);
      }
      ceiling := Ceiling(permissions);
    }

    method SaveRole(raw: RoleInput, actor: int, order: seq<int>) returns (error: Option<Error>)
      modifies this
      ensures error == SaveError(old(View()), Trimmed(raw), actor, order)
      ensures View() == Step(old(View()), Save(raw, actor, order))
    {
      var input := Trimmed(raw);
      if !FieldsOk(input) {
        return Some(Invalid);
      }
      var ceiling := RoleMutationActorCeiling(actor, order);
      if ceiling.Refused? {
        return Some(ceiling.error);
      }
      if actor > 0 && !WithinCeiling(input.permissions, ceiling.permissions) {
        return Some(GrantCeiling);
      }
      if input.id == 0 {
        if KeyTaken(View(), input.key, 0) {
          return Some(DuplicateKey);
        }
        roles, nextRole := roles[nextRole := Role(input.key, input.name, input.description, input.permissions, false)],
            nextRole + 1;
        return None;
      }
      if input.id !in roles {
        return Some(NotFound);
      }
      var current := roles[input.id];
      if actor > 0 && !WithinCeiling(current.permissions, ceiling.permissions) {
        return Some(GrantCeiling);
      }
      var key := if current.system then current.key else input.key;
      if current.key == "super_admin" && input.permissions != ["*"] {
        return Some(ImmutableRole);
      }
      if "*" in current.permissions && "*" !in input.permissions && LocksOut(View(), input.id) {
        return Some(LastSuperAdmin);
      }
      if KeyTaken(View(), key, input.id) {
        return Some(DuplicateKey);
      }
      roles := roles[input.id := Role(key, input.name, input.description, input.permissions, current.system)];
      error := None;
    }

    method DeleteRole(id: int, actor: int, order: seq<int>) returns (error: Option<Error>)
      modifies this
      ensures error == DeleteError(old(View()), id, actor, order)
      ensures View() == Step(old(View()), Delete(id, actor, order))
    {
      var ceiling := RoleMutationActorCeiling(actor, order);
      if ceiling.Refused? {
        return Some(ceiling.error);
      }
      if id !in roles || roles[id].system {
        return Some(NotFound);
      }
      var permissions := roles[id].permissions;
      if actor > 0 && !WithinCeiling(permissions, ceiling.permissions) {
        return Some(GrantCeiling);
      }
      if "*" in permissions && LocksOut(View(), id) {
        return Some(LastSuperAdmin);
      }
      roles, bindings := roles - {id}, map u | u in bindings :: bindings[u] - {id};
      error := None;
    }

    method SetUserRoleBindings(user: int, inputs: seq<BindingInput>, legacy: bool, actor: int, order: seq<int>,
                               hubs: set<int>)
      returns (error: Option<Error>)
      modifies this
      ensures error == BindError(old(View()), user, inputs, legacy, actor, order, hubs)
      ensures View() == Step(old(View()), Bind(user, inputs, legacy, actor, order, hubs))
    {
      if |inputs| > 64 {
        return Some(Invalid);
      }
      var normalized := NormalizeRoleBindings(inputs);
      if normalized.None? {
        return Some(Invalid);
      }
      var ceiling := RoleMutationActorCeiling(actor, order);
      if ceiling.Refused? {
        return Some(ceiling.error);
      }
      error := ReplaceBindings(user, normalized.value, legacy, actor, ceiling.permissions, order, hubs);
    }

    method ReplaceBindings(user: int, bound: seq<Bound>, legacy: bool, actor: int, ceiling: seq<string>,
                           order: seq<int>, hubs: set<int>)
      returns (error: Option<Error>)
      modifies this
      ensures error == BoundError(old(View()), user, bound, legacy, actor, ceiling, order, hubs)
      ensures View() == if error.Some? then old(View()) else Rebound(old(View()), user, bound)
    {
      if user !in users {
        return Some(NotFound);
      }
      if legacy && exists r | r in BindingsOf(View(), user) :: !BindingsOf(View(), user)[r].global {
        return Some(ScopeRequired);
      }
      if !(RoleIds(bound) <= roles.Keys) {
        return Some(NotFound);
      }
      if actor > 0 {
        var current := CollectPermissions(order, AssignedRoles(View(), user, false));
        if !WithinCeiling(current, ceiling) {
          return Some(GrantCeiling);
        }
        var selected := CollectPermissions(order, RoleIds(bound));
        if !WithinCeiling(selected, ceiling) {
          return Some(GrantCeiling);
        }
      }
      if !HubsExist(bound, hubs) {
        return Some(NotFound);
      }
      if LosesLastAdmin(View(), user, bound) {
        return Some(LastSuperAdmin);
      }
      var rows: map<int, Binding> := map[];
      for i := 0 to |bound|
        invariant rows == Table(bound[..i])
      {
        assert bound[..i + 1][..i] == bound[..i];
        rows := rows[bound[i].roleId := Binding(bound[i].global, bound[i].scopes)];
      }
      assert bound[..|bound|] == bound;
      bindings := bindings[user := rows];
      error := None;
    }
  }
}
