/** Row-level access: the grants a user's stored bindings give, the pointwise
    check on one target, and the SQL predicate that must select the same rows. */
module Access {
  import opened Text
  import opened Permissions
  import opened Scopes
  import Codec

  datatype ScopeGroup = ScopeGroup(hubIds: seq<int>, departments: seq<string>)
  datatype AccessFilter = AccessFilter(global: bool, groups: seq<ScopeGroup>)

  // ---------- the generated predicate ----------

  datatype Condition = HubIn(placeholder: int) | DepartmentIn(placeholder: int)
  datatype Sql = True | False | AnyOf(parts: seq<seq<Condition>>)
  datatype Arg = Hubs(ids: seq<int>) | Departments(names: seq<string>)

  /** A row as the query sees it; a missing or NULL department reads as "". */
  datatype Row = Row(hub: int, department: string)

  function LoweredDepartments(departments: seq<string>): seq<string> {
    if departments == [] then []
    else
      var department := Lower(TrimSpace(departments[|departments| - 1]));
      LoweredDepartments(departments[..|departments| - 1]) + if department != "" then [department] else []
  }

  predicate Skipped(group: ScopeGroup, hasHub: bool, hasDepartment: bool) {
    || (group.hubIds != [] && !hasHub)
    || (group.departments != [] && !hasDepartment)
    || (group.departments != [] && LoweredDepartments(group.departments) == [])
    || (group.hubIds == [] && group.departments == [])
  }

  function GroupConditions(group: ScopeGroup, next: int): seq<Condition> {
    (if group.hubIds != [] then [HubIn(next)] else [])
    + if group.departments != [] then [DepartmentIn(if group.hubIds != [] then next + 1 else next)] else []
  }

  function GroupArgs(group: ScopeGroup): seq<Arg> {
    (if group.hubIds != [] then [Hubs(group.hubIds)] else [])
    + if group.departments != [] then [Departments(LoweredDepartments(group.departments))] else []
  }

  function Parts(groups: seq<ScopeGroup>, hasHub: bool, hasDepartment: bool, next: int): seq<seq<Condition>>
    decreases |groups|
  {
    if groups == [] then []
    else if Skipped(groups[0], hasHub, hasDepartment) then Parts(groups[1..], hasHub, hasDepartment, next)
    else [GroupConditions(groups[0], next)] + Parts(groups[1..], hasHub, hasDepartment, next + |GroupArgs(groups[0])|)
  }

  function Args(groups: seq<ScopeGroup>, hasHub: bool, hasDepartment: bool): seq<Arg> {
    if groups == [] then []
    else if Skipped(groups[0], hasHub, hasDepartment) then Args(groups[1..], hasHub, hasDepartment)
    else GroupArgs(groups[0]) + Args(groups[1..], hasHub, hasDepartment)
  }

  function PredicateOf(filter: AccessFilter, hasHub: bool, hasDepartment: bool, firstArg: int): Sql {
    if filter.global then True
    else if Parts(filter.groups, hasHub, hasDepartment, firstArg) == [] then False
    else AnyOf(Parts(filter.groups, hasHub, hasDepartment, firstArg))
  }

  function ArgsOf(filter: AccessFilter, hasHub: bool, hasDepartment: bool, firstArg: int): seq<Arg> {
    if filter.global || Parts(filter.groups, hasHub, hasDepartment, firstArg) == [] then []
    else Args(filter.groups, hasHub, hasDepartment)
  }

  // ---------- what the predicate selects ----------

  predicate Holds(c: Condition, args: seq<Arg>, firstArg: int, row: Row) {
    var k := c.placeholder - firstArg;
    && 0 <= k < |args|
    && match c
       case HubIn(_) => args[k].Hubs? && row.hub in args[k].ids
       case DepartmentIn(_) => args[k].Departments? && Lower(TrimSpace(row.department)) in args[k].names
  }

  predicate Selects(sql: Sql, args: seq<Arg>, firstArg: int, row: Row) {
    match sql
    case True => true
    case False => false
    case AnyOf(parts) => exists part | part in parts :: forall c | c in part :: Holds(c, args, firstArg, row)
  }

  // ---------- the pointwise check ----------

  predicate HubMatches(group: ScopeGroup, hub: int) {
    group.hubIds == [] || (hub > 0 && hub in group.hubIds)
  }

  predicate DepartmentAllowed(allowed: string, department: string) {
    department != "" && EqualFold(TrimSpace(allowed), TrimSpace(department))
  }

  predicate DepartmentMatches(group: ScopeGroup, department: string) {
    group.departments == [] || exists allowed | allowed in group.departments :: DepartmentAllowed(allowed, department)
  }

  predicate TargetAllowed(filter: AccessFilter, hub: int, department: string) {
    filter.global || exists group | group in filter.groups ::
        HubMatches(group, hub) && DepartmentMatches(group, department)
  }

  // ---------- they agree ----------

  /** Grants read from stored bindings name a department or a Hub, and no blank department. */
  ghost predicate Stored(filter: AccessFilter) {
    forall group | group in filter.groups ::
      && (group.hubIds != [] || group.departments != [])
      && forall d | d in group.departments :: TrimSpace(d) != ""
  }

  function TargetHub(row: Row, hasHub: bool): int { if hasHub then row.hub else 0 }

  function TargetDepartment(row: Row, hasDepartment: bool): string { if hasDepartment then row.department else "" }

  lemma {:induction false} LoweredMembers(departments: seq<string>, name: string)
    ensures name in LoweredDepartments(departments)
            <==> name != "" && exists d | d in departments :: Lower(TrimSpace(d)) == name
  {
    if departments != [] {
      var front, last := departments[..|departments| - 1], departments[|departments| - 1];
      LoweredMembers(front, name);
      assert last in departments && forall d | d in front :: d in departments;
      assert forall d | d in departments :: d in front || d == last;
    }
  }

  lemma LoweredNonempty(departments: seq<string>)
    requires departments != [] && forall d | d in departments :: TrimSpace(d) != ""
    ensures LoweredDepartments(departments) != []
  {
    var d := departments[0];
    assert |Lower(TrimSpace(d))| == |TrimSpace(d)|;
    LoweredMembers(departments, Lower(TrimSpace(d)));
  }

  lemma DepartmentAgrees(departments: seq<string>, department: string)
    requires forall d | d in departments :: TrimSpace(d) != ""
    ensures Lower(TrimSpace(department)) in LoweredDepartments(departments)
            <==> exists allowed | allowed in departments :: DepartmentAllowed(allowed, department)
  {
    var name := Lower(TrimSpace(department));
    LoweredMembers(departments, name);
    if department == "" {
      assert name == "";
    }
    if allowed :| allowed in departments && DepartmentAllowed(allowed, department) {
      assert Lower(TrimSpace(allowed)) == name && |name| == |TrimSpace(allowed)|;
    }
  }

  /** The conditions of one group, at its own arguments. */
  predicate GroupSelects(group: ScopeGroup, row: Row) {
    && (group.hubIds != [] ==> row.hub in group.hubIds)
    && (group.departments != [] ==> Lower(TrimSpace(row.department)) in LoweredDepartments(group.departments))
  }

  lemma GroupAgrees(group: ScopeGroup, row: Row, hasHub: bool, hasDepartment: bool)
    requires row.hub > 0 && (group.hubIds != [] || group.departments != [])
    requires forall d | d in group.departments :: TrimSpace(d) != ""
    ensures (!Skipped(group, hasHub, hasDepartment) && GroupSelects(group, row))
            <==> HubMatches(group, TargetHub(row, hasHub))
                 && DepartmentMatches(group, TargetDepartment(row, hasDepartment))
  {
    if group.departments != [] {
      LoweredNonempty(group.departments);
      DepartmentAgrees(group.departments, row.department);
    }
  }

  lemma ConditionsAre(group: ScopeGroup, next: int, c: Condition)
    ensures c in GroupConditions(group, next) <==>
              || (group.hubIds != [] && c == HubIn(next))
              || (group.departments != [] && c == DepartmentIn(if group.hubIds != [] then next + 1 else next))
  {
    var conditions := GroupConditions(group, next);
    if group.hubIds != [] { assert conditions[0] == HubIn(next); }
    if group.departments != [] { assert conditions[|conditions| - 1].DepartmentIn?; }
  }

  lemma OwnArgs(group: ScopeGroup, before: seq<Arg>, after: seq<Arg>)
    ensures group.hubIds != [] ==>
              |before| < |before + GroupArgs(group) + after|
                  && (before + GroupArgs(group) + after)[|before|] == Hubs(group.hubIds)
    ensures var k := |before| + if group.hubIds != [] then 1 else 0;
            group.departments != [] ==>
              k < |before + GroupArgs(group) + after|
                  && (before + GroupArgs(group) + after)[k] == Departments(LoweredDepartments(group.departments))
  {
    var args := GroupArgs(group);
    if group.departments != [] { assert args[|args| - 1] == Departments(LoweredDepartments(group.departments)); }
  }

  lemma ConditionsHold(group: ScopeGroup, before: seq<Arg>, after: seq<Arg>, firstArg: int, row: Row)
    ensures (forall c | c in GroupConditions(group, firstArg + |before|) ::
                 Holds(c, before + GroupArgs(group) + after, firstArg, row))
            <==> GroupSelects(group, row)
  {
    var next, args := firstArg + |before|, before + GroupArgs(group) + after;
    var department := DepartmentIn(if group.hubIds != [] then next + 1 else next);
    OwnArgs(group, before, after);
    ConditionsAre(group, next, HubIn(next));
    ConditionsAre(group, next, department);
    forall c | c in GroupConditions(group, next)
      ensures (group.hubIds != [] && c == HubIn(next)) || (group.departments != [] && c == department)
    {
      ConditionsAre(group, next, c);
    }
    assert group.hubIds != [] ==> (Holds(HubIn(next), args, firstArg, row) <==> row.hub in group.hubIds);
    assert group.departments != [] ==>
        (Holds(department, args, firstArg, row)
         <==> Lower(TrimSpace(row.department)) in LoweredDepartments(group.departments));
  }

  predicate SomePart(parts: seq<seq<Condition>>, args: seq<Arg>, firstArg: int, row: Row) {
    exists part | part in parts :: forall c | c in part :: Holds(c, args, firstArg, row)
  }

  predicate Chosen(group: ScopeGroup, hasHub: bool, hasDepartment: bool, row: Row) {
    !Skipped(group, hasHub, hasDepartment) && GroupSelects(group, row)
  }

  predicate SomeGroup(groups: seq<ScopeGroup>, hasHub: bool, hasDepartment: bool, row: Row) {
    exists group | group in groups :: Chosen(group, hasHub, hasDepartment, row)
  }

  lemma FirstGroup(groups: seq<ScopeGroup>, hasHub: bool, hasDepartment: bool, row: Row)
    requires groups != []
    ensures SomeGroup(groups, hasHub, hasDepartment, row)
            <==> Chosen(groups[0], hasHub, hasDepartment, row) || SomeGroup(groups[1..], hasHub, hasDepartment, row)
  {
    assert groups == [groups[0]] + groups[1..];
  }

  lemma FirstPart(part: seq<Condition>, parts: seq<seq<Condition>>, args: seq<Arg>, firstArg: int, row: Row)
    ensures SomePart([part] + parts, args, firstArg, row)
            <==> (forall c | c in part :: Holds(c, args, firstArg, row)) || SomePart(parts, args, firstArg, row)
  {
    assert part in [part] + parts && forall p | p in parts :: p in [part] + parts;
  }

  lemma EmittedPart(group: ScopeGroup, parts: seq<seq<Condition>>, before: seq<Arg>, after: seq<Arg>, firstArg: int,
                    row: Row)
    ensures var args := before + GroupArgs(group) + after;
            SomePart([GroupConditions(group, firstArg + |before|)] + parts, args, firstArg, row)
            <==> GroupSelects(group, row) || SomePart(parts, args, firstArg, row)
  {
    ConditionsHold(group, before, after, firstArg, row);
    FirstPart(GroupConditions(group, firstArg + |before|), parts, before + GroupArgs(group) + after, firstArg, row);
  }

  /** The parts written from next on, with the arguments before them, select
      what the groups choose. */
  lemma {:induction false} PartsAgree(groups: seq<ScopeGroup>, before: seq<Arg>, hasHub: bool, hasDepartment: bool,
                                      firstArg: int, row: Row)
    ensures SomePart(Parts(groups, hasHub, hasDepartment, firstArg + |before|),
                     before + Args(groups, hasHub, hasDepartment), firstArg, row)
            <==> SomeGroup(groups, hasHub, hasDepartment, row)
    decreases |groups|
  {
    if groups != [] {
      FirstGroup(groups, hasHub, hasDepartment, row);
      if Skipped(groups[0], hasHub, hasDepartment) {
        PartsAgree(groups[1..], before, hasHub, hasDepartment, firstArg, row);
      } else {
        var own, after := GroupArgs(groups[0]), Args(groups[1..], hasHub, hasDepartment);
        PartsAgree(groups[1..], before + own, hasHub, hasDepartment, firstArg, row);
        assert before + (own + after) == before + own + after;
        EmittedPart(groups[0], Parts(groups[1..], hasHub, hasDepartment, firstArg + |before + own|), before, after,
                    firstArg, row);
      }
    }
  }

  /** The SQL predicate selects exactly the rows the pointwise check allows,
      whether or not the query has a Hub or a department column. */
  lemma PredicateSelectsAllowedRows(filter: AccessFilter, hasHub: bool, hasDepartment: bool, firstArg: int, row: Row)
    requires Stored(filter) && row.hub > 0
    ensures Selects(PredicateOf(filter, hasHub, hasDepartment, firstArg),
                    ArgsOf(filter, hasHub, hasDepartment, firstArg), firstArg, row)
            <==> TargetAllowed(filter, TargetHub(row, hasHub), TargetDepartment(row, hasDepartment))
  {
    if !filter.global {
      var args := Args(filter.groups, hasHub, hasDepartment);
      PartsAgree(filter.groups, [], hasHub, hasDepartment, firstArg, row);
      assert [] + args == args;
      forall group | group in filter.groups
        ensures Chosen(group, hasHub, hasDepartment, row)
                <==> HubMatches(group, TargetHub(row, hasHub))
                     && DepartmentMatches(group, TargetDepartment(row, hasDepartment))
      {
        GroupAgrees(group, row, hasHub, hasDepartment);
      }
      assert Selects(AnyOf(Parts(filter.groups, hasHub, hasDepartment, firstArg)), args, firstArg, row)
             <==> SomePart(Parts(filter.groups, hasHub, hasDepartment, firstArg), args, firstArg, row);
    }
  }

  // ---------- placeholders ----------

  function PlaceholdersOf(conditions: seq<Condition>): seq<int> {
    seq(|conditions|, i requires 0 <= i < |conditions| => conditions[i].placeholder)
  }

  function Placeholders(parts: seq<seq<Condition>>): seq<int> {
    if parts == [] then [] else PlaceholdersOf(parts[0]) + Placeholders(parts[1..])
  }

  function SqlPlaceholders(sql: Sql): seq<int> {
    if sql.AnyOf? then Placeholders(sql.parts) else []
  }

  function From(first: int, n: nat): seq<int> {
    seq(n, i => first + i)
  }

  lemma GroupPlaceholders(group: ScopeGroup, next: int)
    ensures PlaceholdersOf(GroupConditions(group, next)) == From(next, |GroupArgs(group)|)
  {
  }

  lemma FromAppend(first: int, m: nat, n: nat)
    ensures From(first, m) + From(first + m, n) == From(first, m + n)
  {
  }

  lemma FirstPlaceholders(part: seq<Condition>, parts: seq<seq<Condition>>)
    ensures Placeholders([part] + parts) == PlaceholdersOf(part) + Placeholders(parts)
  {
    assert ([part] + parts)[1..] == parts;
  }

  lemma {:induction false} PartsPlaceholders(groups: seq<ScopeGroup>, hasHub: bool, hasDepartment: bool, next: int)
    ensures Placeholders(Parts(groups, hasHub, hasDepartment, next))
            == From(next, |Args(groups, hasHub, hasDepartment)|)
    decreases |groups|
  {
    if groups != [] {
      if Skipped(groups[0], hasHub, hasDepartment) {
        PartsPlaceholders(groups[1..], hasHub, hasDepartment, next);
      } else {
        var n := |GroupArgs(groups[0])|;
        PartsPlaceholders(groups[1..], hasHub, hasDepartment, next + n);
        FirstPlaceholders(GroupConditions(groups[0], next), Parts(groups[1..], hasHub, hasDepartment, next + n));
        GroupPlaceholders(groups[0], next);
        FromAppend(next, n, |Args(groups[1..], hasHub, hasDepartment)|);
      }
    }
  }

  /** Read from left to right the placeholders count up from firstArg, one per
      argument: none is skipped, repeated or out of range. */
  lemma PlaceholdersCountUp(filter: AccessFilter, hasHub: bool, hasDepartment: bool, firstArg: int)
    ensures SqlPlaceholders(PredicateOf(filter, hasHub, hasDepartment, firstArg))
            == From(firstArg, |ArgsOf(filter, hasHub, hasDepartment, firstArg)|)
  {
    PartsPlaceholders(filter.groups, hasHub, hasDepartment, firstArg);
  }

  // ---------- the loops ----------

  method LowerDepartments(departments: seq<string>) returns (lowered: seq<string>)
    ensures lowered == LoweredDepartments(departments)
  {
    lowered := [];
    for i := 0 to |departments|
      invariant lowered == LoweredDepartments(departments[..i])
    {
      assert departments[..i + 1][..i] == departments[..i];
      var department := Lower(TrimSpace(departments[i]));
      if department != "" {
        lowered := lowered + [department];
      }
    }
    assert departments[..|departments|] == departments;
  }

  predicate Emits(group: ScopeGroup, hasHub: bool, hasDepartment: bool, next: int, conditions: seq<Condition>,
                  args: seq<Arg>) {
    if Skipped(group, hasHub, hasDepartment) then conditions == [] && args == []
    else conditions != [] && conditions == GroupConditions(group, next) && args == GroupArgs(group)
  }

  /** What is left to read, added to what is built, gives the whole. */
  predicate Continues(filter: AccessFilter, i: nat, hasHub: bool, hasDepartment: bool, firstArg: int,
                      parts: seq<seq<Condition>>, args: seq<Arg>)
    requires i <= |filter.groups|
  {
    && parts + Parts(filter.groups[i..], hasHub, hasDepartment, firstArg + |args|)
         == Parts(filter.groups, hasHub, hasDepartment, firstArg)
    && args + Args(filter.groups[i..], hasHub, hasDepartment) == Args(filter.groups, hasHub, hasDepartment)
  }

  lemma EmittedGroup(filter: AccessFilter, i: nat, hasHub: bool, hasDepartment: bool, firstArg: int,
                     parts: seq<seq<Condition>>, args: seq<Arg>,
                     conditions: seq<Condition>, more: seq<Arg>)
    requires i < |filter.groups| && Continues(filter, i, hasHub, hasDepartment, firstArg, parts, args)
    requires Emits(filter.groups[i], hasHub, hasDepartment, firstArg + |args|, conditions, more)
    ensures Continues(filter, i + 1, hasHub, hasDepartment, firstArg,
                      if |conditions| > 0 then parts + [conditions] else parts, args + more)
  {
    var rest := filter.groups[i..];
    assert rest[0] == filter.groups[i] && rest[1..] == filter.groups[i + 1..];
    assert args + [] == args;
    var later := Parts(rest[1..], hasHub, hasDepartment, firstArg + |args + more|);
    assert parts + ([conditions] + later) == parts + [conditions] + later;
    assert args + (more + Args(rest[1..], hasHub, hasDepartment)) == args + more
        + Args(rest[1..], hasHub, hasDepartment);
  }

  lemma Finished(filter: AccessFilter, hasHub: bool, hasDepartment: bool, firstArg: int, parts: seq<seq<Condition>>,
                 args: seq<Arg>)
    requires Continues(filter, |filter.groups|, hasHub, hasDepartment, firstArg, parts, args)
    ensures parts == Parts(filter.groups, hasHub, hasDepartment, firstArg)
            && args == Args(filter.groups, hasHub, hasDepartment)
  {
    assert filter.groups[|filter.groups|..] == [] && parts + [] == parts && args + [] == args;
  }

  /** One turn of AccessPredicate's loop; a skipped group adds no conditions. */
  method GroupPredicate(group: ScopeGroup, hasHub: bool, hasDepartment: bool, next: int)
      returns (conditions: seq<Condition>, args: seq<Arg>)
    ensures Emits(group, hasHub, hasDepartment, next, conditions, args)
  {
    conditions, args := [], [];
    if (|group.hubIds| > 0 && !hasHub) || (|group.departments| > 0 && !hasDepartment) {
      return;
    }
    var departments := LowerDepartments(group.departments);
    if |group.departments| > 0 && |departments| == 0 {
      return;
    }
    var placeholder := next;
    if |group.hubIds| > 0 {
      conditions := conditions + [HubIn(placeholder)];
      args := args + [Hubs(group.hubIds)];
      placeholder := placeholder + 1;
    }
    if |group.departments| > 0 {
      conditions := conditions + [DepartmentIn(placeholder)];
      args := args + [Departments(departments)];
    }
  }

  method AccessPredicate(filter: AccessFilter, hasHub: bool, hasDepartment: bool, firstArg: int)
      returns (sql: Sql, args: seq<Arg>)
    ensures sql == PredicateOf(filter, hasHub, hasDepartment, firstArg)
            && args == ArgsOf(filter, hasHub, hasDepartment, firstArg)
  {
    if filter.global {
      return True, [];
    }
    var parts: seq<seq<Condition>> := [];
    args := [];
    var next := firstArg;
    assert filter.groups[0..] == filter.groups;
    for i := 0 to |filter.groups|
      invariant Continues(filter, i, hasHub, hasDepartment, firstArg, parts, args)
      invariant next == firstArg + |args|
    {
      var conditions, more := GroupPredicate(filter.groups[i], hasHub, hasDepartment, next);
      EmittedGroup(filter, i, hasHub, hasDepartment, firstArg, parts, args, conditions, more);
      args := args + more;
      next := next + |more|;
      if |conditions| > 0 {
        parts := parts + [conditions];
      }
    }
    Finished(filter, hasHub, hasDepartment, firstArg, parts, args);
    if |parts| == 0 {
      return False, [];
    }
    sql := AnyOf(parts);
  }

  method HubMatched(hubIds: seq<int>, hub: int) returns (matched: bool)
    ensures matched <==> hub > 0 && hub in hubIds
  {
    matched := false;
    for j := 0 to |hubIds|
      invariant !(hub > 0 && hub in hubIds[..j])
    {
      if hub > 0 && hubIds[j] == hub {
        return true;
      }
    }
  }

  method DepartmentMatched(departments: seq<string>, department: string) returns (matched: bool)
    ensures matched <==> exists allowed | allowed in departments :: DepartmentAllowed(allowed, department)
  {
    matched := false;
    for j := 0 to |departments|
      invariant forall k :: 0 <= k < j ==> !DepartmentAllowed(departments[k], department)
    {
      if DepartmentAllowed(departments[j], department) {
        return true;
      }
    }
  }

  method AllowsTarget(filter: AccessFilter, hub: int, department: string) returns (allowed: bool)
    ensures allowed <==> TargetAllowed(filter, hub, department)
  {
    if filter.global {
      return true;
    }
    for i := 0 to |filter.groups|
      invariant forall j :: 0 <= j < i ==> !(HubMatches(filter.groups[j], hub)
                                             && DepartmentMatches(filter.groups[j], department))
    {
      var group := filter.groups[i];
      if |group.hubIds| > 0 {
        var matched := HubMatched(group.hubIds, hub);
        if !matched {
          continue;
        }
      }
      if |group.departments| > 0 {
        var matched := DepartmentMatched(group.departments, department);
        if !matched {
          continue;
        }
      }
      assert group in filter.groups;
      return true;
    }
    allowed := false;
  }

  // ---------- from stored bindings to filters ----------

  /** One role assignment as it is read back, with its role's permissions. */
  datatype StoredBinding = StoredBinding(permissions: seq<string>, global: bool, scopes: seq<Clause>)
  datatype Grant = Grant(permissions: seq<string>, hubIds: seq<int>, departments: seq<string>)

  /** apiKeyScopes is None for a session, Some for an API key. */
  datatype Principal = Principal(globalPermissions: seq<string>, grants: seq<Grant>, apiKeyScopes: Option<seq<string>>)

  function HubOf(c: Clause): Option<int> {
    if c.kind == "hub" then ParseHubScope(c.value) else None
  }

  function DepartmentOf(c: Clause): Option<string> {
    if c.kind == "department" && TrimSpace(c.value) != "" then Some(TrimSpace(c.value)) else None
  }

  function AddHub(hubIds: seq<int>, c: Clause): seq<int> {
    if HubOf(c).Some? && HubOf(c).value !in hubIds then hubIds + [HubOf(c).value] else hubIds
  }

  function AddDepartment(departments: seq<string>, c: Clause): seq<string> {
    if DepartmentOf(c).Some? && !ContainsFold(departments, DepartmentOf(c).value)
        then departments + [DepartmentOf(c).value] else departments
  }

  function HubIds(scopes: seq<Clause>): seq<int> {
    if scopes == [] then [] else AddHub(HubIds(scopes[..|scopes| - 1]), scopes[|scopes| - 1])
  }

  function DepartmentNames(scopes: seq<Clause>): seq<string> {
    if scopes == [] then [] else AddDepartment(DepartmentNames(scopes[..|scopes| - 1]), scopes[|scopes| - 1])
  }

  function GrantOf(b: StoredBinding): Grant {
    Grant(b.permissions, HubIds(b.scopes), DepartmentNames(b.scopes))
  }

  predicate Grantable(b: StoredBinding) {
    !b.global && (GrantOf(b).hubIds != [] || GrantOf(b).departments != [])
  }

  function GrantsOf(bindings: seq<StoredBinding>): seq<Grant> {
    if bindings == [] then []
    else
      var last := bindings[|bindings| - 1];
      GrantsOf(bindings[..|bindings| - 1]) + if Grantable(last) then [GrantOf(last)] else []
  }

  predicate ApiKeyAllows(p: Principal, permission: string) {
    p.apiKeyScopes.Some? ==> p.apiKeyScopes.value != [] && EnsurePermission(p.apiKeyScopes.value, permission)
  }

  function Groups(grants: seq<Grant>, permission: string): seq<ScopeGroup> {
    if grants == [] then []
    else
      var last := grants[|grants| - 1];
      Groups(grants[..|grants| - 1], permission)
      + if EnsurePermission(last.permissions, permission) && !(last.hubIds == [] && last.departments == [])
        then [ScopeGroup(last.hubIds, last.departments)] else []
  }

  function FilterOf(p: Principal, permission: string): AccessFilter {
    if !ApiKeyAllows(p, permission) then AccessFilter(false, [])
    else if EnsurePermission(p.globalPermissions, permission) then AccessFilter(true, [])
    else AccessFilter(false, Groups(p.grants, permission))
  }

  predicate HasHub(scopes: seq<Clause>) {
    exists c | c in scopes :: HubOf(c).Some?
  }

  predicate NamesHub(scopes: seq<Clause>, hub: int) {
    exists c | c in scopes :: HubOf(c) == Some(hub)
  }

  predicate HasDepartment(scopes: seq<Clause>) {
    exists c | c in scopes :: DepartmentOf(c).Some?
  }

  predicate NamesDepartment(scopes: seq<Clause>, department: string) {
    exists c | c in scopes :: DepartmentOf(c).Some? && EqualFold(DepartmentOf(c).value, TrimSpace(department))
  }

  /** What a restricted binding is for: targets that meet a clause of every kind
      the binding states, and it must state one. */
  predicate ClausesMatch(scopes: seq<Clause>, hub: int, department: string) {
    && (HasHub(scopes) || HasDepartment(scopes))
    && (HasHub(scopes) ==> NamesHub(scopes, hub))
    && (HasDepartment(scopes) ==> NamesDepartment(scopes, department))
  }

  lemma {:induction false} HubIdsMembers(scopes: seq<Clause>, id: int)
    ensures id in HubIds(scopes) <==> exists c | c in scopes :: HubOf(c) == Some(id)
  {
    if scopes != [] {
      var front, last := scopes[..|scopes| - 1], scopes[|scopes| - 1];
      assert scopes == front + [last];
      HubIdsMembers(front, id);
    }
  }

  predicate NamesFold(scopes: seq<Clause>, name: string) {
    exists c | c in scopes :: DepartmentOf(c).Some? && EqualFold(DepartmentOf(c).value, name)
  }

  lemma LastClause(front: seq<Clause>, last: Clause, name: string)
    ensures NamesFold(front + [last], name) <==> NamesFold(front, name)
                                                 || (DepartmentOf(last).Some?
                                                     && EqualFold(DepartmentOf(last).value, name))
  {
    assert last in front + [last] && forall c | c in front :: c in front + [last];
  }

  lemma {:induction false} DepartmentMembers(scopes: seq<Clause>, name: string)
    ensures ContainsFold(DepartmentNames(scopes), name) <==> NamesFold(scopes, name)
    decreases |scopes|
  {
    if scopes != [] {
      var front, last := scopes[..|scopes| - 1], scopes[|scopes| - 1];
      assert scopes == front + [last];
      DepartmentMembers(front, name);
      LastClause(front, last, name);
      AddedDepartment(DepartmentNames(front), last, name);
    }
  }

  lemma {:induction false} DepartmentsAreClean(scopes: seq<Clause>, name: string)
    requires name in DepartmentNames(scopes)
    ensures name != "" && TrimSpace(name) == name
    decreases |scopes|
  {
    var front, last := scopes[..|scopes| - 1], scopes[|scopes| - 1];
    if name in DepartmentNames(front) {
      DepartmentsAreClean(front, name);
    } else {
      TrimSpaceSettles(last.value);
    }
  }

  lemma AddedDepartment(departments: seq<string>, c: Clause, name: string)
    ensures ContainsFold(AddDepartment(departments, c), name)
            <==> ContainsFold(departments, name) || (DepartmentOf(c).Some? && EqualFold(DepartmentOf(c).value, name))
  {
    if DepartmentOf(c).Some? {
      FoldAppend(departments, DepartmentOf(c).value, name);
    }
  }

  lemma FoldAppend(departments: seq<string>, d: string, name: string)
    ensures ContainsFold(departments + [d], name) <==> ContainsFold(departments, name) || EqualFold(d, name)
    ensures ContainsFold(departments, d) && EqualFold(d, name) ==> ContainsFold(departments, name)
  {
    assert d in departments + [d] && forall v | v in departments :: v in departments + [d];
  }

  lemma GrantDecides(b: StoredBinding, hub: int, department: string)
    ensures var group := ScopeGroup(HubIds(b.scopes), DepartmentNames(b.scopes));
            (Grantable(b) && HubMatches(group, hub) && DepartmentMatches(group, department))
            <==> !b.global && ClausesMatch(b.scopes, hub, department)
  {
    HubsDecide(b.scopes, hub);
    DepartmentsDecide(b.scopes, department);
  }

  lemma HubsDecide(scopes: seq<Clause>, hub: int)
    ensures HubIds(scopes) == [] <==> !HasHub(scopes)
    ensures HubIds(scopes) != [] ==> (hub > 0 && hub in HubIds(scopes) <==> NamesHub(scopes, hub))
  {
    HubIdsMembers(scopes, hub);
    if HubIds(scopes) != [] {
      HubIdsMembers(scopes, HubIds(scopes)[0]);
    }
    if c :| c in scopes && HubOf(c).Some? {
      HubIdsMembers(scopes, HubOf(c).value);
    }
  }

  lemma DepartmentsDecide(scopes: seq<Clause>, department: string)
    ensures DepartmentNames(scopes) == [] <==> !HasDepartment(scopes)
    ensures (exists allowed | allowed in DepartmentNames(scopes) :: DepartmentAllowed(allowed, department))
            <==> NamesDepartment(scopes, department)
  {
    var names := DepartmentNames(scopes);
    DepartmentMembers(scopes, TrimSpace(department));
    if names != [] {
      DepartmentMembers(scopes, names[0]);
      assert names[0] in names && EqualFold(names[0], names[0]);
    }
    if c :| c in scopes && DepartmentOf(c).Some? {
      DepartmentMembers(scopes, DepartmentOf(c).value);
    }
    forall v | v in names
      ensures DepartmentAllowed(v, department) <==> EqualFold(v, TrimSpace(department))
    {
      DepartmentsAreClean(scopes, v);
      assert |Lower(v)| == |v|;
    }
  }

  lemma {:induction false} GrantsMembers(bindings: seq<StoredBinding>, g: Grant)
    ensures g in GrantsOf(bindings) <==> exists b | b in bindings :: Grantable(b) && g == GrantOf(b)
  {
    if bindings != [] {
      GrantsMembers(bindings[..|bindings| - 1], g);
      assert bindings == bindings[..|bindings| - 1] + [bindings[|bindings| - 1]];
    }
  }

  predicate Grouped(g: Grant, permission: string) {
    EnsurePermission(g.permissions, permission) && !(g.hubIds == [] && g.departments == [])
  }

  lemma {:induction false} GroupsMembers(grants: seq<Grant>, permission: string, group: ScopeGroup)
    ensures group in Groups(grants, permission)
            <==> exists g | g in grants :: Grouped(g, permission) && group == ScopeGroup(g.hubIds, g.departments)
  {
    if grants != [] {
      GroupsMembers(grants[..|grants| - 1], permission, group);
      assert grants == grants[..|grants| - 1] + [grants[|grants| - 1]];
    }
  }

  /** The permissions of the global assignments, as the user record holds them. */
  function GlobalRows(bindings: seq<StoredBinding>): seq<string> {
    if bindings == [] then []
    else
      var last := bindings[|bindings| - 1];
      GlobalRows(bindings[..|bindings| - 1]) + if last.global then last.permissions else []
  }

  function PrincipalOf(bindings: seq<StoredBinding>, apiKeyScopes: Option<seq<string>>): Principal {
    Principal(FoldUnion([], GlobalRows(bindings)), GrantsOf(bindings), apiKeyScopes)
  }

  predicate Entitled(bindings: seq<StoredBinding>, permission: string, hub: int, department: string) {
    exists b | b in bindings :: !b.global && EnsurePermission(b.permissions, permission)
                               && ClausesMatch(b.scopes, hub, department)
  }

  lemma GroupsDecide(bindings: seq<StoredBinding>, permission: string, hub: int, department: string)
    ensures (exists group ::
              && group in Groups(GrantsOf(bindings), permission)
              && HubMatches(group, hub) && DepartmentMatches(group, department))
            <==> Entitled(bindings, permission, hub, department)
  {
    if Entitled(bindings, permission, hub, department) {
      var b :| b in bindings && !b.global && EnsurePermission(b.permissions, permission)
          && ClausesMatch(b.scopes, hub, department);
      GrantDecides(b, hub, department);
      GrantsMembers(bindings, GrantOf(b));
      assert Grouped(GrantOf(b), permission);
      GroupsMembers(GrantsOf(bindings), permission, ScopeGroup(HubIds(b.scopes), DepartmentNames(b.scopes)));
    }
    if group :| group in Groups(GrantsOf(bindings), permission)
                && HubMatches(group, hub) && DepartmentMatches(group, department) {
      GroupsMembers(GrantsOf(bindings), permission, group);
      var g :| g in GrantsOf(bindings) && Grouped(g, permission) && group == ScopeGroup(g.hubIds, g.departments);
      GrantsMembers(bindings, g);
      var b :| b in bindings && Grantable(b) && g == GrantOf(b);
      GrantDecides(b, hub, department);
    }
  }

  /** The pointwise check, in terms of the stored bindings: an API key only ever
      narrows, and a restricted binding speaks for the targets its clauses name. */
  lemma TargetAllowedExactly(bindings: seq<StoredBinding>, apiKeyScopes: Option<seq<string>>, permission: string,
                             hub: int, department: string)
    ensures var p := PrincipalOf(bindings, apiKeyScopes);
            TargetAllowed(FilterOf(p, permission), hub, department)
            <==> ApiKeyAllows(p, permission)
                 && (EnsurePermission(p.globalPermissions, permission)
                     || Entitled(bindings, permission, hub, department))
  {
    GroupsDecide(bindings, permission, hub, department);
  }

  lemma FiltersAreStored(bindings: seq<StoredBinding>, apiKeyScopes: Option<seq<string>>, permission: string)
    ensures Stored(FilterOf(PrincipalOf(bindings, apiKeyScopes), permission))
  {
    var filter := FilterOf(PrincipalOf(bindings, apiKeyScopes), permission);
    forall group | group in filter.groups
      ensures group.hubIds != [] || group.departments != []
      ensures forall d | d in group.departments :: TrimSpace(d) != ""
    {
      GroupsMembers(GrantsOf(bindings), permission, group);
      var g :| g in GrantsOf(bindings) && Grouped(g, permission) && group == ScopeGroup(g.hubIds, g.departments);
      GrantsMembers(bindings, g);
      var b :| b in bindings && Grantable(b) && g == GrantOf(b);
      forall d | d in group.departments ensures TrimSpace(d) != "" {
        DepartmentsAreClean(b.scopes, d);
      }
    }
  }

  /** End to end: a list query returns exactly the rows the stored bindings and
      the API key entitle the caller to. */
  lemma QueryReturnsExactlyTheEntitled(bindings: seq<StoredBinding>, apiKeyScopes: Option<seq<string>>,
                                       permission: string, firstArg: int, row: Row)
    requires row.hub > 0
    ensures var p := PrincipalOf(bindings, apiKeyScopes);
            var filter := FilterOf(p, permission);
            Selects(PredicateOf(filter, true, true, firstArg), ArgsOf(filter, true, true, firstArg), firstArg, row)
            <==> ApiKeyAllows(p, permission)
                 && (EnsurePermission(p.globalPermissions, permission)
                     || Entitled(bindings, permission, row.hub, row.department))
  {
    FiltersAreStored(bindings, apiKeyScopes, permission);
    PredicateSelectsAllowedRows(FilterOf(PrincipalOf(bindings, apiKeyScopes), permission), true, true, firstArg, row);
    TargetAllowedExactly(bindings, apiKeyScopes, permission, row.hub, row.department);
  }

  method CollectClauses(b: StoredBinding) returns (grant: Grant)
    ensures grant == GrantOf(b)
  {
    var hubIds, departments := [], [];
    for i := 0 to |b.scopes|
      invariant hubIds == HubIds(b.scopes[..i]) && departments == DepartmentNames(b.scopes[..i])
    {
      assert b.scopes[..i + 1][..i] == b.scopes[..i];
      hubIds := AddHub(hubIds, b.scopes[i]);
      departments := AddDepartment(departments, b.scopes[i]);
    }
    assert b.scopes[..|b.scopes|] == b.scopes;
    grant := Grant(b.permissions, hubIds, departments);
  }

  /** The second loop of populateUserAccess. */
  method PopulateGrants(bindings: seq<StoredBinding>) returns (grants: seq<Grant>)
    ensures grants == GrantsOf(bindings)
  {
    grants := [];
    for i := 0 to |bindings|
      invariant grants == GrantsOf(bindings[..i])
    {
      assert bindings[..i + 1][..i] == bindings[..i];
      if bindings[i].global {
        continue;
      }
      var grant := CollectClauses(bindings[i]);
      if grant.hubIds != [] || grant.departments != [] {
        grants := grants + [grant];
      }
    }
    assert bindings[..|bindings|] == bindings;
  }

  /** Principal.AccessFilter. */
  method BuildFilter(p: Principal, permission: string) returns (filter: AccessFilter)
    ensures filter == FilterOf(p, permission)
  {
    if !ApiKeyAllows(p, permission) {
      return AccessFilter(false, []);
    }
    if EnsurePermission(p.globalPermissions, permission) {
      return AccessFilter(true, []);
    }
    var groups: seq<ScopeGroup> := [];
    for i := 0 to |p.grants|
      invariant groups == Groups(p.grants[..i], permission)
    {
      assert p.grants[..i + 1][..i] == p.grants[..i];
      var grant := p.grants[i];
      if !EnsurePermission(grant.permissions, permission) {
        continue;
      }
      if grant.hubIds == [] && grant.departments == [] {
        continue;
      }
      groups := groups + [ScopeGroup(grant.hubIds, grant.departments)];
    }
    assert p.grants[..|p.grants|] == p.grants;
    filter := AccessFilter(false, groups);
  }

  // ---------- deleting a Hub ----------

  /** DeleteHub removes the clauses whose text is the Hub's id. */
  predicate Survives(c: Clause, hub: int) {
    !(c.kind == "hub" && c.value == Codec.Decimal(hub))
  }

  function WithoutHub(scopes: seq<Clause>, hub: int): (r: seq<Clause>)
    ensures forall c :: c in r <==> c in scopes && Survives(c, hub)
  {
    if scopes == [] then []
    else
      assert scopes == [scopes[0]] + scopes[1..];
      (if Survives(scopes[0], hub) then [scopes[0]] else []) + WithoutHub(scopes[1..], hub)
  }

  lemma SurvivorsNameOthers(c: Clause, hub: int)
    requires CanonicalClause(c) == Some(c)
    ensures Survives(c, hub) <==> HubOf(c) != Some(hub)
  {
    TrimSpaceSettles(c.value);
    TrimSpaceSettles(c.kind);
    if c.kind == "hub" && c.value == Codec.Decimal(hub) {
      var id := ParseHubScope(TrimSpace(c.value)).value;
      assert c.value == Codec.Decimal(id);
      Codec.DecimalInverts(id);
      Codec.DecimalInverts(hub);
      HubScopeRoundTrip(id);
    }
  }

  predicate OnlyHub(scopes: seq<Clause>, hub: int) {
    HasHub(scopes) && forall c | c in scopes && HubOf(c).Some? :: HubOf(c) == Some(hub)
  }

  lemma ClausesLeft(scopes: seq<Clause>, hub: int, other: int, department: string)
    requires forall c | c in scopes :: CanonicalClause(c) == Some(c)
    requires other != hub
    ensures var after := WithoutHub(scopes, hub);
            && HasDepartment(after) == HasDepartment(scopes)
            && NamesDepartment(after, department) == NamesDepartment(scopes, department)
            && NamesHub(after, other) == NamesHub(scopes, other)
            && (HasHub(after) <==> HasHub(scopes) && !OnlyHub(scopes, hub))
  {
    forall c | c in scopes
      ensures c in WithoutHub(scopes, hub) <==> HubOf(c) != Some(hub)
    {
      SurvivorsNameOthers(c, hub);
    }
  }

  lemma OtherNotNamed(scopes: seq<Clause>, hub: int, other: int)
    requires OnlyHub(scopes, hub) && other != hub
    ensures !NamesHub(scopes, other)
  {
  }

  predicate Widens(scopes: seq<Clause>, hub: int, other: int, department: string) {
    other != hub && ClausesMatch(WithoutHub(scopes, hub), other, department) && !ClausesMatch(scopes, other, department)
  }

  lemma WidensOnlyIf(scopes: seq<Clause>, hub: int, other: int, department: string)
    requires forall c | c in scopes :: CanonicalClause(c) == Some(c)
    requires other != hub
    ensures Widens(scopes, hub, other, department)
            <==> OnlyHub(scopes, hub) && HasDepartment(scopes) && NamesDepartment(scopes, department)
  {
    ClausesLeft(scopes, hub, other, department);
    if OnlyHub(scopes, hub) {
      OtherNotNamed(scopes, hub, other);
    }
  }

  /** Deleting a Hub can widen a binding: it gains a target exactly when every
      Hub clause named that Hub and a department clause is left behind. */
  lemma HubDeletionWidensExactly(scopes: seq<Clause>, hub: int)
    requires forall c | c in scopes :: CanonicalClause(c) == Some(c)
    ensures (exists other, department :: Widens(scopes, hub, other, department))
            <==> OnlyHub(scopes, hub) && HasDepartment(scopes)
  {
    if other, department :| Widens(scopes, hub, other, department) {
      WidensOnlyIf(scopes, hub, other, department);
    }
    if OnlyHub(scopes, hub) && HasDepartment(scopes) {
      var c :| c in scopes && DepartmentOf(c).Some?;
      var department := DepartmentOf(c).value;
      TrimSpaceSettles(c.value);
      assert EqualFold(department, TrimSpace(department));
      WidensOnlyIf(scopes, hub, hub + 1, department);
    }
  }
}
