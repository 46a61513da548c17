/** Permission strings and their wildcards: which permissions a list grants, and
    when one list grants no more than another. */
module Permissions {
  import opened Text

  /** "*" grants everything, "area:*" everything that starts with "area:". */
  predicate Grants(permission: string, required: string) {
    || permission == "*"
    || permission == required
    || (&& |permission| > 2
        && permission[|permission| - 2..] == ":*"
        && |required| >= |permission| - 1
        && required[..|permission| - 1] == permission[..|permission| - 1])
  }

  predicate EnsurePermission(permissions: seq<string>, required: string) {
    exists p | p in permissions :: Grants(p, required)
  }

  predicate ScopesWithinPermissions(scopes: seq<string>, permissions: seq<string>) {
    scopes != [] && forall s | s in scopes :: EnsurePermission(permissions, s)
  }

  predicate WithinCeiling(candidate: seq<string>, ceiling: seq<string>) {
    candidate == [] || ScopesWithinPermissions(candidate, ceiling)
  }

  /** A permission grants itself, "*" everything, and a wildcard every permission
      of its area. */
  lemma GrantsExactly(p: string, r: string)
    ensures Grants(p, r)
            <==> || p == "*" || p == r
                 || exists area: string, rest: string :: area != "" && p == area + ":*" && r == area + ":" + rest
  {
    if |p| > 2 && p[|p| - 2..] == ":*" && |r| >= |p| - 1 && r[..|p| - 1] == p[..|p| - 1] {
      var area, rest := p[..|p| - 2], r[|p| - 1..];
      assert p == area + ":*" && p[..|p| - 1] == area + ":" && r == area + ":" + rest;
    }
    if area: string, rest: string :| area != "" && p == area + ":*" && r == area + ":" + rest {
      AreaGrants(area, rest);
    }
  }

  lemma AreaGrants(area: string, rest: string)
    requires area != ""
    ensures Grants(area + ":*", area + ":" + rest)
  {
    var p, r := area + ":*", area + ":" + rest;
    assert p[|p| - 2..] == ":*" && p[..|p| - 1] == area + ":" == r[..|p| - 1];
  }

  /** What a list of permissions grants, by concatenation. */
  lemma EnsurePermissionExactly(permissions: seq<string>, r: string)
    ensures EnsurePermission(permissions, r)
            <==> || "*" in permissions || r in permissions
                 || exists area: string, rest: string ::
                      area != "" && r == area + ":" + rest && area + ":*" in permissions
  {
    if EnsurePermission(permissions, r) {
      var p :| p in permissions && Grants(p, r);
      GrantsExactly(p, r);
    }
    if area: string, rest: string :| area != "" && r == area + ":" + rest && area + ":*" in permissions {
      AreaGrants(area, rest);
    }
    if "*" in permissions {
      assert Grants("*", r);
    }
  }

  /** One permission granting another grants all that one grants: the check on
      strings is the inclusion of what they stand for. */
  lemma GrantsComposes(p: string, s: string, r: string)
    requires Grants(p, s) && Grants(s, r)
    ensures Grants(p, r)
  {
    if p != "*" && p != s && s != r && s != "*" {
      assert s[|s| - 2..][1] == '*';
      assert p[|p| - 2..][0] == ':';
      assert s[..|p| - 1][|p| - 2] == p[..|p| - 1][|p| - 2];
      assert |p| < |s| + 1;
      assert r[..|p| - 1] == r[..|s| - 1][..|p| - 1] == s[..|s| - 1][..|p| - 1] == s[..|p| - 1];
    }
  }

  lemma Includes(scopes: seq<string>, permissions: seq<string>, r: string)
    requires forall s | s in scopes :: EnsurePermission(permissions, s)
    requires EnsurePermission(scopes, r)
    ensures EnsurePermission(permissions, r)
  {
    var s :| s in scopes && Grants(s, r);
    var p :| p in permissions && Grants(p, s);
    GrantsComposes(p, s, r);
  }

  /** For a nonempty list the per-string check is exactly inclusion of the
      granted permissions, over all strings and all wildcard shapes. */
  lemma ScopesWithinIsInclusion(scopes: seq<string>, permissions: seq<string>)
    requires scopes != []
    ensures ScopesWithinPermissions(scopes, permissions)
            <==> forall r: string :: EnsurePermission(scopes, r) ==> EnsurePermission(permissions, r)
  {
    if ScopesWithinPermissions(scopes, permissions) {
      forall r: string | EnsurePermission(scopes, r)
        ensures EnsurePermission(permissions, r)
      {
        Includes(scopes, permissions, r);
      }
    }
    if forall r: string :: EnsurePermission(scopes, r) ==> EnsurePermission(permissions, r) {
      forall s | s in scopes
        ensures EnsurePermission(permissions, s)
      {
        assert Grants(s, s);
        assert EnsurePermission(scopes, s);
      }
    }
  }

  lemma WithinCeilingIsInclusion(candidate: seq<string>, ceiling: seq<string>)
    ensures WithinCeiling(candidate, ceiling)
            <==> forall r: string :: EnsurePermission(candidate, r) ==> EnsurePermission(ceiling, r)
  {
    if candidate != [] {
      ScopesWithinIsInclusion(candidate, ceiling);
    }
  }

  lemma CeilingIsTransitive(a: seq<string>, b: seq<string>, c: seq<string>)
    requires WithinCeiling(a, b) && WithinCeiling(b, c)
    ensures WithinCeiling(a, c)
  {
    WithinCeilingIsInclusion(a, b);
    WithinCeilingIsInclusion(b, c);
    WithinCeilingIsInclusion(a, c);
  }

  // ---------- unions that compare without case ----------

  predicate ContainsFold(values: seq<string>, value: string) {
    exists v | v in values :: EqualFold(v, value)
  }

  function FoldUnion(kept: seq<string>, more: seq<string>): seq<string>
    decreases |more|
  {
    if more == [] then kept
    else FoldUnion(if ContainsFold(kept, more[0]) then kept else kept + [more[0]], more[1..])
  }

  ghost predicate NoCaseVariants(values: set<string>) {
    forall a, b | a in values && b in values && EqualFold(a, b) :: a == b
  }

  function Members(values: seq<string>): set<string> {
    set v | v in values
  }

  /** The union keeps only given strings, and one of every case class. */
  lemma {:induction false} FoldUnionKeepsClasses(kept: seq<string>, more: seq<string>)
    ensures Members(kept) <= Members(FoldUnion(kept, more)) <= Members(kept) + Members(more)
    ensures forall v | v in more :: ContainsFold(FoldUnion(kept, more), v)
    decreases |more|
  {
    if more != [] {
      var next := if ContainsFold(kept, more[0]) then kept else kept + [more[0]];
      FoldUnionKeepsClasses(next, more[1..]);
      assert Members(more) == {more[0]} + Members(more[1..]);
      assert Members(kept) <= Members(next);
      var out := FoldUnion(next, more[1..]);
      assert ContainsFold(next, more[0]);
      var w :| w in next && EqualFold(w, more[0]);
      assert w in Members(out);
      forall v | v in more
        ensures ContainsFold(out, v)
      {
        if v != more[0] { assert v in more[1..]; }
      }
    }
  }

  /** Of the strings that differ only in case, the first given is the one kept. */
  ghost predicate First(kept: seq<string>, more: seq<string>, i: int) {
    0 <= i < |more| && !ContainsFold(kept, more[i]) && forall j :: 0 <= j < i ==> !EqualFold(more[j], more[i])
  }

  lemma {:induction false} FoldUnionKeepsFirsts(kept: seq<string>, more: seq<string>, p: string)
    ensures p in FoldUnion(kept, more) <==> p in kept || exists i :: First(kept, more, i) && more[i] == p
    decreases |more|
  {
    if more != [] {
      var dropped := ContainsFold(kept, more[0]);
      var next := if dropped then kept else kept + [more[0]];
      FoldUnionKeepsFirsts(next, more[1..], p);
      forall i | 0 < i < |more|
        ensures First(next, more[1..], i - 1) <==> First(kept, more, i)
      {
        FirstShifts(kept, more, i);
      }
      assert First(kept, more, 0) <==> !dropped;
      if i :| First(next, more[1..], i) && more[1..][i] == p {
        assert First(kept, more, i + 1);
      }
      if i :| First(kept, more, i) && more[i] == p {
        assert i > 0 ==> First(next, more[1..], i - 1) && more[1..][i - 1] == p;
      }
    }
  }

  lemma FirstShifts(kept: seq<string>, more: seq<string>, i: int)
    requires 0 < i < |more|
    ensures var next := if ContainsFold(kept, more[0]) then kept else kept + [more[0]];
            First(next, more[1..], i - 1) <==> First(kept, more, i)
  {
    var next := if ContainsFold(kept, more[0]) then kept else kept + [more[0]];
    var p := more[i];
    assert more[1..][i - 1] == p;
    assert ContainsFold(next, p) <==> ContainsFold(kept, p) || EqualFold(more[0], p) by {
      assert forall v | v in kept :: v in next;
      if EqualFold(more[0], p) {
        if ContainsFold(kept, more[0]) {
          var v :| v in kept && EqualFold(v, more[0]);
          assert EqualFold(v, p);
        } else {
          assert more[0] in next;
        }
      }
    }
    assert forall j :: 0 < j < i ==> more[1..][j - 1] == more[j];
    assert (forall j :: 0 <= j < i ==> !EqualFold(more[j], p))
      <==> !EqualFold(more[0], p) && forall j :: 0 <= j < i - 1 ==> !EqualFold(more[1..][j], p);
  }

  lemma FoldUnionGrantsNoMore(more: seq<string>, r: string)
    requires EnsurePermission(FoldUnion([], more), r)
    ensures EnsurePermission(more, r)
  {
    FoldUnionKeepsClasses([], more);
    var p :| p in FoldUnion([], more) && Grants(p, r);
    assert p in Members(FoldUnion([], more));
    assert p in Members(more);
  }

  /** Without case variants nothing is lost. */
  lemma FoldUnionIsFaithful(more: seq<string>)
    requires NoCaseVariants(Members(more))
    ensures Members(FoldUnion([], more)) == Members(more)
  {
    FoldUnionKeepsClasses([], more);
    var out := FoldUnion([], more);
    forall v | v in more
      ensures v in out
    {
      var w :| w in out && EqualFold(w, v);
      assert w in Members(out);
      assert w in Members(more) && v in Members(more);
    }
  }

  /** A ceiling check on the kept strings speaks for all of them exactly when
      the kept strings grant every dropped one. */
  lemma FoldedCheckIsEnough(more: seq<string>)
    ensures (forall ceiling: seq<string> :: WithinCeiling(FoldUnion([], more), ceiling)
                                           ==> WithinCeiling(more, ceiling))
            <==> WithinCeiling(more, FoldUnion([], more))
  {
    var kept := FoldUnion([], more);
    assert WithinCeiling(kept, kept) by {
      forall s | s in kept ensures EnsurePermission(kept, s) { assert Grants(s, s); }
    }
    if WithinCeiling(more, kept) {
      forall ceiling: seq<string> | WithinCeiling(kept, ceiling)
        ensures WithinCeiling(more, ceiling)
      {
        CeilingIsTransitive(more, kept, ceiling);
      }
    }
  }

  lemma FoldTwo(a: string, b: string)
    ensures FoldUnion([], [a, b]) == if EqualFold(a, b) then [a] else [a, b]
  {
    assert [a, b][1..] == [b] && [b][1..] == [] && [] + [a] == [a] && [a] + [b] == [a, b];
    assert !ContainsFold([], a);
    assert a in [a] && (ContainsFold([a], b) <==> EqualFold(a, b));
    calc {
      FoldUnion([], [a, b]);
      FoldUnion([a], [b]);
      FoldUnion(if EqualFold(a, b) then [a] else [a, b], []);
    }
  }

  /** Two strings that differ only in case: the second is dropped, and a ceiling
      that covers the first does not speak for it. */
  lemma CaseVariantSlips(a: string, b: string)
    requires EqualFold(a, b) && !Grants(a, b)
    ensures FoldUnion([], [a, b]) == [a]
    ensures WithinCeiling(FoldUnion([], [a, b]), [a]) && !WithinCeiling([a, b], [a])
  {
    FoldTwo(a, b);
    assert a in [a] && Grants(a, a);
    assert b in [a, b] && !EnsurePermission([a], b);
  }

  lemma CaseVariantsExist()
    ensures EqualFold("hubs:read", "Hubs:read") && !Grants("hubs:read", "Hubs:read")
  {
    var a, b := "hubs:read", "Hubs:read";
    assert b[0] == 'H' && a[0] == 'h';
    assert a[|a| - 1] == 'd' && a[|a| - 2..][1] == 'd';
  }
}
