/** Role bindings as a request states them, and the form they are stored in. */
module Scopes {
  import opened Text
  import Codec

  datatype Clause = Clause(kind: string, value: string)
  datatype BindingInput = BindingInput(roleId: int, mode: string, scopes: seq<Clause>)
  datatype Bound = Bound(roleId: int, global: bool, scopes: seq<Clause>)

  const INT64_END: int := 0x8000_0000_0000_0000

  // ---------- one clause ----------

  predicate AllDigits(s: string) {
    s != "" && forall i :: 0 <= i < |s| ==> '0' <= s[i] <= '9'
  }

  /** strconv.ParseInt of the trimmed text, positive values only; a leading "-"
      never gives one. */
  function ParseHubScope(value: string): (r: Option<int>)
    ensures r.Some? ==> 0 < r.value < INT64_END
  {
    var trimmed := TrimSpace(value);
    var digits := if trimmed != "" && trimmed[0] == '+' then trimmed[1..] else trimmed;
    if AllDigits(digits) && 0 < Codec.ValueOfDigits(digits) < INT64_END then Some(Codec.ValueOfDigits(digits)) else None
  }

  function CanonicalClause(c: Clause): Option<Clause> {
    var kind, value := TrimSpace(c.kind), TrimSpace(c.value);
    if kind == "hub" then
      match ParseHubScope(value)
      case None => None
      case Some(id) => Some(Clause(kind, Codec.Decimal(id)))
    else if kind == "department" && value != "" && |value| <= 256 then Some(Clause(kind, value))
    else None
  }

  lemma TrimSpaceKeeps(s: string)
    requires s == "" || (!IsSpace(s[0]) && !IsSpace(s[|s| - 1]))
    ensures TrimSpace(s) == s
  {
  }

  lemma TrimSpaceSettles(s: string)
    ensures TrimSpace(TrimSpace(s)) == TrimSpace(s)
  {
    var t := TrimSpace(s);
    if t != "" {
      assert t[0] == TrimLeft(s)[0];
    }
    TrimSpaceKeeps(t);
  }

  lemma HubScopeRoundTrip(id: int)
    requires 0 < id < INT64_END
    ensures ParseHubScope(Codec.Decimal(id)) == Some(id)
  {
    var text := Codec.Decimal(id);
    TrimSpaceKeeps(text);
    Codec.DigitsInvert(id);
  }

  // ---------- what is read ----------

  predicate Zeros(s: string) {
    forall i :: 0 <= i < |s| ==> s[i] == '0'
  }

  lemma {:induction false} ValueIsPositive(s: string)
    requires s == "" || AllDigits(s)
    ensures Codec.ValueOfDigits(s) >= 0
    ensures Codec.ValueOfDigits(s) == 0 <==> Zeros(s)
  {
    if s != "" {
      ValueIsPositive(s[..|s| - 1]);
    }
  }

  /** Digits are the decimal text of their value, behind zeros. */
  lemma {:induction false} DigitsAre(s: string) returns (zeros: string)
    requires AllDigits(s) && Codec.ValueOfDigits(s) > 0
    ensures Zeros(zeros) && s == zeros + Codec.DigitsOf(Codec.ValueOfDigits(s))
  {
    var front, last := s[..|s| - 1], s[|s| - 1];
    ValueIsPositive(front);
    var n := Codec.ValueOfDigits(s);
    if Codec.ValueOfDigits(front) == 0 {
      zeros := front;
    } else {
      zeros := DigitsAre(front);
      assert n / 10 == Codec.ValueOfDigits(front) && n % 10 == last as int - '0' as int;
      assert ['0' + (n % 10) as char] == [last];
    }
    assert s == front + [last];
  }

  lemma {:induction false} ZerosAddNothing(zeros: string, n: nat)
    requires Zeros(zeros)
    ensures Codec.ValueOfDigits(zeros + Codec.DigitsOf(n)) == n
    decreases n
  {
    var d := Codec.DigitsOf(n);
    assert (zeros + d)[..|zeros + d| - 1] == zeros + d[..|d| - 1];
    if n < 10 {
      assert zeros + d[..|d| - 1] == zeros;
      ValueOfZeros(zeros);
    } else {
      ZerosAddNothing(zeros, n / 10);
      assert d[..|d| - 1] == Codec.DigitsOf(n / 10);
    }
  }

  lemma {:induction false} ValueOfZeros(zeros: string)
    requires Zeros(zeros)
    ensures Codec.ValueOfDigits(zeros) == 0
  {
    if zeros != "" {
      ValueOfZeros(zeros[..|zeros| - 1]);
    }
  }

  /** The digits of id, possibly behind zeros and a plus. */
  predicate Spells(text: string, plus: string, zeros: string, id: int) {
    (plus == "" || plus == "+") && Zeros(zeros) && text == plus + zeros + Codec.Decimal(id)
  }

  /** The text behind a plus, if there is one. */
  function Unsigned(text: string): string {
    if text != "" && text[0] == '+' then text[1..] else text
  }

  lemma ParsesDigits(value: string)
    ensures var digits := Unsigned(TrimSpace(value));
            ParseHubScope(value)
            == if AllDigits(digits) && 0 < Codec.ValueOfDigits(digits) < INT64_END
               then Some(Codec.ValueOfDigits(digits)) else None
  {
  }

  lemma UnsignedSpells(text: string, plus: string, zeros: string, id: int)
    requires Spells(text, plus, zeros, id) && id > 0
    ensures Unsigned(text) == zeros + Codec.DigitsOf(id) && AllDigits(zeros + Codec.DigitsOf(id))
  {
    var digits := zeros + Codec.DigitsOf(id);
    assert text == plus + digits;
    assert digits != "" && digits[0] != '+';
  }

  lemma SpellsUnsigned(text: string, zeros: string, id: int)
    requires id > 0 && Zeros(zeros) && Unsigned(text) == zeros + Codec.DigitsOf(id)
    ensures Spells(text, if text != "" && text[0] == '+' then "+" else "", zeros, id)
  {
    var plus := if text != "" && text[0] == '+' then "+" else "";
    assert text == plus + Unsigned(text);
    assert plus + (zeros + Codec.DigitsOf(id)) == plus + zeros + Codec.DigitsOf(id);
  }

  /** Hub text reads as id exactly when, blanks aside, it spells it. */
  lemma ParseExactly(value: string, id: int)
    ensures ParseHubScope(value) == Some(id)
            <==> && 0 < id < 0x8000_0000_0000_0000
                 && exists plus: string, zeros: string :: Spells(TrimSpace(value), plus, zeros, id)
  {
    var text := TrimSpace(value);
    ParsesDigits(value);
    if ParseHubScope(value) == Some(id) {
      var zeros := DigitsAre(Unsigned(text));
      SpellsUnsigned(text, zeros, id);
    }
    if plus: string, zeros: string :| Spells(text, plus, zeros, id) && 0 < id < INT64_END {
      UnsignedSpells(text, plus, zeros, id);
      ZerosAddNothing(zeros, id);
    }
  }

  /** A clause is stored exactly as a Hub's id in decimal, or as a trimmed
      department of at most 256 bytes. */
  lemma ClauseExactly(c: Clause, d: Clause)
    ensures CanonicalClause(c) == Some(d)
            <==> || (TrimSpace(c.kind) == "hub"
                     && exists id :: ParseHubScope(c.value) == Some(id) && d == Clause("hub", Codec.Decimal(id)))
                 || (TrimSpace(c.kind) == "department" && 1 <= |TrimSpace(c.value)| <= 256
                     && d == Clause("department", TrimSpace(c.value)))
  {
    TrimSpaceSettles(c.value);
  }

  /** What is stored normalises to itself: saving a stored binding again
      changes nothing. */
  lemma CanonicalSettles(c: Clause)
    requires CanonicalClause(c).Some?
    ensures CanonicalClause(CanonicalClause(c).value) == CanonicalClause(c)
  {
    var kind, value := TrimSpace(c.kind), TrimSpace(c.value);
    TrimSpaceSettles(c.kind);
    TrimSpaceSettles(c.value);
    if kind == "hub" {
      var id := ParseHubScope(value).value;
      HubScopeRoundTrip(id);
      TrimSpaceKeeps(Codec.Decimal(id));
    }
  }

  // ---------- lists ----------

  predicate SameClause(a: Clause, b: Clause) {
    a.kind == b.kind && EqualFold(a.value, b.value)
  }

  predicate Distinct(scopes: seq<Clause>) {
    forall i, j :: 0 <= i < j < |scopes| ==> !SameClause(scopes[i], scopes[j])
  }

  predicate AllCanonical(scopes: seq<Clause>) {
    forall c | c in scopes :: CanonicalClause(c).Some?
  }

  function CanonicalScopes(scopes: seq<Clause>): (r: seq<Clause>)
    requires AllCanonical(scopes)
    ensures |r| == |scopes|
    ensures forall i :: 0 <= i < |r| ==> CanonicalClause(scopes[i]) == Some(r[i])
  {
    if scopes == [] then [] else CanonicalScopes(scopes[..|scopes| - 1]) + [CanonicalClause(scopes[|scopes| - 1]).value]
  }

  predicate ScopesOk(scopes: seq<Clause>) {
    AllCanonical(scopes) && Distinct(CanonicalScopes(scopes))
  }

  predicate BindingOk(input: BindingInput) {
    var mode := TrimSpace(input.mode);
    && input.roleId > 0
    && (mode == "global" || mode == "restricted")
    && (mode == "global" <==> input.scopes == [])
    && |input.scopes| <= 128
    && ScopesOk(input.scopes)
  }

  predicate BindingsOk(inputs: seq<BindingInput>) {
    && (forall input | input in inputs :: BindingOk(input))
    && forall i, j :: 0 <= i < j < |inputs| ==> inputs[i].roleId != inputs[j].roleId
  }

  function Normal(input: BindingInput): Bound
    requires BindingOk(input)
  {
    Bound(input.roleId, TrimSpace(input.mode) == "global", CanonicalScopes(input.scopes))
  }

  function NormalBindings(inputs: seq<BindingInput>): (r: seq<Bound>)
    requires BindingsOk(inputs)
    ensures |r| == |inputs| && forall i :: 0 <= i < |r| ==> r[i] == Normal(inputs[i])
  {
    seq(|inputs|, i requires 0 <= i < |inputs| => Normal(inputs[i]))
  }

  function AsInput(b: Bound): BindingInput {
    BindingInput(b.roleId, if b.global then "global" else "restricted", b.scopes)
  }

  /** A stored binding sent back unchanged is accepted and stored as it was. */
  lemma NormalSettles(input: BindingInput)
    requires BindingOk(input)
    ensures BindingOk(AsInput(Normal(input))) && Normal(AsInput(Normal(input))) == Normal(input)
  {
    StoredScopesSettle(input.scopes);
    TrimSpaceKeeps("global");
    TrimSpaceKeeps("restricted");
    BindingDecides(input);
    BindingDecides(AsInput(Normal(input)));
  }

  lemma StoredScopesSettle(scopes: seq<Clause>)
    requires ScopesOk(scopes)
    ensures ScopesOk(CanonicalScopes(scopes)) && CanonicalScopes(CanonicalScopes(scopes)) == CanonicalScopes(scopes)
  {
    var stored := CanonicalScopes(scopes);
    forall i | 0 <= i < |stored|
      ensures CanonicalClause(stored[i]) == Some(stored[i])
    {
      CanonicalSettles(scopes[i]);
    }
    assert AllCanonical(stored);
    assert CanonicalScopes(stored) == stored;
  }

  // ---------- the loops of normalizeRoleBindings ----------

  function ClauseKey(c: Clause): (string, string) {
    (c.kind, Lower(c.value))
  }

  lemma CanonicalPrefix(scopes: seq<Clause>, i: nat)
    requires i <= |scopes| && AllCanonical(scopes)
    ensures AllCanonical(scopes[..i]) && CanonicalScopes(scopes[..i]) == CanonicalScopes(scopes)[..i]
  {
    var front, all := CanonicalScopes(scopes[..i]), CanonicalScopes(scopes);
    forall j | 0 <= j < i
      ensures front[j] == all[j]
    {
      assert CanonicalClause(scopes[..i][j]) == CanonicalClause(scopes[j]);
    }
  }

  lemma OneMore(scopes: seq<Clause>, i: nat, clause: Clause)
    requires i < |scopes| && AllCanonical(scopes[..i]) && CanonicalClause(scopes[i]) == Some(clause)
    ensures AllCanonical(scopes[..i + 1]) && CanonicalScopes(scopes[..i + 1]) == CanonicalScopes(scopes[..i]) + [clause]
  {
    assert scopes[..i + 1] == scopes[..i] + [scopes[i]];
  }

  lemma RepeatRefuses(scopes: seq<Clause>, i: nat, j: nat)
    requires j < i < |scopes| && AllCanonical(scopes[..i + 1])
    requires SameClause(CanonicalScopes(scopes[..i + 1])[j], CanonicalScopes(scopes[..i + 1])[i])
    ensures !ScopesOk(scopes)
  {
    if AllCanonical(scopes) {
      CanonicalPrefix(scopes, i + 1);
    }
  }

  lemma UnreadableRefuses(scopes: seq<Clause>, i: nat)
    requires i < |scopes| && CanonicalClause(scopes[i]).None?
    ensures !ScopesOk(scopes)
  {
    assert scopes[i] in scopes;
  }

  predicate Seen(seen: set<(string, string)>, kept: seq<Clause>) {
    (forall c | c in kept :: ClauseKey(c) in seen) && forall k | k in seen :: exists c | c in kept :: ClauseKey(c) == k
  }

  lemma SeenGrows(seen: set<(string, string)>, kept: seq<Clause>, clause: Clause)
    requires Seen(seen, kept) && Distinct(kept) && ClauseKey(clause) !in seen
    ensures Seen(seen + {ClauseKey(clause)}, kept + [clause]) && Distinct(kept + [clause])
  {
    forall k | k in seen + {ClauseKey(clause)}
      ensures exists c | c in kept + [clause] :: ClauseKey(c) == k
    {
      if k == ClauseKey(clause) {
        assert clause in kept + [clause];
      } else {
        var c :| c in kept && ClauseKey(c) == k;
        assert c in kept + [clause];
      }
    }
    forall j | 0 <= j < |kept| ensures !SameClause(kept[j], clause) {
      assert kept[j] in kept;
    }
  }

  method NormalizeScopes(scopes: seq<Clause>) returns (normalized: Option<seq<Clause>>)
    ensures normalized == if ScopesOk(scopes) then Some(CanonicalScopes(scopes)) else None
  {
    var kept: seq<Clause> := [];
    var seen: set<(string, string)> := {};
    for i := 0 to |scopes|
      invariant AllCanonical(scopes[..i]) && kept == CanonicalScopes(scopes[..i])
      invariant Distinct(kept) && Seen(seen, kept)
    {
      var clause := CanonicalClause(scopes[i]);
      if clause.None? {
        UnreadableRefuses(scopes, i);
        return None;
      }
      OneMore(scopes, i, clause.value);
      if ClauseKey(clause.value) in seen {
        ghost var j := Earlier(seen, kept, ClauseKey(clause.value));
        RepeatRefuses(scopes, i, j);
        return None;
      }
      SeenGrows(seen, kept, clause.value);
      seen := seen + {ClauseKey(clause.value)};
      kept := kept + [clause.value];
    }
    assert scopes[..|scopes|] == scopes;
    normalized := Some(kept);
  }

  lemma Earlier(seen: set<(string, string)>, kept: seq<Clause>, key: (string, string)) returns (j: nat)
    requires Seen(seen, kept) && key in seen
    ensures j < |kept| && ClauseKey(kept[j]) == key
  {
    var c :| c in kept && ClauseKey(c) == key;
    j :| j < |kept| && kept[j] == c;
  }

  lemma BindingDecides(input: BindingInput)
    ensures BindingOk(input) <==>
              && input.roleId > 0 && (TrimSpace(input.mode) == "global" || TrimSpace(input.mode) == "restricted")
              && !((TrimSpace(input.mode) == "global" && |input.scopes| > 0) || |input.scopes| > 128)
              && ScopesOk(input.scopes) && !(TrimSpace(input.mode) == "restricted" && |input.scopes| == 0)
  {
    assert "global" != "restricted" by { assert |"global"| == 6; }
  }

  method NormalizeBinding(input: BindingInput) returns (bound: Option<Bound>)
    ensures bound == if BindingOk(input) then Some(Normal(input)) else None
  {
    BindingDecides(input);
    var mode := TrimSpace(input.mode);
    if input.roleId <= 0 || (mode != "global" && mode != "restricted") {
      return None;
    }
    if (mode == "global" && |input.scopes| > 0) || |input.scopes| > 128 {
      return None;
    }
    var scopes := NormalizeScopes(input.scopes);
    if scopes.None? || (mode == "restricted" && |scopes.value| == 0) {
      return None;
    }
    bound := Some(Bound(input.roleId, mode == "global", scopes.value));
  }

  predicate NewRole(inputs: seq<BindingInput>, i: nat)
    requires i < |inputs|
  {
    forall j :: 0 <= j < i ==> inputs[j].roleId != inputs[i].roleId
  }

  lemma OneMoreBinding(inputs: seq<BindingInput>, i: nat)
    requires i < |inputs| && BindingsOk(inputs[..i])
    ensures BindingsOk(inputs[..i + 1]) <==> BindingOk(inputs[i]) && NewRole(inputs, i)
    ensures BindingOk(inputs[i]) && NewRole(inputs, i) ==>
              NormalBindings(inputs[..i + 1]) == NormalBindings(inputs[..i]) + [Normal(inputs[i])]
  {
    assert inputs[..i + 1] == inputs[..i] + [inputs[i]];
    if BindingsOk(inputs[..i + 1]) {
      assert inputs[i] in inputs[..i + 1];
      forall j | 0 <= j < i ensures inputs[j].roleId != inputs[i].roleId {
        assert inputs[..i + 1][j] == inputs[j] && inputs[..i + 1][i] == inputs[i];
      }
    }
  }

  lemma PrefixOk(inputs: seq<BindingInput>, i: nat)
    requires i <= |inputs|
    ensures BindingsOk(inputs) ==> BindingsOk(inputs[..i])
  {
    assert forall input | input in inputs[..i] :: input in inputs;
  }

  /** What the loop knows after i bindings. */
  ghost predicate Read(inputs: seq<BindingInput>, i: nat, kept: seq<Bound>, seenRoles: set<int>)
    requires i <= |inputs|
  {
    && BindingsOk(inputs[..i]) && kept == NormalBindings(inputs[..i])
    && forall id :: id in seenRoles <==> exists j :: 0 <= j < i && inputs[j].roleId == id
  }

  lemma ReadMore(inputs: seq<BindingInput>, i: nat, kept: seq<Bound>, seenRoles: set<int>)
    requires i < |inputs| && Read(inputs, i, kept, seenRoles)
    requires inputs[i].roleId !in seenRoles && BindingOk(inputs[i])
    ensures Read(inputs, i + 1, kept + [Normal(inputs[i])], seenRoles + {inputs[i].roleId})
  {
    assert NewRole(inputs, i);
    OneMoreBinding(inputs, i);
  }

  lemma ReadStops(inputs: seq<BindingInput>, i: nat, kept: seq<Bound>, seenRoles: set<int>)
    requires i < |inputs| && Read(inputs, i, kept, seenRoles)
    requires inputs[i].roleId in seenRoles || !BindingOk(inputs[i])
    ensures !BindingsOk(inputs)
  {
    OneMoreBinding(inputs, i);
    PrefixOk(inputs, i + 1);
  }

  lemma ReadAll(inputs: seq<BindingInput>, kept: seq<Bound>, seenRoles: set<int>)
    requires Read(inputs, |inputs|, kept, seenRoles)
    ensures BindingsOk(inputs) && kept == NormalBindings(inputs)
  {
    assert inputs[..|inputs|] == inputs;
  }

  method NormalizeRoleBindings(inputs: seq<BindingInput>) returns (normalized: Option<seq<Bound>>)
    ensures normalized == if BindingsOk(inputs) then Some(NormalBindings(inputs)) else None
  {
    var kept: seq<Bound> := [];
    var seenRoles: set<int> := {};
    for i := 0 to |inputs|
      invariant Read(inputs, i, kept, seenRoles)
    {
      var bound := NormalizeBinding(inputs[i]);
      if inputs[i].roleId in seenRoles || bound.None? {
        ReadStops(inputs, i, kept, seenRoles);
        return None;
      }
      ReadMore(inputs, i, kept, seenRoles);
      seenRoles := seenRoles + {inputs[i].roleId};
      kept := kept + [bound.value];
    }
    ReadAll(inputs, kept, seenRoles);
    normalized := Some(kept);
  }
}
