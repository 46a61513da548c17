/** Byte strings and the text normalisation the store shares with its callers.
    A Go string and a byte slice are both modelled as a seq<char> with one char
    per byte; folding and trimming are the ASCII ones. */
module Text {
  datatype Option<+T> = None | Some(value: T)

  predicate IsSpace(c: char) {
    c in {' ', '\t', '\n', '\r', '\U{0B}', '\U{0C}'}
  }

  function TrimLeft(s: string): (r: string)
    ensures |r| <= |s|
    ensures r == [] || !IsSpace(r[0])
  {
    if s != [] && IsSpace(s[0]) then TrimLeft(s[1..]) else s
  }

  function TrimRight(s: string): (r: string)
    ensures r <= s
    ensures r == [] || !IsSpace(r[|r| - 1])
  {
    if s != [] && IsSpace(s[|s| - 1]) then TrimRight(s[..|s| - 1]) else s
  }

  function TrimSpace(s: string): string {
    TrimRight(TrimLeft(s))
  }

  function TrimSlashes(s: string): (r: string)
    ensures r <= s
    ensures r == [] || r[|r| - 1] != '/'
  {
    if s != [] && s[|s| - 1] == '/' then TrimSlashes(s[..|s| - 1]) else s
  }

  /** The authority a stored URL names: what both the credential generation and
      the credential binding compare. */
  function Authority(url: string): string {
    TrimSlashes(TrimSpace(url))
  }

  function LowerChar(c: char): char {
    if 'A' <= c <= 'Z' then c + ('a' - 'A') else c
  }

  function Lower(s: string): (r: string)
    ensures |r| == |s|
    ensures forall i :: 0 <= i < |s| ==> r[i] == LowerChar(s[i])
  {
    if s == [] then [] else [LowerChar(s[0])] + Lower(s[1..])
  }

  predicate EqualFold(a: string, b: string) {
    Lower(a) == Lower(b)
  }

  // ---------- what normalisation means ----------

  predicate BlankChar(c: char) {
    c == ' ' || '\t' <= c <= '\r'
  }

  predicate Blank(s: string) {
    forall i :: 0 <= i < |s| ==> BlankChar(s[i])
  }

  lemma {:induction false} TrimLeftIs(s: string) returns (before: string)
    ensures s == before + TrimLeft(s) && Blank(before)
  {
    before := "";
    if s != [] && IsSpace(s[0]) {
      var rest := TrimLeftIs(s[1..]);
      before := [s[0]] + rest;
    }
  }

  lemma {:induction false} TrimRightIs(s: string) returns (after: string)
    ensures s == TrimRight(s) + after && Blank(after)
  {
    after := "";
    if s != [] && IsSpace(s[|s| - 1]) {
      var front := TrimRightIs(s[..|s| - 1]);
      after := front + [s[|s| - 1]];
    }
  }

  /** Trimming takes blanks off both ends, all of them, and nothing else. */
  lemma TrimSpaceIs(s: string) returns (before: string, after: string)
    ensures var r := TrimSpace(s);
            && s == before + r + after && Blank(before) && Blank(after)
            && (r != "" ==> !BlankChar(r[0]) && !BlankChar(r[|r| - 1]))
  {
    before := TrimLeftIs(s);
    after := TrimRightIs(TrimLeft(s));
  }

  lemma {:induction false} TrimSlashesIs(s: string) returns (after: string)
    ensures s == TrimSlashes(s) + after && forall c | c in after :: c == '/'
  {
    after := "";
    if s != [] && s[|s| - 1] == '/' {
      var front := TrimSlashesIs(s[..|s| - 1]);
      after := front + [s[|s| - 1]];
    }
  }

  /** Folding sets the case of ASCII letters aside and nothing else. */
  lemma EqualFoldIs(a: string, b: string)
    ensures EqualFold(a, b)
            <==> |a| == |b| && forall i | 0 <= i < |a| ::
              || a[i] == b[i]
              || ('a' <= a[i] <= 'z' && b[i] as int == a[i] as int - 32)
              || ('A' <= a[i] <= 'Z' && b[i] as int == a[i] as int + 32)
  {
    if |a| == |b| {
      forall i | 0 <= i < |a|
        ensures LowerChar(a[i]) == LowerChar(b[i])
                <==> || a[i] == b[i]
                     || ('a' <= a[i] <= 'z' && b[i] as int == a[i] as int - 32)
                     || ('A' <= a[i] <= 'Z' && b[i] as int == a[i] as int + 32)
      {
      }
      if forall i | 0 <= i < |a| :: LowerChar(a[i]) == LowerChar(b[i]) {
        assert Lower(a) == Lower(b);
      } else {
        var i :| 0 <= i < |a| && LowerChar(a[i]) != LowerChar(b[i]);
        assert Lower(a)[i] != Lower(b)[i];
      }
    }
  }
}
