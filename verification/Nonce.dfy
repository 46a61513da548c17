/** The nonce rewriter: every script tag of a pasted snippet gets the page's
    nonce unless it has one. Text is ASCII. */
module Nonce {
  import opened Text

  const OPEN: string := "<script"
  const MARK: string := "nonce="

  // ---------- the inserted attribute ----------

  function EscapeChar(c: char): string {
    if c == '<' then "&lt;" else if c == '>' then "&gt;" else if c == '&' then "&amp;"
    else if c == '"' then "&#34;" else if c == '\'' then "&#39;" else [c]
  }

  /** html.EscapeString: what it returns can neither open nor close a tag, nor
      end the quoted value. */
  function Escape(s: string): (r: string)
    ensures forall c | c in r :: c != '<' && c != '>' && c != '"'
  {
    if s == "" then "" else EscapeChar(s[0]) + Escape(s[1..])
  }

  /** How a browser reads the five entities back. */
  function Unescape(s: string): string
    decreases |s|
  {
    if s == "" then ""
    else if "&lt;" <= s then "<" + Unescape(s[4..])
    else if "&gt;" <= s then ">" + Unescape(s[4..])
    else if "&amp;" <= s then "&" + Unescape(s[5..])
    else if "&#34;" <= s then "\"" + Unescape(s[5..])
    else if "&#39;" <= s then "'" + Unescape(s[5..])
    else [s[0]] + Unescape(s[1..])
  }

  lemma UnescapeOne(c: char, rest: string)
    ensures Unescape(EscapeChar(c) + rest) == [c] + Unescape(rest)
  {
    var s := EscapeChar(c) + rest;
    if |EscapeChar(c)| == 1 {
      assert s[0] == c && s[1..] == rest && c != '&';
      assert "&lt;"[0] == "&gt;"[0] == "&amp;"[0] == "&#34;"[0] == "&#39;"[0] == '&';
    } else {
      assert s[|EscapeChar(c)|..] == rest && EscapeChar(c) <= s;
      assert "&lt;"[1] == 'l' && "&gt;"[1] == 'g' && "&amp;"[1] == 'a' && "&#34;"[3] == '4' && "&#39;"[3] == '9';
      assert s[1] == EscapeChar(c)[1] && s[3] == EscapeChar(c)[3];
    }
  }

  /** The browser reads the nonce that was given. */
  lemma {:induction false} EscapeInverts(nonce: string)
    ensures Unescape(Escape(nonce)) == nonce
  {
    if nonce != "" {
      EscapeInverts(nonce[1..]);
      UnescapeOne(nonce[0], Escape(nonce[1..]));
    }
  }

  function Attribute(nonce: string): string {
    " nonce=\"" + Escape(nonce) + "\""
  }

  /** The attribute's quoted value is the nonce as given, and ends where it should. */
  lemma AttributeGivesTheNonce(nonce: string)
    ensures var a := Attribute(nonce);
            && |a| >= 9 && a[..8] == " nonce=\"" && a[|a| - 1] == '"'
            && '"' !in a[8..|a| - 1] && Unescape(a[8..|a| - 1]) == nonce
  {
    EscapeInverts(nonce);
    assert Attribute(nonce)[8..|Attribute(nonce)| - 1] == Escape(nonce);
  }

  // ---------- tags ----------

  predicate Opens(s: string) {
    |s| >= 7 && Lower(s[..7]) == OPEN
  }

  predicate Marks(s: string) {
    |s| >= 6 && Lower(s[..6]) == MARK
  }

  /** The text of a tag: up to its ">". */
  function TagOf(s: string): (r: string)
    ensures r <= s
  {
    if s == "" || s[0] == '>' then "" else [s[0]] + TagOf(s[1..])
  }

  predicate Marked(s: string) {
    s != "" && (Marks(s) || Marked(s[1..]))
  }

  /** "nonce=" comes before the next ">". */
  predicate HasNonce(rest: string) {
    Marked(TagOf(rest))
  }

  /** Every "<script" has "nonce=" before its next ">". */
  predicate AllTagged(s: string) {
    forall i | 0 <= i < |s| && Opens(s[i..]) :: HasNonce(s[i + 7..])
  }

  // ---------- the rewriting ----------

  function Weave(s: string, attribute: string): string {
    if s == "" then ""
    else if Opens(s) then s[..7] + (if HasNonce(s[7..]) then "" else attribute) + Weave(s[7..], attribute)
    else [s[0]] + Weave(s[1..], attribute)
  }

  function WithNonce(snippet: string, nonce: string): string {
    if nonce == "" || snippet == "" then snippet else Weave(snippet, Attribute(nonce))
  }

  // ---------- facts about the two patterns ----------

  lemma LowerAt(s: string, pattern: string, i: nat)
    requires i < |pattern| == |s| && Lower(s) == pattern
    requires !('A' <= pattern[i] <= 'Z')
    ensures !('a' <= pattern[i] <= 'z') ==> s[i] == pattern[i]
    ensures 'a' <= pattern[i] <= 'z' ==> s[i] != '<' && s[i] != '>'
  {
    assert Lower(s)[i] == LowerChar(s[i]);
  }

  lemma OpensShape(s: string)
    requires Opens(s)
    ensures s[0] == '<'
    ensures forall i | 1 <= i < 7 :: s[i] != '<' && s[i] != '>'
    ensures forall i | 0 <= i < 7 :: s[i] != 'n' && s[i] != 'N'
  {
    assert OPEN[0] == '<' && OPEN[1] == 's' && OPEN[2] == 'c' && OPEN[3] == 'r' && OPEN[4] == 'i' && OPEN[5] == 'p'
        && OPEN[6] == 't';
    LowerAt(s[..7], OPEN, 0);
    forall i | 0 <= i < 7
      ensures i > 0 ==> s[i] != '<' && s[i] != '>'
      ensures s[i] != 'n' && s[i] != 'N'
    {
      LowerAt(s[..7], OPEN, i);
      assert Lower(s[..7])[i] == LowerChar(s[i]);
    }
  }

  lemma MarksShape(s: string)
    requires Marks(s)
    ensures forall i | 0 <= i < 6 :: s[i] != '<' && s[i] != '>'
    ensures s[0] == 'n' || s[0] == 'N'
  {
    assert MARK[0] == 'n' && MARK[1] == 'o' && MARK[2] == 'n' && MARK[3] == 'c' && MARK[4] == 'e' && MARK[5] == '=';
    forall i | 0 <= i < 6 ensures s[i] != '<' && s[i] != '>' {
      LowerAt(s[..6], MARK, i);
    }
    assert Lower(s[..6])[0] == LowerChar(s[0]);
  }

  /** The mark never starts inside "<script". */
  lemma OpenIsUnmarked(s: string, i: nat)
    requires Opens(s) && i < 7
    ensures !Marks(s[i..])
  {
    OpensShape(s);
    if Marks(s[i..]) {
      MarksShape(s[i..]);
      assert false;
    }
  }

  // ---------- HasNonce, one character at a time ----------

  lemma {:induction false} MarkSurvivesTag(s: string)
    requires Marks(s)
    ensures Marks(TagOf(s))
  {
    MarksShape(s);
    TagKeeps(s, 6);
    assert TagOf(s)[..6] == s[..6];
  }

  lemma {:induction false} TagKeeps(s: string, n: nat)
    requires n <= |s| && forall i | 0 <= i < n :: s[i] != '>'
    ensures n <= |TagOf(s)| && TagOf(s)[..n] == s[..n]
    decreases n
  {
    if n > 0 {
      TagKeeps(s[1..], n - 1);
      assert s[..n] == [s[0]] + s[1..][..n - 1];
    }
  }

  lemma HasNonceStep(s: string)
    ensures HasNonce(s) <==> s != "" && s[0] != '>' && (Marks(s) || HasNonce(s[1..]))
  {
    if s != "" && s[0] != '>' {
      var tag := TagOf(s);
      assert tag[1..] == TagOf(s[1..]);
      if Marks(s) {
        MarkSurvivesTag(s);
      }
      if Marks(tag) {
        assert tag[..6] == s[..6];
      }
    }
  }

  lemma {:induction false} HasNonceSkips(s: string, n: nat)
    requires n <= |s| && (forall i | 0 <= i < n :: s[i] != '>') && (forall i | 0 <= i < n :: !Marks(s[i..]))
    ensures HasNonce(s) <==> HasNonce(s[n..])
    decreases n
  {
    if n > 0 {
      HasNonceStep(s);
      assert s[0..] == s;
      forall i | 0 <= i < n - 1 ensures !Marks(s[1..][i..]) {
        assert s[1..][i..] == s[i + 1..];
      }
      HasNonceSkips(s[1..], n - 1);
      assert s[1..][n - 1..] == s[n..];
    }
  }

  lemma HasNonceAfterOpen(s: string)
    requires Opens(s)
    ensures HasNonce(s) <==> HasNonce(s[7..])
  {
    OpensShape(s);
    forall i | 0 <= i < 7 ensures !Marks(s[i..]) {
      OpenIsUnmarked(s, i);
    }
    HasNonceSkips(s, 7);
  }

  lemma AttributeHasNonce(nonce: string, rest: string)
    ensures HasNonce(Attribute(nonce) + rest)
  {
    var text := Attribute(nonce) + rest;
    HasNonceStep(text);
    HasNonceStep(text[1..]);
    assert text[1..][..6] == MARK;
    assert Lower(MARK) == MARK;
  }

  // ---------- what the rewriting keeps ----------

  lemma OpenKept(s: string, attribute: string)
    ensures Opens(s) ==> |Weave(s, attribute)| >= 7 && Weave(s, attribute)[..7] == s[..7] && s[0] == '<'
                         && Weave(s, attribute)[0] == '<'
  {
    if Opens(s) {
      OpensShape(s);
      assert Weave(s, attribute)[0] == Weave(s, attribute)[..7][0];
    }
  }

  /** Up to the first "<" nothing changes, and nothing else looks unchanged. */
  lemma {:induction false} SamePrefix(s: string, attribute: string, n: nat)
    requires (n <= |s| && forall i | 0 <= i < n :: s[i] != '<')
             || (n <= |Weave(s, attribute)| && forall i | 0 <= i < n :: Weave(s, attribute)[i] != '<')
    ensures n <= |s| && n <= |Weave(s, attribute)| && Weave(s, attribute)[..n] == s[..n]
    decreases n
  {
    if n > 0 {
      OpenKept(s, attribute);
      assert s != "" && !Opens(s);
      var rest := Weave(s[1..], attribute);
      assert Weave(s, attribute) == [s[0]] + rest;
      assert forall i | 0 <= i < n - 1 && i < |rest| :: Weave(s, attribute)[i + 1] == rest[i];
      SamePrefix(s[1..], attribute, n - 1);
      assert s[..n] == [s[0]] + s[1..][..n - 1];
      assert Weave(s, attribute)[..n] == [s[0]] + rest[..n - 1];
    }
  }

  lemma OpenedBefore(c: char, rest: string, attribute: string)
    requires Opens([c] + Weave(rest, attribute))
    ensures Opens([c] + rest)
  {
    var woven := Weave(rest, attribute);
    var out := [c] + woven;
    OpensShape(out);
    assert forall i | 0 <= i < 6 :: woven[i] == out[i + 1];
    SamePrefix(rest, attribute, 6);
    assert out[..7] == [c] + woven[..6];
    assert ([c] + rest)[..7] == [c] + rest[..6];
  }

  /** A character that opens no tag before opens none after. */
  lemma StillClosed(s: string, attribute: string)
    requires s != "" && !Opens(s)
    ensures !Opens([s[0]] + Weave(s[1..], attribute))
  {
    assert [s[0]] + s[1..] == s;
    if Opens([s[0]] + Weave(s[1..], attribute)) {
      OpenedBefore(s[0], s[1..], attribute);
    }
  }

  lemma WeaveCases(s: string, attribute: string)
    requires s != ""
    ensures !Opens(s) ==> Weave(s, attribute) == [s[0]] + Weave(s[1..], attribute)
    ensures Opens(s) && HasNonce(s[7..]) ==> Weave(s, attribute) == s[..7] + Weave(s[7..], attribute)
    ensures Opens(s) && !HasNonce(s[7..]) ==> Weave(s, attribute) == s[..7] + attribute + Weave(s[7..], attribute)
    ensures Opens(s) ==> Opens(s[..7])
  {
    if Opens(s) {
      assert s[..7][..7] == s[..7];
      assert s[..7] + "" == s[..7];
    }
  }

  /** A tag that had a nonce still has it. */
  lemma {:induction false} NonceKept(s: string, nonce: string)
    requires HasNonce(s)
    ensures HasNonce(Weave(s, Attribute(nonce)))
    decreases |s|
  {
    var out := Weave(s, Attribute(nonce));
    HasNonceStep(s);
    WeaveCases(s, Attribute(nonce));
    if Opens(s) {
      HasNonceAfterOpen(s);
      NonceKept(s[7..], nonce);
      OpenedAgain(s[..7], Weave(s[7..], Attribute(nonce)));
    } else {
      HasNonceStep(out);
      if Marks(s) {
        MarksShape(s);
        SamePrefix(s, Attribute(nonce), 6);
      } else {
        NonceKept(s[1..], nonce);
        assert out[1..] == Weave(s[1..], Attribute(nonce));
      }
    }
  }

  lemma OpenedAgain(open: string, rest: string)
    requires |open| == 7 && Opens(open)
    ensures Opens(open + rest)
    ensures HasNonce(rest) ==> HasNonce(open + rest)
  {
    assert (open + rest)[..7] == open && open[..7] == open;
    HasNonceAfterOpen(open + rest);
    assert (open + rest)[7..] == rest;
  }

  // ---------- the main properties ----------

  lemma TaggedPrepend(head: string, rest: string)
    requires AllTagged(rest)
    requires forall i | 0 < i < |head| :: head[i] != '<'
    requires head != "" && Opens(head + rest) ==> HasNonce((head + rest)[7..])
    ensures AllTagged(head + rest)
  {
    var text := head + rest;
    forall i | 0 <= i < |text| && Opens(text[i..])
      ensures HasNonce(text[i + 7..])
    {
      assert i < |head| ==> text[i..][0] == head[i];
      OpensShape(text[i..]);
      if i == 0 && head != "" {
        assert text[0..] == text;
      } else {
        var j := i - |head|;
        assert text[i..] == rest[j..] && text[i + 7..] == rest[j + 7..];
      }
    }
  }

  lemma TaggedOpen(open: string, rest: string)
    requires |open| == 7 && Opens(open) && AllTagged(rest) && HasNonce(rest)
    ensures AllTagged(open + rest)
  {
    OpensShape(open);
    assert (open + rest)[7..] == rest;
    TaggedPrepend(open, rest);
  }

  lemma TaggedInsertion(open: string, nonce: string, rest: string)
    requires |open| == 7 && Opens(open) && AllTagged(rest)
    ensures AllTagged(open + Attribute(nonce) + rest)
  {
    var attribute := Attribute(nonce);
    OpensShape(open);
    AttributeIsInert(nonce);
    AttributeHasNonce(nonce, rest);
    var head := open + attribute;
    assert (head + rest)[7..] == attribute + rest;
    assert forall i | 7 <= i < |head| :: head[i] == attribute[i - 7];
    TaggedPrepend(head, rest);
  }

  /** In the output every "<script" has "nonce=" before its next ">". */
  lemma {:induction false} EveryScriptIsTagged(s: string, nonce: string)
    ensures AllTagged(Weave(s, Attribute(nonce)))
    decreases |s|
  {
    if s != "" {
      WeaveCases(s, Attribute(nonce));
      if Opens(s) {
        EveryScriptIsTagged(s[7..], nonce);
        if HasNonce(s[7..]) {
          NonceKept(s[7..], nonce);
          TaggedOpen(s[..7], Weave(s[7..], Attribute(nonce)));
        } else {
          TaggedInsertion(s[..7], nonce, Weave(s[7..], Attribute(nonce)));
        }
      } else {
        EveryScriptIsTagged(s[1..], nonce);
        StillClosed(s, Attribute(nonce));
        TaggedPrepend([s[0]], Weave(s[1..], Attribute(nonce)));
      }
    }
  }

  lemma AttributeIsInert(nonce: string)
    ensures forall i | 0 <= i < |Attribute(nonce)| :: Attribute(nonce)[i] != '<' && Attribute(nonce)[i] != '>'
  {
    var escaped := Escape(nonce);
    assert forall c | c in escaped :: c != '<' && c != '>';
    var text := Attribute(nonce);
    assert text == " nonce=\"" + escaped + "\"";
    forall i | 0 <= i < |text|
      ensures text[i] != '<' && text[i] != '>'
    {
      if 8 <= i < 8 + |escaped| {
        assert text[i] == escaped[i - 8] && escaped[i - 8] in escaped;
      }
    }
  }

  lemma {:induction false} TaggedIsLeftAlone(s: string, attribute: string)
    requires AllTagged(s)
    ensures Weave(s, attribute) == s
    decreases |s|
  {
    if s != "" {
      assert s[0..] == s;
      var n := if Opens(s) then 7 else 1;
      forall i | 0 <= i < |s[n..]| && Opens(s[n..][i..])
        ensures HasNonce(s[n..][i + 7..])
      {
        assert s[n..][i..] == s[n + i..] && s[n..][i + 7..] == s[n + i + 7..];
      }
      TaggedIsLeftAlone(s[n..], attribute);
      assert s == s[..n] + s[n..];
    }
  }

  /** Rewriting twice is rewriting once. */
  lemma WithNonceIsIdempotent(snippet: string, nonce: string)
    ensures WithNonce(WithNonce(snippet, nonce), nonce) == WithNonce(snippet, nonce)
  {
    if nonce != "" && snippet != "" {
      EveryScriptIsTagged(snippet, nonce);
      TaggedIsLeftAlone(Weave(snippet, Attribute(nonce)), Attribute(nonce));
    }
  }

  // ---------- nothing but insertions ----------

  /** The output as copied text and inserted attributes. */
  datatype Piece = Copied(text: string) | Inserted

  function Pieces(s: string): seq<Piece> {
    if s == "" then []
    else if !Opens(s) then [Copied([s[0]])] + Pieces(s[1..])
    else if HasNonce(s[7..]) then [Copied(s[..7])] + Pieces(s[7..])
    else [Copied(s[..7])] + ([Inserted] + Pieces(s[7..]))
  }

  function Render(pieces: seq<Piece>, attribute: string): string {
    if pieces == [] then ""
    else (if pieces[0].Copied? then pieces[0].text else attribute) + Render(pieces[1..], attribute)
  }

  /** An attribute is inserted right after a "<script", nowhere else. */
  predicate AfterOpens(pieces: seq<Piece>) {
    forall i | 0 <= i < |pieces| && pieces[i].Inserted? ::
      i > 0 && pieces[i - 1].Copied? && |pieces[i - 1].text| == 7 && Opens(pieces[i - 1].text)
  }

  lemma RenderFirst(piece: Piece, rest: seq<Piece>, attribute: string)
    ensures Render([piece] + rest, attribute) == (if piece.Copied? then piece.text else attribute)
            + Render(rest, attribute)
  {
    assert ([piece] + rest)[1..] == rest;
  }

  lemma RenderCopied(text: string, rest: seq<Piece>, attribute: string)
    ensures Render([Copied(text)] + rest, attribute) == text + Render(rest, attribute)
  {
    RenderFirst(Copied(text), rest, attribute);
  }

  lemma RenderInserted(text: string, rest: seq<Piece>, attribute: string)
    ensures Render([Copied(text)] + ([Inserted] + rest), attribute) == text + attribute + Render(rest, attribute)
  {
    RenderFirst(Copied(text), [Inserted] + rest, attribute);
    RenderFirst(Inserted, rest, attribute);
  }

  lemma OpensPieces(open: string, rest: seq<Piece>)
    requires AfterOpens(rest) && |open| == 7 && Opens(open)
    ensures AfterOpens([Copied(open)] + ([Inserted] + rest)) && AfterOpens([Copied(open)] + rest)
  {
  }

  /** The output is the snippet with attributes put in after its "<script"s:
      rendered without them the same pieces are the snippet. */
  lemma {:induction false} OnlyInsertions(s: string, attribute: string)
    ensures Render(Pieces(s), attribute) == Weave(s, attribute)
    ensures Render(Pieces(s), "") == s
    ensures AfterOpens(Pieces(s))
    decreases |s|
  {
    if s != "" {
      WeaveCases(s, attribute);
      if !Opens(s) {
        OnlyInsertions(s[1..], attribute);
        RenderCopied([s[0]], Pieces(s[1..]), attribute);
        RenderCopied([s[0]], Pieces(s[1..]), "");
      } else {
        OnlyInsertions(s[7..], attribute);
        OpensPieces(s[..7], Pieces(s[7..]));
        RenderCopied(s[..7], Pieces(s[7..]), attribute);
        RenderCopied(s[..7], Pieces(s[7..]), "");
        RenderInserted(s[..7], Pieces(s[7..]), attribute);
        RenderInserted(s[..7], Pieces(s[7..]), "");
        assert s[..7] + "" + s[7..] == s[..7] + s[7..] == s;
      }
    }
  }

  // ---------- the loop ----------

  /** strings.Index of the lowered text. */
  method IndexOpen(s: string) returns (index: int)
    ensures -1 <= index < |s|
    ensures index >= 0 ==> Opens(s[index..]) && forall i | 0 <= i < index :: !Opens(s[i..])
    ensures index < 0 ==> forall i | 0 <= i < |s| :: !Opens(s[i..])
  {
    for i := 0 to |s|
      invariant forall j | 0 <= j < i :: !Opens(s[j..])
    {
      if Opens(s[i..]) {
        return i;
      }
    }
    index := -1;
  }

  lemma {:induction false} SkipToOpen(s: string, n: nat, attribute: string)
    requires n <= |s| && forall i | 0 <= i < n :: !Opens(s[i..])
    ensures Weave(s, attribute) == s[..n] + Weave(s[n..], attribute)
    decreases n
  {
    assert s[0..] == s;
    if n > 0 {
      var tail := s[1..];
      forall i | 0 <= i < n - 1 ensures !Opens(tail[i..]) {
        assert tail[i..] == s[i + 1..];
      }
      WeaveCases(s, attribute);
      SkipToOpen(tail, n - 1, attribute);
      assert tail[n - 1..] == s[n..];
      OneMore(s[0], tail[..n - 1], Weave(tail[n - 1..], attribute));
      assert s[..n] == [s[0]] + tail[..n - 1];
    }
  }

  lemma OneMore(c: char, a: string, b: string)
    ensures [c] + (a + b) == [c] + a + b
  {
  }

  lemma TailTag(s: string, index: nat)
    requires index < |s| && Opens(s[index..])
    ensures index + 7 <= |s|
    ensures s[index..][7..] == s[index + 7..] && s[..index + 7] == s[..index] + s[index..][..7]
  {
  }

  lemma NextTag(s: string, index: nat, attribute: string)
    requires index < |s| && Opens(s[index..]) && forall i | 0 <= i < index :: !Opens(s[i..])
    ensures index + 7 <= |s|
    ensures Weave(s, attribute) == s[..index + 7] + (if HasNonce(s[index + 7..]) then "" else attribute)
            + Weave(s[index + 7..], attribute)
  {
    SkipToOpen(s, index, attribute);
    var tail := s[index..];
    WeaveCases(tail, attribute);
    TailTag(s, index);
    Regroup(s[..index], tail[..7], attribute, Weave(tail[7..], attribute));
  }

  lemma Regroup(a: string, open: string, attribute: string, rest: string)
    ensures a + (open + attribute + rest) == a + open + attribute + rest
    ensures a + (open + rest) == a + open + "" + rest
  {
  }

  lemma Rejoin(built: string, head: string, attribute: string, rest: string)
    ensures built + (head + attribute + rest) == built + head + attribute + rest
    ensures built + (head + "" + rest) == built + head + rest
  {
  }

  method AddNonces(snippet: string, nonce: string) returns (built: string)
    ensures built == WithNonce(snippet, nonce)
  {
    if nonce == "" || snippet == "" {
      return snippet;
    }
    var attribute := Attribute(nonce);
    var remaining := snippet;
    built := "";
    while true
      invariant built + Weave(remaining, attribute) == Weave(snippet, attribute)
      decreases |remaining|
    {
      var index := IndexOpen(remaining);
      if index < 0 {
        SkipToOpen(remaining, |remaining|, attribute);
        assert remaining[..|remaining|] == remaining && remaining[|remaining|..] == "" && remaining + "" == remaining;
        return built + remaining;
      }
      NextTag(remaining, index, attribute);
      var end := index + 7;
      Rejoin(built, remaining[..end], attribute, Weave(remaining[end..], attribute));
      built := built + remaining[..end];
      if !HasNonce(remaining[end..]) {
        built := built + attribute;
      }
      remaining := remaining[end..];
    }
  }
}
