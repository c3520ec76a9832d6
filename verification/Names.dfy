// Names: how they are normalised and checked (core/xray/models.go:
// NormalizeName, ValidName), and which of them share a tag (core/xray/ports.go:
// sanitizeKey).
module Names {
  import opened Text
  import opened Wrappers
  import opened Tags

  // ---- normalising ------------------------------------------------------------

  // strings.Fields, with the word read so far.
  function Words(s: string, word: string): seq<string> {
    if s == [] then (if word == [] then [] else [word])
    else if !IsSpace(s[0]) then Words(s[1..], word + [s[0]])
    else if word == [] then Words(s[1..], [])
    else [word] + Words(s[1..], [])
  }

  function NormalizeName(s: string): string {
    Join(Words(TrimSpace(s), []), ' ')
  }

  predicate Word(w: string) {
    w != [] && forall i :: 0 <= i < |w| ==> !IsSpace(w[i])
  }

  predicate AllWords(ws: seq<string>) {
    forall i :: 0 <= i < |ws| ==> Word(ws[i])
  }

  lemma {:induction false} WordsAre(s: string, word: string)
    requires word == [] || Word(word)
    ensures AllWords(Words(s, word))
    ensures Words(s, word) == [] <==> word == [] && Blank(s)
    ensures forall w, c :: w in Words(s, word) && c in w ==> c in s || c in word
  {
    if s != [] {
      if !IsSpace(s[0]) { WordsAre(s[1..], word + [s[0]]); } else { WordsAre(s[1..], []); }
      if Blank(s[1..]) && IsSpace(s[0]) {
        forall i | 0 <= i < |s| ensures IsSpace(s[i]) { if i > 0 { assert s[i] == s[1..][i - 1]; } }
      }
    }
  }

  // A word already begun goes on to the next space.
  lemma {:induction false} WordsRun(pre: string, w: string, rest: string)
    requires forall i :: 0 <= i < |w| ==> !IsSpace(w[i])
    ensures Words(w + rest, pre) == Words(rest, pre + w)
    decreases |w|
  {
    if w == [] {
      assert w + rest == rest && pre + w == pre;
    } else {
      assert (w + rest)[1..] == w[1..] + rest;
      WordsRun(pre + [w[0]], w[1..], rest);
      assert pre + [w[0]] + w[1..] == pre + w;
    }
  }

  lemma {:induction false} WordsJoin(ws: seq<string>)
    requires AllWords(ws)
    ensures Words(Join(ws, ' '), []) == ws
  {
    if |ws| == 1 {
      WordsRun([], ws[0], []);
      assert ws[0] + [] == ws[0] && [] + ws[0] == ws[0] && ws == [ws[0]];
    } else if |ws| > 1 {
      var rest := Join(ws[1..], ' ');
      assert Join(ws, ' ') == ws[0] + ([' '] + rest);
      WordsRun([], ws[0], [' '] + rest);
      assert [] + ws[0] == ws[0] && ([' '] + rest)[1..] == rest;
      WordsJoin(ws[1..]);
      assert ws == [ws[0]] + ws[1..];
    }
  }

  lemma {:induction false} JoinTrimmed(ws: seq<string>, sep: char)
    requires forall i :: 0 <= i < |ws| ==> ws[i] != [] && Trimmed(ws[i])
    ensures Trimmed(Join(ws, sep)) && (Join(ws, sep) == [] <==> ws == [])
  {
    if |ws| == 1 {
      assert ws[0] != [];
    } else if |ws| > 1 {
      JoinTrimmed(ws[1..], sep);
      var j, rest := Join(ws, sep), Join(ws[1..], sep);
      assert ws[0] != [] && j[0] == ws[0][0] && j[|j| - 1] == rest[|rest| - 1];
    }
  }

  lemma {:induction false} JoinChars(ws: seq<string>, sep: char)
    ensures forall c :: c in Join(ws, sep) ==> c == sep || exists w :: w in ws && c in w
  {
    if |ws| > 1 {
      JoinChars(ws[1..], sep);
      forall c | c in Join(ws, sep) && c != sep ensures exists w :: w in ws && c in w {
        if c in ws[0] {
        } else {
          assert c in Join(ws[1..], sep);
          var w :| w in ws[1..] && c in w;
          assert w in ws;
        }
      }
    } else if |ws| == 1 {
      assert ws[0] in ws;
    }
  }

  // A normalised name has no space at either end, is normal itself, and is
  // empty only for a blank one.
  lemma NormalizeNameIs(s: string)
    ensures Trimmed(NormalizeName(s)) && NormalizeName(NormalizeName(s)) == NormalizeName(s)
    ensures NormalizeName(s) == "" <==> Blank(s)
    ensures forall c :: c in NormalizeName(s) ==> c == ' ' || c in s
  {
    TrimSpaceTrims(s);
    TrimSpacePart(s);
    var ws := Words(TrimSpace(s), []);
    WordsAre(TrimSpace(s), []);
    JoinTrimmed(ws, ' ');
    JoinChars(ws, ' ');
    TrimmedIsFixed(Join(ws, ' '));
    WordsJoin(ws);
    BlankTrim(s);
  }

  lemma BlankTrim(s: string)
    ensures Blank(TrimSpace(s)) <==> Blank(s)
  {
    TrimSpaceTrims(s);
    var t := TrimSpace(s);
    if t != [] { assert !IsSpace(t[0]); }
  }

  predicate NameChar(c: char) {
    TagChar(c) || c == ' ' || c == '.'
  }

  function ValidName(s: string): Result<string, string> {
    var n := NormalizeName(s);
    if n == "" then Err("name is empty")
    else if |n| > 64 then Err("name too long")
    else if exists i :: 0 <= i < |n| && !NameChar(n[i]) then Err("name has invalid characters")
    else Ok(n)
  }

  // ---- which names share a tag ----------------------------------------------------

  // What sanitizing strips from the ends of a name; in a valid name a space, a
  // dot or an underscore.
  predicate EdgeChar(c: char) {
    c == '_' || !TagChar(c)
  }

  function CoreLeft(s: string): string {
    if s != [] && EdgeChar(s[0]) then CoreLeft(s[1..]) else s
  }

  function CoreRight(s: string): string {
    if s != [] && EdgeChar(s[|s| - 1]) then CoreRight(s[..|s| - 1]) else s
  }

  function Core(s: string): string {
    CoreRight(CoreLeft(s))
  }

  function RunLength(s: string): (n: nat)
    ensures n <= |s|
  {
    if s != [] && !TagChar(s[0]) then 1 + RunLength(s[1..]) else 0
  }

  // The gap a text starts with: one underscore, or a whole run of separators.
  function GapLength(s: string): (n: nat)
    ensures n <= |s|
    ensures s != [] && EdgeChar(s[0]) ==> n > 0
  {
    if s != [] && s[0] == '_' then 1 else RunLength(s)
  }

  // The same but for their gaps: where one has a gap the other has one too,
  // of whatever kind and length.
  predicate Alike(a: string, b: string) {
    if a == [] || b == [] then a == b
    else if EdgeChar(a[0]) && EdgeChar(b[0]) then Alike(a[GapLength(a)..], b[GapLength(b)..])
    else a[0] == b[0] && Alike(a[1..], b[1..])
  }

  lemma {:induction false} RunSkipped(s: string)
    ensures ReplaceRuns(s, true) == ReplaceRuns(s[RunLength(s)..], false)
  {
    if s != [] && !TagChar(s[0]) {
      RunSkipped(s[1..]);
      assert s[1..][RunLength(s[1..])..] == s[RunLength(s)..];
    } else {
      assert s[RunLength(s)..] == s;
    }
  }

  lemma GapFolds(s: string)
    requires s != [] && EdgeChar(s[0])
    ensures ReplaceRuns(s, false) == "_" + ReplaceRuns(s[GapLength(s)..], false)
  {
    if s[0] != '_' {
      RunSkipped(s[1..]);
      assert s[1..][RunLength(s[1..])..] == s[GapLength(s)..];
    }
  }

  lemma {:induction false} FoldAlike(a: string, b: string)
    ensures ReplaceRuns(a, false) == ReplaceRuns(b, false) <==> Alike(a, b)
  {
    if a != [] && b != [] {
      var x, y := ReplaceRuns(a, false), ReplaceRuns(b, false);
      if EdgeChar(a[0]) && EdgeChar(b[0]) {
        GapFolds(a);
        GapFolds(b);
        assert x[1..] == ReplaceRuns(a[GapLength(a)..], false) && y[1..] == ReplaceRuns(b[GapLength(b)..], false);
        FoldAlike(a[GapLength(a)..], b[GapLength(b)..]);
      } else if a[0] == b[0] {
        assert x[1..] == ReplaceRuns(a[1..], false) && y[1..] == ReplaceRuns(b[1..], false);
        FoldAlike(a[1..], b[1..]);
      } else {
        assert x[0] == (if TagChar(a[0]) then a[0] else '_') && y[0] == (if TagChar(b[0]) then b[0] else '_');
      }
    }
  }

  // ---- stripping the ends before or after folding comes to the same ---------------

  lemma {:induction false} TrimLast(s: string)
    ensures TrimUnderscores(s + "_") == TrimUnderscores(s)
  {
    var t := s + "_";
    if s != [] && s[0] == '_' {
      TrimLast(s[1..]);
      assert t[1..] == s[1..] + "_";
    } else {
      assert t[..|t| - 1] == s;
      assert s == [] ==> t[1..] == [];
    }
  }

  lemma {:induction false} ReplaceSnoc(s: string, c: char, inRun: bool)
    ensures EdgeChar(c) ==>
              || ReplaceRuns(s + [c], inRun) == ReplaceRuns(s, inRun)
              || ReplaceRuns(s + [c], inRun) == ReplaceRuns(s, inRun) + "_"
    ensures !EdgeChar(c) ==> ReplaceRuns(s + [c], inRun) == ReplaceRuns(s, inRun) + [c]
  {
    var t := s + [c];
    if s == [] {
      assert t == [c] && t[1..] == [] && ReplaceRuns([], inRun) == [] && [] + "_" == "_" && [] + [c] == [c];
    } else {
      assert t[1..] == s[1..] + [c] && t[0] == s[0];
      ReplaceSnoc(s[1..], c, !TagChar(s[0]));
      var first := if TagChar(s[0]) then [s[0]] else if inRun then "" else "_";
      var rest, longer := ReplaceRuns(s[1..], !TagChar(s[0])), ReplaceRuns(s[1..] + [c], !TagChar(s[0]));
      assert ReplaceRuns(s, inRun) == first + rest && ReplaceRuns(t, inRun) == first + longer;
      assert first + (rest + "_") == first + rest + "_" && first + (rest + [c]) == first + rest + [c];
    }
  }

  lemma DropFirst(s: string)
    requires s != [] && EdgeChar(s[0])
    ensures TrimUnderscores(ReplaceRuns(s, false)) == TrimUnderscores(ReplaceRuns(s[1..], false))
  {
    var t := s[1..];
    assert ("_" + ReplaceRuns(t, true))[1..] == ReplaceRuns(t, true);
    assert ("_" + ReplaceRuns(t, false))[1..] == ReplaceRuns(t, false);
    if t != [] && !TagChar(t[0]) { assert ("_" + ReplaceRuns(t[1..], true))[1..] == ReplaceRuns(t[1..], true); }
  }

  lemma DropLast(s: string)
    requires s != [] && EdgeChar(s[|s| - 1])
    ensures TrimUnderscores(ReplaceRuns(s, false)) == TrimUnderscores(ReplaceRuns(s[..|s| - 1], false))
  {
    hide ReplaceRuns, TrimUnderscores;
    var init := s[..|s| - 1];
    assert s == init + [s[|s| - 1]];
    ReplaceSnoc(init, s[|s| - 1], false);
    TrimLast(ReplaceRuns(init, false));
  }

  lemma {:induction false} SpacesDrop(s: string)
    ensures TrimUnderscores(ReplaceRuns(TrimLeft(s), false)) == TrimUnderscores(ReplaceRuns(s, false))
    ensures TrimUnderscores(ReplaceRuns(TrimRight(s), false)) == TrimUnderscores(ReplaceRuns(s, false))
  {
    if s != [] && IsSpace(s[0]) {
      SpacesDrop(s[1..]);
      DropFirst(s);
    }
    if s != [] && IsSpace(s[|s| - 1]) {
      SpacesDrop(s[..|s| - 1]);
      DropLast(s);
    }
  }

  lemma {:induction false} EdgesDrop(s: string)
    ensures TrimUnderscores(ReplaceRuns(CoreLeft(s), false)) == TrimUnderscores(ReplaceRuns(s, false))
    ensures TrimUnderscores(ReplaceRuns(CoreRight(s), false)) == TrimUnderscores(ReplaceRuns(s, false))
  {
    if s != [] && EdgeChar(s[0]) {
      EdgesDrop(s[1..]);
      DropFirst(s);
    }
    if s != [] && EdgeChar(s[|s| - 1]) {
      EdgesDrop(s[..|s| - 1]);
      DropLast(s);
    }
  }

  // A text with no gap at either end.
  predicate Tight(s: string) {
    s != [] ==> !EdgeChar(s[0]) && !EdgeChar(s[|s| - 1])
  }

  lemma {:induction false} CoreLeftTight(s: string)
    ensures CoreLeft(s) == [] || !EdgeChar(CoreLeft(s)[0])
  {
    if s != [] && EdgeChar(s[0]) { CoreLeftTight(s[1..]); }
  }

  lemma {:induction false} CoreRightTight(s: string)
    ensures CoreRight(s) <= s && (CoreRight(s) == [] || !EdgeChar(CoreRight(s)[|CoreRight(s)| - 1]))
  {
    if s != [] && EdgeChar(s[|s| - 1]) { CoreRightTight(s[..|s| - 1]); }
  }

  lemma CoreTight(s: string)
    ensures Tight(Core(s))
  {
    CoreLeftTight(s);
    CoreRightTight(CoreLeft(s));
  }

  lemma TightFolds(s: string)
    requires Tight(s)
    ensures Tight(ReplaceRuns(s, false)) && TrimUnderscores(ReplaceRuns(s, false)) == ReplaceRuns(s, false)
    ensures s == [] <==> ReplaceRuns(s, false) == []
  {
    if s != [] {
      var r := ReplaceRuns(s, false);
      ReplaceSnoc(s[..|s| - 1], s[|s| - 1], false);
      assert s == s[..|s| - 1] + [s[|s| - 1]];
      assert r[0] == s[0] && r[|r| - 1] == s[|s| - 1];
    }
  }

  // A name's tag part is its core, every gap an underscore.
  lemma SanitizeFolds(s: string)
    ensures SanitizeKey(s) == ReplaceRuns(Core(s), false) && Tight(SanitizeKey(s))
    ensures SanitizeKey(s) == [] <==> Core(s) == []
  {
    SpacesDrop(s);
    SpacesDrop(TrimLeft(s));
    EdgesDrop(s);
    EdgesDrop(CoreLeft(s));
    CoreTight(s);
    TightFolds(Core(s));
  }

  // Two names share a tag exactly when, stripped of the spaces, dots and
  // underscores at their ends, they are alike but for their gaps.
  lemma SharedTagIff(m: string, n: string)
    ensures SanitizeKey(m) == SanitizeKey(n) <==> Alike(Core(m), Core(n))
  {
    SanitizeFolds(m);
    SanitizeFolds(n);
    FoldAlike(Core(m), Core(n));
  }

  // ---- the names that are their own tags --------------------------------------------

  predicate Plain(k: string) {
    (forall i :: 0 <= i < |k| ==> TagChar(k[i])) && (k != "" ==> k[0] != '_' && k[|k| - 1] != '_')
  }

  lemma {:induction false} NoRuns(k: string, inRun: bool)
    requires forall i :: 0 <= i < |k| ==> TagChar(k[i])
    ensures ReplaceRuns(k, inRun) == k
  {
    if k != [] {
      NoRuns(k[1..], false);
      assert k == [k[0]] + k[1..];
    }
  }

  lemma {:induction false} FoldedChars(s: string, inRun: bool)
    ensures forall i :: 0 <= i < |ReplaceRuns(s, inRun)| ==> TagChar(ReplaceRuns(s, inRun)[i])
  {
    if s != [] { FoldedChars(s[1..], !TagChar(s[0])); }
  }

  // A name is its own tag part exactly when it is made of tag characters with no
  // underscore at either end, and every tag part is such a name.
  lemma PlainSanitized(k: string)
    ensures SanitizeKey(k) == k <==> Plain(k)
    ensures Plain(SanitizeKey(k))
  {
    SanitizeFolds(k);
    FoldedChars(Core(k), false);
    if Plain(k) {
      TrimmedIsFixed(k);
      NoRuns(k, false);
    }
  }

  // So such names never collide.
  lemma PlainNamesApart(m: string, n: string)
    requires Plain(m) && Plain(n)
    ensures EntryTag(m) == EntryTag(n) <==> m == n
  {
    PlainSanitized(m);
    PlainSanitized(n);
    SameEntryTag(m, n);
  }

  lemma PlainInboundsApart(m: string, n: string)
    requires Plain(m) && Plain(n) && m != n
    ensures InboundTag(m) != InboundTag(n)
  {
    PlainSanitized(m);
    PlainSanitized(n);
    hide SanitizeKey, Plain;
    assert InboundTag(m)[3..] == m && InboundTag(n)[3..] == n;
  }

  lemma SameEntryTag(m: string, n: string)
    ensures EntryTag(m) == EntryTag(n) <==> SanitizeKey(m) == SanitizeKey(n)
  {
    assert EntryTag(m)[4..] == SanitizeKey(m) && EntryTag(n)[4..] == SanitizeKey(n);
  }

  // Other valid names can: the tags, not the names, must be kept distinct.
  lemma NamesCollide()
    ensures ValidName("a b") == Ok("a b") && ValidName("a.b") == Ok("a.b") && "a b" != "a.b"
    ensures EntryTag("a b") == EntryTag("a.b")
  {
    hide ValidName, SanitizeKey, EntryTag;
    OneSpaceValid();
    OneDotValid();
    OneGapAlike();
    SharedTagIff("a b", "a.b");
    SameEntryTag("a b", "a.b");
    assert "a b"[1] == ' ' && "a.b"[1] == '.';
  }

  lemma OneGapAlike()
    ensures Alike(Core("a b"), Core("a.b"))
  {
    assert "a b"[1..] == " b" && " b"[1..] == "b" && "a.b"[1..] == ".b" && ".b"[1..] == "b";
    assert RunLength("b") == 0 && GapLength(" b") == 1 && GapLength(".b") == 1;
    assert Alike(" b", ".b");
    assert Core("a b") == "a b" && Core("a.b") == "a.b";
  }

  lemma OneSpaceValid()
    ensures ValidName("a b") == Ok("a b")
  {
    var ws := ["a", "b"];
    WordsJoin(ws);
    TrimmedIsFixed("a b");
    assert ws[1..] == ["b"];
    assert Join(ws, ' ') == "a" + [' '] + "b" == "a b";
  }

  lemma OneDotValid()
    ensures ValidName("a.b") == Ok("a.b")
  {
    var ws := ["a.b"];
    WordsJoin(ws);
    TrimmedIsFixed("a.b");
  }
}
