// Dialer fields: comma-separated references, and their canonical form
// (core/xray/dialer.go: ParseDialer, CanonicalDialer; core/xray/models.go: NormalizeName).
module DialerRefs {
  import opened Text
  import opened Wrappers
  import opened Sorting
  import opened Names

  datatype RefKind = RefXray | RefXraySub | RefProxy
  datatype Ref = Ref(kind: RefKind, name: string)

  // ---- parsing ---------------------------------------------------------------------

  function KindNamed(s: string): Option<RefKind> {
    if s == "xray" then Some(RefXray)
    else if s == "xraysub" then Some(RefXraySub)
    else if s == "proxy" then Some(RefProxy)
    else None
  }

  function KindName(k: RefKind): string {
    match k
    case RefXray => "xray"
    case RefXraySub => "xraysub"
    case RefProxy => "proxy"
  }

  // One element of a dialer field: nothing when blank.
  function ParsePart(raw: string): Result<seq<Ref>, string> {
    var part := TrimSpace(raw);
    if part == "" then Ok([])
    else match Cut(part, ':')
      case None => Err("bad dialer ref")
      case Some((kind, name)) =>
        if Blank(name) then Err("bad dialer ref")
        else match KindNamed(kind)
          case None => Err("unknown dialer kind")
          case Some(k) => Ok([Ref(k, TrimSpace(name))])
  }

  function ParseParts(parts: seq<string>): Result<seq<Ref>, string> {
    if parts == [] then Ok([])
    else match ParseParts(parts[..|parts| - 1])
      case Err(e) => Err(e)
      case Ok(refs) =>
        match ParsePart(parts[|parts| - 1])
        case Err(e) => Err(e)
        case Ok(more) => Ok(refs + more)
  }

  function ParseDialer(s: string): Result<seq<Ref>, string> {
    if TrimSpace(s) == "" then Ok([]) else ParseParts(Split(TrimSpace(s), ','))
  }

  lemma {:induction false} ErrorStays(parts: seq<string>, i: nat)
    requires i <= |parts| && ParseParts(parts[..i]).Err?
    ensures ParseParts(parts) == ParseParts(parts[..i])
  {
    if i < |parts| {
      assert parts[..|parts| - 1][..i] == parts[..i];
      ErrorStays(parts[..|parts| - 1], i);
    } else {
      assert parts[..i] == parts;
    }
  }

  method ReadDialer(field: string) returns (r: Result<seq<Ref>, string>)
    ensures r == ParseDialer(field)
  {
    var s := TrimSpace(field);
    if s == "" { return Ok([]); }
    var refs := [];
    var parts := Split(s, ',');
    for i := 0 to |parts|
      invariant ParseParts(parts[..i]) == Ok(refs)
    {
      assert parts[..i + 1][..i] == parts[..i];
      var p := ParsePart(parts[i]);
      if p.Err? {
        assert ParseParts(parts[..i + 1]) == Err(p.error);
        ErrorStays(parts, i + 1);
        return Err(p.error);
      }
      refs := refs + p.value;
    }
    assert parts[..|parts|] == parts;
    r := Ok(refs);
  }

  predicate GoodName(name: string) {
    !Blank(name) && Trimmed(name) && ',' !in name
  }

  predicate GoodRefs(refs: seq<Ref>) {
    forall i :: 0 <= i < |refs| ==> GoodName(refs[i].name)
  }

  lemma PartGood(raw: string)
    requires ',' !in raw
    ensures ParsePart(raw).Ok? ==> GoodRefs(ParsePart(raw).value)
  {
    TrimSpacePart(raw);
    var part := TrimSpace(raw);
    assert ',' !in part;
    CutParts(part, ':');
    if ParsePart(raw).Ok? && part != "" {
      var name := Cut(part, ':').value.1;
      assert forall c :: c in name ==> c in part;
      TrimSpaceTrims(name);
      TrimSpacePart(name);
      BlankTrim(name);
      assert GoodName(TrimSpace(name));
    }
  }

  lemma {:induction false} ParsedGood(parts: seq<string>)
    requires forall p :: p in parts ==> ',' !in p
    ensures ParseParts(parts).Ok? ==> GoodRefs(ParseParts(parts).value)
  {
    if parts != [] {
      hide ParsePart, GoodName;
      ParsedGood(parts[..|parts| - 1]);
      PartGood(parts[|parts| - 1]);
    }
  }

  lemma DialerRefsGood(s: string)
    ensures ParseDialer(s).Ok? ==> GoodRefs(ParseDialer(s).value)
  {
    SplitPartsClean(TrimSpace(s), ',');
    ParsedGood(Split(TrimSpace(s), ','));
  }

  // ---- the canonical form ------------------------------------------------------------

  function Normal(r: Ref): Ref { Ref(r.kind, NormalizeName(r.name)) }

  function RefText(r: Ref): string { KindName(r.kind) + ":" + r.name }

  // References normalised, later duplicates dropped, order kept.
  function Canon(refs: seq<Ref>): seq<Ref> {
    if refs == [] then []
    else
      var out, r := Canon(refs[..|refs| - 1]), Normal(refs[|refs| - 1]);
      if r in out then out else out + [r]
  }

  function Texts(refs: seq<Ref>): seq<string> {
    seq(|refs|, i requires 0 <= i < |refs| => RefText(refs[i]))
  }

  function CanonicalText(s: string): Result<string, string> {
    match ParseDialer(s)
    case Err(e) => Err(e)
    case Ok(refs) => Ok(Join(Texts(Canon(refs)), ','))
  }

  lemma KindNameIs(k: RefKind)
    ensures ':' !in KindName(k) && ',' !in KindName(k) && KindNamed(KindName(k)) == Some(k)
    ensures KindName(k) != "" && !IsSpace(KindName(k)[0])
  {
    match k
    case RefXray => assert |"xray"| == 4;
    case RefXraySub => assert |"xraysub"| == 7;
    case RefProxy => assert |"proxy"| == 5;
  }

  lemma RefTextInjective(a: Ref, b: Ref)
    requires RefText(a) == RefText(b)
    ensures a == b
  {
    KindNameIs(a.kind);
    KindNameIs(b.kind);
    CutAt(KindName(a.kind), ':', a.name);
    CutAt(KindName(b.kind), ':', b.name);
  }

  method CanonicalDialer(field: string) returns (r: Result<string, string>)
    ensures r == CanonicalText(field)
  {
    hide ParseDialer, RefText, Normal;
    var parsed := ReadDialer(field);
    if parsed.Err? { return Err(parsed.error); }
    var refs := parsed.value;
    var seen: set<string> := {};
    var out: seq<string> := [];
    for i := 0 to |refs|
      invariant out == Texts(Canon(refs[..i]))
      invariant seen == Elems(out)
    {
      assert refs[..i + 1][..i] == refs[..i];
      var c, n := Canon(refs[..i]), Normal(refs[i]);
      var k := RefText(n);
      assert k in seen <==> n in c by {
        if k in seen {
          var j :| 0 <= j < |out| && out[j] == k;
          assert out[j] == RefText(c[j]);
          RefTextInjective(c[j], n);
        }
        if n in c {
          var j :| 0 <= j < |c| && c[j] == n;
          assert out[j] == k;
        }
      }
      if k !in seen {
        seen := seen + {k};
        assert Texts(c + [n]) == Texts(c) + [k];
        out := out + [k];
      }
    }
    assert refs[..|refs|] == refs;
    r := Ok(Join(out, ','));
  }

  predicate NormalRefs(refs: seq<Ref>) {
    forall i :: 0 <= i < |refs| ==> Normal(refs[i]) == refs[i]
  }

  lemma {:induction false} CanonElems(refs: seq<Ref>)
    ensures forall r :: r in Canon(refs) <==> exists q :: q in refs && r == Normal(q)
  {
    hide Normal;
    if refs != [] {
      var init, last := refs[..|refs| - 1], refs[|refs| - 1];
      CanonElems(init);
      assert refs == init + [last];
      assert forall q :: q in refs <==> q in init || q == last;
    }
  }

  lemma {:induction false} CanonDistinct(refs: seq<Ref>)
    ensures Distinct(Canon(refs))
  {
    hide Normal;
    if refs != [] { CanonDistinct(refs[..|refs| - 1]); }
  }

  lemma CanonIs(refs: seq<Ref>)
    requires GoodRefs(refs)
    ensures Distinct(Canon(refs)) && GoodRefs(Canon(refs)) && NormalRefs(Canon(refs))
  {
    hide Canon, Distinct, NormalizeName, GoodName, Blank;
    CanonDistinct(refs);
    CanonElems(refs);
    var c := Canon(refs);
    forall i | 0 <= i < |c| ensures GoodName(c[i].name) && Normal(c[i]) == c[i] {
      assert c[i] in c;
      var q :| q in refs && c[i] == Normal(q);
      NormalGood(q.name);
    }
  }

  lemma NormalGood(name: string)
    requires GoodName(name)
    ensures GoodName(NormalizeName(name)) && NormalizeName(NormalizeName(name)) == NormalizeName(name)
  {
    NormalizeNameIs(name);
    BlankNormal(name);
  }

  lemma BlankNormal(s: string)
    requires !Blank(s) && ',' !in s
    ensures GoodName(NormalizeName(s))
  {
    NormalizeNameIs(s);
    var n := NormalizeName(s);
    assert n != "" && !IsSpace(n[0]);
  }

  lemma RefTextParses(r: Ref)
    requires GoodName(r.name)
    ensures ParsePart(RefText(r)) == Ok([r]) && Trimmed(RefText(r)) && RefText(r) != "" && ',' !in RefText(r)
  {
    var t := RefText(r);
    KindNameIs(r.kind);
    assert r.name != "";
    assert t[0] == KindName(r.kind)[0] && t[|t| - 1] == r.name[|r.name| - 1];
    TrimmedIsFixed(t);
    TrimmedIsFixed(r.name);
    CutAt(KindName(r.kind), ':', r.name);
  }

  lemma TextsSnoc(refs: seq<Ref>, r: Ref)
    ensures Texts(refs + [r]) == Texts(refs) + [RefText(r)]
  {
    hide RefText;
  }

  lemma {:induction false} TextsParse(refs: seq<Ref>)
    requires GoodRefs(refs)
    ensures ParseParts(Texts(refs)) == Ok(refs)
  {
    if refs != [] {
      var init, last := refs[..|refs| - 1], refs[|refs| - 1];
      assert refs == init + [last];
      assert GoodRefs(init) && GoodName(last.name);
      TextsParse(init);
      RefTextParses(last);
      TextsSnoc(init, last);
      hide ParsePart, RefText, GoodName, Texts;
      var ts := Texts(refs);
      assert ts[..|ts| - 1] == Texts(init) && ts[|ts| - 1] == RefText(last);
    }
  }

  lemma JoinedParse(refs: seq<Ref>)
    requires GoodRefs(refs)
    ensures ParseDialer(Join(Texts(refs), ',')) == Ok(refs)
  {
    var ts := Texts(refs);
    forall i | 0 <= i < |ts| ensures ts[i] != "" && Trimmed(ts[i]) && ',' !in ts[i] { RefTextParses(refs[i]); }
    JoinTrimmed(ts, ',');
    TrimmedIsFixed(Join(ts, ','));
    if refs != [] {
      SplitJoin(ts, ',');
      TextsParse(refs);
    }
  }

  // The canonical field parses to the field's own references, normalised, each
  // once; and it is its own canonical form.
  lemma CanonicalParses(s: string)
    requires ParseDialer(s).Ok?
    ensures var c := CanonicalText(s).value;
            && ParseDialer(c) == Ok(Canon(ParseDialer(s).value))
            && Distinct(ParseDialer(c).value)
            && (forall r :: r in ParseDialer(c).value <==> exists q :: q in ParseDialer(s).value && r == Normal(q))
            && CanonicalText(c) == Ok(c)
  {
    hide ParseDialer, Normal, Canon, Texts;
    var refs := ParseDialer(s).value;
    DialerRefsGood(s);
    CanonIs(refs);
    CanonElems(refs);
    JoinedParse(Canon(refs));
    CanonFixed(Canon(refs));
  }

  lemma {:induction false} CanonFixed(refs: seq<Ref>)
    requires Distinct(refs) && NormalRefs(refs)
    ensures Canon(refs) == refs
  {
    if refs != [] {
      var init, last := refs[..|refs| - 1], refs[|refs| - 1];
      assert refs == init + [last] && Normal(last) == last;
      assert Distinct(init) && last !in init && NormalRefs(init);
      hide Normal, Distinct, NormalRefs;
      CanonFixed(init);
    }
  }

  // ---- a field with one reference -------------------------------------------------

  // An entry, a subscription or a proxy, by the word before the colon.
  lemma OneRef(name: string)
    requires name != "" && Text.Trimmed(name) && ',' !in name
    ensures ParseDialer("xray:" + name) == Ok([Ref(RefXray, name)])
    ensures ParseDialer("xraysub:" + name) == Ok([Ref(RefXraySub, name)])
    ensures ParseDialer("proxy:" + name) == Ok([Ref(RefProxy, name)])
  {
    assert "xray" + ":" == "xray:" && "xraysub" + ":" == "xraysub:" && "proxy" + ":" == "proxy:";
    OneOf("xray", name);
    OneOf("xraysub", name);
    OneOf("proxy", name);
    assert |"xray"| == 4 && |"xraysub"| == 7 && |"proxy"| == 5;
    hide ParseDialer;
  }

  lemma OneOf(kind: string, name: string)
    requires name != "" && Text.Trimmed(name) && ',' !in name
    requires kind != "" && ':' !in kind && ',' !in kind && !IsSpace(kind[0])
    ensures ParseDialer(kind + ":" + name) ==
            match KindNamed(kind)
            case Some(k) => Ok([Ref(k, name)])
            case None => Err("unknown dialer kind")
  {
    var s := kind + ":" + name;
    assert s[0] == kind[0] && s[|s| - 1] == name[|name| - 1];
    TrimmedIsFixed(s);
    TrimmedIsFixed(name);
    SplitNoSep(s, ',');
    CutAt(kind, ':', name);
    assert !Blank(name) by { assert !IsSpace(name[0]); }
    hide Cut, KindNamed, Split, TrimSpace;
    assert [s][..0] == [] && ParseParts([]) == Ok([]);
    assert forall refs: seq<Ref> :: [] + refs == refs;
  }
}
