// Strings as the repository's Go code treats them: trimming, splitting, decimal
// numerals and byte order, over ASCII (see "Left out" in README.md).
module Text {
  import opened Wrappers

  predicate IsSpace(c: char) {
    c == ' ' || c == '\t' || c == '\n' || c == '\r' || c == '\U{0B}' || c == '\U{0C}'
  }

  // strings.TrimSpace(s) == ""
  predicate Blank(s: string) {
    forall i :: 0 <= i < |s| ==> IsSpace(s[i])
  }

  function TrimLeft(s: string): string {
    if s != [] && IsSpace(s[0]) then TrimLeft(s[1..]) else s
  }

  function TrimRight(s: string): string {
    if s != [] && IsSpace(s[|s| - 1]) then TrimRight(s[..|s| - 1]) else s
  }

  function TrimSpace(s: string): string {
    TrimRight(TrimLeft(s))
  }

  // A string neither end of which is a space: what TrimSpace leaves alone.
  predicate Trimmed(s: string) {
    s != [] ==> !IsSpace(s[0]) && !IsSpace(s[|s| - 1])
  }

  lemma TrimmedIsFixed(s: string)
    requires Trimmed(s)
    ensures TrimSpace(s) == s
  {
  }

  lemma {:induction false} TrimLeftStarts(s: string)
    ensures TrimLeft(s) == [] || !IsSpace(TrimLeft(s)[0])
    ensures TrimLeft(s) == [] <==> Blank(s)
  {
    if s != [] && IsSpace(s[0]) {
      TrimLeftStarts(s[1..]);
      assert Blank(s[1..]) <==> Blank(s) by {
        if Blank(s[1..]) {
          forall i | 0 <= i < |s| ensures IsSpace(s[i]) { if i > 0 { assert s[i] == s[1..][i - 1]; } }
        }
      }
    }
  }

  lemma {:induction false} TrimRightEnds(s: string)
    ensures TrimRight(s) <= s
    ensures TrimRight(s) == [] || !IsSpace(TrimRight(s)[|TrimRight(s)| - 1])
    ensures s != [] && !IsSpace(s[0]) ==> TrimRight(s) != []
  {
    if s != [] && IsSpace(s[|s| - 1]) { TrimRightEnds(s[..|s| - 1]); }
  }

  lemma TrimSpaceTrims(s: string)
    ensures Trimmed(TrimSpace(s))
    ensures TrimSpace(s) == [] <==> Blank(s)
  {
    TrimLeftStarts(s);
    TrimRightEnds(TrimLeft(s));
  }

  lemma {:induction false} TrimLeftPart(s: string)
    ensures forall c :: c in TrimLeft(s) ==> c in s
  {
    if s != [] && IsSpace(s[0]) { TrimLeftPart(s[1..]); }
  }

  lemma TrimSpacePart(s: string)
    ensures forall c :: c in TrimSpace(s) ==> c in s
  {
    TrimLeftPart(s);
    TrimRightEnds(TrimLeft(s));
  }

  function OrDefault(v: string, def: string): string {
    if Blank(v) then def else v
  }

  // strings.Split with a one-character separator: never empty.
  function Split(s: string, sep: char): (parts: seq<string>)
    ensures parts != []
  {
    if s == [] then [""]
    else
      var rest := Split(s[1..], sep);
      if s[0] == sep then [""] + rest else [[s[0]] + rest[0]] + rest[1..]
  }

  function Join(parts: seq<string>, sep: char): string {
    if parts == [] then ""
    else if |parts| == 1 then parts[0]
    else parts[0] + [sep] + Join(parts[1..], sep)
  }

  lemma {:induction false} SplitNoSep(s: string, sep: char)
    requires sep !in s
    ensures Split(s, sep) == [s]
  {
    if s != [] {
      SplitNoSep(s[1..], sep);
      assert [s[0]] + s[1..] == s;
    }
  }

  lemma {:induction false} SplitHead(a: string, sep: char, rest: string)
    requires sep !in a
    ensures Split(a + [sep] + rest, sep) == [a] + Split(rest, sep)
  {
    var s := a + [sep] + rest;
    if a == [] {
      assert s[1..] == rest;
    } else {
      assert s[1..] == a[1..] + [sep] + rest;
      SplitHead(a[1..], sep, rest);
      assert [s[0]] + a[1..] == a;
      assert Split(s, sep) == [[s[0]] + a[1..]] + Split(s[1..], sep)[1..];
    }
  }

  lemma {:induction false} SplitJoin(parts: seq<string>, sep: char)
    requires parts != []
    requires forall p :: p in parts ==> sep !in p
    ensures Split(Join(parts, sep), sep) == parts
  {
    if |parts| == 1 {
      SplitNoSep(parts[0], sep);
      assert parts == [parts[0]];
    } else {
      SplitJoin(parts[1..], sep);
      SplitHead(parts[0], sep, Join(parts[1..], sep));
      assert parts == [parts[0]] + parts[1..];
    }
  }

  lemma {:induction false} SplitPartsClean(s: string, sep: char)
    ensures forall p :: p in Split(s, sep) ==> sep !in p && (forall c :: c in p ==> c in s)
  {
    if s != [] { SplitPartsClean(s[1..], sep); }
  }

  // strings.Cut around the first separator.
  function Cut(s: string, sep: char): Option<(string, string)> {
    if s == [] then None
    else if s[0] == sep then Some(("", s[1..]))
    else match Cut(s[1..], sep)
      case None => None
      case Some((a, b)) => Some(([s[0]] + a, b))
  }

  lemma {:induction false} CutParts(s: string, sep: char)
    ensures Cut(s, sep).None? <==> sep !in s
    ensures Cut(s, sep).Some? ==> sep !in Cut(s, sep).value.0 && s == Cut(s, sep).value.0 + [sep] + Cut(s, sep).value.1
  {
    if s != [] { CutParts(s[1..], sep); assert s == [s[0]] + s[1..]; }
  }

  lemma {:induction false} CutAt(a: string, sep: char, b: string)
    requires sep !in a
    ensures Cut(a + [sep] + b, sep) == Some((a, b))
  {
    var s := a + [sep] + b;
    if a == [] {
      assert s[1..] == b;
    } else {
      assert s[1..] == a[1..] + [sep] + b;
      CutAt(a[1..], sep, b);
      assert s[0] == a[0] && [a[0]] + a[1..] == a;
    }
  }

  function LowerChar(c: char): char {
    if 'A' <= c <= 'Z' then (c as int + 32) as char else c
  }

  function ToLower(s: string): (r: string)
    ensures |r| == |s|
    ensures forall i :: 0 <= i < |s| ==> r[i] == LowerChar(s[i])
  {
    if s == [] then [] else [LowerChar(s[0])] + ToLower(s[1..])
  }

  lemma LowerIsFixed(s: string)
    requires forall i :: 0 <= i < |s| ==> !('A' <= s[i] <= 'Z')
    ensures ToLower(s) == s
  {
  }

  // strconv.Itoa on a non-negative number.
  function Itoa(n: nat): string {
    if n < 10 then [Digit(n)] else Itoa(n / 10) + [Digit(n % 10)]
  }

  function Digit(d: nat): char
    requires d < 10
  {
    ('0' as int + d) as char
  }

  lemma {:induction false} ItoaDigits(n: nat)
    ensures |Itoa(n)| > 0
    ensures forall c :: c in Itoa(n) ==> '0' <= c <= '9'
  {
    if n >= 10 { ItoaDigits(n / 10); }
  }

  lemma {:induction false} ItoaInjective(a: nat, b: nat)
    requires Itoa(a) == Itoa(b)
    ensures a == b
  {
    ItoaDigits(a / 10);
    ItoaDigits(b / 10);
    var s, t := Itoa(a), Itoa(b);
    assert s[|s| - 1] == Digit(a % 10) && t[|t| - 1] == Digit(b % 10);
    if a >= 10 && b >= 10 {
      assert s[..|s| - 1] == Itoa(a / 10) && t[..|t| - 1] == Itoa(b / 10);
      ItoaInjective(a / 10, b / 10);
    }
  }

  // Reading back a decimal numeral written by Itoa.
  function Atoi(s: string): int {
    if s == [] then 0 else Atoi(s[..|s| - 1]) * 10 + (s[|s| - 1] as int - '0' as int)
  }

  lemma {:induction false} AtoiItoa(n: nat)
    ensures Atoi(Itoa(n)) == n
  {
    var s := Itoa(n);
    if n < 10 {
      assert s[..|s| - 1] == [];
      assert Atoi([]) == 0;
    } else {
      assert s[..|s| - 1] == Itoa(n / 10);
      AtoiItoa(n / 10);
    }
  }

  predicate AllDigits(s: string) {
    forall i :: 0 <= i < |s| ==> '0' <= s[i] <= '9'
  }

  function FormatInt(n: int): string {
    if n < 0 then "-" + Itoa(-n) else Itoa(n)
  }

  // strconv.Atoi, 0 on a malformed numeral.
  function ParseInt(s: string): int {
    var signed := s != "" && (s[0] == '-' || s[0] == '+');
    var digits := if signed then s[1..] else s;
    if digits == "" || !AllDigits(digits) then 0
    else if signed && s[0] == '-' then -Atoi(digits) else Atoi(digits)
  }

  lemma ParseFormatInt(n: int)
    ensures ParseInt(FormatInt(n)) == n && Trimmed(FormatInt(n)) && FormatInt(n) != ""
  {
    var m := if n < 0 then -n else n;
    var d := Itoa(m);
    ItoaDigits(m);
    AtoiItoa(m);
    forall i | 0 <= i < |d| ensures '0' <= d[i] <= '9' { assert d[i] in d; }
    if n < 0 { assert FormatInt(n)[1..] == d; }
  }

  // Go's string order: byte by byte, a proper prefix first.
  predicate Before(a: string, b: string) {
    b != [] && (a == [] || a[0] < b[0] || (a[0] == b[0] && Before(a[1..], b[1..])))
  }

  lemma {:induction false} BeforeAsymmetric(a: string, b: string)
    ensures !(Before(a, b) && Before(b, a))
    ensures !Before(a, a)
  {
    if a != [] && b != [] { BeforeAsymmetric(a[1..], b[1..]); }
    if a != [] { BeforeAsymmetric(a[1..], a[1..]); }
  }

  lemma {:induction false} BeforeTotal(a: string, b: string)
    ensures Before(a, b) || Before(b, a) || a == b
  {
    if a != [] && b != [] {
      BeforeTotal(a[1..], b[1..]);
      assert a == [a[0]] + a[1..] && b == [b[0]] + b[1..];
    }
  }

  lemma {:induction false} BeforeTransitive(a: string, b: string, c: string)
    requires Before(a, b) && Before(b, c)
    ensures Before(a, c)
  {
    if a != [] && a[0] == b[0] && b[0] == c[0] { BeforeTransitive(a[1..], b[1..], c[1..]); }
  }
}
