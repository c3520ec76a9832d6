// Tag names: how names become xray tags, and which tags can never be confused.
module Tags {
  import opened Text

  predicate TagChar(c: char) {
    'A' <= c <= 'Z' || 'a' <= c <= 'z' || '0' <= c <= '9' || c == '_' || c == '-'
  }

  // nonTagRe.ReplaceAllString(s, "_"): each maximal run of other characters
  // becomes one underscore. inRun says whether the run has been written already.
  function ReplaceRuns(s: string, inRun: bool): string {
    if s == [] then []
    else if TagChar(s[0]) then [s[0]] + ReplaceRuns(s[1..], false)
    else if inRun then ReplaceRuns(s[1..], true)
    else "_" + ReplaceRuns(s[1..], true)
  }

  function TrimUnderscores(s: string): string {
    if s != [] && s[0] == '_' then TrimUnderscores(s[1..])
    else if s != [] && s[|s| - 1] == '_' then TrimUnderscores(s[..|s| - 1])
    else s
  }

  function SanitizeKey(s: string): string {
    TrimUnderscores(ReplaceRuns(TrimSpace(s), false))
  }

  function EntryTag(name: string): string { "out-" + SanitizeKey(name) }
  function InboundTag(name: string): string { "in-" + SanitizeKey(name) }
  function IfaceTag(name: string): string { "iface-" + SanitizeKey(name) }
  function DialerTag(master: string): string { "dialer-" + SanitizeKey(master) }
  function DialerEmail(master: string): string { "dialer-" + SanitizeKey(master) }
  function SlotInTag(idx: nat): string { "slot" + Itoa(idx) + "-in" }
  function SlotOutPrefix(idx: nat): string { "slot" + Itoa(idx) + "-out-" }
  function SlotMemberTag(idx: nat, key: string): string { SlotOutPrefix(idx) + SanitizeKey(key) }
  function SlotBalTag(idx: nat, master: string): string { "slot" + Itoa(idx) + "-bal-" + SanitizeKey(master) }

  lemma MemberTagPrefix(idx: nat, key: string)
    ensures SlotOutPrefix(idx) <= SlotMemberTag(idx, key) && SlotMemberTag(idx, key) != ""
  {
    hide SlotOutPrefix;
    assert SlotOutPrefix(idx) <= SlotOutPrefix(idx) + SanitizeKey(key);
    assert SlotOutPrefix(idx) != "" by { SlotPrefixNonEmpty(idx); }
  }

  lemma SlotPrefixNonEmpty(idx: nat)
    ensures SlotOutPrefix(idx) != "" && SlotOutPrefix(idx)[0] == 's'
  {
  }

  // Two numerals followed by a dash agree as soon as one text continues the other.
  lemma {:induction false} NumeralPrefix(a: string, b: string, x: string, y: string)
    requires '-' !in a && '-' !in b
    requires a + "-" + x <= b + "-" + y
    ensures a == b
  {
    var s, t := a + "-" + x, b + "-" + y;
    assert s[0] == t[0];
    assert s[0] == if a == [] then '-' else a[0];
    assert t[0] == if b == [] then '-' else b[0];
    if a != [] && b != [] {
      assert s[1..] == a[1..] + "-" + x && t[1..] == b[1..] + "-" + y;
      NumeralPrefix(a[1..], b[1..], x, y);
    }
  }

  // A slot's selector prefix never catches another slot's member, however the
  // decimal indices start: slot1-out- does not match slot11-out-x.
  lemma SlotPrefixSeparates(i: nat, j: nat, rest: string)
    requires SlotOutPrefix(i) <= SlotOutPrefix(j) + rest
    ensures i == j
  {
    ItoaDigits(i);
    ItoaDigits(j);
    var s, t := SlotOutPrefix(i), SlotOutPrefix(j) + rest;
    assert s[4..] == Itoa(i) + "-" + "out-";
    assert t[4..] == Itoa(j) + "-" + ("out-" + rest);
    assert s[4..] <= t[4..];
    NumeralPrefix(Itoa(i), Itoa(j), "out-", "out-" + rest);
    ItoaInjective(i, j);
  }

  lemma SlotInTagInjective(i: nat, j: nat)
    requires SlotInTag(i) == SlotInTag(j)
    ensures i == j
  {
    ItoaDigits(i);
    ItoaDigits(j);
    var s, t := SlotInTag(i), SlotInTag(j);
    assert s[4..] == Itoa(i) + "-" + "in" && t[4..] == Itoa(j) + "-" + "in";
    NumeralPrefix(Itoa(i), Itoa(j), "in", "in");
    ItoaInjective(i, j);
  }

  lemma SlotBalTagInjective(i: nat, m: string, j: nat, n: string)
    requires SlotBalTag(i, m) == SlotBalTag(j, n)
    ensures i == j && SanitizeKey(m) == SanitizeKey(n)
  {
    ItoaDigits(i);
    ItoaDigits(j);
    var s, t := SlotBalTag(i, m), SlotBalTag(j, n);
    assert s[4..] == Itoa(i) + "-" + ("bal-" + SanitizeKey(m));
    assert t[4..] == Itoa(j) + "-" + ("bal-" + SanitizeKey(n));
    NumeralPrefix(Itoa(i), Itoa(j), "bal-" + SanitizeKey(m), "bal-" + SanitizeKey(n));
    ItoaInjective(i, j);
    var k := |Itoa(i)| + 9;
    assert s[k..] == SanitizeKey(m) && t[k..] == SanitizeKey(n);
  }

  // Slot tags, entry tags, dialer tags and the fixed tags live in disjoint ranges.
  lemma TagFamilies(name: string, other: string, idx: nat, t: string)
    ensures EntryTag(name) != "block" && EntryTag(name) != "direct" && EntryTag(name) != "api"
    ensures EntryTag(name) != DialerTag(other) && EntryTag(name) != IfaceTag(other)
    ensures DialerTag(name) != "block" && DialerTag(name) != "direct" && DialerTag(name) != IfaceTag(other)
    ensures IfaceTag(name) != "block" && IfaceTag(name) != "direct"
    ensures InboundTag(name) != SlotInTag(idx) && SlotInTag(idx) != "api" && InboundTag(name) != "api"
    ensures SlotOutPrefix(idx) <= t ==>
              t != "block" && t != "direct" && t != EntryTag(name) && t != DialerTag(name) && t != IfaceTag(name)
  {
    assert EntryTag(name)[0] == 'o';
    assert DialerTag(name)[0] == 'd' && DialerTag(name)[2] == 'a' && DialerTag(other)[0] == 'd';
    assert IfaceTag(name)[0] == 'i' && IfaceTag(other)[0] == 'i';
    assert InboundTag(name)[0] == 'i' && InboundTag(name)[2] == '-' && SlotInTag(idx)[0] == 's';
    assert SlotOutPrefix(idx)[0] == 's';
  }
}
