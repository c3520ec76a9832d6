// From a ranking to the balancer xray runs (core/xray/config.go, slotBalancer).
module BalancerPick {
  import opened Wrappers
  import opened Text
  import opened Sorting
  import opened Tags
  import opened Names
  import opened XrayConfig
  import opened Generate
  import opened FailClosed
  import opened RoutingTable
  import R = StableRanking
  import S = NodeScores

  // Once something of the pick is loaded, the balancer names nothing but picked
  // members, in its selectors and as its fallback.
  lemma BalancerNamesOnlyPicked(idx: nat, master: string, pick: MasterPick, loaded: set<string>, first: string,
                                tag: string)
    requires PickedTags(idx, pick.picked, loaded) != []
    requires tag in SlotBalancer(idx, master, pick, loaded, first).selectors ||
             tag == SlotBalancer(idx, master, pick, loaded, first).fallback
    ensures exists k :: k in pick.picked && k in loaded && tag == SlotMemberTag(idx, k)
  {
    PickedTagsAre(idx, pick.picked, loaded);
    assert tag in PickedTags(idx, pick.picked, loaded);
  }

  // The promise behind chain probing: while some member ranks better, a member
  // that answers pings but fails the master's chain is neither selected nor the
  // fallback of the balancer generated from the stable pick.
  lemma ChainFailedNeverNamed(cs: seq<R.Cand>, incumbent: seq<string>, c: R.Cand, idx: nat, master: string,
                              loaded: set<string>, first: string)
    requires R.DistinctKeys(cs) && c in cs && c.tier == S.TIER_CHAIN_BAD
    requires exists b :: b in cs && b.tier < S.TIER_CHAIN_BAD
    requires forall k :: k in R.StablePick(cs, incumbent).0 && SanitizeKey(k) == SanitizeKey(c.key) ==> k == c.key
    requires var pick := MasterPick(R.StablePick(cs, incumbent).0, R.StablePick(cs, incumbent).1);
             PickedTags(idx, pick.picked, loaded) != []
    ensures var pick := MasterPick(R.StablePick(cs, incumbent).0, R.StablePick(cs, incumbent).1);
            var b := SlotBalancer(idx, master, pick, loaded, first);
            SlotMemberTag(idx, c.key) !in b.selectors && SlotMemberTag(idx, c.key) != b.fallback
  {
    hide SlotBalancer;
    var pick := MasterPick(R.StablePick(cs, incumbent).0, R.StablePick(cs, incumbent).1);
    var tag, b := SlotMemberTag(idx, c.key), SlotBalancer(idx, master, pick, loaded, first);
    if tag in b.selectors || tag == b.fallback {
      BalancerNamesOnlyPicked(idx, master, pick, loaded, first, tag);
      var k :| k in pick.picked && k in loaded && tag == SlotMemberTag(idx, k);
      SameMemberTag(idx, k, c.key);
      R.NoChainBadPicked(cs, incumbent, c);
      assert false;
    }
  }

  lemma {:induction false} AllPicked(idx: nat, picked: seq<string>, loaded: set<string>)
    requires forall k :: k in picked ==> k in loaded
    ensures |PickedTags(idx, picked, loaded)| == |picked|
    ensures forall i :: 0 <= i < |picked| ==> PickedTags(idx, picked, loaded)[i] == SlotMemberTag(idx, picked[i])
  {
    hide SlotMemberTag;
    if picked != [] { AllPicked(idx, picked[..|picked| - 1], loaded); }
  }

  // With every pick loaded, the balancer is the ranking: its selectors are the
  // active members in order, and its fallback the spare.
  lemma BalancerFollowsPick(cs: seq<R.Cand>, incumbent: seq<string>, idx: nat, master: string, loaded: set<string>,
                            first: string)
    requires R.DistinctKeys(cs) && exists c :: c in cs && R.Judged(c)
    requires forall k :: k in R.StablePick(cs, incumbent).0 ==> k in loaded
    requires R.StablePick(cs, incumbent).0 != []
    ensures var (out, active) := R.StablePick(cs, incumbent);
            var b := SlotBalancer(idx, master, MasterPick(out, active), loaded, first);
            && |b.selectors| == active && !b.leastLoad
            && (forall i :: 0 <= i < active ==> b.selectors[i] == SlotMemberTag(idx, out[i]))
            && b.fallback == SlotMemberTag(idx, if |out| > active then out[active] else out[0])
  {
    hide SlotMemberTag, SlotBalTag;
    var (out, active) := R.StablePick(cs, incumbent);
    R.PickKeys(cs, incumbent);
    AllPicked(idx, out, loaded);
    hide R.StablePick, R.Judged;
  }

  // ---- a slot's balancers, read from the slot ----------------------------------------

  function IsLoaded(s: Slot): string -> bool {
    k => exists m :: m in s.members && m.key == k && MemberAllowed(m.outbound)
  }

  // Each master's balancer uses the master's own pick where it has one, else the
  // pool's: as many of its loaded members, in order, as are active, two by default,
  // and the next one, or else the first again, as the fallback. With none of them
  // loaded it spreads by load over the whole slot, with a member or block to fall
  // back to.
  lemma BalancerReads(s: Slot, j: nat)
    requires j < |SlotMasters(s)|
    ensures var m, b := SlotMasters(s)[j], SlotBalancers(s)[j];
            var pick := if m in s.masterPicks then s.masterPicks[m] else s.pool;
            var ks := Keep(IsLoaded(s), pick.picked);
            var n := Min(if pick.active == 0 then 2 else pick.active, |ks|);
            && b.tag == SlotBalTag(s.index, m)
            && (ks == [] ==>
                  && b.leastLoad && b.selectors == [SlotOutPrefix(s.index)]
                  && (b.fallback == "block" || exists k :: IsLoaded(s)(k) && b.fallback == SlotMemberTag(s.index, k))
                  && (b.fallback == "block" <==> forall k :: !IsLoaded(s)(k)))
            && (ks != [] ==>
                  && !b.leastLoad && |b.selectors| == n
                  && (forall i :: 0 <= i < n ==> b.selectors[i] == SlotMemberTag(s.index, ks[i]))
                  && b.fallback == SlotMemberTag(s.index, ks[if |ks| > n then n else 0]))
  {
    var m := SlotMasters(s)[j];
    var pick, loaded := PickOf(s, m), LoadedKeys(s.members);
    LoadedIs(s);
    PickedKeep(s, pick.picked);
    hide SlotMemberTag, SlotBalTag, SlotOutPrefix, LoadedKeys, IsLoaded, PickedTags, FirstTag;
    FirstLoaded(s);
  }

  lemma LoadedIs(s: Slot)
    ensures forall k :: k in LoadedKeys(s.members) <==> IsLoaded(s)(k)
  {
  }

  lemma FirstLoaded(s: Slot)
    ensures var t := FirstTag(s.index, s.members);
            && (t == "" <==> forall k :: !IsLoaded(s)(k)) && t != "block"
            && (t != "" ==> exists k :: IsLoaded(s)(k) && t == SlotMemberTag(s.index, k))
  {
    var ls := LoadedMembers(s.members);
    hide LoadedMembers;
    MemberTagNonEmpty(s.index, s.members);
    if ls != [] {
      assert ls[0] in ls && IsLoaded(s)(ls[0].key);
      MemberTagPrefix(s.index, ls[0].key);
      TagFamilies("", "", s.index, SlotMemberTag(s.index, ls[0].key));
    }
  }

  lemma {:induction false} PickedKeep(s: Slot, picked: seq<string>)
    ensures var ks, ts := Keep(IsLoaded(s), picked), PickedTags(s.index, picked, LoadedKeys(s.members));
            |ts| == |ks| && forall i :: 0 <= i < |ks| ==> ts[i] == SlotMemberTag(s.index, ks[i])
  {
    hide SlotMemberTag;
    if picked != [] {
      var init, k := picked[..|picked| - 1], picked[|picked| - 1];
      assert picked == init + [k];
      PickedKeep(s, init);
      KeepSnoc(IsLoaded(s), init, k);
      LoadedIs(s);
      hide IsLoaded, LoadedKeys, Keep;
    }
  }

  lemma {:induction false} KeepSnoc(p: string -> bool, ks: seq<string>, k: string)
    ensures Keep(p, ks + [k]) == Keep(p, ks) + if p(k) then [k] else []
  {
    if ks == [] {
      assert ks + [k] == [k];
    } else {
      assert (ks + [k])[1..] == ks[1..] + [k];
      KeepSnoc(p, ks[1..], k);
    }
  }

  lemma SameMemberTag(idx: nat, k: string, k': string)
    requires SlotMemberTag(idx, k) == SlotMemberTag(idx, k')
    ensures SanitizeKey(k) == SanitizeKey(k')
  {
    var n := |SlotOutPrefix(idx)|;
    assert SlotMemberTag(idx, k)[n..] == SanitizeKey(k) && SlotMemberTag(idx, k')[n..] == SanitizeKey(k');
  }

  // ---- what the selectors catch --------------------------------------------------

  lemma SelectorCatches(idx: nat, k: string, k': string)
    ensures SlotMemberTag(idx, k) <= SlotMemberTag(idx, k') <==> SanitizeKey(k) <= SanitizeKey(k')
  {
    hide SlotOutPrefix;
    var p, a, b := SlotOutPrefix(idx), SanitizeKey(k), SanitizeKey(k');
    if p + a <= p + b {
      assert (p + b)[|p|..|p| + |a|] == (p + a)[|p|..];
      assert a == b[..|a|];
    }
    if a <= b { assert (p + b)[..|p + a|] == p + a; }
  }

  // xray matches selectors as prefixes, so a picked member's full tag also
  // catches any loaded member whose key continues its own. Exactly then does the
  // balancer spread onto a member the daemon did not make active.
  lemma CatchesOnlyActiveIff(idx: nat, active: seq<string>, loaded: set<string>, b: Balancer)
    requires b.selectors == PickedTags(idx, active, loaded) && Elems(active) <= loaded
    ensures (forall k :: k in loaded && Caught(b, SlotMemberTag(idx, k)) ==> k in active) <==>
            (forall a, k :: a in active && k in loaded && SanitizeKey(a) <= SanitizeKey(k) ==> k in active)
  {
    hide SlotMemberTag, SanitizeKey;
    PickedTagsAre(idx, active, loaded);
    forall a, k | a in active && k in loaded && SanitizeKey(a) <= SanitizeKey(k)
      ensures Caught(b, SlotMemberTag(idx, k))
    {
      SelectorCatches(idx, a, k);
      assert a in Elems(active);
      assert SlotMemberTag(idx, a) in b.selectors;
    }
    forall k | k in loaded && Caught(b, SlotMemberTag(idx, k))
      ensures exists a :: a in active && SanitizeKey(a) <= SanitizeKey(k)
    {
      var s :| s in b.selectors && s <= SlotMemberTag(idx, k);
      var a :| a in active && a in loaded && s == SlotMemberTag(idx, a);
      SelectorCatches(idx, a, k);
    }
  }

  // It happens: with entries a and ab in one pool and only a active, the
  // balancer's selector catches ab too.
  lemma SelectorCatchesLongerName()
    ensures var b := SlotBalancer(0, "m", MasterPick(["xray-a"], 1), {"xray-a", "xray-ab"}, "");
            b.selectors == [SlotMemberTag(0, "xray-a")] && Caught(b, SlotMemberTag(0, "xray-ab"))
  {
    OnePicked(0, "xray-a", {"xray-a", "xray-ab"});
    LongerSanitized();
    hide SanitizeKey, SlotMemberTag;
    var b := SlotBalancer(0, "m", MasterPick(["xray-a"], 1), {"xray-a", "xray-ab"}, "");
    SelectorCatches(0, "xray-a", "xray-ab");
    assert SlotMemberTag(0, "xray-a") in b.selectors;
  }

  lemma OnePicked(idx: nat, key: string, loaded: set<string>)
    requires key in loaded
    ensures PickedTags(idx, [key], loaded) == [SlotMemberTag(idx, key)]
  {
    hide SlotMemberTag;
    var picked := [key];
    assert picked[..0] == [] && picked[0] == key;
    assert PickedTags(idx, [], loaded) == [];
  }

  lemma LongerSanitized()
    ensures SanitizeKey("xray-a") <= SanitizeKey("xray-ab")
  {
    hide SanitizeKey;
    PlainSanitized("xray-a");
    PlainSanitized("xray-ab");
    assert "xray-ab"[..6] == "xray-a";
  }
}
