// Moving the running process from one config to another, api call by api call
// (daemon/xray_live.go: applyLiveLocked).
module LiveApply {
  import opened Wrappers
  import opened Text
  import opened Sorting
  import opened XrayConfig
  import opened RoutingTable
  import opened LivePlan

  // One change the api makes to the process. A multi-tag call is one per tag.
  datatype Call =
    | Rmo(tag: string) | Ado(out: Outbound)
    | Rmi(tag: string) | Adi(inb: Inbound)
    | AdRules(routing: Routing)

  function Apply(p: Process, c: Call): Process {
    match c
    case Rmo(t) => p.(outbounds := p.outbounds - {t})
    case Ado(o) => p.(outbounds := p.outbounds[o.tag := o])
    case Rmi(t) => p.(inbounds := p.inbounds - {t})
    case Adi(b) => p.(inbounds := p.inbounds[b.tag := b])
    case AdRules(r) => p.(routing := r)
  }

  // No call removes an absent tag or adds a present one.
  predicate Legal(p: Process, c: Call) {
    match c
    case Rmo(t) => t in p.outbounds
    case Ado(o) => o.tag !in p.outbounds
    case Rmi(t) => t in p.inbounds
    case Adi(b) => b.tag !in p.inbounds
    case AdRules(_) => true
  }

  function Run(p: Process, cs: seq<Call>): Process {
    if cs == [] then p else Apply(Run(p, cs[..|cs| - 1]), cs[|cs| - 1])
  }

  function Running(lc: LiveConfig): Process {
    Process(lc.fixed, lc.outbounds, lc.inbounds, lc.routing, lc.firstOut)
  }

  // ---- the call sequence -------------------------------------------------------

  function Among(s: set<string>): string -> bool {
    x => x in s
  }

  function Dependent(dialerOf: map<string, string>): string -> bool {
    t => t in dialerOf && dialerOf[t] != ""
  }

  function DependentsFirst(dialerOf: map<string, string>, tags: seq<string>): seq<string> {
    SortBy(ByFlag(Dependent(dialerOf)), tags)
  }

  function Reversed(xs: seq<string>): (r: seq<string>)
    ensures |r| == |xs| && forall i :: 0 <= i < |xs| ==> r[i] == xs[|xs| - 1 - i]
  {
    seq(|xs|, i requires 0 <= i < |xs| => xs[|xs| - 1 - i])
  }

  // The tags of each stage, in call order: changed outbounds down, outbounds up,
  // changed inbounds down, inbounds up, routing swapped, leftovers dropped.
  datatype Stages = Stages(
    downs: seq<string>, ups: seq<string>, inDowns: seq<string>, inUps: seq<string>,
    swap: bool, inGone: seq<string>, gone: seq<string>)

  function StagesOf(p: Plan): Stages
    requires p.Live?
  {
    Stages(
      DependentsFirst(p.dialerOf, Keep(Among(Elems(p.addOut)), p.rmOut)),
      Reversed(DependentsFirst(p.dialerOf, p.addOut)),
      Keep(Among(Elems(p.addIn)), p.rmIn),
      p.addIn,
      p.routing,
      Keep(Not(Among(Elems(p.addIn))), p.rmIn),
      DependentsFirst(p.dialerOf, Keep(Not(Among(Elems(p.addOut))), p.rmOut)))
  }

  function Rmos(tags: seq<string>): seq<Call> {
    seq(|tags|, i requires 0 <= i < |tags| => Rmo(tags[i]))
  }

  function Rmis(tags: seq<string>): seq<Call> {
    seq(|tags|, i requires 0 <= i < |tags| => Rmi(tags[i]))
  }

  function Ados(tags: seq<string>, want: LiveConfig): seq<Call>
    requires Elems(tags) <= want.outbounds.Keys
  {
    seq(|tags|, i requires 0 <= i < |tags| => assert tags[i] in Elems(tags); Ado(want.outbounds[tags[i]]))
  }

  function Adis(tags: seq<string>, want: LiveConfig): seq<Call>
    requires Elems(tags) <= want.inbounds.Keys
  {
    seq(|tags|, i requires 0 <= i < |tags| => assert tags[i] in Elems(tags); Adi(want.inbounds[tags[i]]))
  }

  function Script(st: Stages, want: LiveConfig): seq<Call>
    requires Elems(st.ups) <= want.outbounds.Keys && Elems(st.inUps) <= want.inbounds.Keys
  {
    Rmos(st.downs) + Ados(st.ups, want) + Rmis(st.inDowns) + Adis(st.inUps, want) +
    (if st.swap then [AdRules(want.routing)] else []) + Rmis(st.inGone) + Rmos(st.gone)
  }

  // ---- what the stages contain ---------------------------------------------------

  // Each tag is its object's own.
  ghost predicate Tagged(lc: LiveConfig) {
    && (forall t :: t in lc.outbounds ==> lc.outbounds[t].tag == t)
    && (forall t :: t in lc.inbounds ==> lc.inbounds[t].tag == t)
  }

  // One kind of object's stages: what goes down comes back up, what comes up
  // was down or new, and the rest of what is outdated goes last.
  ghost predicate Staged<T(!new)>(downs: seq<string>, ups: seq<string>, gone: seq<string>, was: map<string, T>,
                           want: map<string, T>)
  {
    && Distinct(downs) && Distinct(ups) && Distinct(gone)
    && Elems(downs) == Elems(ups) * was.Keys && Elems(ups) <= want.Keys
    && Elems(gone) == was.Keys - want.Keys
    && (forall t :: t in was && t in want && was[t] != want[t] ==> t in ups)
    && (forall t :: t in want && t !in was ==> t in ups)
  }

  lemma OrderKeeps(dialerOf: map<string, string>, tags: seq<string>)
    requires Distinct(tags)
    ensures Elems(DependentsFirst(dialerOf, tags)) == Elems(tags) && Distinct(DependentsFirst(dialerOf, tags))
  {
    SameSorted(ByFlag(Dependent(dialerOf)), tags);
    SortKeeps(ByFlag(Dependent(dialerOf)), tags);
    DistinctMultiset(tags);
    DistinctMultiset(DependentsFirst(dialerOf, tags));
  }

  lemma ReversedKeeps(xs: seq<string>)
    requires Distinct(xs)
    ensures Elems(Reversed(xs)) == Elems(xs) && Distinct(Reversed(xs))
  {
    forall x | x in xs ensures x in Reversed(xs) {
      var i :| 0 <= i < |xs| && xs[i] == x;
      assert Reversed(xs)[|xs| - 1 - i] == x;
    }
  }

  lemma KeepIs(s: set<string>, tags: seq<string>)
    requires Distinct(tags)
    ensures Elems(Keep(Among(s), tags)) == Elems(tags) * s && Distinct(Keep(Among(s), tags))
    ensures Elems(Keep(Not(Among(s)), tags)) == Elems(tags) - s && Distinct(Keep(Not(Among(s)), tags))
  {
    KeepElems(Among(s), tags);
    KeepElems(Not(Among(s)), tags);
  }

  lemma StagedBySets<T(!new)>(downs: seq<string>, ups: seq<string>, gone: seq<string>, extra: set<string>,
                              was: map<string, T>, want: map<string, T>)
    requires Distinct(downs) && Distinct(ups) && Distinct(gone)
    requires extra <= was.Keys * want.Keys
    requires Elems(downs) == (Outdated(was, want) + extra) * (Missing(was, want) + extra)
    requires Elems(ups) == Missing(was, want) + extra
    requires Elems(gone) == (Outdated(was, want) + extra) - (Missing(was, want) + extra)
    ensures Staged(downs, ups, gone, was, want)
  {
    forall t | t in Missing(was, want) ensures t in ups { assert t in Elems(ups); }
  }

  lemma StagesStaged(p: Plan, was: LiveConfig, want: LiveConfig)
    requires IsLivePlan(p, was, want)
    ensures Elems(StagesOf(p).ups) <= want.outbounds.Keys && Elems(StagesOf(p).inUps) <= want.inbounds.Keys
    ensures Staged(StagesOf(p).downs, StagesOf(p).ups, StagesOf(p).gone, was.outbounds, want.outbounds)
    ensures Staged(StagesOf(p).inDowns, StagesOf(p).inUps, StagesOf(p).inGone, was.inbounds, want.inbounds)
  {
    OutStages(p, was, want);
    InStages(p, was, want);
  }

  lemma OutStages(p: Plan, was: LiveConfig, want: LiveConfig)
    requires IsLivePlan(p, was, want)
    ensures Staged(StagesOf(p).downs, StagesOf(p).ups, StagesOf(p).gone, was.outbounds, want.outbounds)
  {
    hide DependentsFirst, Outdated, Missing, Staged, Merged, Among, KeyOrder;
    SortedDistinct(p.rmOut);
    SortedDistinct(p.addOut);
    KeepIs(Elems(p.addOut), p.rmOut);
    OrderKeeps(p.dialerOf, Keep(Among(Elems(p.addOut)), p.rmOut));
    OrderKeeps(p.dialerOf, Keep(Not(Among(Elems(p.addOut))), p.rmOut));
    OrderKeeps(p.dialerOf, p.addOut);
    ReversedKeeps(DependentsFirst(p.dialerOf, p.addOut));
    StagedBySets(StagesOf(p).downs, StagesOf(p).ups, StagesOf(p).gone, TakenDown(was, want), was.outbounds,
                 want.outbounds);
  }

  lemma InStages(p: Plan, was: LiveConfig, want: LiveConfig)
    requires IsLivePlan(p, was, want)
    ensures Staged(StagesOf(p).inDowns, StagesOf(p).inUps, StagesOf(p).inGone, was.inbounds, want.inbounds)
  {
    hide Outdated, Missing, Staged, Merged, Among, KeyOrder;
    SortedDistinct(p.rmIn);
    SortedDistinct(p.addIn);
    KeepIs(Elems(p.addIn), p.rmIn);
    assert Outdated(was.inbounds, want.inbounds) + {} == Outdated(was.inbounds, want.inbounds);
    assert Missing(was.inbounds, want.inbounds) + {} == Missing(was.inbounds, want.inbounds);
    StagedBySets(StagesOf(p).inDowns, StagesOf(p).inUps, StagesOf(p).inGone, {}, was.inbounds, want.inbounds);
  }

  // The call sequence of a plan.
  ghost function Calls(p: Plan, was: LiveConfig, want: LiveConfig): seq<Call>
    requires IsLivePlan(p, was, want)
  {
    StagesStaged(p, was, want);
    Script(StagesOf(p), want)
  }

  ghost function After(p: Plan, was: LiveConfig, want: LiveConfig, k: nat): Process
    requires IsLivePlan(p, was, want) && k <= |Calls(p, was, want)|
  {
    Run(Running(was), Calls(p, was, want)[..k])
  }

  // ---- the state after any number of calls ----------------------------------------------

  function Clamp(k: int, n: nat): nat {
    if k < 0 then 0 else if k > n then n else k
  }

  // The first k tags of a stage.
  function First(tags: seq<string>, k: int): set<string> {
    Elems(tags[..Clamp(k, |tags|)])
  }

  // was's objects without those taken down or dropped, and want's brought up.
  function Swapped<T>(was: map<string, T>, want: map<string, T>, down: set<string>, up: set<string>, gone: set<string>)
    : map<string, T>
    requires up <= want.Keys
  {
    map t | t in was.Keys + up && (t in up || (t !in down && t !in gone)) :: if t in up then want[t] else was[t]
  }

  function CallsBefore(st: Stages, stage: nat): nat {
    (if stage > 1 then |st.downs| else 0) + (if stage > 2 then |st.ups| else 0) +
    (if stage > 3 then |st.inDowns| else 0) + (if stage > 4 then |st.inUps| else 0) +
    (if stage > 5 && st.swap then 1 else 0) + (if stage > 6 then |st.inGone| else 0) +
    (if stage > 7 then |st.gone| else 0)
  }

  function StateAt(was: LiveConfig, want: LiveConfig, st: Stages, k: nat): Process
    requires Elems(st.ups) <= want.outbounds.Keys && Elems(st.inUps) <= want.inbounds.Keys
  {
    Process(
      was.fixed,
      Swapped(was.outbounds, want.outbounds,
              First(st.downs, k), First(st.ups, k - CallsBefore(st, 2)), First(st.gone, k - CallsBefore(st, 7))),
      Swapped(was.inbounds, want.inbounds,
              First(st.inDowns, k - CallsBefore(st, 3)), First(st.inUps, k - CallsBefore(st, 4)),
              First(st.inGone, k - CallsBefore(st, 6))),
      if st.swap && k > CallsBefore(st, 5) then want.routing else was.routing,
      was.firstOut)
  }

  lemma FirstStep(tags: seq<string>, k: int)
    ensures k < 0 || k >= |tags| ==> First(tags, k + 1) == First(tags, k)
    ensures 0 <= k < |tags| ==> First(tags, k + 1) == First(tags, k) + {tags[k]}
    ensures 0 <= k < |tags| && Distinct(tags) ==> tags[k] !in First(tags, k)
    ensures k >= |tags| ==> First(tags, k) == Elems(tags)
    ensures k <= 0 ==> First(tags, k) == {}
  {
    if 0 <= k < |tags| { assert tags[..k + 1] == tags[..k] + [tags[k]]; }
    if k >= |tags| { assert tags[..|tags|] == tags; }
  }

  lemma SwapDown<T>(was: map<string, T>, want: map<string, T>, down: set<string>, up: set<string>, gone: set<string>,
                    t: string)
    requires up <= want.Keys && t !in up
    ensures Swapped(was, want, down + {t}, up, gone) == Swapped(was, want, down, up, gone) - {t}
    ensures Swapped(was, want, down, up, gone + {t}) == Swapped(was, want, down, up, gone) - {t}
  {
  }

  lemma SwapUp<T>(was: map<string, T>, want: map<string, T>, down: set<string>, up: set<string>, gone: set<string>,
                  t: string)
    requires up <= want.Keys && t in want
    ensures Swapped(was, want, down, up + {t}, gone) == Swapped(was, want, down, up, gone)[t := want[t]]
  {
  }

  // Where in the script a call sits.
  lemma ScriptAt(st: Stages, want: LiveConfig, k: nat)
    requires Elems(st.ups) <= want.outbounds.Keys && Elems(st.inUps) <= want.inbounds.Keys
    ensures |Script(st, want)| == CallsBefore(st, 8)
    ensures k < CallsBefore(st, 2) ==> Script(st, want)[k] == Rmo(st.downs[k])
    ensures CallsBefore(st, 2) <= k < CallsBefore(st, 3) ==>
              st.ups[k - CallsBefore(st, 2)] in want.outbounds &&
                  Script(st, want)[k] == Ado(want.outbounds[st.ups[k - CallsBefore(st, 2)]])
    ensures CallsBefore(st, 3) <= k < CallsBefore(st, 4) ==>
              Script(st, want)[k] == Rmi(st.inDowns[k - CallsBefore(st, 3)])
    ensures CallsBefore(st, 4) <= k < CallsBefore(st, 5) ==>
              st.inUps[k - CallsBefore(st, 4)] in want.inbounds &&
                  Script(st, want)[k] == Adi(want.inbounds[st.inUps[k - CallsBefore(st, 4)]])
    ensures CallsBefore(st, 5) <= k < CallsBefore(st, 6) ==> st.swap && Script(st, want)[k] == AdRules(want.routing)
    ensures CallsBefore(st, 6) <= k < CallsBefore(st, 7) ==>
              Script(st, want)[k] == Rmi(st.inGone[k - CallsBefore(st, 6)])
    ensures CallsBefore(st, 7) <= k < CallsBefore(st, 8) ==> Script(st, want)[k] == Rmo(st.gone[k - CallsBefore(st, 7)])
  {
    if CallsBefore(st, 2) <= k < CallsBefore(st, 3) { assert st.ups[k - CallsBefore(st, 2)] in Elems(st.ups); }
    if CallsBefore(st, 4) <= k < CallsBefore(st, 5) { assert st.inUps[k - CallsBefore(st, 4)] in Elems(st.inUps); }
  }

  // The call after the first k turns the k-th state into the next, and is legal there.
  lemma StateStep(was: LiveConfig, want: LiveConfig, st: Stages, k: nat)
    requires Tagged(want)
    requires Staged(st.downs, st.ups, st.gone, was.outbounds, want.outbounds)
    requires Staged(st.inDowns, st.inUps, st.inGone, was.inbounds, want.inbounds)
    requires k < |Script(st, want)|
    ensures Legal(StateAt(was, want, st, k), Script(st, want)[k])
    ensures Apply(StateAt(was, want, st, k), Script(st, want)[k]) == StateAt(was, want, st, k + 1)
  {
    hide First, Script;
    ScriptAt(st, want, k);
    var c2, c3, c4, c6, c7 := CallsBefore(st, 2), CallsBefore(st, 3), CallsBefore(st, 4), CallsBefore(st, 6),
        CallsBefore(st, 7);
    FirstStep(st.downs, k);
    FirstStep(st.ups, k - c2);
    FirstStep(st.gone, k - c7);
    FirstStep(st.inDowns, k - c3);
    FirstStep(st.inUps, k - c4);
    FirstStep(st.inGone, k - c6);
    FirstPart(st, k);
    StateStepOut(was, want, st, k);
    StateStepIn(was, want, st, k);
  }

  lemma FirstPart(st: Stages, k: nat)
    ensures First(st.ups, k - CallsBefore(st, 2)) <= Elems(st.ups)
    ensures First(st.inUps, k - CallsBefore(st, 4)) <= Elems(st.inUps)
  {
  }

  // The outbound side of a step.
  lemma StateStepOut(was: LiveConfig, want: LiveConfig, st: Stages, k: nat)
    requires Tagged(want)
    requires Staged(st.downs, st.ups, st.gone, was.outbounds, want.outbounds)
    requires Elems(st.inUps) <= want.inbounds.Keys
    requires k < |Script(st, want)|
    ensures var c := Script(st, want)[k];
            && (c.Rmo? || c.Ado? ==> Legal(StateAt(was, want, st, k), c))
            && Apply(StateAt(was, want, st, k), c).outbounds == StateAt(was, want, st, k + 1).outbounds
  {
    hide First, Script, Swapped;
    ScriptAt(st, want, k);
    var c2, c7 := CallsBefore(st, 2), CallsBefore(st, 7);
    FirstStep(st.downs, k);
    FirstStep(st.ups, k - c2);
    FirstStep(st.gone, k - c7);
    FirstPart(st, k);
    var down, up, gone := First(st.downs, k), First(st.ups, k - c2), First(st.gone, k - c7);
    if k < c2 {
      assert st.downs[k] in Elems(st.downs);
      SwapDown(was.outbounds, want.outbounds, down, up, gone, st.downs[k]);
      SwappedHas(was.outbounds, want.outbounds, down, up, gone, st.downs[k]);
    } else if k < CallsBefore(st, 3) {
      var t := st.ups[k - c2];
      assert t in Elems(st.ups);
      SwapUp(was.outbounds, want.outbounds, down, up, gone, t);
      SwappedHas(was.outbounds, want.outbounds, down, up, gone, t);
    } else if k >= c7 {
      var t := st.gone[k - c7];
      assert t in Elems(st.gone);
      SwapDown(was.outbounds, want.outbounds, down, up, gone, t);
      SwappedHas(was.outbounds, want.outbounds, down, up, gone, t);
    }
  }

  lemma SwappedHas<T>(was: map<string, T>, want: map<string, T>, down: set<string>, up: set<string>, gone: set<string>,
                      t: string)
    requires up <= want.Keys
    ensures t in Swapped(was, want, down, up, gone) <==> t in up || (t in was && t !in down && t !in gone)
  {
  }

  // The inbound and routing side of a step.
  lemma StateStepIn(was: LiveConfig, want: LiveConfig, st: Stages, k: nat)
    requires Tagged(want)
    requires Staged(st.inDowns, st.inUps, st.inGone, was.inbounds, want.inbounds)
    requires Elems(st.ups) <= want.outbounds.Keys
    requires k < |Script(st, want)|
    ensures var c := Script(st, want)[k];
            && (c.Rmi? || c.Adi? ==> Legal(StateAt(was, want, st, k), c))
            && Apply(StateAt(was, want, st, k), c).inbounds == StateAt(was, want, st, k + 1).inbounds
            && Apply(StateAt(was, want, st, k), c).routing == StateAt(was, want, st, k + 1).routing
  {
    hide First, Script, Swapped;
    ScriptAt(st, want, k);
    var c3, c4, c6 := CallsBefore(st, 3), CallsBefore(st, 4), CallsBefore(st, 6);
    FirstStep(st.inDowns, k - c3);
    FirstStep(st.inUps, k - c4);
    FirstStep(st.inGone, k - c6);
    FirstPart(st, k);
    var down, up, gone := First(st.inDowns, k - c3), First(st.inUps, k - c4), First(st.inGone, k - c6);
    if c3 <= k < c4 {
      var t := st.inDowns[k - c3];
      assert t in Elems(st.inDowns);
      SwapDown(was.inbounds, want.inbounds, down, up, gone, t);
      SwappedHas(was.inbounds, want.inbounds, down, up, gone, t);
    } else if c4 <= k < CallsBefore(st, 5) {
      var t := st.inUps[k - c4];
      assert t in Elems(st.inUps);
      SwapUp(was.inbounds, want.inbounds, down, up, gone, t);
      SwappedHas(was.inbounds, want.inbounds, down, up, gone, t);
    } else if c6 <= k < CallsBefore(st, 7) {
      var t := st.inGone[k - c6];
      assert t in Elems(st.inGone);
      SwapDown(was.inbounds, want.inbounds, down, up, gone, t);
      SwappedHas(was.inbounds, want.inbounds, down, up, gone, t);
    }
  }

  // ---- main results: every state on the way, and the end ---------------------------------

  // The process after the first k calls, whatever k.
  lemma {:induction false} AfterIsStateAt(p: Plan, was: LiveConfig, want: LiveConfig, k: nat)
    requires Tagged(want) && IsLivePlan(p, was, want) && k <= |Calls(p, was, want)|
    ensures Elems(StagesOf(p).ups) <= want.outbounds.Keys && Elems(StagesOf(p).inUps) <= want.inbounds.Keys
    ensures After(p, was, want, k) == StateAt(was, want, StagesOf(p), k)
  {
    var st := StagesOf(p);
    hide StagesOf, Script, First, IsLivePlan, StateAt;
    StagesStaged(p, was, want);
    var cs := Script(st, want);
    if k == 0 {
      StartState(was, want, st);
    } else {
      AfterIsStateAt(p, was, want, k - 1);
      StateStep(was, want, st, k - 1);
      assert cs[..k][..k - 1] == cs[..k - 1] && cs[..k][k - 1] == cs[k - 1];
    }
  }

  lemma StartState(was: LiveConfig, want: LiveConfig, st: Stages)
    requires Elems(st.ups) <= want.outbounds.Keys && Elems(st.inUps) <= want.inbounds.Keys
    ensures StateAt(was, want, st, 0) == Running(was)
  {
    hide Swapped, First;
    FirstStep(st.downs, 0);
    FirstStep(st.ups, 0 - CallsBefore(st, 2));
    FirstStep(st.gone, 0 - CallsBefore(st, 7));
    FirstStep(st.inDowns, 0 - CallsBefore(st, 3));
    FirstStep(st.inUps, 0 - CallsBefore(st, 4));
    FirstStep(st.inGone, 0 - CallsBefore(st, 6));
    SwapNone(was.outbounds, want.outbounds);
    SwapNone(was.inbounds, want.inbounds);
  }

  lemma SwapNone<T>(was: map<string, T>, want: map<string, T>)
    ensures Swapped(was, want, {}, {}, {}) == was
  {
  }

  // Every call of the sequence is legal in the state it is made in.
  lemma EveryCallLegal(p: Plan, was: LiveConfig, want: LiveConfig, k: nat)
    requires Tagged(want) && IsLivePlan(p, was, want) && k < |Calls(p, was, want)|
    ensures Legal(After(p, was, want, k), Calls(p, was, want)[k])
  {
    var st := StagesOf(p);
    hide StagesOf, Script, StateAt, IsLivePlan;
    StagesStaged(p, was, want);
    AfterIsStateAt(p, was, want, k);
    StateStep(was, want, st, k);
  }

  // The whole sequence ends at the wanted config, all of it, exactly when the two
  // configs agree on what no call can change; anything else it does reach.
  lemma LiveApplyConverges(p: Plan, was: LiveConfig, want: LiveConfig)
    requires Tagged(want) && IsLivePlan(p, was, want)
    ensures var end := Run(Running(was), Calls(p, was, want));
            && end == Running(want).(fixed := was.fixed, default := was.firstOut)
            && (end == Running(want) <==> was.fixed == want.fixed && was.firstOut == want.firstOut)
  {
    var n := |Calls(p, was, want)|;
    PlanSwaps(p, was, want);
    hide StagesOf, Script, StateAt, IsLivePlan;
    StagesStaged(p, was, want);
    assert Calls(p, was, want)[..n] == Calls(p, was, want);
    AfterIsStateAt(p, was, want, n);
    ScriptAt(StagesOf(p), want, n);
    FinalState(was, want, StagesOf(p), n);
  }

  lemma FinalState(was: LiveConfig, want: LiveConfig, st: Stages, n: nat)
    requires Staged(st.downs, st.ups, st.gone, was.outbounds, want.outbounds)
    requires Staged(st.inDowns, st.inUps, st.inGone, was.inbounds, want.inbounds)
    requires n == CallsBefore(st, 8) && st.swap == (was.routing != want.routing)
    ensures Elems(st.ups) <= want.outbounds.Keys && Elems(st.inUps) <= want.inbounds.Keys
    ensures StateAt(was, want, st, n) == Running(want).(fixed := was.fixed, default := was.firstOut)
  {
    hide First, Swapped, Staged;
    FirstStep(st.downs, n);
    FirstStep(st.ups, n - CallsBefore(st, 2));
    FirstStep(st.gone, n - CallsBefore(st, 7));
    FirstStep(st.inDowns, n - CallsBefore(st, 3));
    FirstStep(st.inUps, n - CallsBefore(st, 4));
    FirstStep(st.inGone, n - CallsBefore(st, 6));
    SwapComplete(st.downs, st.ups, st.gone, was.outbounds, want.outbounds);
    SwapComplete(st.inDowns, st.inUps, st.inGone, was.inbounds, want.inbounds);
  }

  lemma PlanSwaps(p: Plan, was: LiveConfig, want: LiveConfig)
    requires IsLivePlan(p, was, want)
    ensures StagesOf(p).swap == (was.routing != want.routing)
  {
  }

  lemma SwapComplete<T(!new)>(downs: seq<string>, ups: seq<string>, gone: seq<string>, was: map<string, T>,
                       want: map<string, T>)
    requires Staged(downs, ups, gone, was, want)
    ensures Elems(ups) <= want.Keys && Swapped(was, want, Elems(downs), Elems(ups), Elems(gone)) == want
  {
    assert forall t :: t in ups <==> t in Elems(ups);
  }

  // An outbound that did not change is only ever taken down because its dialer
  // is replaced or removed.
  lemma UnchangedDownOnlyForDialer(p: Plan, was: LiveConfig, want: LiveConfig, t: string)
    requires IsLivePlan(p, was, want) && t in p.rmOut
    requires t in was.outbounds && t in want.outbounds && was.outbounds[t] == want.outbounds[t]
    ensures var d := want.outbounds[t].dialer;
            d != "" && d in was.outbounds && (d !in want.outbounds || want.outbounds[d] != was.outbounds[d])
  {
    assert t in Elems(p.rmOut);
  }

  // ---- the process, driven call by call -----------------------------------------------------

  class Xray {
    var state: Process
    ghost var calls: seq<Call>
    // How many more api calls will be answered.
    var answers: nat

    constructor (p: Process, answers: nat)
      ensures state == p && calls == [] && this.answers == answers
    {
      state, calls, this.answers := p, [], answers;
    }

    method Api(c: Call) returns (ok: bool)
      requires Legal(state, c)
      modifies this
      ensures ok == (old(answers) > 0)
      ensures ok ==> state == Apply(old(state), c) && calls == old(calls) + [c] && answers == old(answers) - 1
      ensures !ok ==> state == old(state) && calls == old(calls) && answers == old(answers)
    {
      if answers == 0 { return false; }
      answers := answers - 1;
      calls := calls + [c];
      state := Apply(state, c);
      return true;
    }
  }

  // Makes the calls in order and stops at the first that fails, leaving the
  // process at the state after the calls made.
  method ApplyLive(x: Xray, p: Plan, want: LiveConfig, ghost was: LiveConfig) returns (ok: bool)
    requires Tagged(want) && IsLivePlan(p, was, want) && x.state == Running(was) && x.calls == []
    modifies x
    ensures |x.calls| <= |Calls(p, was, want)| && x.calls == Calls(p, was, want)[..|x.calls|]
    ensures x.state == After(p, was, want, |x.calls|)
    ensures ok <==> |x.calls| == |Calls(p, was, want)|
    ensures ok <==> old(x.answers) >= |Calls(p, was, want)|
  {
    hide *;
    var calls := CallList(p, want, was);
    ok := RunCalls(x, p, was, want, calls);
  }

  method CallList(p: Plan, want: LiveConfig, ghost was: LiveConfig) returns (calls: seq<Call>)
    requires IsLivePlan(p, was, want)
    ensures calls == Calls(p, was, want)
  {
    StagesStaged(p, was, want);
    hide Staged, IsLivePlan, Rmos, Rmis, Ados, Adis, DependentsFirst, Reversed, Among;
    var addOut, addIn := Elems(p.addOut), Elems(p.addIn);
    var changed := DependentsFirst(p.dialerOf, Keep(Among(addOut), p.rmOut));
    var ups := Reversed(DependentsFirst(p.dialerOf, p.addOut));
    var changedIn := Keep(Among(addIn), p.rmIn);
    var goneIn := Keep(Not(Among(addIn)), p.rmIn);
    var gone := DependentsFirst(p.dialerOf, Keep(Not(Among(addOut)), p.rmOut));
    assert StagesOf(p) == Stages(changed, ups, changedIn, p.addIn, p.routing, goneIn, gone);
    calls := Rmos(changed) + Ados(ups, want) + Rmis(changedIn) + Adis(p.addIn, want);
    calls := calls + if p.routing then [AdRules(want.routing)] else [];
    calls := calls + Rmis(goneIn) + Rmos(gone);
  }

  method RunCalls(x: Xray, p: Plan, ghost was: LiveConfig, want: LiveConfig, cs: seq<Call>) returns (ok: bool)
    requires Tagged(want) && IsLivePlan(p, was, want) && cs == Calls(p, was, want)
    requires x.calls == [] && x.state == Running(was)
    modifies x
    ensures |x.calls| <= |cs| && x.calls == cs[..|x.calls|] && x.state == After(p, was, want, |x.calls|)
    ensures ok <==> |x.calls| == |cs|
    ensures ok <==> old(x.answers) >= |cs|
  {
    hide Calls, IsLivePlan;
    for i := 0 to |cs|
      invariant |x.calls| == i && x.calls == cs[..i] && x.state == After(p, was, want, i)
      invariant x.answers == old(x.answers) - i
    {
      EveryCallLegal(p, was, want, i);
      ok := x.Api(cs[i]);
      if !ok { return; }
      assert cs[..i + 1][..i] == cs[..i];
    }
    return true;
  }
}
