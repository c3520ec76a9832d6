# emx steering, verified

emx runs an xray child and steers it: it compiles entries, inbounds and proxy
pools into an xray config, moves the running process from one config to the
next with ordered API calls, ranks the members of every pool from health and
chain probes, parks dead members, and accounts for traffic. This project models
that decision code in Dafny and proves what it promises.

`dafny verify dfyconfig.toml` checks everything.

The model has three layers.

**Fail-closed live reconfiguration.** `Generate.dfy` is the config compiler,
`LivePlan.dfy` the diff of two configs, `LiveApply.dfy` the ordered call sequence
and the process it drives: maps from tag to outbound and inbound, a default tag
and a routing table. `RoutingTable.dfy` interprets the routing table; the balancer's
choice among the members its selectors match (as prefixes) is left arbitrary.
`FailClosed.dfy`, `LiveSafety.dfy` and `NoLeak.dfy` prove that no state between
two calls lets the traffic of a master that obeys its dialer out of this box, and
that no outbound is ever present without the hop it dials through;
`LoopbackMaster.dfy` is a master that does not obey. `Targets.dfy` reads off a
compiled config what became of each entry, listener and member, and where each
listener's target leads. `OwnPool.dfy` shows in whose
pool a master's traffic ends, and `Rotation.dfy` when a balancer has nothing to
send to in the middle of a live apply. `Sessions.dfy` adds the supervisor's choice
between a live apply and a restart, and the clients connected across it;
`Supervision.dfy` shows what xray runs over everything that can happen.

**Pool steering.** `NodeScores.dfy`, `ChainProbe.dfy`, `StableRanking.dfy`,
`AgileRanking.dfy`, `PickSlots.dfy` and `BalancerPick.dfy` are the scores, the chain
verdicts, the two rankings and what reaches the balancer; `Preference.dfy` and
`AgilePreference.dfy` say whom the rankings prefer, in terms of the recorded
samples and verdicts alone. `NodePark.dfy` parks
dead members with a doubling back-off and `ParkDue.dfy` shows that it parks them
when their time is up; `PoolHistory.dfy` draws the statistics,
`AutoStrategy.dfy` switches a pool's mode by them.

**Supporting algorithms.** `ProbeBatch.dfy` (first-fit packing, halving blame),
`DialerRefs.dfy`, `DialerGraph.dfy` and `EntryTable.dfy` (dialer fields, cycle
detection, bulk edits and the table they keep sound), `StreamSettings.dfy`,
`ShareLink.dfy` and `LinkMeaning.dfy` (share links to outbounds and back, and what
an outbound holds of its link), `SlotAlloc.dfy` (slot indices), `Traffic.dfy` (counter deltas, byte caps).
`Text.dfy`, `Sorting.dfy`, `Tags.dfy`, `Names.dfy`, `XrayConfig.dfy` and
`Wrappers.dfy` are what the others share.

Where the source updates state step by step the model does too: classes with
the source's fields (`NodePicker`, `ChainScores`, `Slot`, `Parker`, `Classifier`,
`NodeHistory`, `Xray`, `Supervisor`, `Walker`, `Store`, `Prober`, `Allocator`,
`Sampler`, `CapWatch`) and methods with the source's loops, each proved equal to
a function of the old state; the theorems are about those functions. Each main
function also has theorems that speak only of what goes in and what comes out:
target texts, samples and their counts, the fields of an outbound, what runs.

## What the proofs found

- Distinct valid names can share a tag: `a b` and `a.b` both become `a_b`
  (`Names.NamesCollide`). Two names do exactly when, stripped of spaces, dots and
  underscores at their ends, they differ only in what their gaps are made of
  (`Names.SharedTagIff`); names of letters, digits, dashes and inner underscores
  never do (`Names.PlainNamesApart`). Results that need distinct tags say so of the
  tags.
- The check on masters refuses hysteria only. A loopback master passes it, and what
  is sent to it leaves by the direct outbound although it dials its own hop
  (`LoopbackMaster.LoopbackMasterLeaks`). At every point of a live apply, a
  connection leaves other than by a pool member exactly when one of the outbounds it
  is handed along, by loopbacks and dialers, sends it straight off the box; as many
  hops as there are outbounds decide it (`NoLeak.LeaksExactlyWhen`). Where only
  hysteria ignores its dialer, loopback is the one protocol the check misses
  (`NoLeak.AllowedObeys`).
- A live apply adds before it removes, but a member whose outbound changes under its
  own tag goes down first. A pool is left empty in the middle exactly when that
  happens to every member its balancer catches (`Rotation.PoolNeverEmptyIff`); a full
  rotation to other members is never empty (`Rotation.FullRotation`).
- A picked member's tag is a selector, and selectors are prefixes, so a balancer
  told to use `xray-a` also spreads onto a loaded `xray-ab`
  (`BalancerPick.SelectorCatchesLongerName`); `BalancerPick.CatchesOnlyActiveIff`
  says exactly when it does not.
- The API's own routing rule names the tag `api`, which is not an outbound of the
  config; it is the one rule that does not resolve to one (`FailClosed.RulesResolve`).
- An arbitrary pair of closed configs can leave an outbound without its dialer in
  the middle of a live apply: exactly when the new config drops an outbound whose
  dialer it replaces (`LiveSafety.DialersAlwaysPresent`). Two compiled configs
  never do (`NoLeak.MasterNeverWithoutDialer`).
- A share link does not always come back from the outbound it made. Exactly what
  is lost is `ShareLink.Carries`: a server name of spaces taken from `peer`, an
  `alpn` list without an element, a certificate pin that is still only
  white space after normalising (a tab: only spaces and colons are removed), an
  endpoint in a legacy ss payload that no URL can name, and `vcn` of a hysteria2
  link. `ShareLink.LostOptions` gives three such links. A label with a plus sign
  (or a percent sign that reads as an escape) does not come back either, and an
  empty one comes back as the host (`ShareLink.LabelRoundTrip`).
- Not every client that loses access is cut off, although a plan that revokes a
  credential restarts. The plan compares a socks account as `user:password` in one
  text, so replacing user `a:b`, password `c` by user `a`, password `b:c` applies live
  and leaves the old login connected (`Sessions.RespelledAccountUnseen`). And a socks
  inbound without a user has no credential at all, so giving it a user, or disabling
  or deleting it while another inbound listens, applies live and leaves everyone on
  it connected (`Sessions.ClosedInboundUnseen`). These two are the only ways:
  `Sessions.LiveApplyKeepsIff`, and over runs `Sessions.SessionsAlwaysAuthorised` with
  `Sessions.UnsafeApplyStrands`.
- Interface names can share a tag as well: `a.b` and `a:b` do
  (`Targets.IfaceNamesCollide`), and then both inbounds leave by the one whose
  inbound comes first. Every targeted interface is reached exactly when no two of
  them share a tag (`Targets.IfacesReachedIff`).
- Parking's check that a member is left never decides anything: beside a live member
  at least two are left when a dead one is looked at, so a dead node is parked
  exactly when another member answers and its time is up (`ParkDue.ParkedIff`).
- A stored traffic total falls short of the bytes carried by exactly the readings
  that restarts hide from the poller (`Traffic.StoredAgainstCarried`).

## Model

| member | source | states |
|---|---|---|
| Tags.SlotPrefixSeparates | core/xray/dialer.go:321-323 | a slot's member prefix starts no other slot's member tag, whatever the decimal indices: `slot1-out-` never matches slot 11 |
| Tags.SlotInTagInjective | core/xray/dialer.go:321 | slots share an inbound tag only if they are one slot |
| Tags.SlotBalTagInjective | core/xray/dialer.go:328-330 | a balancer tag determines its slot and its master's tag part |
| Tags.TagFamilies | core/xray/dialer.go:321-366 | entry, dialer, interface, slot and fixed tags never coincide, for any names and indices |
| Names.NormalizeNameIs | core/xray/models.go:280-282 | normalising is idempotent, trims, and empties only blank names |
| Names.SharedTagIff | core/xray/ports.go:78-86 | for all names: equal tag parts exactly when the names, stripped of separators and underscores at their ends, agree but for their gaps (a run of separators or one underscore) |
| Names.PlainSanitized | core/xray/ports.go:78-86 | a name is its own tag part exactly when it is made of tag characters with no underscore at either end, and every tag part is such a name |
| Names.PlainNamesApart | core/xray/ports.go:78-86 | such names share a tag only if they are equal |
| Names.NamesCollide | core/xray/models.go:277-299 | two distinct names the validation accepts have one tag |
| Generate.EmitEntries | core/xray/config.go:61-93 | the entry loop produces the entry outbounds of the specification: enabled entries only, masters wired to their dialer, to block, or replaced by a blackhole |
| Generate.EmitIfaces | core/xray/config.go:94-112 | one freedom outbound per interface that a target names, in order, once |
| Generate.EmitFront | core/xray/config.go:114-138 | the inbounds and rules of the specification; an incomplete inbound, an unreadable target or one without an outbound is an error |
| Generate.BuildBalancer | core/xray/config.go:299-336 | selectors and fallback of the specification: the active loaded picks and the next one, or the slot prefix and its first loaded member |
| Generate.EmitMembers | core/xray/config.go:220-238 | the loaded members' outbounds: parseable, tunnelling ones only |
| Generate.EmitSlot | core/xray/config.go:188-247 | a slot's inbound, hops, members, rules and balancers, per master |
| Generate.EmitPools | core/xray/config.go:188-247 | all slots' parts, in order |
| Generate.Compile | core/xray/config.go:36-274 | the whole config is the specified one, or the same error |
| Generate.OrderIrrelevant | core/xray/config.go:25-42 | the same config, whatever order entries and inbounds with distinct names and slots with distinct indices come in |
| FailClosed.CompiledSound | core/xray/config.go:36-274 | every compiled config has block first and is made only of known families of outbounds, inbounds, rules and slot-confined balancers |
| FailClosed.RulesResolve | core/xray/config.go:126-247 | every rule of a compiled config names an outbound or balancer that is in it, the api rule excepted |
| FailClosed.MasterFailsClosed | core/xray/config.go:61-92 | each enabled master is a blackhole, or dials block, or dials its own hop whose user its own slot's rule sends to its own balancer; with distinct slot indices that balancer catches only loaded members of that slot and falls back to one of them or to block |
| FailClosed.MasterReachesOwn | core/xray/config.go:299-336 | the balancer in force for a slot's master catches only that slot's loaded members, and its fallback is one of their tags or block |
| FailClosed.SlotHops | core/xray/config.go:188-247 | the hop, its user, its rule and its balancer of each master of a slot fit together |
| FailClosed.PrefixCatchesOwnMembers | core/xray/config.go:299-336 | in a compiled config a slot's prefix matches exactly that slot's loaded members |
| FailClosed.BalancerConfined | core/xray/config.go:299-336 | a slot balancer names only its own slot's members, or block as the fallback |
| Targets.TargetReached | core/xray/config.go:358-374 | in a compiled config whose listening inbounds have distinct tags, the rule in force for one, whoever the user, leads to `direct` exactly when its target is blank or `direct`, to the entry a target `xray:n` or `master:n` names, which is there and enabled, and to the interface's outbound for `iface:x`; no other target is compiled |
| Targets.OwnRule | core/xray/config.go:126-138 | an inbound's own rule is the one in force for it |
| Targets.FormsAre | core/xray/models.go:239-259 | a target's text decides its kind and name: no text is of two kinds or says two names |
| Targets.CompilesIff | core/xray/config.go:36-138 | a config is compiled exactly when every enabled entry's outbound parses and every listening inbound is complete and targets direct, an enabled entry or an interface |
| Targets.IfacesReachedIff | core/xray/config.go:94-112 | every interface an enabled inbound targets has one outbound under its tag, a freedom one bound to it, if and only if no two of them share a tag |
| Targets.IfaceNamesCollide | core/xray/ports.go:78-86 | two interface names that do |
| Targets.EntryCarried | core/xray/config.go:61-93 | an enabled entry is in the config as stored, but for its dialer: its own hop with a slot, block for a master without, a blackhole for a hysteria master |
| Targets.ListenerCarried | core/xray/config.go:378-430 | an enabled inbound with a port or a socket is in the config on that port with exactly its own clients or its one socks account |
| Targets.OnlyListeners | core/xray/config.go:114-155 | nothing else listens but the api and the slots |
| Targets.MemberCarried | core/xray/config.go:220-238 | under a slot's prefix the config holds exactly the slot's members that parse and tunnel, as stored |
| RoutingTable.RuleFor | core/xray/config.go:126-137 | the rule in force is the first that matches the inbound and user; none means none matches |
| RoutingTable.BalancerFor | core/xray/config.go:299-336 | the balancer found carries the tag asked for |
| LivePlan.SlotInTagMatches | daemon/xray_live.go:128-129 | every slot's inbound is recognised as one, so its hops are no credentials |
| LivePlan.ParseLiveConfig | daemon/xray_live.go:42-86 | succeeds exactly when all tags are present and distinct, and then decomposes the config into its parts |
| LivePlan.DiffTagged | daemon/xray_live.go:249-263 | removals and additions are exactly the outdated and the missing tags, sorted |
| LivePlan.FindRevoked | daemon/xray_live.go:199-209 | finds a credential an inbound no longer accepts exactly when there is one |
| LivePlan.MergeDialers | daemon/xray_live.go:210-218 | the dialers of both configs, the new one's winning |
| LivePlan.FindTakenDown | daemon/xray_live.go:221-238 | the unchanged outbounds that go down with their dialer, and no others |
| LivePlan.PlanLive | daemon/xray_live.go:192-245 | a restart exactly when fixed sections, the default outbound or a credential change; else the exact plan |
| LiveApply.EveryCallLegal | daemon/xray_live.go:292-343 | no call removes an absent tag or adds a present one, at any point of the sequence |
| LiveApply.LiveApplyConverges | daemon/xray_live.go:284-343 | the sequence run on the old process ends with exactly the wanted outbounds, inbounds and routing, and is the whole wanted process, if and only if fixed sections and default outbound agree, which no call changes |
| LiveApply.UnchangedDownOnlyForDialer | daemon/xray_live.go:221-238 | an unchanged outbound is taken down only when its dialer is replaced or removed |
| LiveApply.AfterIsStateAt | daemon/xray_live.go:292-343 | the process after the first k calls, for every k, in closed form |
| LiveApply.Xray.Api | daemon/xray_live.go:366-377 | an API call that is answered has its effect on the process and only then |
| LiveApply.ApplyLive | daemon/xray_live.go:292-343 | makes a prefix of the sequence, all of it exactly when it reports success, and leaves the process at the state after that prefix |
| LiveApply.CallList | daemon/xray_live.go:292-343 | the ordered call list of a plan |
| LiveApply.RunCalls | daemon/xray_live.go:292-343 | stops at the first unanswered call |
| LiveSafety.DialersAlwaysPresent | daemon/xray_live.go:265-343 | every intermediate state has every dialer present, if and only if no dropped outbound dials through a replaced one |
| LiveSafety.OrphanDetached | daemon/xray_live.go:292-343 | the very state in which such an outbound dials nothing |
| LiveSafety.SplitPoint | daemon/xray_live.go:265-274 | dependents-first ordering permutes the tags and puts all dependents before the rest |
| NoLeak.OnTheWaySound | daemon/xray_live.go:284-343 | every state between two sound configs is sound |
| NoLeak.NoLeakWhileReconfiguring | daemon/xray_live.go:221-343 | at every point of a live apply between compiled configs, for every balancer health and every set of protocols that ignore their dialer, a connection whose rule names a master whose protocol obeys its dialer ends at a pool member, at block, or nowhere |
| NoLeak.LeaksExactlyWhen | core/xray/dialer.go:368-393 | for every connection, at every point of a live apply between compiled configs: it never leaves but by a pool member exactly when no outbound on its chain of loopbacks and obeyed dialers, of as many as the process has, sends it straight off the box |
| NoLeak.SafeIff | core/xray/dialer.go:368-393 | the same for traffic handed to any tag of any process made of sound objects |
| NoLeak.MasterLeavesIff | core/xray/dialer.go:374-393 | a master is itself such an outbound exactly when its protocol neither obeys its dialer nor is a loopback |
| NoLeak.AllowedObeys | core/xray/dialer.go:378-393 | where only hysteria ignores its dialer, a master the check lets through obeys its dialer exactly when it is no loopback |
| LoopbackMaster.LoopbackMasterLeaks | core/xray/dialer.go:368-393 | a compiled config with a loopback master that the check lets through, with its slot and its own hop as dialer, whose traffic leaves by the direct freedom outbound |
| NoLeak.MasterNeverWithoutDialer | daemon/xray_live.go:210-343 | between compiled configs no state holds an outbound whose dialer is missing |
| NoLeak.NoneOrphaned | core/xray/config.go:61-92 | two compiled configs never orphan an outbound |
| NoLeak.CompiledAttached | core/xray/config.go:61-92 | every dialer a compiled config names is in it |
| NoLeak.TargetsArePlain | core/xray/config.go:188-247 | what anything dials through in a compiled config dials nothing itself, in any other compiled config |
| NoLeak.HopSafe | core/xray/config.go:188-247 | traffic through a master's hop, present or not, never reaches a freedom outbound |
| NoLeak.LoginSafe | core/xray/config.go:188-247 | neither does traffic of any user through a slot's port |
| NoLeak.SlotHandlerHarmless | core/xray/config.go:299-336 | whatever user logs into a slot, and whatever the balancer picks, is handed to a member or block |
| OwnPool.MasterEndsInOwnPool | core/xray/config.go:61-247 | in a running compiled config, traffic routed to a master whose protocol obeys its dialer leaves by a loaded member of that master's own slot, or does not leave |
| OwnPool.HopEnds | core/xray/config.go:188-247 | so does whatever is dialled through a slot master's hop, whatever its balancer makes of the members' health |
| OwnPool.SlotHandsOn | core/xray/config.go:299-336 | a slot hands its master's traffic to one of its loaded members or to block |
| Rotation.NeverEmptyIff | daemon/xray_live.go:284-343 | the balancer in force catches a present outbound after every number of calls exactly when not all the old outbounds it catches are taken down first, and it has one in the new config |
| Rotation.PoolNeverEmptyIff | daemon/xray_live.go:284-343 | for a slot's master between compiled configs: exactly when some member it had is kept unchanged or dropped, and a member is loaded after the change |
| Rotation.FullRotation | daemon/xray_live.go:284-343 | a pool none of whose old members is wanted any more is never empty on the way to a pool with members |
| Rotation.CatchesSome | core/xray/config.go:299-336 | a slot's balancer has something to catch exactly when a member is loaded |
| Sessions.LiveApplyKeepsIff | daemon/xray_live.go:199-209 | with at most one account an inbound, a live apply keeps letting in everyone it let in if and only if no account turns into a different one with the same user:password text and no inbound that asks for no login goes or starts asking |
| Sessions.CompiledOneAccount | core/xray/config.go:394-401 | every compiled config has at most one account an inbound |
| Sessions.CompiledRoutable | daemon/xray.go:741-750 | a compiled config holds an inbound that is not the box's own exactly when some enabled inbound has a port or a socket: what the supervisor runs xray for |
| Sessions.RespelledAccountUnseen | daemon/xray_live.go:150-175 | two compiled configs, for any two such accounts: the supervisor applies the change live, and a session on the old login, accepted before and not after, stays |
| Sessions.ColonInUser | daemon/xray_live.go:169-173 | such accounts exist |
| Sessions.ClosedInboundUnseen | core/xray/config.go:394-401 | two compiled configs, for a socks inbound without a user that is disabled beside another listening one, or given a user: the supervisor applies the change live, and an anonymous session, accepted before and not after, stays |
| Sessions.PlainNeverRespelled | daemon/xray_live.go:169-173 | without colons in socks user names no account is ever respelled |
| Sessions.StepKeepsAuthorised | daemon/xray.go:126-320 | every event keeps every session one the config in force lets in, unless it applies live a change that respells an account or closes an open inbound |
| Sessions.SessionsAlwaysAuthorised | daemon/xray.go:126-320 | so over every run of reconciles, live applies, restarts, crashes and logins, also in the middle of an apply, anonymous clients included |
| Sessions.UnsafeApplyStrands | daemon/xray.go:232-283 | and from every state, one login before such a live apply to a config worth running leaves a session the new config would not let in |
| Sessions.LiveDecided | daemon/xray.go:288-320 | whether a change applies live is settled by the two configs and the API's answers alone |
| Sessions.LiveRefused | daemon/xray_live.go:192-209 | a change that needs a restart never applies live |
| Sessions.LiveAgrees | daemon/xray_live.go:192-198 | a change applies live only if log, observatory settings and the default outbound agree |
| Sessions.LiveReaches | daemon/xray_live.go:284-343 | the calls of a live apply that succeeds turn the old config's process into the new one's, fixed sections included |
| Sessions.AppliesLiveIff | daemon/xray.go:288-320 | a change applies live exactly when the calls lead to the whole new process, no credential's text is lost, and the API answers as many calls as it takes |
| Sessions.Supervisor.TryLive | daemon/xray.go:288-320 | reports exactly whether the change applied live, and only if log, observatory and default outbound agree |
| Sessions.Supervisor.ApplyLocked | daemon/xray.go:232-283 | one apply step: nothing to do, start, live apply or restart, with sessions dropped exactly where the process goes down; a config worth running that can be written ends up running and in the file, one with nothing to serve stops xray |
| Supervision.AttemptEnds | daemon/xray.go:232-283 | whatever the API answers, a reconcile or forced restart to a config worth running that can be written ends with xray running it and the file holding it; one with nothing to serve stops xray; a failed write leaves a reconciled xray alone |
| Supervision.AttemptCuts | daemon/xray.go:232-283 | nobody is cut off by a reconcile that changes nothing or applies live, and everybody by any other that succeeds |
| Supervision.RunsLastWritten | daemon/xray.go:126-283 | over every run the file holds the last config written and xray runs that one or nothing |
| Supervision.RunsUntilChanged | daemon/xray.go:126-283 | over every run, after a successful reconcile xray runs its config through every login, crash and failed write until another is written or one stops it |
| Supervision.StaysStopped | daemon/xray.go:139-154 | a stopped xray starts again only by an attempt that is written, or by its last config for want of a new one |
| NodeScores.NodePicker.Observe | daemon/nodepick.go:81-138 | one poll folded into the scores, records of unloaded members dropped, an outage folded into nothing |
| NodeScores.FoldPoll | daemon/nodepick.go:110-136 | each loaded member's record is folded once from its own sample |
| NodeScores.Survey | daemon/nodepick.go:87-98 | the loaded tags, and whether any was sampled and any answered |
| NodeScores.ObservedSane | daemon/nodepick.go:81-138 | every poll keeps success rates in 0..1 and round trips non-negative |
| NodeScores.OutageKeepsRecords | daemon/nodepick.go:99-109 | while the uplink is down no member's tier changes |
| NodeScores.CostNonNegative | daemon/nodepick.go:152-166 | a recorded member's cost is never negative |
| NodeScores.FirstSample | daemon/nodepick.go:119-135 | a first sample is taken at its word: success 1 exactly without a loss, 0 exactly with losses only, else the share answered; its delay, if alive, is the round trip |
| NodeScores.SamplePulls | daemon/nodepick.go:119-125 | a later one raises the success rate exactly when it answered a larger share, lowers it exactly when a smaller one, and never past that share |
| NodeScores.CleanRaises | daemon/nodepick.go:119-125 | a sample without a loss never lowers it, one of losses only never raises it |
| NodeScores.RoundTripPulls | daemon/nodepick.go:127-134 | a live answer is the last round trip and pulls the average toward itself, never past it; anything else moves neither |
| NodeScores.SampleTier | daemon/nodepick.go:126-150 | a loaded member is unknown exactly without a ping, dead exactly when it does not answer, healthy exactly with no ping lost, four in five answered and a round trip; it went down exactly when it was up when last pinged |
| NodeScores.CleanStretch | daemon/nodepick.go:119-135 | over any stretch of clean samples the gap to a full success rate closes by the same factor each |
| NodeScores.HealthyIff | daemon/nodepick.go:119-150 | after such a stretch a member is healthy exactly when what it is short of is at most a fifth |
| NodeScores.TenCleanHeal | daemon/nodepick.go:119-150 | ten clean samples make any recorded member healthy, nine do not heal one that never answered |
| ChainProbe.ChainScores.Record | daemon/chainprobe.go:105-135 | one probe blended into the pair's record |
| ChainProbe.ChainScores.FoldRound | daemon/chainprobe.go:475-508 | the round's fold: masters nothing passed for are left out |
| ChainProbe.RecordedSane | daemon/chainprobe.go:105-135 | recorded pass rates stay in 0..1 |
| ChainProbe.RoundSane | daemon/chainprobe.go:475-508 | so over a whole round |
| ChainProbe.ViewSane | daemon/chainprobe.go:138-159 | verdict costs handed to a pick are never negative |
| ChainProbe.DownMasterBlamesNoNode | daemon/chainprobe.go:475-508 | a master that failed through every member probed keeps every verdict |
| ChainProbe.RecentProbesDecide | daemon/chainprobe.go:75-135 | two failed probes in a row make a member chain-failed, a full pass makes it good, whatever came before |
| ChainProbe.FirstProbe | daemon/chainprobe.go:105-135 | a pair's first probe is taken at its word: the share passed, and its time if any did |
| ChainProbe.ProbePulls | daemon/chainprobe.go:105-135 | a later one moves pass rate and time halfway to its own, and no other pair |
| ChainProbe.VerdictSeen | daemon/chainprobe.go:75-159 | a verdict counts for half an hour, as proven with at least half the probes passed and one timed, as failing otherwise |
| ChainProbe.SteadierCostsLess | daemon/chainprobe.go:75-83 | of two proven members the one that passes as often and as fast costs no more, and less if it does one better |
| StableRanking.RankTotal | daemon/nodepick.go:222-266 | the stable comparator is a strict total order on members with distinct keys |
| StableRanking.Pick | daemon/nodepick.go:172-305 | the pick computed by the loops is the specified one |
| StableRanking.CutChainFailed | daemon/nodepick.go:280-298 | the two trimming loops cut exactly the chain-failed tail, when something better remains |
| StableRanking.StablePickFixedPoint | daemon/nodepick.go:181-305 | fed back as the incumbents, a pick returns itself: same keys, same order, same active count |
| StableRanking.NoChainBadPicked | daemon/nodepick.go:198-305 | while any member ranks better than chain-failed, no picked key, active or spare, is chain-failed |
| StableRanking.DisplacedOnlyIfBeaten | daemon/nodepick.go:222-273 | an incumbent loses its place to a healthy newcomer only when beaten by the sticky margin |
| StableRanking.PickKeys | daemon/nodepick.go:280-305 | what a pick consists of: the kept prefix of the ranking, active ones first, sorted by key |
| StableRanking.RecordedCandsSane | daemon/nodepick.go:198-218 | recorded scores and verdicts only produce candidates the fixed point covers |
| Preference.PlacedByStanding | daemon/nodepick.go:141-150 | nobody is left out, or left the spare, for a member of worse standing, healthy before unknown before suspect before failing the master before dead, nor for an untried one if proven |
| Preference.PlacedByCost | daemon/nodepick.go:152-166 | unless it was there already and the other not, a healthy member costs no more than one as well proven that it is placed over: its chain latency, or its round trip over the square of its success rate |
| Preference.PlacedByMargin | daemon/nodepick.go:222-273 | an incumbent makes way for a newcomer exactly when that costs less than the incumbent's cost less a fifth and forty milliseconds |
| Preference.PlacedBySpeed | daemon/nodepick.go:152-166 | a healthy untried member is never placed over one that answers at least as often and as fast, one of them strictly, and is favoured no less |
| Preference.PlacedByRecord | daemon/nodepick.go:247-265 | among members of one worse standing more answers come first, then a round trip, then the faster one |
| Preference.PickSize | daemon/nodepick.go:213-305 | there is a pick exactly when some member was pinged; two of it at most are active, and without a failing member it holds three, or all |
| AgileRanking.PickAgile | daemon/nodepick.go:318-413 | the agile pick computed is the specified one |
| AgileRanking.SplitMembers | daemon/nodepick.go:336-365 | one pass sorts members into live, live but chain-failed, and the rest |
| AgileRanking.AgileActiveExact | daemon/nodepick.go:318-413 | with a live member, the active set is exactly the min(4, n) cheapest eligible ones and the spare is not active |
| AgileRanking.FailedOnlyAsLastResort | daemon/nodepick.go:380-385 | a live chain-failed member is eligible exactly when no other live member is better |
| AgileRanking.AnyLiveIsEligible | daemon/nodepick.go:380-388 | there is an eligible member exactly when some member is live |
| AgileRanking.AgileActiveStable | daemon/nodepick.go:318-413 | under unchanged scores the active set is stable after one more pick |
| AgileRanking.AgilePickSettles | daemon/nodepick.go:318-413 | and the whole pick, spare included, after two |
| AgilePreference.AgilePlaced | daemon/nodepick.go:336-413 | an active member, or a live spare, is placed over a live one only if it does not fail the master (unless all do), is as well proven, and by its last round trip or chain latency costs no more, a newcomer less by the margin |
| AgilePreference.AgileSpare | daemon/nodepick.go:388-413 | with a member live at most four are active, all live; a spare that is down comes only after every live one there is to choose from, and none that is down has a better record |
| AgilePreference.AgileFallsBack | daemon/nodepick.go:386-388 | with nobody live the agile pick is the stable one |
| PickSlots.PickForSettles | daemon/nodepick.go:418-428 | re-picking a slot from its own pick settles: at once, or after two rounds when agile |
| PickSlots.SlotPicksSettle | daemon/nodepick.go:433-461 | so do a slot's pool pick and every master's own pick |
| PickSlots.Slot.PickSlot | daemon/nodepick.go:433-450 | writes exactly the specified pool pick and master picks |
| PickSlots.PickMasters | daemon/nodepick.go:439-449 | a master gets its own pick exactly when some member has a verdict for it |
| PickSlots.PickFrom | daemon/nodepick.go:418-428 | dispatch by strategy: pinned, agile or stable |
| PickSlots.StaleChangesNothing | daemon/chainprobe.go:138-159 | a verdict older than half an hour changes no pick of a slot |
| BalancerPick.ChainFailedNeverNamed | core/xray/config.go:309-330 | while some member ranks better, a chain-failed one is neither selector nor fallback of the balancer built from the stable pick |
| BalancerPick.BalancerNamesOnlyPicked | core/xray/config.go:309-330 | once a pick is loaded, the balancer names only picked, loaded members |
| BalancerPick.BalancerReads | core/xray/config.go:299-336 | each master's balancer selects as many loaded members of its own pick, else of the pool's, as are active, in order, the next or the first as fallback; with none loaded, the whole slot by load, with a loaded member to fall back to, or block if there is none |
| BalancerPick.BalancerFollowsPick | core/xray/config.go:299-336 | with every pick loaded, the selectors are the stable pick's active members in order and the fallback is its spare |
| BalancerPick.CatchesOnlyActiveIff | core/xray/config.go:309-330 | the selectors catch only active members exactly when no loaded key's tag continues an active one's |
| BalancerPick.SelectorCatchesLongerName | core/xray/config.go:309-330 | a pool where they catch one more |
| NodePark.Parker.ObserveSlot | daemon/nodepark.go:141-196 | one slot's members folded in order, with the live siblings and the members left counted |
| NodePark.Parker.SeeDead | daemon/nodepark.go:162-194 | a dead member's clock, wait, park length and trial flag |
| NodePark.Parker.Observe | daemon/nodepark.go:116-200 | records of members no pool holds dropped unless parked; agile and manual slots skipped |
| NodePark.Parker.Release | daemon/nodepark.go:203-221 | exactly the expired parks end, on trial; no expired park is left |
| NodePark.Parker.Unpark | daemon/nodepark.go:224-240 | exactly the given keys' records go, and those of them that were parked are reported |
| NodePark.ParkedWithSibling | daemon/nodepark.go:143-196 | a node is parked only while a different member of its slot answers pings, and with a member left in the slot |
| NodePark.ParksDouble | daemon/nodepark.go:116-221 | over every run of rounds, releases and unparks, a park after n trials failed in a row, as the trace of pings and reports counts them, lasts min(30 * 2^n, 360) minutes |
| NodePark.RecordAgrees | daemon/nodepark.go:116-240 | over every run, the trial flag, the park and the next length the parker keeps are those the trace calls for |
| NodePark.ParkTakesTime | daemon/nodepark.go:162-180 | over every run, a node that is parked had been dead for fifteen minutes, or three on trial, with no live ping since the round that first saw it so |
| NodePark.CountsFrom | daemon/nodepark.go:159-171 | over every run, a record's clock started in a round that saw the node dead, and no round since saw it alive |
| NodePark.LivePingErases | daemon/nodepark.go:159-161 | a live ping, with no dead one in another slot, erases the record |
| ParkDue.ParkedIff | daemon/nodepark.go:141-196 | in a round a node in one pool is parked exactly when all its pings failed, another member answers, and its clock has run fifteen minutes, three on trial |
| ParkDue.ClockRuns | daemon/nodepark.go:159-171 | over every run, from a round that sees it dead on, a node left alone keeps a clock started no later than then |
| ParkDue.DueIsParked | daemon/nodepark.go:116-196 | over every run, a node dead for that long and left alone is parked in the round that sees it dead still beside one that answers |
| NodePark.DropParked | daemon/nodepark.go:244-258 | keeps the members that are not parked, in order, or all of them |
| NodePark.NeverEmpties | daemon/nodepark.go:244-258 | dropping parked members never empties a pool, drops nobody else, and drops them all when one is left |
| PoolHistory.NodeTimeline | daemon/nodehistory.go:320-357 | the one-pass counters are the node's statistics by definition: flips are adjacent differing verdicts, uptime the alive share |
| PoolHistory.RoundLost | daemon/nodehistory.go:284-296 | a round is lost exactly when the ranked pick is not empty and all dead, with the uplink up |
| PoolHistory.CountLosses | daemon/nodehistory.go:281-308 | counts the maximal runs of lost rounds and sums their duration |
| PoolHistory.PoolStats | daemon/nodehistory.go:278-377 | a pool's statistics meet their plain definitions, nodes sorted by role, uptime and key |
| PoolHistory.PoolHealthUnique | daemon/nodehistory.go:278-377 | the definitions have one answer, whatever order members are met in |
| PoolHistory.UptimeRange | daemon/nodehistory.go:343-345 | uptime is -1 without a verdict, else 0..100, and 100 exactly when always alive |
| PoolHistory.NeverFlipped | daemon/nodehistory.go:320-345 | a node has no flip exactly when it was never seen both alive and dead, and full uptime exactly when seen alive and never dead |
| PoolHistory.UnjudgedIgnored | daemon/nodehistory.go:325-340 | dropping, adding or swapping unknown, parked, uplink-down and missing samples changes neither flips nor uptime |
| PoolHistory.RoundIgnored | daemon/nodehistory.go:325-340 | nor does inserting rounds that do not judge the node |
| PoolHistory.OutageIgnored | daemon/nodehistory.go:94-165 | a round recorded during an uplink outage judges no node and loses no pick |
| PoolHistory.NodeHistory.Record | daemon/nodehistory.go:94-165 | one round per loaded pool appended and trimmed, unloaded pools dropped |
| PoolHistory.NodeHistory.UplinkIsDown | daemon/nodehistory.go:102-111 | something was pinged and nothing answered |
| PoolHistory.TrimKeeps | daemon/nodehistory.go:182-190 | under a clock that does not go back, exactly the window's rounds are kept, newest last |
| AutoStrategy.Flapping | daemon/autostrategy.go:78-97 | the verdict and its evidence; positive exactly when the pick was lost often enough, or at least two nodes flip often and make up enough of those observed |
| AutoStrategy.Classifier.Evaluate | daemon/autostrategy.go:101-139 | one poll over all windows; pools no longer auto forgotten |
| AutoStrategy.PoolByItself | daemon/autostrategy.go:112-137 | a poll treats each pool by its own window and reports it exactly when its mode changed |
| AutoStrategy.SwitchesAlternate | daemon/autostrategy.go:101-139 | over every run a pool's switches alternate, to agile first |
| AutoStrategy.ReturnIsCalm | daemon/autostrategy.go:131-135 | a return to stable comes at least the calm time after every flapping round before it |
| AutoStrategy.AgileIsFlapping | daemon/autostrategy.go:125-130 | going agile takes a flapping round |
| AutoStrategy.ReturnsApart | daemon/autostrategy.go:101-139 | the i-th and j-th return to stable are at least (j - i) calm times apart |
| AutoStrategy.FlappyIff | daemon/autostrategy.go:78-97 | as sets of nodes: flapping exactly when pick losses reach a positive threshold, or the nodes of known uptime that flip often are at least two and at least the given share of those of known uptime |
| AutoStrategy.GoesAgileIff | daemon/autostrategy.go:125-130 | over every run, a stable pool goes agile exactly in a round whose window of it flaps so |
| AutoStrategy.StaysStable | daemon/autostrategy.go:125-130 | without such a round it stays stable forever |
| AutoStrategy.ReturnsIff | daemon/autostrategy.go:131-135 | an agile pool returns to stable exactly in a round that sees it without flapping, the calm time after every round that saw it flap |
| ProbeBatch.PlanProbeBatches | core/xray/probe.go:144-169 | the nested loops compute first-fit packing |
| ProbeBatch.PlanPacked | core/xray/probe.go:137-169 | every item in exactly one batch, order kept, no batch empty, too long or with two equal hysteria endpoints, and none placed past a batch with room |
| ProbeBatch.Prober.RunBatch | core/xray/probe.go:220-301 | an instance that comes up measures every item of its batch, one that fails none |
| ProbeBatch.Prober.ProbeItems | core/xray/probe.go:199-214 | the recursion writes exactly the specified results |
| ProbeBatch.Prober.ProbeBatches | core/xray/probe.go:126-135 | batches one after another until cancelled |
| ProbeBatch.ProbeJudges | core/xray/probe.go:195-214 | however instances come up: halving ends, touches only the batch, and each item is measured by exactly one instance or fails with the error of an instance of its own |
| ProbeBatch.BadAreBlamed | core/xray/probe.go:195-214 | if an instance fails exactly when it holds a bad item, exactly the bad items fail, each with its own error |
| ProbeBatch.RequestJudges | core/xray/probe.go:92-135 | a whole request: unreadable items fail at once, each other item is judged once, and no instance exceeds a batch or holds two items with one hysteria endpoint |
| DialerRefs.ReadDialer | core/xray/dialer.go:61-84 | the references of a dialer field, or the error of its first bad element |
| DialerRefs.CanonicalDialer | core/xray/dialer.go:88-103 | the seen-set loop computes the canonical field |
| DialerRefs.CanonicalParses | core/xray/dialer.go:86-103 | the canonical field parses to the field's references, normalised, each once, and is its own canonical form |
| DialerRefs.OneRef | core/xray/dialer.go:61-84 | the word before the colon decides the kind of a reference, the rest is its name |
| DialerGraph.Walker.Visit | core/xray/dialer.go:119-148 | the search with its visiting set is the specified one and leaves the set as it was |
| DialerGraph.DetectIff | core/xray/dialer.go:105-150 | the check errs exactly when a cycle or a field that does not parse can be reached from the entry |
| DialerGraph.ChangesChecked | core/xray/dialer.go:105-150 | on an acyclic graph, every changed entry passing the check is equivalent to the changed graph being acyclic |
| DialerGraph.BulkKeepsAcyclic | daemon/server_methods.go:163-230 | so for a bulk edit against all proposed dialers |
| DialerGraph.StoredUpdated | daemon/server_methods.go:219-226 | what is written is the graph that was checked |
| DialerGraph.Store.ValidateDialer | daemon/server_methods.go:243-274 | references known and usable, and no cycle with the entry's own row holding the new dialer, in both directions |
| DialerGraph.Store.Collect | daemon/server_methods.go:163-190 | refuses duplicate or unknown ids and unreadable dialers, else collects the proposed dialers and the real changes |
| DialerGraph.Store.CheckChanges | daemon/server_methods.go:191-214 | every change allowed: its references, its outbound as a master, no inbound left targeting it |
| DialerGraph.Store.BulkDialer | daemon/server_methods.go:163-230 | saves exactly the acceptable requests, whole or not at all, and keeps the entry graph acyclic |
| EntryTable.AcceptableIff | daemon/server_methods.go:163-274 | on a sound table, acyclic, every reference usable, every master able to dial, every inbound's master one, a readable request is acceptable exactly when the table it would leave is sound |
| EntryTable.AlwaysSound | daemon/server_methods.go:163-230 | so over any number of bulk edits |
| StreamSettings.BuildStream | core/xray/link.go:302-364 | the stream settings hold exactly the options the query states |
| StreamSettings.ApplyTLS | core/xray/link.go:366-384 | the tls object of the query, with the fallback server name |
| StreamSettings.ApplyCertPin | core/xray/link.go:393-400 | the normalised pin and the verified name, when given |
| StreamSettings.RealitySettingsOf | core/xray/link.go:416-434 | the reality object of the query |
| StreamSettings.NormalizeCertPin | core/xray/link.go:405-414 | the loop normalises every part and drops empty ones |
| StreamSettings.PinIdempotent | core/xray/link.go:402-414 | normalising a normalised pin changes nothing |
| StreamSettings.SplitCommaList | core/xray/link.go:496-505 | the loop keeps the trimmed, non-empty parts |
| StreamSettings.PrintStream | core/xray/entrylink.go:152-212 | the printed query is the specified one |
| StreamSettings.QuerySays | core/xray/entrylink.go:150-212 | a query printed from a stream object states the options the object was built from |
| StreamSettings.StreamInjective | core/xray/link.go:302-434 | stream settings determine their options |
| StreamSettings.StreamRoundTrip | core/xray/entrylink.go:150-212 | buildStream of streamQuery gives a built stream back, exactly for the options a query can carry |
| ShareLink.TrojanStream | core/xray/link.go:85-113 | a trojan stream says tls unless it says reality |
| LinkMeaning.VlessSays | core/xray/link.go:53-81 | a vless link is accepted exactly with a host, a positive port and a user; its outbound calls that host on that port as that user, over the stream it asks for |
| LinkMeaning.TrojanSays | core/xray/link.go:85-113 | a trojan link likewise, by its password, over tls unless it says reality |
| LinkMeaning.HysteriaSays | core/xray/link.go:121-158 | a hysteria2 link by user and password run together, over tls to the name it gives |
| LinkMeaning.VmessSays | core/xray/link.go:181-224 | a vmess payload by its own fields |
| LinkMeaning.SsSays | core/xray/link.go:228-297 | a SIP002 link by the method and password its login is spelled from |
| LinkMeaning.LegacySays | core/xray/link.go:250-297 | a legacy link by its text: a login, the last at sign, a host and a numeral, and no other text is accepted |
| LinkMeaning.WsSays | core/xray/link.go:321-329 | a websocket stream under either name, with the path and host asked for |
| LinkMeaning.HttpUpgradeSays | core/xray/link.go:330-335 | an httpupgrade stream, likewise |
| LinkMeaning.GrpcSays | core/xray/link.go:336-341 | a grpc stream with its service name, multiplexed exactly when asked |
| LinkMeaning.HttpSays | core/xray/link.go:342-347 | an h2 stream with its path and host list |
| LinkMeaning.XhttpSays | core/xray/link.go:348-353 | an xhttp stream with its path, host and mode |
| LinkMeaning.TcpSays | core/xray/link.go:354-361 | plain tcp, with an http header exactly when asked for |
| LinkMeaning.SecuritySays | core/xray/link.go:302-434 | security is off exactly when the link asks for none, reality exactly when it says so, tls otherwise, each with the names, keys, alpn list and pin it gives |
| ShareLink.VlessRoundTrip | core/xray/link.go:53-81 | a vless link comes back exactly when its options can be carried |
| ShareLink.TrojanRoundTrip | core/xray/link.go:85-113 | a trojan link, likewise, with the host as fallback server name |
| ShareLink.VmessRoundTrip | core/xray/link.go:181-224 | a vmess payload, likewise, with the service name carried in the path |
| ShareLink.SsRoundTrip | core/xray/link.go:228-297 | a SIP002 link always comes back, a legacy one exactly when a URL can name its endpoint |
| ShareLink.HysteriaRoundTrip | core/xray/link.go:121-158 | a hysteria2 link comes back exactly without vcn |
| ShareLink.RoundTrip | core/xray/entrylink.go:12-148 | every link ParseLink accepts, printed from its outbound and parsed again, gives the same outbound if and only if Carries |
| ShareLink.LabelRoundTrip | core/xray/link.go:474-486 | a label survives a URL link exactly without plus signs and readable escapes; an empty one comes back as the host |
| ShareLink.LostOptions | core/xray/entrylink.go:97-115 | three links that parse and do not come back |
| SlotAlloc.AssignedIs | daemon/xray.go:658-696 | indices distinct and below 32, last time's kept, newcomers lowest free, min(n, 32) pools kept, one left out only when all 32 are taken |
| SlotAlloc.AlwaysValid | daemon/xray.go:658-696 | over every sequence of reconciles |
| SlotAlloc.IndexKept | daemon/xray.go:658-696 | a pool present in every reconcile of a stretch keeps its index whatever else comes and goes |
| SlotAlloc.Allocator.AssignSlotIndices | daemon/xray.go:663-696 | the two passes compute that assignment and return it sorted by index |
| SlotAlloc.Allocator.FirstPass | daemon/xray.go:667-673 | pools seen last time take their index |
| SlotAlloc.Allocator.SecondPass | daemon/xray.go:674-690 | the others take the lowest free one while there is one |
| Traffic.Sampler.Poll | daemon/traffic.go:52-98 | one poll: the cursor advanced for every counter, deltas stored for the kept tags |
| Traffic.Sampler.Aggregate | daemon/traffic.go:66-88 | per-tag sums of the deltas, resets included |
| Traffic.TrafficConserved | daemon/traffic.go:52-98 | over every sequence of polls, a kept tag's stored bytes are its last reading plus every reading just before an observed drop |
| Traffic.DeltasConserve | daemon/traffic.go:66-72 | the same for one counter's readings from any start |
| Traffic.StoredAgainstCarried | daemon/traffic.go:66-72 | with every process counting up from zero, the deltas and the readings hidden by restarts make up the bytes carried |
| Traffic.StoredIsCarriedIff | daemon/traffic.go:66-72 | the stored total never exceeds the bytes carried, and equals them exactly when every restart shows |
| Traffic.CapWatch.EnforceCaps | daemon/traffic.go:172-205 | a reconcile is asked for exactly when the set of users over their cap changes |
| Traffic.CapsAre | daemon/traffic.go:172-205 | after a check exactly the capped users over their cap are noted, others left alone |
| Traffic.CapsSettle | daemon/traffic.go:172-205 | checking again finds nothing to do |

## Left out

- xray itself, its API transport, the metrics endpoint and the config validator: answers, health and flaps are inputs, left arbitrary.
- JSON text and canonicalisation, base64, percent-escapes of URLs, sha256 and fnv ids: objects are compared as values, codecs are taken as inverse pairs and ids as injective; a link is modelled by its decoded parts.
- Non-ASCII text: spaces, case and characters are ASCII, and percent-escaped bytes of a label are characters.
- JSON numbers are integers; a fractional port is not modelled, nor is int64 overflow of a port or alterId.
- Brackets and zones in IPv6 literals: a host is readable when every character is one Go's URL parser takes in a host.
- Which outbound protocols ignore dialerProxy is left arbitrary, but for loopback, which is interpreted; the text of a loopback outbound stands for the inbound tag it names.
- The healing of old settings, mux and stall timeouts inside outbounds: their text is carried as is.
- Several tags in one API call: the model makes one call per tag, in the same order.
- The text of vless, vmess, trojan and hysteria credentials is taken to determine them: no id, password or auth string holds the separators.
- Float rounding: scores and costs are reals.
- The `poolOrder` list (its comparator is not transitive among unknown members), `duePairs` and `bestProven` (which pairs to probe next), `poolStrategy` (settings lookup) and `RenameDialerRef`: easy or without a property worth stating.
- Renames of pools, entries and members across the picker, the classifier and the history.
- ImportConfig, which makes no cycle check, and the other entry methods of the server; the store is a list of rows and a write either happens or not.
- Locks, nil receivers, logging and the text of log lines and most error messages; the order of released parks in the log.
- The watchdog, process reaping, socket cutting, ports, TLS keys, inbound templates and everything the user interface does.
- Pool history keeps no master names and no strategy label; a pool's windows reach the classifier under distinct keys.
- Traffic: store writes succeed, the display name and the hourly bucket of a row are not modelled, nor is pruning.
- Sessions.Supervisor.ApplyLocked: takes the clients that log in during a live apply as an input, each accepted by some state of that apply.
- StableRanking.Pick: the members' keys are taken to be distinct, as the resolver makes them.
- LiveSafety.DialersAlwaysPresent: takes both configs closed and the outbounds dialled through free of dialers of their own, as the compiler makes them.
