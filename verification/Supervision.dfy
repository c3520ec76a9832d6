// What xray runs, over everything that happens to the supervisor
// (daemon/xray.go: applyLocked, ForceRestart, startLastGoodLocked).
module Supervision {
  import opened Wrappers
  import opened XrayConfig
  import opened Sessions

  // A running process reflects the config it would be restarted from.
  predicate FileRuns(w: World) {
    w.running.Some? ==> w.file == w.running
  }

  predicate Applies(e: Event) { e.Reconcile? || e.ForceRestart? }

  // An attempt that gets as far as writing a config worth running.
  predicate Written(e: Event) {
    Applies(e) && Routable(e.a.cfg) && e.a.writeOk
  }

  // Whatever the api answers, an attempt on a config worth running that can be
  // written ends with xray running it; one with nothing to serve stops xray; one
  // whose write fails leaves a running xray alone, unless it was to restart anyway.
  lemma AttemptEnds(w: World, e: Event, w': World)
    requires FileRuns(w) && Step(w, e, w') && Applies(e)
    ensures Written(e) ==> w'.running == w'.file == Some(e.a.cfg)
    ensures !Routable(e.a.cfg) ==> w'.running == None && w'.file == w.file && w'.sessions == {}
    ensures Routable(e.a.cfg) && !e.a.writeOk ==>
              w'.file == w.file && w'.running == if e.Reconcile? then w.running else None
  {
    hide Routable, AppliesLive, AcceptedMidway;
  }

  // Nobody is cut off by a reconcile that has nothing to change or that applies
  // live; every other successful one starts a fresh process nobody is connected to.
  lemma AttemptCuts(w: World, e: Event, w': World)
    requires FileRuns(w) && Step(w, e, w') && Written(e)
    ensures e.Reconcile? && w.running.Some? && (w.running.value == e.a.cfg || AppliesLive(w.running.value, e.a)) ==>
              w.sessions <= w'.sessions && w'.restarts == w.restarts
    ensures e.ForceRestart? || w.running.None? ||
            (w.running.value != e.a.cfg && !AppliesLive(w.running.value, e.a)) ==>
              w'.sessions == {}
  {
    hide Routable, AppliesLive, AcceptedMidway;
  }

  lemma StepKeepsFile(w: World, e: Event, w': World)
    requires FileRuns(w) && Step(w, e, w')
    ensures FileRuns(w')
    ensures w'.file == if Written(e) then Some(e.a.cfg) else w.file
  {
    hide Routable, AppliesLive, AcceptedMidway, Accepts, AnyListening;
  }

  // The config of the last attempt that was written.
  function LastWritten(es: seq<Event>): Option<Config> {
    if es == [] then None
    else if Written(es[|es| - 1]) then Some(es[|es| - 1].a.cfg)
    else LastWritten(es[..|es| - 1])
  }

  // Over every run: the file holds the last config written, and xray runs that
  // one or nothing.
  lemma {:induction false} RunsLastWritten(ws: seq<World>, es: seq<Event>, n: nat)
    requires IsRun(ws, es) && n < |ws|
    ensures FileRuns(ws[n]) && ws[n].file == LastWritten(es[..n])
    ensures ws[n].running == None || ws[n].running == LastWritten(es[..n])
  {
    if n > 0 {
      hide Step, Written;
      RunsLastWritten(ws, es, n - 1);
      StepKeepsFile(ws[n - 1], es[n - 1], ws[n]);
      assert es[..n][..n - 1] == es[..n - 1];
    } else {
      assert es[..0] == [];
    }
  }

  // An event that can stop xray: nothing to serve, or a forced restart whose
  // write fails.
  predicate Stops(e: Event) {
    Applies(e) && (!Routable(e.a.cfg) || (e.ForceRestart? && !e.a.writeOk))
  }

  // After a successful attempt xray runs its config through every later login,
  // crash and failed write, until one that stops it or another that is written.
  lemma {:induction false} RunsUntilChanged(ws: seq<World>, es: seq<Event>, i: nat, n: nat)
    requires IsRun(ws, es) && i < n < |ws| && Written(es[i])
    requires forall j :: i < j < n ==> !Written(es[j]) && !Stops(es[j])
    ensures ws[n].running == ws[n].file == Some(es[i].a.cfg)
    decreases n
  {
    hide Step, Routable, Stops;
    RunsLastWritten(ws, es, n - 1);
    if n == i + 1 {
      AttemptEnds(ws[i], es[i], ws[n]);
    } else {
      RunsUntilChanged(ws, es, i, n - 1);
      KeptRunning(ws[n - 1], es[n - 1], ws[n]);
    }
  }

  lemma KeptRunning(w: World, e: Event, w': World)
    requires FileRuns(w) && w.running.Some? && Step(w, e, w') && !Written(e) && !Stops(e)
    ensures w'.running == w.running && w'.file == w.file
  {
    hide Routable, AppliesLive, AcceptedMidway, Accepts, AnyListening;
  }

  // A stopped xray stays stopped until an attempt is written or the last config
  // is started again for want of a new one.
  lemma StaysStopped(w: World, e: Event, w': World)
    requires w.running.None? && Step(w, e, w')
    ensures w'.running.Some? <==> Written(e) || (e.LastGood? && AnyListening(e.inbounds) && w.file.Some?)
  {
    hide Routable, AppliesLive, AcceptedMidway, Accepts, AnyListening;
  }
}
