/**
 When start_all returns. A waiter that gives up leaves its sidecar Idle, and whoever awaits that one
 waits forever; whether this can happen is a matter of the dependency lists.
 */
module StartAllReturns {
  import opened Domain
  import opened Lifecycle
  import opened LifecycleProofs
  import opened Graph
  import opened Closure
  import opened Fleet
  import opened FleetInvariants
  import opened FleetRuns
  import opened Reactions
  import opened StartAllRuns
  import opened StartAll

  /** The check can pass at all: a TCP or HTTP check needs a port. */
  predicate Probeable(cfg: Config) {
    (cfg.health.Tcp? || cfg.health.Http?) ==> !cfg.port.NoPort?
  }

  /** What must be Healthy before the waiter of k comes to its p-th dependency. */
  ghost predicate Needed(f: Fleet, k: Name, p: nat, n: Name)
    requires k in f.handles && p <= |f.handles[k].dependsOn|
  {
    exists q :: 0 <= q < p && (f.handles[k].dependsOn[q] == n || Reaches(HandleGraph(f.handles), f.handles[k].dependsOn[q], n))
  }

  /**
   The p-th dependency of k has dependencies itself, and is not among what k has by then seen Healthy,
   directly or through others; and all of that can be Healthy.
   */
  ghost predicate HangsAt(f: Fleet, k: Name, p: nat) {
    && k in f.handles && p < |f.handles[k].dependsOn|
    && f.handles[k].dependsOn[p] in f.handles && f.handles[f.handles[k].dependsOn[p]].dependsOn != []
    && !Needed(f, k, p, f.handles[k].dependsOn[p])
    && forall n :: n in f.handles && Needed(f, k, p, n) ==> Probeable(f.handles[n])
  }

  ghost predicate MayHang(f: Fleet) {
    exists k, p :: HangsAt(f, k, p)
  }

  /** The same without crashes after Healthy: a dependency x of that dependency is not among it either. */
  ghost predicate HangsWithoutCrash(f: Fleet, k: Name, p: nat, x: Name) {
    && HangsAt(f, k, p)
    && x in f.handles[f.handles[k].dependsOn[p]].dependsOn && !Needed(f, k, p, x)
  }

  ghost predicate MayHangWithoutCrash(f: Fleet) {
    exists k, p, x :: HangsWithoutCrash(f, k, p, x)
  }

  /** Nothing is enabled but the end of a further child. */
  ghost predicate AtEnd(f: Fleet, w: World)
    requires Registered(f, w)
  {
    forall a :: Enabled(f, w, a) && OnlyWaiters(f, a) ==> a.Die?
  }

  lemma {:induction false} EndGoesNowhere(f: Fleet, w: World)
    requires Registered(f, w) && AtEnd(f, w)
    ensures !GoesOn(f, w)
  {
    hide Enabled, OnlyWaiters;
  }

  // ---------------------------------------------------------------------------------------
  // What Healthy tells
  // ---------------------------------------------------------------------------------------

  lemma {:induction false} EmittedIsPublished(trace: Trace, n: Name, st: State)
    requires Event(n, Emitted(st)) in trace
    ensures st in Published(HistoryIn(trace, n))
  {
    var before, last := trace[..|trace| - 1], trace[|trace| - 1];
    assert trace == before + [last];
    TraceGrows(before, last, n);
    if last != Event(n, Emitted(st)) {
      EmittedIsPublished(before, n, st);
    }
  }

  lemma {:induction false} HealthyIsPublished(f: Fleet, w: World, n: Name)
    requires Inv(f, w) && Registered(f, w) && n in f.handles && HealthyIn(w.trace, n)
    ensures Healthy in PublishedBy(w, n)
  {
    hide Inv, SupsOk, Discipline;
    InvParts(f, w);
    DoneDisciplined(f, w, n);
    EmittedIsPublished(w.trace, n, Healthy);
  }

  lemma {:induction false} HealthyIsTouched(f: Fleet, w: World, n: Name)
    requires StartAllInv(f, w) && OrderKnown(f, w) && n in f.handles && HealthyIn(w.trace, n)
    ensures !Untouched(w, n)
  {
    hide Inv, SupsOk, WaitersOk, GoneOk, LandsOk, Discipline;
    InvParts(f, w);
    DoneDisciplined(f, w, n);
    NoEventsYet(w.trace, n, Emitted(Healthy));
  }

  lemma {:induction false} InjectedFits(cfg: Config, h: History)
    requires Discipline(cfg, h)
    ensures var v := ViewOf(cfg, h); v.running.Some? ==> PortFits(cfg.port, v.injected)
  {
    if h.After? {
      InjectedFits(cfg, h.before);
      var v, e := ViewOf(cfg, h.before), h.effect;
      InjectedStep(cfg, v, e);
      hide See, Allowed;
    }
  }

  lemma {:induction false} InjectedStep(cfg: Config, v: View, e: Effect)
    requires Allowed(cfg, v, e)
    ensures
      var w := See(cfg, v, e);
      if e.Spawned? then PortFits(cfg.port, w.injected) else w.injected == v.injected && (w.running.Some? ==> v.running.Some?)
    ensures e == Emitted(Healthy) ==> v.running.Some? && v.port == v.injected && ProbeCanPass(cfg, v.port)
  {
    hide Booked;
  }

  /** Only what can be probed is ever Healthy. */
  lemma {:induction false} HealthyWasProbed(cfg: Config, h: History)
    requires Discipline(cfg, h) && Healthy in Published(h)
    ensures Probeable(cfg)
  {
    if h.effect == Emitted(Healthy) {
      InjectedFits(cfg, h.before);
      InjectedStep(cfg, ViewOf(cfg, h.before), h.effect);
      hide See, Allowed;
    } else {
      HealthyWasProbed(cfg, h.before);
    }
  }

  lemma {:induction false} HealthyIsProbeable(f: Fleet, w: World, n: Name)
    requires Inv(f, w) && Registered(f, w) && n in f.handles && HealthyIn(w.trace, n)
    ensures Probeable(f.handles[n])
  {
    HealthyIsPublished(f, w, n);
    hide Inv, SupsOk, Discipline, Probeable;
    InvParts(f, w);
    DoneDisciplined(f, w, n);
    HealthyWasProbed(f.handles[n], w.sups[n].done);
  }

  /** What a waiter has got past was Healthy. */
  lemma {:induction false} AwaitedWasHealthy(f: Fleet, w: World, i: nat, k: nat)
    requires StartAllInv(f, w) && OrderKnown(f, w) && i < |f.order| && i in w.callers
    requires k < w.callers[i].pc && k < |f.handles[f.order[i]].dependsOn|
    ensures HealthyIn(w.trace, f.handles[f.order[i]].dependsOn[k])
  {
    hide Inv, SupsOk, CallersOk, WaitersOk, GoneOk, LandsOk, IsProgram, Untouched, Begun;
    WaiterIs(f, w, i);
    InvParts(f, w);
    CallerAt(f, w, i);
    assert OpDone(f, w.trace, w.callers[i].prog[k]);
  }

  /** A sidecar that was touched has seen all its dependencies Healthy. */
  lemma {:induction false} TouchedSawHealthy(f: Fleet, w: World, n: Name, d: Name)
    requires StartAllInv(f, w) && OrderKnown(f, w) && n in f.handles && !Untouched(w, n)
    requires d in f.handles[n].dependsOn
    ensures HealthyIn(w.trace, d)
  {
    var i := IndexOf(f.order, n);
    hide Inv, WaitersOk, GoneOk, LandsOk, Begun, HealthyIn;
    WaiterIs(f, w, i);
    var k :| 0 <= k < |f.handles[n].dependsOn| && f.handles[n].dependsOn[k] == d;
    AwaitedWasHealthy(f, w, i, k);
  }

  lemma {:induction false} HealthyAlong(f: Fleet, w: World, path: seq<Name>)
    requires ValidFleet(f) && StartAllInv(f, w) && OrderKnown(f, w)
    requires Walk(HandleGraph(f.handles), path) && |path| > 1 && path[0] in f.handles && !Untouched(w, path[0])
    ensures HealthyIn(w.trace, path[|path| - 1])
    decreases |path|
  {
    hide Inv, WaitersOk, GoneOk, LandsOk, ValidFleet, Untouched, HealthyIn;
    assert Edge(HandleGraph(f.handles), path[0], path[1]);
    TouchedSawHealthy(f, w, path[0], path[1]);
    if |path| > 2 {
      DependencyKnown(f, path[0], path[1]);
      HealthyIsTouched(f, w, path[1]);
      WalkSlice(HandleGraph(f.handles), path, 1, |path|);
      HealthyAlong(f, w, path[1..|path|]);
    }
  }

  lemma {:induction false} HealthyDependencies(f: Fleet, w: World, n: Name, d: Name)
    requires ValidFleet(f) && StartAllInv(f, w) && OrderKnown(f, w) && n in f.handles
    requires HealthyIn(w.trace, n) && Reaches(HandleGraph(f.handles), n, d)
    ensures HealthyIn(w.trace, d)
  {
    hide Inv, WaitersOk, GoneOk, LandsOk, ValidFleet, Untouched, HealthyIn;
    HealthyIsTouched(f, w, n);
    var path :| Walk(HandleGraph(f.handles), path) && |path| > 1 && path[0] == n && path[|path| - 1] == d;
    HealthyAlong(f, w, path);
  }

  /** What the waiter of k needed to come to its p-th dependency was Healthy. */
  lemma {:induction false} NeededWasHealthy(f: Fleet, w: World, i: nat, p: nat, n: Name)
    requires ValidFleet(f) && StartAllInv(f, w) && OrderKnown(f, w) && i < |f.order| && i in w.callers
    requires p <= w.callers[i].pc && p <= |f.handles[f.order[i]].dependsOn| && Needed(f, f.order[i], p, n)
    ensures HealthyIn(w.trace, n)
  {
    hide StartAllInv, ValidFleet, HealthyIn, Reaches;
    var deps := f.handles[f.order[i]].dependsOn;
    var q :| 0 <= q < p && (deps[q] == n || Reaches(HandleGraph(f.handles), deps[q], n));
    AwaitedWasHealthy(f, w, i, q);
    if deps[q] != n {
      DependencyKnown(f, f.order[i], deps[q]);
      HealthyDependencies(f, w, deps[q], n);
    }
  }

  // ---------------------------------------------------------------------------------------
  // Without a place to hang, every waiter returns
  // ---------------------------------------------------------------------------------------

  ghost predicate AllReturned(f: Fleet, w: World) {
    forall i :: 0 <= i < |f.order| ==> WaiterReturned(w, i)
  }

  /** An untouched sidecar without dependencies could be started. */
  lemma {:induction false} UntouchedHasDependencies(f: Fleet, w: World, j: nat)
    requires StartAllInv(f, w) && OrderKnown(f, w) && j < |f.order|
    requires Untouched(w, f.order[j]) && (WaiterReturned(w, j) || WaitsInVain(f, w, j))
    ensures f.handles[f.order[j]].dependsOn != []
  {
    hide Inv, GoneOk, LandsOk, WaitersOk;
    StartAllParts(f, w);
    WaiterIs(f, w, j);
  }

  lemma {:induction false} VainIsHang(f: Fleet, w: World, i: nat)
    requires ValidFleet(f) && StartAllInv(f, w) && OrderKnown(f, w) && i < |f.order|
    requires WaitsInVain(f, w, i)
    requires forall j :: 0 <= j < |f.order| ==> WaiterReturned(w, j) || WaitsInVain(f, w, j)
    ensures HangsAt(f, f.order[i], w.callers[i].pc) && MayHang(f)
  {
    hide StartAllInv, ValidFleet, WaiterReturned, Untouched, Needed;
    var k, p := f.order[i], w.callers[i].pc;
    var d := f.handles[k].dependsOn[p];
    assert Untouched(w, d) && f.order[IndexOf(f.order, d)] == d;
    UntouchedHasDependencies(f, w, IndexOf(f.order, d));
    hide WaitsInVain;
    if Needed(f, k, p, d) {
      NeededWasHealthy(f, w, i, p, d);
      HealthyIsTouched(f, w, d);
    }
    StartAllParts(f, w);
    forall n | n in f.handles && Needed(f, k, p, n) ensures Probeable(f.handles[n]) {
      NeededWasHealthy(f, w, i, p, n);
      HealthyIsProbeable(f, w, n);
    }
  }

  lemma {:induction false} SafeReturns(f: Fleet, w: World)
    requires ValidFleet(f) && StartAllInv(f, w) && OrderKnown(f, w)
    requires !GoesOn(f, w) && !MayHang(f)
    ensures AllReturned(f, w)
  {
    hide StartAllInv, ValidFleet, GoesOn, WaiterReturned, WaitsInVain, Calm, MayHang;
    Halted(f, w);
    forall i | 0 <= i < |f.order| ensures WaiterReturned(w, i) {
      if WaitsInVain(f, w, i) {
        VainIsHang(f, w, i);
      }
    }
  }

  // ---------------------------------------------------------------------------------------
  // The same without crashes after Healthy
  // ---------------------------------------------------------------------------------------

  /** A sidecar that has published Healthy has not failed, and is not untouched. */
  lemma {:induction false} HealthyExcludes(f: Fleet, w: World, n: Name)
    requires SmoothInv(f, w) && Registered(f, w) && n in f.handles && Healthy in PublishedBy(w, n)
    ensures !HasFailed(PublishedBy(w, n)) && !Untouched(w, n)
  {
    hide Inv, SupsOk, WaitersOk, GoneOk, LandsOk, TaskInv, HasFailed, Published, Discipline;
    InvParts(f, w);
    SupAt(f, w, n);
    var p, h := w.sups[n].done, w.sups[n].task.hist;
    PublishedGrows(p, h);
    assert Healthy in Published(h);
    NothingPublished();
    SteadyExcludes(f.handles[n], w.sups[n].task);
    FailedGrows(Published(p), Published(h));
  }

  lemma {:induction false} NothingPublished()
    ensures Published(Empty) == []
  {
  }

  lemma {:induction false} SteadyExcludes(cfg: Config, t: Task)
    requires (t == FRESH || Steady(cfg, t)) && Healthy in Published(t.hist)
    ensures !HasFailed(Published(t.hist)) && t.loc.Monitor?
  {
    hide HasFailed, EndsFailed, EndsHealthy;
  }

  lemma {:induction false} FailedGrows(s: seq<State>, t: seq<State>)
    requires s <= t
    ensures HasFailed(s) ==> HasFailed(t)
  {
    assert forall st :: st in s ==> st in t;
  }

  lemma {:induction false} PublishedGrows(p: History, h: History)
    requires Prefix(p, h)
    ensures Published(p) <= Published(h)
  {
    if p != h {
      PublishedGrows(p, h.before);
    }
  }

  /** Why an untouched sidecar was never started, when nothing moves any more. */
  lemma {:induction false} WhyUntouched(f: Fleet, w: World, j: nat) returns (x: Name)
    requires ValidFleet(f) && SmoothInv(f, w) && OrderKnown(f, w) && j < |f.order|
    requires Untouched(w, f.order[j]) && (WaiterReturned(w, j) || WaitsInVain(f, w, j))
    ensures x in f.handles && x in f.handles[f.order[j]].dependsOn
    ensures HasFailed(PublishedBy(w, x)) || Untouched(w, x)
  {
    hide Inv, WaitersOk, LandsOk, SteadyAll, ValidFleet, HasFailed, PublishedBy;
    SmoothParts(f, w);
    StartAllParts(f, w);
    WaiterIs(f, w, j);
    x := f.handles[f.order[j]].dependsOn[w.callers[j].pc];
    if w.callers[j].gone {
      assert AwaitsFailed(f, w, j);
    }
  }

  lemma {:induction false} VainIsSmoothHang(f: Fleet, w: World, i: nat)
    requires ValidFleet(f) && SmoothInv(f, w) && OrderKnown(f, w) && i < |f.order|
    requires WaitsInVain(f, w, i)
    requires forall j :: 0 <= j < |f.order| ==> WaiterReturned(w, j) || WaitsInVain(f, w, j)
    ensures MayHangWithoutCrash(f)
  {
    hide SmoothInv, ValidFleet, HasFailed, PublishedBy, WaiterReturned, Untouched, Needed;
    var k, p := f.order[i], w.callers[i].pc;
    var d := f.handles[k].dependsOn[p];
    assert Untouched(w, d) && f.order[IndexOf(f.order, d)] == d;
    var x := WhyUntouched(f, w, IndexOf(f.order, d));
    SmoothParts(f, w);
    VainIsHang(f, w, i);
    hide WaitsInVain;
    if Needed(f, k, p, x) {
      StartAllParts(f, w);
      NeededWasHealthy(f, w, i, p, x);
      HealthyIsPublished(f, w, x);
      HealthyExcludes(f, w, x);
      assert false;
    }
    assert HangsWithoutCrash(f, k, p, x);
  }

  lemma {:induction false} SafeReturnsWithoutCrash(f: Fleet, w: World)
    requires ValidFleet(f) && SmoothInv(f, w) && OrderKnown(f, w)
    requires !CanMove(f, w) && !MayHangWithoutCrash(f)
    ensures AllReturned(f, w)
  {
    hide SmoothInv, ValidFleet, CanMove, GoesOn, MayHangWithoutCrash, WaiterReturned, WaitsInVain, Calm;
    if GoesOn(f, w) {
      PlainMoves(f, w);
    }
    SmoothParts(f, w);
    Halted(f, w);
    forall i | 0 <= i < |f.order| ensures WaiterReturned(w, i) {
      if WaitsInVain(f, w, i) {
        VainIsSmoothHang(f, w, i);
      }
    }
  }
}
