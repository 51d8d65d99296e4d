/**
 Where a waiter awaits a sidecar whose own waiter awaits one that has failed for good, neither ever moves
 on: so one crash at the right moment leaves a start_all waiting forever.
 */
module StartAllStuck {
  import opened Domain
  import opened Lifecycle
  import opened Reactions
  import opened Graph
  import opened Closure
  import opened Fleet
  import opened FleetInvariants
  import opened FleetRuns
  import opened StartAllRuns
  import opened StartAll
  import opened StartAllReturns
  import opened StartAllPeace
  import opened StartAllBuilding
  import opened StartAllHangs
  import opened StartAllCrash

  // ---------------------------------------------------------------------------------------
  // Down for good
  // ---------------------------------------------------------------------------------------

  lemma {:induction false} DownHasBegun(f: Fleet, w: World, j: nat)
    requires OrderKnown(f, w) && WaitersOk(f, w) && j < |f.order| && Down(w, f.order[j])
    ensures Begun(f, w, j) && CalmAt(w, f.order[j])
  {
    WaiterIs(f, w, j);
    hide ConsumedIn;
  }

  lemma {:induction false} DownShows(f: Fleet, w: World, n: Name)
    requires StartAllInv(f, w) && OrderKnown(f, w) && n in f.handles && Down(w, n)
    ensures ViewAt(f, w, n).seen.Failed?
  {
    hide Inv, WaitersOk, GoneOk, LandsOk, ViewAt, PublishedBy, Begun;
    StartAllParts(f, w);
    DownHasBegun(f, w, IndexOf(f.order, n));
    CalmIsUpOrFailed(f, w, IndexOf(f.order, n));
  }

  /** Nothing but a command wakes it, and it has had its only one. */
  lemma {:induction false} DownIsDeaf(f: Fleet, w: World, n: Name, i: Input)
    requires OrderKnown(f, w) && WaitersOk(f, w) && Down(w, n)
    ensures !MayReact(f, w, n, i)
  {
    hide WaitersOk, Begun, Untouched, NoSenders;
    if MayReact(f, w, n, i) {
      InputIs(f, w, n, i);
    }
  }

  lemma {:induction false} DownStays(f: Fleet, w: World, a: Action, n: Name)
    requires StartAllInv(f, w) && OrderKnown(f, w) && Enabled(f, w, a) && n in f.handles && Down(w, n)
    ensures Down(Apply(f, w, a), n)
  {
    hide *;
    StartAllParts(f, w);
    OrderIsRegistered(f, w);
    if a.React? {
      DownReact(f, w, a, n);
    } else if a.Perform? {
      DownPerform(f, w, a.name, n);
    } else {
      OutsideStep(f, w, a);
      SameDown(w, Apply(f, w, a), n);
    }
  }

  lemma {:induction false} OrderIsRegistered(f: Fleet, w: World)
    requires OrderKnown(f, w)
    ensures Registered(f, w)
  {
  }

  lemma {:induction false} SameDown(w: World, w': World, n: Name)
    requires Down(w, n) && n in w'.sups && w'.sups[n] == w.sups[n]
    ensures Down(w', n)
  {
  }

  lemma {:induction false} DownReact(f: Fleet, w: World, a: Action, n: Name)
    requires OrderKnown(f, w) && WaitersOk(f, w) && Enabled(f, w, a) && a.React? && n in f.handles && Down(w, n)
    ensures Down(Apply(f, w, a), n)
  {
    hide WaitersOk, MayReact, Reacted;
    DownIsDeaf(f, w, n, a.input);
    OthersStay(f, w, a.name, a.input, a.image);
  }

  lemma {:induction false} DownPerform(f: Fleet, w: World, m: Name, n: Name)
    requires Registered(f, w) && Enabled(f, w, Perform(m)) && n in f.handles && Down(w, n)
    ensures Down(Apply(f, w, Perform(m)), n)
  {
    PerformFields(f, w, m);
    hide Apply, Affect, Prefix;
  }

  lemma {:induction false} OthersStay(f: Fleet, w: World, n: Name, i: Input, image: Option<string>)
    requires Registered(f, w) && MayReact(f, w, n, i)
    ensures
      var w' := Reacted(f, w, n, i, image);
      && Registered(f, w') && w'.callers == w.callers
      && forall m :: m in f.handles && m != n ==> w'.sups[m] == w.sups[m]
  {
    hide Reacted, MayReact;
    var e := ReactFields(f, w, n, i, image);
  }

  // ---------------------------------------------------------------------------------------
  // Waiters that await
  // ---------------------------------------------------------------------------------------

  /** Waiter i awaits its p-th dependency. */
  predicate StandsAt(f: Fleet, w: World, i: nat, p: nat) {
    && i < |f.order| && f.order[i] in f.handles && p < |f.handles[f.order[i]].dependsOn|
    && i in w.callers && w.callers[i].pc == p
  }

  /** Healthy is what the watch channel of n shows. */
  predicate ShownBy(f: Fleet, w: World, n: Name) {
    n in f.handles && n in w.sups && ViewAt(f, w, n).seen.Healthy?
  }

  predicate ActsFor(a: Action, i: nat) {
    IsCallers(a) && a.id == i
  }

  lemma {:induction false} WaitersKept(f: Fleet, w: World, a: Action)
    requires Registered(f, w) && Enabled(f, w, a) && OnlyWaiters(f, a) && !IsCallers(a)
    ensures Apply(f, w, a).callers == w.callers
  {
    CallsKept(f, w, a);
    hide Apply, Enabled;
  }

  /** It can move on by seeing that one Healthy, and in no other way. */
  lemma {:induction false} Stands(f: Fleet, w: World, a: Action, i: nat, p: nat)
    requires StartAllInv(f, w) && OrderKnown(f, w) && Enabled(f, w, a) && OnlyWaiters(f, a) && StandsAt(f, w, i, p)
    requires !ShownBy(f, w, f.handles[f.order[i]].dependsOn[p])
    ensures
      var w' := Apply(f, w, a);
      StandsAt(f, w', i, p) && (w'.callers[i] == w.callers[i] || (a == Abandon(i) && AwaitsFailed(f, w, i)))
  {
    hide *;
    OrderIsRegistered(f, w);
    if IsCallers(a) {
      WaitersStand(f, w, a, i, p);
    } else {
      WaitersKept(f, w, a);
      StandsStill(f, w, Apply(f, w, a), i, p);
    }
  }

  lemma {:induction false} StandsStill(f: Fleet, w: World, w': World, i: nat, p: nat)
    requires StandsAt(f, w, i, p) && w'.callers == w.callers
    ensures StandsAt(f, w', i, p)
  {
  }

  lemma {:induction false} WaitersStand(f: Fleet, w: World, a: Action, i: nat, p: nat)
    requires StartAllInv(f, w) && OrderKnown(f, w) && Enabled(f, w, a) && OnlyWaiters(f, a) && StandsAt(f, w, i, p)
    requires IsCallers(a) && !ShownBy(f, w, f.handles[f.order[i]].dependsOn[p])
    ensures
      var w' := Apply(f, w, a);
      StandsAt(f, w', i, p) && (w'.callers[i] == w.callers[i] || (a == Abandon(i) && AwaitsFailed(f, w, i)))
  {
    hide *;
    StartAllParts(f, w);
    OrderIsRegistered(f, w);
    var c' := WaiterNext(f, w, a);
    if ActsFor(a, i) {
      WaiterStands(f, w, a, i, p);
    }
    StandsOrLeaves(f, w, Apply(f, w, a), a, c', i, p);
  }

  lemma {:induction false} StandsOrLeaves(f: Fleet, w: World, w': World, a: Action, c': Caller, i: nat, p: nat)
    requires StandsAt(f, w, i, p) && IsCallers(a) && StepsOn(a, w.callers, c') && w'.callers == w.callers[a.id := c']
    requires ActsFor(a, i) ==> a == Abandon(i)
    ensures StandsAt(f, w', i, p) && (w'.callers[i] == w.callers[i] || (ActsFor(a, i) && a == Abandon(i)))
  {
  }

  lemma {:induction false} WaiterStands(f: Fleet, w: World, a: Action, i: nat, p: nat)
    requires OrderKnown(f, w) && WaitersOk(f, w) && Inv(f, w) && Enabled(f, w, a) && OnlyWaiters(f, a) && StandsAt(f, w, i, p)
    requires ActsFor(a, i)
    requires !ShownBy(f, w, f.handles[f.order[i]].dependsOn[p])
    ensures a == Abandon(i) && AwaitsFailed(f, w, i)
  {
    hide WaitersOk, Inv, ViewAt, HasReturned, AwaitsFailed, WaiterOf;
    if Active(w, i) {
      OpOf(f, w, i);
    }
    if a.Abandon? {
      AbandonsFailed(f, w, i);
    }
  }

  /** An untouched sidecar has published nothing. */
  lemma {:induction false} UntouchedIsSilent(f: Fleet, w: World, n: Name)
    requires Registered(f, w) && n in f.handles && Untouched(w, n)
    ensures !ShownBy(f, w, n) && !HasFailed(PublishedBy(w, n))
  {
  }

  // ---------------------------------------------------------------------------------------
  // A waiter in a corner
  // ---------------------------------------------------------------------------------------

  /** Waiter i awaits sidecar j, which is untouched; waiter j, when it comes, awaits one that is down. */
  ghost predicate Cornered(f: Fleet, w: World, i: nat, p: nat, j: nat) {
    && OrderKnown(f, w) && StandsAt(f, w, i, p) && !w.callers[i].gone
    && j < |f.order| && j != i && f.handles[f.order[i]].dependsOn[p] == f.order[j]
    && f.handles[f.order[j]].dependsOn != []
    && (j in w.callers ==> w.callers[j].pc == 0)
    && f.handles[f.order[j]].dependsOn[0] in f.handles && Down(w, f.handles[f.order[j]].dependsOn[0])
  }

  lemma {:induction false} CornerIsUntouched(f: Fleet, w: World, i: nat, p: nat, j: nat)
    requires StartAllInv(f, w) && Cornered(f, w, i, p, j)
    ensures !ShownBy(f, w, f.order[j]) && !AwaitsFailed(f, w, i)
    ensures !ShownBy(f, w, f.handles[f.order[j]].dependsOn[0])
  {
    hide Inv, WaitersOk, GoneOk, LandsOk, ViewAt, HasFailed, PublishedBy, Begun, Down;
    StartAllParts(f, w);
    WaiterIs(f, w, j);
    UntouchedIsSilent(f, w, f.order[j]);
    DownShows(f, w, f.handles[f.order[j]].dependsOn[0]);
  }

  lemma {:induction false} SecondStays(f: Fleet, w: World, a: Action, j: nat)
    requires StartAllInv(f, w) && OrderKnown(f, w) && Enabled(f, w, a) && OnlyWaiters(f, a)
    requires j < |f.order| && f.handles[f.order[j]].dependsOn != []
    requires j in w.callers ==> w.callers[j].pc == 0
    requires !ShownBy(f, w, f.handles[f.order[j]].dependsOn[0])
    ensures j in Apply(f, w, a).callers ==> Apply(f, w, a).callers[j].pc == 0
  {
    hide StartAllInv, OnlyWaiters, Enabled, Apply, AwaitsFailed, ShownBy;
    if j in w.callers {
      Stands(f, w, a, j, 0);
    } else if IsCallers(a) {
      var c' := WaiterNext(f, w, a);
    } else {
      WaitersKept(f, w, a);
    }
  }

  lemma {:induction false} CorneredStep(f: Fleet, w: World, a: Action, i: nat, p: nat, j: nat)
    requires StartAllInv(f, w) && Registered(f, w) && Cornered(f, w, i, p, j) && Enabled(f, w, a) && OnlyWaiters(f, a)
    ensures StartAllInv(f, Apply(f, w, a)) && Cornered(f, Apply(f, w, a), i, p, j)
  {
    hide StartAllInv, OnlyWaiters, Enabled, Apply, AwaitsFailed, ShownBy, Down, Later;
    CornerIsUntouched(f, w, i, p, j);
    Stands(f, w, a, i, p);
    SecondStays(f, w, a, j);
    DownStays(f, w, a, f.handles[f.order[j]].dependsOn[0]);
    StepStartAll(f, w, a);
    StartAllParts(f, Apply(f, w, a));
  }

  lemma {:induction false} CorneredRun(f: Fleet, w: World, acts: seq<Action>, i: nat, p: nat, j: nat)
    requires StartAllInv(f, w) && Cornered(f, w, i, p, j) && Legal(f, w, acts) && AllOnlyWaiters(f, acts)
    ensures StartAllInv(f, Outcome(f, w, acts)) && Cornered(f, Outcome(f, w, acts), i, p, j)
    decreases |acts|
  {
    hide StartAllInv, Cornered, Enabled, Apply, OnlyWaiters;
    if acts != [] {
      assert acts[0] in acts;
      CorneredStep(f, w, acts[0], i, p, j);
      CorneredRun(f, Apply(f, w, acts[0]), acts[1..], i, p, j);
    }
  }

  lemma {:induction false} CorneredWaits(f: Fleet, w: World, i: nat, p: nat, j: nat)
    requires StartAllInv(f, w) && Cornered(f, w, i, p, j)
    ensures !AllReturned(f, w)
  {
    hide Inv, WaitersOk, GoneOk, LandsOk, Begun, Untouched, Down;
    StartAllParts(f, w);
    WaiterIs(f, w, i);
    assert !WaiterReturned(w, i);
  }

  // ---------------------------------------------------------------------------------------
  // How it gets there
  // ---------------------------------------------------------------------------------------

  /** A sidecar is not needed before its own dependencies. */
  lemma {:induction false} NotBeforeItself(f: Fleet, k: Name, p: nat)
    requires ValidFleet(f) && k in f.handles && p <= |f.handles[k].dependsOn|
    ensures !Needed(f, k, p, k)
  {
    if Needed(f, k, p, k) {
      var g, deps := HandleGraph(f.handles), f.handles[k].dependsOn;
      var q :| 0 <= q < p && (deps[q] == k || Reaches(g, deps[q], k));
      DependencyKnown(f, k, deps[q]);
      if deps[q] != k {
        ReachesComeFirst(f, deps[q], k);
      }
    }
  }

  lemma {:induction false} ReachesComeFirst(f: Fleet, a: Name, b: Name)
    requires ValidFleet(f) && Reaches(HandleGraph(f.handles), a, b)
    ensures a in f.order && b in f.order && IndexOf(f.order, b) < IndexOf(f.order, a)
  {
    var g := HandleGraph(f.handles);
    var path :| Walk(g, path) && |path| > 1 && path[0] == a && path[|path| - 1] == b;
    WalkDescends(g, f.order, path);
  }

  /** What is needed can be brought up, with k and its p-th dependency left out. */
  lemma {:induction false} NeededIsGrown(f: Fleet, k: Name, p: nat)
    requires ValidFleet(f) && HangsAt(f, k, p)
    ensures var up := NeededSet(f, k, p); Grown(f, up) && k !in up && f.handles[k].dependsOn[p] !in up
    ensures forall n :: n in NeededSet(f, k, p) ==> n in f.order && n in f.handles && Probeable(f.handles[n])
    ensures forall q :: 0 <= q < p ==> f.handles[k].dependsOn[q] in NeededSet(f, k, p)
  {
    HangsAtKnown(f, k, p);
    NotBeforeItself(f, k, p);
    var up := NeededSet(f, k, p);
    hide HangsAt, Reaches;
    forall n, d | n in up && n in f.handles && d in f.handles[n].dependsOn ensures d in up {
      NeededGrows(f, k, p, n, d);
    }
    forall q | 0 <= q < p ensures f.handles[k].dependsOn[q] in up {
      DependencyKnown(f, k, f.handles[k].dependsOn[q]);
      assert Needed(f, k, p, f.handles[k].dependsOn[q]);
    }
  }

  /** Everything needed is up, and neither k nor its p-th dependency has a waiter. */
  lemma {:induction false} NeededIsUp(f: Fleet, k: Name, p: nat, i: nat, j: nat) returns (acts: seq<Action>, w: World)
    requires ValidFleet(f) && HangsAt(f, k, p)
    requires i < |f.order| && f.order[i] == k && j < |f.order| && f.order[j] == f.handles[k].dependsOn[p]
    ensures Goes(f, Boot(f), acts, w) && Peaceful(f, w) && OrderKnown(f, w) && !w.dropped
    ensures i !in w.callers && j !in w.callers
    ensures forall n :: n in NeededSet(f, k, p) ==> ShowsHealthy(f, w, n)
  {
    NeededIsGrown(f, k, p);
    var up := NeededSet(f, k, p);
    hide ValidFleet, HangsAt, NeededSet, Grown, Boot, Legal, AllPlain, Probeable, Stage, Peaceful, ShowsHealthy, Untouched, Goes, OrderKnown;
    acts := BringUpAll(f, up, |f.order|);
    w := Outcome(f, Boot(f), acts);
    StageKnown(f, w, up, |f.order|);
    BootPeaceful(f);
    PlainGoes(f, Boot(f), acts, w);
    forall n | n in up ensures ShowsHealthy(f, w, n) {
      assert f.order[IndexOf(f.order, n)] == n;
    }
  }

  /** Everything needed is up, and the waiter of i has come to its p-th dependency, whose own is not spawned. */
  ghost predicate Approached(f: Fleet, w: World, i: nat, p: nat, j: nat) {
    && OrderKnown(f, w) && i < |f.order| && i in w.callers
    && w.callers[i] == Caller(WaiterOf(f, i), p, false, false) && j !in w.callers
  }

  lemma {:induction false} Approach(f: Fleet, k: Name, p: nat, i: nat, j: nat) returns (acts: seq<Action>, w: World)
    requires ValidFleet(f) && HangsAt(f, k, p)
    requires i < |f.order| && f.order[i] == k && j < |f.order| && f.order[j] == f.handles[k].dependsOn[p] && i != j
    ensures Goes(f, Boot(f), acts, w) && Peaceful(f, w) && Approached(f, w, i, p, j)
    ensures forall n :: n in NeededSet(f, k, p) ==> ShowsHealthy(f, w, n)
  {
    var xs, w1 := NeededIsUp(f, k, p, i, j);
    NeededIsGrown(f, k, p);
    OrderIsRegistered(f, w1);
    hide *;
    var ys;
    ys, w := CallAndObserve(f, w1, i, p);
    LeadsPeacefully(f, w1, ys, w, i);
    GoesFurther(f, Boot(f), xs, w1, ys, w);
    acts := xs + ys;
    IsApproached(f, w1, i, p, j);
    forall n | n in NeededSet(f, k, p) ensures ShowsHealthy(f, w, n) {
      StillShown(f, w1, w, n);
    }
  }

  lemma {:induction false} IsApproached(f: Fleet, w: World, i: nat, p: nat, j: nat)
    requires OrderKnown(f, w) && i < |f.order| && i != j && j !in w.callers
    ensures OrderKnown(f, StepCaller(w, i, Caller(WaiterOf(f, i), p, false, false)))
    ensures Approached(f, StepCaller(w, i, Caller(WaiterOf(f, i), p, false, false)), i, p, j)
  {
    hide WaiterOf;
  }

  lemma {:induction false} PlainGoes(f: Fleet, w: World, acts: seq<Action>, w': World)
    requires Peaceful(f, w) && Legal(f, w, acts) && AllPlain(f, acts) && Outcome(f, w, acts) == w'
    ensures Goes(f, w, acts, w') && Peaceful(f, w')
  {
    hide Peaceful, AllPlain, AllOnlyWaiters, Later;
    RunPeaceful(f, w, acts);
    PlainIsOnlyWaiters(f, acts);
  }

  /** Then a dependency of its p-th dependency crashes. */
  lemma {:induction false} Corner(f: Fleet, k: Name, p: nat, i: nat, j: nat) returns (acts: seq<Action>, w: World)
    requires ValidFleet(f) && HangsAt(f, k, p)
    requires i < |f.order| && f.order[i] == k && j < |f.order| && f.order[j] == f.handles[k].dependsOn[p] && i != j
    requires f.order[j] in f.handles && f.handles[f.order[j]].dependsOn != []
    requires f.handles[f.order[j]].dependsOn[0] in NeededSet(f, k, p)
    ensures Goes(f, Boot(f), acts, w) && Peaceful(f, w) && Cornered(f, w, i, p, j)
  {
    var xs, w1 := Approach(f, k, p, i, j);
    NeededIsGrown(f, k, p);
    PeacefulParts(f, w1);
    var x := f.handles[f.order[j]].dependsOn[0];
    assert f.order[IndexOf(f.order, x)] == x;
    hide *;
    var ys;
    ys, w := Crash(f, w1, IndexOf(f.order, x));
    GoesFurther(f, Boot(f), xs, w1, ys, w);
    acts := xs + ys;
    IsCornered(f, w1, w, i, p, j);
  }

  lemma {:induction false} IsCornered(f: Fleet, w1: World, w: World, i: nat, p: nat, j: nat)
    requires Approached(f, w1, i, p, j) && OrderKnown(f, w) && w.callers == w1.callers
    requires j < |f.order| && j != i && p < |f.handles[f.order[i]].dependsOn| && f.handles[f.order[i]].dependsOn[p] == f.order[j]
    requires f.handles[f.order[j]].dependsOn != []
    requires f.handles[f.order[j]].dependsOn[0] in f.handles && Down(w, f.handles[f.order[j]].dependsOn[0])
    ensures Cornered(f, w, i, p, j)
  {
    hide Down, WaiterOf;
  }

  /** A run that ends with a waiter that has not returned. */
  lemma {:induction false} HangByCrash(f: Fleet, k: Name, p: nat) returns (acts: seq<Action>)
    requires ValidFleet(f) && HangsAt(f, k, p)
    requires forall d :: d in f.handles[f.handles[k].dependsOn[p]].dependsOn ==> Needed(f, k, p, d)
    ensures Legal(f, Boot(f), acts) && AllOnlyWaiters(f, acts)
    ensures AtEnd(f, Reached(f, acts)) && !AllReturned(f, Reached(f, acts))
  {
    HangsAtKnown(f, k, p);
    DependencyKnown(f, k, f.handles[k].dependsOn[p]);
    var i, j := IndexOf(f.order, k), IndexOf(f.order, f.handles[k].dependsOn[p]);
    var x := f.handles[f.order[j]].dependsOn[0];
    assert Needed(f, k, p, x) && x in NeededSet(f, k, p);
    hide *;
    var xs, w1 := Corner(f, k, p, i, j);
    PeacefulParts(f, w1);
    var ys := RunOut(f, w1);
    var w := Outcome(f, w1, ys);
    PlainGoes(f, w1, ys, w);
    PeacefulEnd(f, w);
    CorneredEnds(f, w1, ys, w, i, p, j);
    GoesFurther(f, Boot(f), xs, w1, ys, w);
    acts := xs + ys;
    GoesParts(f, acts, w);
  }

  lemma {:induction false} GoesParts(f: Fleet, acts: seq<Action>, w: World)
    requires Goes(f, Boot(f), acts, w)
    ensures Legal(f, Boot(f), acts) && AllOnlyWaiters(f, acts) && Reached(f, acts) == w
  {
    hide Boot;
  }

  lemma {:induction false} CorneredEnds(f: Fleet, w: World, acts: seq<Action>, w': World, i: nat, p: nat, j: nat)
    requires StartAllInv(f, w) && Cornered(f, w, i, p, j) && Goes(f, w, acts, w')
    ensures !AllReturned(f, w')
  {
    hide StartAllInv, Cornered, AllReturned, Legal, AllOnlyWaiters;
    CorneredRun(f, w, acts, i, p, j);
    CorneredWaits(f, w', i, p, j);
  }
}
