/**
 How a start_all comes to wait forever, and so exactly when it returns: in general, and for runs in which
 no child ends once it is Healthy.
 */
module StartAllHangs {
  import opened Domain
  import opened Lifecycle
  import opened Reactions
  import opened Graph
  import opened Closure
  import opened Fleet
  import opened FleetInvariants
  import opened FleetRuns
  import opened StartAllRuns
  import opened StartAll
  import opened StartAllReturns
  import opened StartAllPeace
  import opened StartAllBuilding

  // ---------------------------------------------------------------------------------------
  // Without a crash: everything needed is up, and one sidecar fails
  // ---------------------------------------------------------------------------------------

  /** All in `up` show Healthy, and sidecar y, which depends on no other, has failed. */
  lemma {:induction false} UpAndFailed(f: Fleet, up: set<Name>, y: Name) returns (acts: seq<Action>)
    requires ValidFleet(f) && Grown(f, up) && y in f.handles && y !in up
    requires forall n :: n in up && n in f.handles ==> Probeable(f.handles[n])
    requires forall d :: d in f.handles[y].dependsOn ==> d in up
    ensures Legal(f, Boot(f), acts) && AllPlain(f, acts)
    ensures
      var w := Outcome(f, Boot(f), acts);
      && Registered(f, w) && HasFailed(PublishedBy(w, y))
      && forall n :: n in up && n in f.handles ==> ShowsHealthy(f, w, n)
  {
    acts := BringUpAll(f, up, |f.order|);
    var w := Outcome(f, Boot(f), acts);
    hide Boot, ValidFleet, Legal, Probeable, ShowsHealthy, AllPlain, Untouched, HasFailed, PublishedBy;
    StageKnown(f, w, up, |f.order|);
    assert y in f.order;
    var i := IndexOf(f.order, y);
    DependenciesShow(f, w, up, |f.order|, i);
    var more, w' := LetFail(f, w, i);
    LegalConcat(f, Boot(f), acts, more);
    PlainConcat(f, acts, more);
    acts := acts + more;
    forall n | n in up && n in f.handles ensures ShowsHealthy(f, w', n) {
      assert f.order[IndexOf(f.order, n)] == n && n != y;
      ShownElsewhere(f, w, w', i, n);
    }
  }

  // ---------------------------------------------------------------------------------------
  // Who fails
  // ---------------------------------------------------------------------------------------

  ghost function NeededSet(f: Fleet, k: Name, p: nat): set<Name>
    requires k in f.handles && p <= |f.handles[k].dependsOn|
  {
    set n | n in f.handles && Needed(f, k, p, n)
  }

  lemma {:induction false} NeededGrows(f: Fleet, k: Name, p: nat, n: Name, d: Name)
    requires ValidFleet(f) && k in f.handles && p <= |f.handles[k].dependsOn|
    requires Needed(f, k, p, n) && n in f.handles && d in f.handles[n].dependsOn
    ensures Needed(f, k, p, d) && d in f.handles
  {
    hide ValidFleet, Reaches;
    DependencyKnown(f, n, d);
    var g, deps := HandleGraph(f.handles), f.handles[k].dependsOn;
    var q :| 0 <= q < p && (deps[q] == n || Reaches(g, deps[q], n));
    ReachesMore(g, deps[q], n, d);
  }

  lemma {:induction false} ReachesMore(g: Graph, a: Name, n: Name, d: Name)
    requires (a == n || Reaches(g, a, n)) && Edge(g, n, d)
    ensures Reaches(g, a, d)
  {
    if a == n {
      ReachesThrough(g, a, d, d);
    } else {
      var p :| Walk(g, p) && |p| > 1 && p[0] == a && p[|p| - 1] == n;
      WalkExtends(g, p, d);
      var q := p + [d];
      assert q[0] == a && q[|q| - 1] == d;
    }
  }

  /** Below j there is a first sidecar that is not needed: all its dependencies are. */
  lemma {:induction false} FirstNotNeeded(f: Fleet, k: Name, p: nat, j: Name, x: Name) returns (y: Name)
    requires ValidFleet(f) && k in f.handles && p <= |f.handles[k].dependsOn|
    requires x in f.handles && Reaches(HandleGraph(f.handles), j, x) && !Needed(f, k, p, x)
    ensures y in f.handles && Reaches(HandleGraph(f.handles), j, y) && !Needed(f, k, p, y)
    ensures forall d :: d in f.handles[y].dependsOn ==> d in NeededSet(f, k, p)
    decreases if x in f.order then IndexOf(f.order, x) else 0
  {
    hide ValidFleet, Reaches, Needed;
    if d :| d in f.handles[x].dependsOn && !Needed(f, k, p, d) {
      DependencyKnown(f, x, d);
      ReachesMore(HandleGraph(f.handles), j, x, d);
      y := FirstNotNeeded(f, k, p, j, d);
    } else {
      y := x;
      forall d | d in f.handles[x].dependsOn ensures d in f.handles {
        DependencyKnown(f, x, d);
      }
    }
  }

  lemma {:induction false} ShownIsPublished(f: Fleet, w: World, n: Name)
    requires SmoothInv(f, w) && Registered(f, w) && ShowsHealthy(f, w, n)
    ensures Healthy in PublishedBy(w, n)
  {
    hide Inv, SupsOk, Discipline, WaitersOk, GoneOk, LandsOk, SteadyAll;
    InvParts(f, w);
    DoneDisciplined(f, w, n);
    SeenIsPublished(f.handles[n], w.sups[n].done);
  }

  lemma {:induction false} PublishedStays(w: World, w': World, n: Name, st: State)
    requires Later(w, w') && n in w.sups && st in PublishedBy(w, n)
    ensures n in w'.sups && st in PublishedBy(w', n)
  {
    hide PublishedBy;
  }

  lemma {:induction false} FailedIsTouched(w: World, n: Name)
    requires n in w.sups && n in w.queues && HasFailed(PublishedBy(w, n))
    ensures !Untouched(w, n)
  {
  }

  /** Where y has failed, nobody that reaches y was touched or has been Healthy. */
  lemma {:induction false} NotPastFailed(f: Fleet, w: World, j: Name, y: Name)
    requires ValidFleet(f) && SmoothInv(f, w) && OrderKnown(f, w) && j in f.handles && y in f.handles
    requires Reaches(HandleGraph(f.handles), j, y) && HasFailed(PublishedBy(w, y))
    ensures Untouched(w, j) && !HealthyIn(w.trace, j)
  {
    hide SmoothInv, ValidFleet, HasFailed, PublishedBy, HealthyIn, Untouched;
    SmoothParts(f, w);
    if !Untouched(w, j) {
      var path :| Walk(HandleGraph(f.handles), path) && |path| > 1 && path[0] == j && path[|path| - 1] == y;
      HealthyAlong(f, w, path);
      HealthyIsPublished(f, w, y);
      HealthyExcludes(f, w, y);
    } else if HealthyIn(w.trace, j) {
      HealthyIsPublished(f, w, j);
      HealthyExcludes(f, w, j);
    }
  }

  /** The waiter of k comes to its p-th dependency, if it comes so far, and no further. */
  lemma {:induction false} NeverReturns(f: Fleet, w: World, i: nat, p: nat, y: Name)
    requires ValidFleet(f) && SmoothInv(f, w) && OrderKnown(f, w) && i < |f.order|
    requires p < |f.handles[f.order[i]].dependsOn| && f.handles[f.order[i]].dependsOn[p] in f.handles && y in f.handles
    requires Reaches(HandleGraph(f.handles), f.handles[f.order[i]].dependsOn[p], y) && HasFailed(PublishedBy(w, y))
    requires forall n :: n in NeededSet(f, f.order[i], p) ==> Healthy in PublishedBy(w, n)
    ensures !WaiterReturned(w, i)
  {
    hide Inv, WaitersOk, LandsOk, SteadyAll, ValidFleet, HasFailed, PublishedBy, HealthyIn, Untouched, Reaches, Begun;
    var deps := f.handles[f.order[i]].dependsOn;
    NotPastFailed(f, w, deps[p], y);
    WaiterIs(f, w, i);
    if WaiterReturned(w, i) {
      if w.callers[i].pc > p {
        AwaitedWasHealthy(f, w, i, p);
        assert false;
      }
      assert AwaitsFailed(f, w, i);
      FailedIsTouched(w, deps[w.callers[i].pc]);
      assert w.callers[i].pc < p;
      var d := deps[w.callers[i].pc];
      assert Needed(f, f.order[i], p, d);
      HealthyExcludes(f, w, d);
    }
  }

  lemma {:induction false} HangsAtKnown(f: Fleet, k: Name, p: nat)
    requires ValidFleet(f) && HangsAt(f, k, p)
    ensures k in f.handles && k in f.order && f.order[IndexOf(f.order, k)] == k && p < |f.handles[k].dependsOn|
    ensures
      var d := f.handles[k].dependsOn[p];
      && d in f.handles && d in f.order && f.order[IndexOf(f.order, d)] == d
      && f.handles[d].dependsOn != [] && f.handles[d].dependsOn[0] in f.handles && !Needed(f, k, p, d)
    ensures forall n :: n in NeededSet(f, k, p) ==> n in f.handles && Probeable(f.handles[n])
  {
    var d := f.handles[k].dependsOn[p];
    DependencyKnown(f, k, d);
    DependencyKnown(f, d, f.handles[d].dependsOn[0]);
    hide Reaches;
  }

  lemma {:induction false} XIsBelow(f: Fleet, k: Name, p: nat, x: Name)
    requires ValidFleet(f) && HangsWithoutCrash(f, k, p, x)
    ensures HangsAt(f, k, p) && x in f.handles && !Needed(f, k, p, x)
    ensures Reaches(HandleGraph(f.handles), f.handles[k].dependsOn[p], x)
  {
    hide Needed;
    var d := f.handles[k].dependsOn[p];
    DependencyKnown(f, d, x);
    ReachesThrough(HandleGraph(f.handles), d, x, x);
    hide Reaches;
  }

  /** What k needs before p is up, and below its p-th dependency one sidecar has failed. */
  lemma {:induction false} FailOne(f: Fleet, k: Name, p: nat, x: Name) returns (acts: seq<Action>, y: Name)
    requires ValidFleet(f) && HangsWithoutCrash(f, k, p, x)
    ensures Legal(f, Boot(f), acts) && AllPlain(f, acts)
    ensures y in f.handles && Reaches(HandleGraph(f.handles), f.handles[k].dependsOn[p], y)
    ensures
      var w := Outcome(f, Boot(f), acts);
      && Registered(f, w) && HasFailed(PublishedBy(w, y))
      && forall n :: n in NeededSet(f, k, p) ==> n in f.handles && ShowsHealthy(f, w, n)
  {
    XIsBelow(f, k, p, x);
    HangsAtKnown(f, k, p);
    hide ValidFleet, Reaches, HangsAt, HangsWithoutCrash, Probeable, ShowsHealthy, Boot, Legal, AllPlain, HasFailed, PublishedBy, AllSmooth;
    y := FirstNotNeeded(f, k, p, f.handles[k].dependsOn[p], x);
    var up := NeededSet(f, k, p);
    forall n, d | n in up && n in f.handles && d in f.handles[n].dependsOn ensures d in up {
      NeededGrows(f, k, p, n, d);
    }
    hide Needed;
    acts := UpAndFailed(f, up, y);
  }

  /** A run without crashes that ends with a waiter that has not returned. */
  lemma {:induction false} HangWithoutCrash(f: Fleet, k: Name, p: nat, x: Name) returns (acts: seq<Action>)
    requires ValidFleet(f) && HangsWithoutCrash(f, k, p, x)
    ensures Legal(f, Boot(f), acts) && AllOnlyWaiters(f, acts) && AllSmooth(f, Boot(f), acts)
    ensures AtEnd(f, Reached(f, acts)) && !CanMove(f, Reached(f, acts)) && !AllReturned(f, Reached(f, acts))
  {
    var first, y := FailOne(f, k, p, x);
    XIsBelow(f, k, p, x);
    HangsAtKnown(f, k, p);
    hide Boot, ValidFleet, Legal, Needed, HangsAt, HangsWithoutCrash, SmoothInv, Peaceful, AllPlain, AtEnd, CanMove, AllSmooth, Reaches;
    hide ShowsHealthy, NeededSet, Later, OrderKnown, AllOnlyWaiters;
    var w1 := Outcome(f, Boot(f), first);
    BootPeaceful(f);
    RunPeaceful(f, Boot(f), first);
    PeacefulParts(f, w1);
    var rest := RunOut(f, w1);
    acts := first + rest;
    LegalConcat(f, Boot(f), first, rest);
    PlainConcat(f, first, rest);
    PlainIsOnlyWaiters(f, acts);
    PlainIsSmooth(f, Boot(f), acts);
    SmoothReached(f, acts);
    RunPeaceful(f, w1, rest);
    var w := Outcome(f, w1, rest);
    PeacefulEnd(f, w);
    PlainIsSmooth(f, Boot(f), first);
    SmoothReached(f, first);
    Stranded(f, w1, w, k, p, y);
  }

  lemma {:induction false} PlainIsOnlyWaiters(f: Fleet, acts: seq<Action>)
    requires AllPlain(f, acts)
    ensures AllOnlyWaiters(f, acts)
  {
    hide OnlyWaiters;
  }

  lemma {:induction false} Stranded(f: Fleet, w1: World, w: World, k: Name, p: nat, y: Name)
    requires ValidFleet(f) && SmoothInv(f, w1) && SmoothInv(f, w) && OrderKnown(f, w1) && OrderKnown(f, w) && Later(w1, w)
    requires HangsAt(f, k, p) && y in f.handles && Reaches(HandleGraph(f.handles), f.handles[k].dependsOn[p], y)
    requires HasFailed(PublishedBy(w1, y))
    requires forall n :: n in NeededSet(f, k, p) ==> n in f.handles && ShowsHealthy(f, w1, n)
    ensures !AllReturned(f, w)
  {
    hide ValidFleet, SmoothInv, HangsAt, HasFailed, PublishedBy, Reaches, ShowsHealthy, NeededSet, Later;
    HangsAtKnown(f, k, p);
    FailedStays(w1, w, y);
    forall n | n in NeededSet(f, k, p) ensures Healthy in PublishedBy(w, n) {
      ShownIsPublished(f, w1, n);
      PublishedStays(w1, w, n, Healthy);
    }
    NeverReturns(f, w, IndexOf(f.order, k), p, y);
  }
}
