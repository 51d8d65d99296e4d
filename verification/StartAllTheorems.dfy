/** Exactly when start_all returns: whatever happens, and if no child ends once it is Healthy. */
module StartAllTheorems {
  import opened Domain
  import opened Graph
  import opened Closure
  import opened Fleet
  import opened FleetRuns
  import opened StartAllRuns
  import opened StartAll
  import opened StartAllReturns
  import opened StartAllHangs
  import opened StartAllStuck

  /** With a place to hang in the dependency lists, some run ends with a waiter that has not returned. */
  lemma {:induction false} HangRun(f: Fleet, k: Name, p: nat) returns (acts: seq<Action>)
    requires ValidFleet(f) && HangsAt(f, k, p)
    ensures Legal(f, Boot(f), acts) && AllOnlyWaiters(f, acts)
    ensures AtEnd(f, Reached(f, acts)) && !AllReturned(f, Reached(f, acts))
  {
    hide Boot, ValidFleet, Legal, AllOnlyWaiters, AtEnd, AllReturned, Reached, Needed, AllSmooth, CanMove;
    if x :| x in f.handles[f.handles[k].dependsOn[p]].dependsOn && !Needed(f, k, p, x) {
      assert HangsWithoutCrash(f, k, p, x);
      acts := HangWithoutCrash(f, k, p, x);
    } else {
      acts := HangByCrash(f, k, p);
    }
  }

  lemma {:induction false} EndReturns(f: Fleet, acts: seq<Action>)
    requires ValidFleet(f) && !MayHang(f)
    requires Legal(f, Boot(f), acts) && AllOnlyWaiters(f, acts) && AtEnd(f, Reached(f, acts))
    ensures AllReturned(f, Reached(f, acts))
  {
    hide ValidFleet, MayHang, Legal, Boot, AllOnlyWaiters, AtEnd, AllReturned, StartAllInv, GoesOn, Later;
    BootStartAll(f);
    RunStartAll(f, Boot(f), acts);
    var w := Reached(f, acts);
    StartAllParts(f, w);
    EndGoesNowhere(f, w);
    SafeReturns(f, w);
  }

  /**
   Exactly when start_all returns. Let the manager be asked for one start_all and for nothing else; ports,
   spawns, probes and children may fail at any time. Then every run that comes to an end, where nothing
   can happen but the end of a further child, ends with all waiters returned, having started their
   sidecars or given up, if and only if no sidecar lists a place to hang: a dependency d that has
   dependencies itself, and that is neither listed before nor a direct or indirect dependency of something
   listed before. A place does not count if what is needed to come to it can never be Healthy.
   */
  lemma {:induction false} StartAllReturnsExactlyWhen(f: Fleet)
    requires ValidFleet(f)
    ensures
      (forall acts :: Legal(f, Boot(f), acts) && AllOnlyWaiters(f, acts) && AtEnd(f, Reached(f, acts)) ==>
        AllReturned(f, Reached(f, acts)))
      <==> !MayHang(f)
  {
    hide Legal, AllOnlyWaiters, AtEnd, AllReturned, Boot, ValidFleet, Reached, HangsAt;
    if MayHang(f) {
      var k, p :| HangsAt(f, k, p);
      var acts := HangRun(f, k, p);
    } else {
      hide MayHang;
      forall acts | Legal(f, Boot(f), acts) && AllOnlyWaiters(f, acts) && AtEnd(f, Reached(f, acts))
        ensures AllReturned(f, Reached(f, acts))
      {
        EndReturns(f, acts);
      }
    }
  }

  /** The same as long as no child ends once it is Healthy: then a dependency of d must be unlisted, too. */
  lemma {:induction false} ReturnsWithoutCrashExactlyWhen(f: Fleet)
    requires ValidFleet(f)
    ensures
      (forall acts :: Legal(f, Boot(f), acts) && AllSmooth(f, Boot(f), acts) && !CanMove(f, Reached(f, acts)) ==>
        AllReturned(f, Reached(f, acts)))
      <==> !MayHangWithoutCrash(f)
  {
    hide Legal, AllSmooth, CanMove, AllReturned, Boot, ValidFleet, Reached, HangsWithoutCrash, SmoothInv;
    if MayHangWithoutCrash(f) {
      var k, p, x :| HangsWithoutCrash(f, k, p, x);
      var acts := HangWithoutCrash(f, k, p, x);
    } else {
      hide MayHangWithoutCrash;
      forall acts | Legal(f, Boot(f), acts) && AllSmooth(f, Boot(f), acts) && !CanMove(f, Reached(f, acts))
        ensures AllReturned(f, Reached(f, acts))
      {
        SmoothReached(f, acts);
        SafeReturnsWithoutCrash(f, Reached(f, acts));
      }
    }
  }

  /** No sidecar that has a dependency is itself depended on. */
  ghost predicate Flat(f: Fleet) {
    forall k, d :: k in f.handles && d in f.handles[k].dependsOn && d in f.handles ==> f.handles[d].dependsOn == []
  }

  /** In a flat fleet start_all returns, whatever happens. */
  lemma {:induction false} FlatListsReturn(f: Fleet, acts: seq<Action>)
    requires ValidFleet(f) && Flat(f)
    requires Legal(f, Boot(f), acts) && AllOnlyWaiters(f, acts) && AtEnd(f, Reached(f, acts))
    ensures AllReturned(f, Reached(f, acts))
  {
    FlatHasNoPlace(f);
    hide *;
    EndReturns(f, acts);
  }

  lemma {:induction false} FlatHasNoPlace(f: Fleet)
    requires Flat(f)
    ensures !MayHang(f)
  {
    hide Needed;
  }

  /** A start_all that ends with no sidecar failed has brought every one up, crashes and all. */
  lemma {:induction false} EndsUp(f: Fleet, acts: seq<Action>)
    requires ValidFleet(f)
    requires Legal(f, Boot(f), acts) && AllOnlyWaiters(f, acts)
    requires AtEnd(f, Reached(f, acts)) && NoneFailed(f, Reached(f, acts))
    ensures AllUp(f, Reached(f, acts))
  {
    hide ValidFleet, Legal, Boot, AllOnlyWaiters, AtEnd, NoneFailed, AllUp, StartAllInv, GoesOn, Later;
    BootStartAll(f);
    RunStartAll(f, Boot(f), acts);
    var w := Reached(f, acts);
    StartAllParts(f, w);
    EndGoesNowhere(f, w);
    UpOrMoving(f, w);
  }

  // ---------------------------------------------------------------------------------------
  // A chain of three
  // ---------------------------------------------------------------------------------------

  function Plainly(name: Name, deps: seq<Name>): Config {
    Config(name, name, NoPort, Immediate, Never, NoGrace, deps)
  }

  /** "c" depends on "b", which depends on "a"; but "c" lists "a" first. */
  const CHAIN_OF_THREE := Fleet(
    map["a" := Plainly("a", []), "b" := Plainly("b", ["a"]), "c" := Plainly("c", ["a", "b"])], ["a", "b", "c"])

  lemma {:induction false} ChainIsValid()
    ensures ValidFleet(CHAIN_OF_THREE)
  {
    var f := CHAIN_OF_THREE;
    var g := HandleGraph(f.handles);
    assert g["a"] == {} && g["b"] == {"a"} && g["c"] == {"a", "b"};
    assert f.order[..0] == [] && f.order[..1] == ["a"] && f.order[..2] == ["a", "b"];
  }

  /** If no child ends once it is Healthy, the waiter of "c" gives up on "a" together with that of "b". */
  lemma {:induction false} ListedFirstReturns(acts: seq<Action>)
    requires Legal(CHAIN_OF_THREE, Boot(CHAIN_OF_THREE), acts)
    requires AllSmooth(CHAIN_OF_THREE, Boot(CHAIN_OF_THREE), acts) && !CanMove(CHAIN_OF_THREE, Reached(CHAIN_OF_THREE, acts))
    ensures AllReturned(CHAIN_OF_THREE, Reached(CHAIN_OF_THREE, acts))
  {
    ChainIsValid();
    ChainHasNoPlace();
    hide *;
    ReturnsWithoutCrashExactlyWhen(CHAIN_OF_THREE);
  }

  lemma {:induction false} ChainHasNoPlace()
    ensures !MayHangWithoutCrash(CHAIN_OF_THREE)
  {
    ListedIsNeeded(CHAIN_OF_THREE, "c", 1, 0);
    hide Needed, Probeable;
  }

  lemma {:induction false} ListedIsNeeded(f: Fleet, k: Name, p: nat, q: nat)
    requires k in f.handles && q < p <= |f.handles[k].dependsOn|
    ensures Needed(f, k, p, f.handles[k].dependsOn[q])
  {
    hide Reaches;
  }

  /** But if "a" ends for good after "c" has seen it Healthy and before "b" has, "c" waits forever. */
  lemma {:induction false} CrashHangsChain() returns (acts: seq<Action>)
    ensures Legal(CHAIN_OF_THREE, Boot(CHAIN_OF_THREE), acts) && AllOnlyWaiters(CHAIN_OF_THREE, acts)
    ensures AtEnd(CHAIN_OF_THREE, Reached(CHAIN_OF_THREE, acts)) && !AllReturned(CHAIN_OF_THREE, Reached(CHAIN_OF_THREE, acts))
  {
    ChainIsValid();
    ChainHasPlace();
    hide *;
    acts := HangRun(CHAIN_OF_THREE, "c", 1);
  }

  lemma {:induction false} ChainHasPlace()
    ensures HangsAt(CHAIN_OF_THREE, "c", 1)
  {
    var f := CHAIN_OF_THREE;
    ChainIsValid();
    FirstDoesNotReach(f, "a", "b");
    hide ValidFleet, Reaches, HandleGraph;
    assert f.handles["c"].dependsOn == ["a", "b"] && f.handles["b"].dependsOn == ["a"];
    assert !Needed(f, "c", 1, "b");
    assert forall n :: n in f.handles ==> Probeable(f.handles[n]);
    hide Needed, Probeable;
  }

  lemma {:induction false} FirstDoesNotReach(f: Fleet, a: Name, b: Name)
    requires ValidFleet(f) && a in f.order && b in f.order && IndexOf(f.order, a) < IndexOf(f.order, b)
    ensures !Reaches(HandleGraph(f.handles), a, b)
  {
    hide ValidFleet, Reaches;
    if Reaches(HandleGraph(f.handles), a, b) {
      ReachesComeFirst(f, a, b);
    }
  }
}
