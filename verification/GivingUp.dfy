/**
 What becomes of a lone start_all, crashes included, when a waiter gives up: its sidecar stays Idle, and
 whoever awaits that one waits forever.
 */
module GivingUp {
  import opened Domain
  import opened Lifecycle
  import opened Fleet
  import opened FleetInvariants
  import opened FleetRuns
  import opened StartAllRuns

  /** Waiter i has given up. */
  predicate GaveUp(w: World, i: nat) {
    i in w.callers && w.callers[i].gone
  }

  /** A waiter that awaits an untouched sidecar: nothing it could do is enabled. */
  lemma {:induction false} AwaitsInVain(f: Fleet, w: World, j: nat, n: Name)
    requires Registered(f, w) && n in f.handles && Untouched(w, n)
    requires Awaiting(f, w, j) && CurrentOp(w, j) == AwaitHealthy(n)
    ensures forall a :: IsCallers(a) && a.id == j ==> !Enabled(f, w, a)
  {
    hide MayReact, IsProgram;
  }

  /** A waiter whose dependency never did anything has not got past it. */
  lemma {:induction false} NotPast(f: Fleet, w: World, j: nat, k: nat)
    requires OrderKnown(f, w) && j < |f.order| && j in w.callers && k < |f.handles[f.order[j]].dependsOn|
    requires Inv(f, w) && WaiterOk(f, w, j)
    requires HistoryIn(w.trace, f.handles[f.order[j]].dependsOn[k]) == Empty
    ensures w.callers[j].pc <= k && !w.callers[j].sent
  {
    hide Inv, SupsOk, CallersOk, IsProgram, Untouched;
    InvParts(f, w);
    CallerAt(f, w, j);
    var c := w.callers[j];
    if c.pc > k {
      assert OpDone(f, w.trace, c.prog[k]);
      NoEventsYet(w.trace, f.handles[f.order[j]].dependsOn[k], Emitted(Healthy));
    }
  }

  /** What waiter i giving up means for waiter j: it cannot get past n, and waits there for good. */
  ghost predicate Blocked(f: Fleet, w: World, n: Name, j: nat)
    requires OrderKnown(f, w) && j < |f.order|
  {
    j in w.callers && n in f.handles[f.order[j]].dependsOn ==>
      && w.callers[j].pc < |f.handles[f.order[j]].dependsOn| && !w.callers[j].sent
      && (Active(w, j) && CurrentOp(w, j) == AwaitHealthy(n) ==>
           forall a :: IsCallers(a) && a.id == j ==> !Enabled(f, w, a))
  }

  lemma {:induction false} UntouchedBlocks(f: Fleet, w: World, n: Name, j: nat)
    requires OrderKnown(f, w) && j < |f.order| && n in f.handles
    requires Inv(f, w) && WaitersOk(f, w) && Untouched(w, n) && HistoryIn(w.trace, n) == Empty
    ensures Blocked(f, w, n, j)
  {
    hide Inv, WaitersOk, Enabled, Untouched, HistoryIn, WaiterOk;
    if j in w.callers && n in f.handles[f.order[j]].dependsOn {
      WaiterIs(f, w, j);
      var k :| 0 <= k < |f.handles[f.order[j]].dependsOn| && f.handles[f.order[j]].dependsOn[k] == n;
      NotPast(f, w, j, k);
      if Active(w, j) && CurrentOp(w, j) == AwaitHealthy(n) {
        AwaitsInVain(f, w, j, n);
      }
    }
  }

  lemma {:induction false} GaveUpLater(f: Fleet, w: World, i: nat)
    requires StartAllInv(f, w) && OrderKnown(f, w) && i < |f.order| && GaveUp(w, i)
    ensures f.order[i] in f.handles && Untouched(w, f.order[i]) && HistoryIn(w.trace, f.order[i]) == Empty
  {
    hide Inv, SupsOk, WaitersOk, GoneOk, LandsOk;
    InvParts(f, w);
    WaiterIs(f, w, i);
    DoneDisciplined(f, w, f.order[i]);
  }

  /**
   start_all can wait forever. Let the manager be asked for one start_all and for nothing else, and
   let the waiter of a sidecar n give up. Then however the run goes on: n stays Idle and never does
   anything, no waiter of a sidecar that depends on n gets past it, and a waiter that has come to n
   waits there for good, since it can neither go on nor give up.
   */
  lemma {:induction false} GivingUpBlocks(f: Fleet, acts: seq<Action>, more: seq<Action>, i: nat, j: nat)
    requires ValidFleet(f) && acts <= more && Legal(f, Boot(f), acts) && Legal(f, Boot(f), more)
    requires AllOnlyWaiters(f, more)
    requires i < |f.order| && j < |f.order| && GaveUp(Reached(f, acts), i)
    ensures
      var w := Reached(f, more);
      HistoryIn(w.trace, f.order[i]) == Empty && OrderKnown(f, w) && Blocked(f, w, f.order[i], j)
  {
    BootStartAll(f);
    var rest := more[|acts|..];
    assert forall a :: a in acts || a in rest ==> a in more;
    hide StartAllInv, ValidFleet, Boot, Enabled, Legal, Blocked, OnlyWaiters, Untouched;
    RunStartAll(f, Boot(f), acts);
    RunSplits(f, Boot(f), acts, more);
    RunStartAll(f, Reached(f, acts), rest);
    var w := Reached(f, more);
    Gone(Reached(f, acts), w, i);
    StartAllParts(f, w);
    GaveUpLater(f, w, i);
    UntouchedBlocks(f, w, f.order[i], j);
  }

  lemma {:induction false} Gone(w: World, w': World, i: nat)
    requires Later(w, w') && GaveUp(w, i)
    ensures GaveUp(w', i)
  {
  }
}
