/** Where the manager promises less than one might read into it. */
module Exceptions {
  import opened Domain
  import opened Lifecycle
  import opened Extension
  import opened Graph
  import opened Closure
  import opened Fleet
  import opened FleetInvariants
  import opened FleetRuns
  import opened FleetTheorems

  // ---------------------------------------------------------------------------------------
  // A restart does not wait for dependencies
  // ---------------------------------------------------------------------------------------

  const BOUNCE: Command := Command(Restart, 0, 0)

  /** The plan of an idle supervisor that is asked to restart. */
  function Bounced(cfg: Config): Task {
    Go(cfg, 0, None, Take(cfg, Empty, BOUNCE))
  }

  /** n has performed k effects of that plan, and nobody else any. */
  predicate Bouncing(f: Fleet, w: World, n: Name, k: nat) {
    && Registered(f, w) && n in f.handles && k <= 3
    && w.sups[n] == Sup(Bounced(f.handles[n]), BouncedSoFar(k))
    && w.trace == [Event(n, Consumed(BOUNCE)), Event(n, Acked(BOUNCE)), Event(n, Emitted(Starting))][..k]
  }

  function BouncedSoFar(k: nat): History
    requires k <= 3
  {
    var one := After(Empty, Consumed(BOUNCE));
    var two := After(one, Acked(BOUNCE));
    if k == 0 then Empty else if k == 1 then one else if k == 2 then two else After(two, Emitted(Starting))
  }

  lemma {:induction false} BouncedPlan(cfg: Config, k: nat)
    requires k < 3
    ensures
      var h := Bounced(cfg).hist;
      && Prefix(BouncedSoFar(k), h) && BouncedSoFar(k) != h
      && After(BouncedSoFar(k), NextEffect(BouncedSoFar(k), h)) == BouncedSoFar(k + 1)
  {
    hide ViewOf, Discipline;
    var h := Bounced(cfg).hist;
    var h3 := BouncedSoFar(3);
    assert h == After(h3, Sent(Starting));
    assert Prefix(h3, h3) && Prefix(h3, h);
    assert Prefix(BouncedSoFar(2), h3);
    assert Prefix(BouncedSoFar(1), h3);
    PrefixTransitive(BouncedSoFar(k + 1), h3, h);
    NextIs(BouncedSoFar(k), if k == 0 then Consumed(BOUNCE) else if k == 1 then Acked(BOUNCE) else Emitted(Starting), h);
  }

  lemma {:induction false} BouncePerforms(f: Fleet, w: World, n: Name, k: nat)
    requires Bouncing(f, w, n, k) && k < 3
    ensures Enabled(f, w, Perform(n)) && Bouncing(f, Apply(f, w, Perform(n)), n, k + 1)
  {
    hide Bounced, ViewOf;
    BouncedPlan(f.handles[n], k);
  }

  /** Sending the restart to a freshly booted fleet, up to the plan of n's reaction. */
  lemma {:induction false} BounceArrives(f: Fleet, n: Name) returns (acts: seq<Action>)
    requires n in f.handles
    ensures Legal(f, Boot(f), acts) && Bouncing(f, Outcome(f, Boot(f), acts), n, 1)
    ensures forall a :: a in acts && a.Call? ==> a.prog == [Post(n, Restart)]
  {
    hide Bounced, ViewOf, Feed;
    var a0, a1, a2 := Call(0, [Post(n, Restart)]), Deliver(0), React(n, Cmd(BOUNCE), None);
    var w0 := Boot(f);
    assert IsSingle(f, [Post(n, Restart)], Restart);
    assert Enabled(f, w0, a0);
    var w1 := Apply(f, w0, a0);
    assert Posting(f, w1, 0) && w1.queues[n] == [];
    assert Enabled(f, w1, a1);
    var w2 := Apply(f, w1, a1);
    assert w2.queues[n] == [BOUNCE] && w2.sups[n] == Sup(FRESH, Empty) && w2.trace == [];
    BounceReacts(f, w2, n);
    var w3 := Apply(f, w2, a2);
    ThreeSteps(f, w0, a0, a1, a2);
    acts := [a0, a1, a2];
  }

  lemma {:induction false} BounceReacts(f: Fleet, w: World, n: Name)
    requires Registered(f, w) && n in f.handles
    requires w.queues[n] == [BOUNCE] && w.sups[n] == Sup(FRESH, Empty) && w.trace == []
    ensures Enabled(f, w, React(n, Cmd(BOUNCE), None))
    ensures Bouncing(f, Apply(f, w, React(n, Cmd(BOUNCE), None)), n, 1)
  {
    hide ViewOf, Discipline, Then;
    assert Feed(f.handles[n], FRESH, Cmd(BOUNCE)) == Bounced(f.handles[n]);
    hide Bounced, Feed;
    BouncedPlan(f.handles[n], 0);
  }

  lemma {:induction false} BounceEnds(f: Fleet, w: World, n: Name)
    requires Bouncing(f, w, n, 1)
    ensures Legal(f, w, [Perform(n), Perform(n)])
    ensures Bouncing(f, Outcome(f, w, [Perform(n), Perform(n)]), n, 3)
  {
    BouncePerforms(f, w, n, 1);
    var w1 := Apply(f, w, Perform(n));
    BouncePerforms(f, w1, n, 2);
    var w2 := Apply(f, w1, Perform(n));
    hide Apply, Enabled, Bounced;
    assert Legal(f, w2, []);
    assert [Perform(n)][1..] == [] && [Perform(n), Perform(n)][1..] == [Perform(n)];
    assert Legal(f, w1, [Perform(n)]) && Outcome(f, w1, [Perform(n)]) == w2;
  }

  /**
   A restart waits for nothing: in any fleet any sidecar can be made to publish Starting by a restart
   call alone, while no other sidecar has done anything at all.
   */
  lemma {:induction false} RestartBypassesGate(f: Fleet, n: Name) returns (acts: seq<Action>)
    requires ValidFleet(f) && n in f.handles
    ensures Legal(f, Boot(f), acts)
    ensures forall a :: a in acts && a.Call? ==> a.prog == [Post(n, Restart)]
    ensures Reached(f, acts).trace ==
      [Event(n, Consumed(BOUNCE)), Event(n, Acked(BOUNCE)), Event(n, Emitted(Starting))]
  {
    var arrival := BounceArrives(f, n);
    var w, ends := Outcome(f, Boot(f), arrival), [Perform(n), Perform(n)];
    assert forall a :: a in ends ==> !a.Call?;
    hide *;
    BounceEnds(f, w, n);
    LegalConcat(f, Boot(f), arrival, ends);
    acts := arrival + ends;
    BounceTrace(f, Outcome(f, w, ends), n);
  }

  lemma {:induction false} BounceTrace(f: Fleet, w: World, n: Name)
    requires Bouncing(f, w, n, 3)
    ensures w.trace == [Event(n, Consumed(BOUNCE)), Event(n, Acked(BOUNCE)), Event(n, Emitted(Starting))]
  {
    hide Bounced;
  }

  // ---------------------------------------------------------------------------------------
  // Exactly when everything is gated
  // ---------------------------------------------------------------------------------------

  predicate IsRestart(op: Op) {
    op.Post? && op.kind.Restart?
  }

  /** n may be restarted: it is in `free`, or a Start of it was consumed. */
  ghost predicate MayRestart(trace: Trace, n: Name, free: set<Name>) {
    n in free || StartedBefore(trace, |trace|, n)
  }

  /** Every restart in the program is allowed by now. */
  ghost predicate RestartsAllowed(trace: Trace, prog: seq<Op>, free: set<Name>) {
    forall o :: 0 <= o < |prog| && IsRestart(prog[o]) ==> MayRestart(trace, prog[o].target, free)
  }

  /** A call of restart is for a name in `free`, or for one of which a Start was consumed. */
  ghost predicate Careful(w: World, a: Action, free: set<Name>) {
    a.Call? ==> RestartsAllowed(w.trace, a.prog, free)
  }

  ghost predicate AllCareful(f: Fleet, w: World, acts: seq<Action>, free: set<Name>)
    requires Legal(f, w, acts)
    decreases |acts|
  {
    acts == [] || (Careful(w, acts[0], free) && AllCareful(f, Apply(f, w, acts[0]), acts[1..], free))
  }

  /** Every Starting comes after a Healthy of each direct or indirect dependency. */
  ghost predicate AllGated(f: Fleet, trace: Trace) {
    forall i, d ::
      0 <= i < |trace| && trace[i].effect == Emitted(Starting) && Reaches(HandleGraph(f.handles), trace[i].name, d) ==>
        Earlier(trace, i, Event(d, Emitted(Healthy)))
  }

  ghost predicate CallsOk(w: World, free: set<Name>) {
    forall id :: id in w.callers ==> RestartsAllowed(w.trace, w.callers[id].prog, free)
  }

  ghost predicate ConsumedOk(trace: Trace, free: set<Name>) {
    forall n :: n !in free ==> RestartsFollowStart(trace, |trace|, n)
  }

  /** Every restart called, and every Restart consumed, of another name comes after a Start. */
  ghost predicate RestartsOk(w: World, free: set<Name>) {
    CallsOk(w, free) && ConsumedOk(w.trace, free)
  }

  lemma {:induction false} StartedStays(trace: Trace, more: Trace, i: nat, j: nat, n: Name)
    requires trace <= more && i <= |trace| && i <= j && StartedBefore(trace, i, n)
    ensures StartedBefore(more, j, n)
  {
    var k :| 0 <= k < i && k < |trace| && IsConsumed(trace[k], n, Start);
    assert IsConsumed(more[k], n, Start);
  }

  /** Callers keep their programs. */
  lemma {:induction false} StepProgs(f: Fleet, w: World, a: Action)
    requires Registered(f, w) && Enabled(f, w, a)
    ensures
      var w' := Apply(f, w, a);
      && (forall id :: id in w'.callers ==>
           (id in w.callers && w'.callers[id].prog == w.callers[id].prog) || a == Call(id, w'.callers[id].prog))
      && (a.Call? ==> w'.trace == w.trace)
      && (a.React? || a.Perform? ==> w'.callers == w.callers)
  {
    if a.React? || a.Perform? {
      CallsKept(f, w, a);
      hide Apply, Enabled;
    } else {
      hide ViewAt, HasReturned, IsProgram, PerformNext, MayReact, Reacted;
    }
  }

  lemma {:induction false} AllowedStays(trace: Trace, more: Trace, prog: seq<Op>, free: set<Name>)
    requires trace <= more && RestartsAllowed(trace, prog, free)
    ensures RestartsAllowed(more, prog, free)
  {
    forall o | 0 <= o < |prog| && IsRestart(prog[o]) ensures MayRestart(more, prog[o].target, free) {
      if prog[o].target !in free {
        StartedStays(trace, more, |trace|, |more|, prog[o].target);
      }
    }
  }

  lemma {:induction false} CallsStep(w: World, w': World, a: Action, free: set<Name>)
    requires w.trace <= w'.trace && CallsOk(w, free) && Careful(w, a, free)
    requires forall id :: id in w'.callers ==>
      (id in w.callers && w'.callers[id].prog == w.callers[id].prog) || a == Call(id, w'.callers[id].prog)
    ensures CallsOk(w', free)
  {
    hide RestartsAllowed;
    forall id | id in w'.callers ensures RestartsAllowed(w'.trace, w'.callers[id].prog, free) {
      AllowedStays(w.trace, w'.trace, w'.callers[id].prog, free);
    }
  }

  lemma {:induction false} StepRestarts(f: Fleet, w: World, a: Action, free: set<Name>)
    requires Registered(f, w) && Enabled(f, w, a)
    requires Inv(f, w) && RestartsOk(w, free) && Careful(w, a, free)
    ensures RestartsOk(Apply(f, w, a), free)
  {
    hide Inv, Apply, Enabled, Registered, CallsOk, ConsumedOk, Careful;
    StepProgs(f, w, a);
    StepTraceGrows(f, w, a);
    StepKeeps(f, w, a);
    CallsStep(w, Apply(f, w, a), a, free);
    NewRestarts(f, w, Apply(f, w, a), free);
  }

  /** A new Restart was sent by a call that was allowed. */
  lemma {:induction false} NewRestarts(f: Fleet, w: World, w': World, free: set<Name>)
    requires Inv(f, w') && w.trace <= w'.trace
    requires RestartsOk(w, free)
    requires w'.trace == w.trace || forall id :: id in w'.callers ==> id in w.callers && w'.callers[id].prog == w.callers[id].prog
    ensures ConsumedOk(w'.trace, free)
  {
    forall n | n !in free ensures RestartsFollowStart(w'.trace, |w'.trace|, n) {
      hide Inv, StartedBefore;
      forall j | 0 <= j < |w'.trace| && IsConsumed(w'.trace[j], n, Restart) ensures StartedBefore(w'.trace, j, n) {
        NewRestart(f, w, w', free, n, j);
      }
    }
  }

  lemma {:induction false} NewRestart(f: Fleet, w: World, w': World, free: set<Name>, n: Name, j: nat)
    requires Inv(f, w') && w.trace <= w'.trace && n !in free
    requires RestartsOk(w, free)
    requires w'.trace == w.trace || forall id :: id in w'.callers ==> id in w.callers && w'.callers[id].prog == w.callers[id].prog
    requires j < |w'.trace| && IsConsumed(w'.trace[j], n, Restart)
    ensures StartedBefore(w'.trace, j, n)
  {
    hide Inv, StartedBefore, IsProgram, Ready;
    if j < |w.trace| {
      assert RestartsFollowStart(w.trace, |w.trace|, n);
      StartedStays(w.trace, w'.trace, j, j, n);
    } else {
      ConsumedGrounded(f, w', j);
      var c := w'.trace[j].effect.cmd;
      assert RestartsAllowed(w.trace, w.callers[c.caller].prog, free);
      assert IsRestart(w.callers[c.caller].prog[c.op]) && MayRestart(w.trace, n, free);
      StartedStays(w.trace, w'.trace, |w.trace|, j, n);
    }
  }

  lemma {:induction false} RunRestarts(f: Fleet, w: World, acts: seq<Action>, free: set<Name>)
    requires Legal(f, w, acts) && AllCareful(f, w, acts, free)
    requires Inv(f, w) && RestartsOk(w, free)
    ensures RestartsOk(Outcome(f, w, acts), free)
    decreases |acts|
  {
    hide Inv, RestartsOk, Careful, Apply, Enabled;
    if acts != [] {
      StepRestarts(f, w, acts[0], free);
      StepKeeps(f, w, acts[0]);
      RunRestarts(f, Apply(f, w, acts[0]), acts[1..], free);
    }
  }

  /** Careful runs are gated, if only sidecars without dependencies are restarted freely. */
  lemma {:induction false} CarefulIsGated(f: Fleet, acts: seq<Action>, free: set<Name>)
    requires ValidFleet(f) && Legal(f, Boot(f), acts) && AllCareful(f, Boot(f), acts, free)
    requires forall n :: n in free && n in f.handles ==> f.handles[n].dependsOn == []
    ensures AllGated(f, Reached(f, acts).trace)
  {
    BootInv(f);
    assert RestartsOk(Boot(f), free);
    RunRestarts(f, Boot(f), acts, free);
    var trace, g := Reached(f, acts).trace, HandleGraph(f.handles);
    hide Reached, Legal, ValidFleet, Inv, Boot, Earlier;
    forall i, d | 0 <= i < |trace| && trace[i].effect == Emitted(Starting) && Reaches(g, trace[i].name, d)
      ensures Earlier(trace, i, Event(d, Emitted(Healthy)))
    {
      var path :| Walk(g, path) && |path| > 1 && path[0] == trace[i].name && path[|path| - 1] == d;
      forall x | x in path[..|path| - 1] ensures RestartsFollowStart(trace, i, x) {
        HasDependency(f, path, x);
        assert RestartsFollowStart(trace, |trace|, x);
      }
      GatedStartup(f, acts, i, path);
    }
  }

  lemma {:induction false} HasDependency(f: Fleet, path: seq<Name>, x: Name)
    requires Walk(HandleGraph(f.handles), path) && |path| > 1 && x in path[..|path| - 1]
    ensures x in f.handles && f.handles[x].dependsOn != []
  {
    var k :| 0 <= k < |path| - 1 && path[k] == x;
    assert Edge(HandleGraph(f.handles), path[k], path[k + 1]);
  }

  lemma {:induction false} FreeIsCareful(f: Fleet, w: World, acts: seq<Action>, n: Name, free: set<Name>)
    requires Legal(f, w, acts) && n in free && forall a :: a in acts && a.Call? ==> a.prog == [Post(n, Restart)]
    ensures AllCareful(f, w, acts, free)
    decreases |acts|
  {
    hide Apply, Enabled;
    if acts != [] {
      assert acts[0] in acts;
      FreeIsCareful(f, Apply(f, w, acts[0]), acts[1..], n, free);
    }
  }

  /** Restarting a sidecar that has a dependency, before anything else, is not gated. */
  lemma {:induction false} ColdRestartIsNotGated(f: Fleet, n: Name, free: set<Name>) returns (acts: seq<Action>)
    requires ValidFleet(f) && n in f.handles && n in free && f.handles[n].dependsOn != []
    ensures Legal(f, Boot(f), acts) && AllCareful(f, Boot(f), acts, free)
    ensures !AllGated(f, Reached(f, acts).trace)
  {
    acts := RestartBypassesGate(f, n);
    hide Legal, Reached, ValidFleet;
    FreeIsCareful(f, Boot(f), acts, n, free);
    hide AllCareful, AllGated;
    BareStartIsNotGated(f, n, Reached(f, acts).trace);
  }

  lemma {:induction false} BareStartIsNotGated(f: Fleet, n: Name, trace: Trace)
    requires n in f.handles && f.handles[n].dependsOn != []
    requires trace == [Event(n, Consumed(BOUNCE)), Event(n, Acked(BOUNCE)), Event(n, Emitted(Starting))]
    ensures !AllGated(f, trace)
  {
    var d := f.handles[n].dependsOn[0];
    assert Edge(HandleGraph(f.handles), n, d);
    ReachesThrough(HandleGraph(f.handles), n, d, d);
    hide Reaches;
    assert trace[2].effect == Emitted(Starting) && trace[2].name == n;
    assert !Earlier(trace, 2, Event(d, Emitted(Healthy)));
  }

  /**
   The exact condition. Let restart be called for the names in `free` at any time, and for any other
   name only after a Start of it was consumed. Then every run is gated if and only if no sidecar in
   `free` has a dependency.
   */
  lemma {:induction false} GatedExactlyWhen(f: Fleet, free: set<Name>)
    requires ValidFleet(f)
    ensures
      (forall acts :: Legal(f, Boot(f), acts) && AllCareful(f, Boot(f), acts, free) ==> AllGated(f, Reached(f, acts).trace))
      <==> (forall n :: n in free && n in f.handles ==> f.handles[n].dependsOn == [])
  {
    hide Legal, AllCareful, AllGated, Boot, ValidFleet, Reached;
    if forall n :: n in free && n in f.handles ==> f.handles[n].dependsOn == [] {
      forall acts | Legal(f, Boot(f), acts) && AllCareful(f, Boot(f), acts, free)
        ensures AllGated(f, Reached(f, acts).trace)
      {
        CarefulIsGated(f, acts, free);
      }
    } else {
      var n :| n in free && n in f.handles && f.handles[n].dependsOn != [];
      var acts := ColdRestartIsNotGated(f, n, free);
    }
  }
}
