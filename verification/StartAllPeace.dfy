/** Runs of a lone start_all in which no child ends: children stay alive, and the run goes on to an end. */
module StartAllPeace {
  import opened Domain
  import opened Lifecycle
  import opened LifecycleProofs
  import opened Extension
  import opened Fleet
  import opened FleetInvariants
  import opened StartAllRuns
  import opened StartAll
  import opened StartAllReturns

  ghost predicate AllPlain(f: Fleet, acts: seq<Action>) {
    forall a :: a in acts ==> Plain(f, a)
  }

  // ---------------------------------------------------------------------------------------
  // Children that nobody ends stay alive
  // ---------------------------------------------------------------------------------------

  /** Every Killed of the history hits a child that was running. */
  predicate KillsOwn(cfg: Config, h: History) {
    match h
    case Empty => true
    case After(before, e) => KillsOwn(cfg, before) && (e.Killed? ==> ViewOf(cfg, before).running.Some?)
  }

  lemma {:induction false} KillsOwnAt(cfg: Config, p: History, e: Effect, h: History)
    requires KillsOwn(cfg, h) && Prefix(After(p, e), h)
    ensures e.Killed? ==> ViewOf(cfg, p).running.Some?
  {
    if h != After(p, e) {
      KillsOwnAt(cfg, p, e, h.before);
    }
  }

  lemma {:induction false} ThenKillsOwn(cfg: Config, h: History, e: Effect)
    requires KillsOwn(cfg, h) && (e.Killed? ==> ViewOf(cfg, h).running.Some?)
    ensures KillsOwn(cfg, Then(cfg, h, e))
  {
  }

  lemma {:induction false} SayKillsOwn(cfg: Config, h: History, st: State)
    requires KillsOwn(cfg, h)
    ensures KillsOwn(cfg, Say(cfg, h, st))
  {
    hide ViewOf;
  }

  lemma {:induction false} ClearKillsOwn(cfg: Config, h: History)
    requires KillsOwn(cfg, h)
    ensures KillsOwn(cfg, ClearEntry(cfg, h))
  {
    hide ViewOf;
  }

  lemma {:induction false} FailKillsOwn(cfg: Config, attempt: nat, port: Option<nat>, h: History, why: Reason)
    requires KillsOwn(cfg, h)
    ensures KillsOwn(cfg, Fail(cfg, attempt, port, h, why).hist)
  {
    hide ViewOf, Discipline, Say, KillsOwn;
    var schedule := Schedule(cfg);
    SayKillsOwn(cfg, h, if attempt < |schedule| then Backoff(attempt + 1, schedule[attempt]) else Failed(why));
  }

  /** Only a child that ended during the health wait is killed after its end. */
  lemma {:induction false} FeedKillsOwn(cfg: Config, t: Task, i: Input)
    requires TaskInv(cfg, t) && KillsOwn(cfg, t.hist) && Accepts(cfg, t.loc, i)
    requires !i.Cmd? && !i.Closed? && !(t.loc.Health? && i.Exit?)
    ensures KillsOwn(cfg, Feed(cfg, t, i).hist)
  {
    hide ViewOf, Discipline, Then, Say, ClearEntry, Fail, KillsOwn;
    match t.loc
    case Spawning =>
      if i.PortGiven? {
        ThenKillsOwn(cfg, t.hist, PortSet(ChosenPort(cfg, i.free)));
      } else {
        FailKillsOwn(cfg, t.attempt, t.port, t.hist, PortUnavailable);
      }
    case Launching =>
      if i.SpawnDone? {
        var spawned := Then(cfg, t.hist, Spawned(i.pid, t.port));
        ThenKillsOwn(cfg, t.hist, Spawned(i.pid, t.port));
        ThenKillsOwn(cfg, spawned, Inserted(i.pid));
        ThenKillsOwn(cfg, Then(cfg, spawned, Inserted(i.pid)), Flushed);
      } else {
        FailKillsOwn(cfg, t.attempt, t.port, t.hist, SpawnError);
      }
    case Health(pid) =>
      if i.ProbePassed? && ProbeCanPass(cfg, t.port) {
        SayKillsOwn(cfg, t.hist, Healthy);
      } else {
        var killed := Then(cfg, t.hist, Killed(pid));
        ThenKillsOwn(cfg, t.hist, Killed(pid));
        ClearKillsOwn(cfg, killed);
        FailKillsOwn(cfg, t.attempt, t.port, ClearEntry(cfg, killed), ProbeError);
      }
    case Monitor(pid) =>
      var reaped := Then(cfg, t.hist, Reaped(pid, i.elapsed));
      ThenKillsOwn(cfg, t.hist, Reaped(pid, i.elapsed));
      ClearKillsOwn(cfg, reaped);
      var attempt := if Resets(cfg, i.elapsed) then 0 else t.attempt;
      FailKillsOwn(cfg, attempt, t.port, ClearEntry(cfg, reaped), Exited(i.code));
    case Waiting(delay) =>
      ThenKillsOwn(cfg, t.hist, Slept(delay));
      SayKillsOwn(cfg, Then(cfg, t.hist, Slept(delay)), Starting);
  }

  lemma {:induction false} FirstKillsOwn(cfg: Config, c: Command)
    requires c.kind.Start?
    ensures KillsOwn(cfg, Feed(cfg, FRESH, Cmd(c)).hist)
  {
    var taken := Then(cfg, Empty, Consumed(c));
    ThenKillsOwn(cfg, Empty, Consumed(c));
    ThenKillsOwn(cfg, taken, Acked(c));
    SayKillsOwn(cfg, Then(cfg, taken, Acked(c)), Starting);
    hide ViewOf, Discipline, KillsOwn, Then, Say;
  }

  /** The child that n runs, if any, is alive. */
  ghost predicate AliveAt(f: Fleet, w: World, n: Name)
    requires n in f.handles && n in w.sups
  {
    var running := ViewAt(f, w, n).running;
    running.Some? ==> running.value in w.live && w.live[running.value].owner == n
  }

  /** Every supervisor kills only running children, and all but x's are alive. */
  ghost predicate AliveBut(f: Fleet, w: World, x: set<Name>)
    requires Registered(f, w)
  {
    forall n :: n in f.handles ==>
      KillsOwn(f.handles[n], w.sups[n].task.hist) && (n in x || AliveAt(f, w, n))
  }

  lemma {:induction false} BootAlive(f: Fleet)
    ensures AliveBut(f, Boot(f), {})
  {
  }

  /** An effect that kills, if it kills, a running child, and that ends the child of x if it was dead. */
  lemma {:induction false} AffectAlive(f: Fleet, w: World, n: Name, e: Effect, image: Option<string>, m: Name)
    requires Registered(f, w) && n in f.handles && m in f.handles
    requires Allowed(f.handles[n], ViewAt(f, w, n), e) && LiveOk(f, w)
    requires e.Killed? ==> ViewAt(f, w, n).running.Some?
    requires e.Spawned? ==> e.pid !in w.live
    requires AliveAt(f, w, m) || (m == n && e.Reaped?)
    requires AliveAt(f, w, n) || e.Reaped?
    ensures Registered(f, Affect(f, w, n, e, image)) && AliveAt(f, Affect(f, w, n, e, image), m)
  {
    hide ViewAt, Allowed, See, Affect;
    AffectFields(f, w, n, e, image);
    SharedFacts(f.handles[n], ViewAt(f, w, n), e);
  }

  lemma {:induction false} AliveBy(f: Fleet, w: World, x: set<Name>, n: Name)
    requires Registered(f, w) && n in f.handles && AliveBut(f, w, x)
    ensures KillsOwn(f.handles[n], w.sups[n].task.hist) && (n in x || AliveAt(f, w, n))
  {
    hide KillsOwn, AliveAt;
  }

  /** One effect, after which nobody is excepted. */
  lemma {:induction false} AllAlive(f: Fleet, w: World, n: Name, e: Effect, image: Option<string>, x: set<Name>)
    requires Registered(f, w) && n in f.handles && LiveOk(f, w)
    requires Allowed(f.handles[n], ViewAt(f, w, n), e)
    requires e.Killed? ==> ViewAt(f, w, n).running.Some?
    requires e.Spawned? ==> e.pid !in w.live
    requires x == {} || (x == {n} && e.Reaped?)
    requires AliveBut(f, w, x)
    ensures Registered(f, Affect(f, w, n, e, image)) && AliveBut(f, Affect(f, w, n, e, image), {})
  {
    hide ViewAt, Allowed, AliveAt, KillsOwn, AliveBut, LiveOk;
    AffectLocal(f, w, n, e, image);
    var w' := Affect(f, w, n, e, image);
    forall m | m in f.handles ensures KillsOwn(f.handles[m], w'.sups[m].task.hist) && AliveAt(f, w', m) {
      AliveBy(f, w, x, m);
      AliveBy(f, w, x, n);
      AffectAlive(f, w, n, e, image, m);
    }
    hide Affect;
    NobodyBut(f, w');
  }

  lemma {:induction false} NobodyBut(f: Fleet, w: World)
    requires Registered(f, w)
    requires forall m :: m in f.handles ==> KillsOwn(f.handles[m], w.sups[m].task.hist) && AliveAt(f, w, m)
    ensures AliveBut(f, w, {})
  {
    hide KillsOwn, AliveAt;
  }

  lemma {:induction false} LiveParts(f: Fleet, w: World)
    requires Inv(f, w)
    ensures Registered(f, w) && SupsOk(f, w) && LiveOk(f, w)
  {
  }

  lemma {:induction false} PerformAlive(f: Fleet, w: World, n: Name)
    requires Registered(f, w) && Enabled(f, w, Perform(n))
    requires Inv(f, w) && AliveBut(f, w, {})
    ensures Registered(f, Apply(f, w, Perform(n))) && AliveBut(f, Apply(f, w, Perform(n)), {})
  {
    PerformFields(f, w, n);
    hide Inv, SupsOk, LiveOk, TaskInv, Quietly, NextEffect, Prefix, Affect, Apply, Enabled, AliveBut, KillsOwn, ViewOf, Allowed;
    LiveParts(f, w);
    SupAt(f, w, n);
    var p, h := w.sups[n].done, w.sups[n].task.hist;
    var e := NextEffect(p, h);
    QuietNext(p, h);
    EffectAllowed(f.handles[n], w.sups[n].task, p, e);
    AliveBy(f, w, {}, n);
    QuietlyIsPrefix(After(p, e), h);
    KillsOwnAt(f.handles[n], p, e, h);
    AllAlive(f, w, n, e, None, {});
  }

  lemma {:induction false} QuietlyIsPrefix(p: History, h: History)
    requires Quietly(p, h)
    ensures Prefix(p, h)
  {
  }

  /** What a reaction starts with: a fresh child, the end of x's child, or neither. */
  lemma {:induction false} ReactAlive(f: Fleet, w: World, n: Name, i: Input, image: Option<string>, x: set<Name>)
    requires OrderKnown(f, w) && MayReact(f, w, n, i) && !(w.sups[n].task.loc.Health? && i.Exit?)
    requires StartAllInv(f, w) && AliveBut(f, w, x)
    requires x == {} || (x == {n} && i.Exit?)
    ensures Registered(f, Reacted(f, w, n, i, image)) && AliveBut(f, Reacted(f, w, n, i, image), {})
  {
    hide Inv, SupsOk, LiveOk, WaitersOk, GoneOk, LandsOk, TaskInv, Quietly, Feed, Reacted, Affect, AliveBut, KillsOwn, NoSenders, Allowed, Begun;
    var cfg, t := f.handles[n], w.sups[n].task;
    LiveParts(f, w);
    SupAt(f, w, n);
    InputIs(f, w, n, i);
    var e := ReactFields(f, w, n, i, image);
    FeedKeeps(cfg, t, i);
    EffectAllowed(cfg, Feed(cfg, t, i), t.hist, e);
    AliveBy(f, w, x, n);
    if i.Cmd? {
      FirstKillsOwn(cfg, i.cmd);
    } else {
      FeedKillsOwn(cfg, t, i);
    }
    QuietlyIsPrefix(After(t.hist, e), Feed(cfg, t, i).hist);
    KillsOwnAt(cfg, t.hist, e, Feed(cfg, t, i).hist);
    HeardWhat(t, i, e);
    PlanAlive(f, w, n, i, x);
    AllAlive(f, Plan(f, w, n, i), n, e, image, x);
  }

  lemma {:induction false} HeardWhat(t: Task, i: Input, e: Effect)
    requires HeardFrom(t, i) == if IsHeard(e) then [e] else []
    ensures e.Spawned? ==> i == SpawnDone(e.pid)
    ensures t.loc.Monitor? && i.Exit? ==> e.Reaped?
  {
  }

  lemma {:induction false} PlanAlive(f: Fleet, w: World, n: Name, i: Input, x: set<Name>)
    requires Registered(f, w) && MayReact(f, w, n, i) && AliveBut(f, w, x)
    requires KillsOwn(f.handles[n], Feed(f.handles[n], w.sups[n].task, i).hist)
    requires LiveOk(f, w)
    ensures Registered(f, Plan(f, w, n, i)) && AliveBut(f, Plan(f, w, n, i), x) && LiveOk(f, Plan(f, w, n, i))
    ensures Plan(f, w, n, i).live == w.live && ViewAt(f, Plan(f, w, n, i), n) == ViewOf(f.handles[n], w.sups[n].done)
  {
    hide Feed, KillsOwn, NoSenders, Accepts, ViewOf;
    var p := Plan(f, w, n, i);
    assert w.sups[n].done == w.sups[n].task.hist && p.live == w.live;
    hide MayReact;
    assert forall m :: m in f.handles ==> ViewAt(f, p, m) == ViewAt(f, w, m);
    hide ViewAt, Plan;
  }

  lemma {:induction false} OutsideAlive(f: Fleet, w: World, a: Action)
    requires Registered(f, w) && Enabled(f, w, a) && Plain(f, a) && !a.React? && !a.Perform?
    requires AliveBut(f, w, {})
    ensures Registered(f, Apply(f, w, a)) && AliveBut(f, Apply(f, w, a), {})
  {
    hide OnlyWaiters, AliveBut, AliveAt;
    PlainIsWaiters(f, a);
    var c' := WaiterNext(f, w, a);
    hide Apply, Enabled;
    SameAlive(f, w, Apply(f, w, a));
  }

  lemma {:induction false} PlainIsWaiters(f: Fleet, a: Action)
    requires Plain(f, a) && !a.React? && !a.Perform?
    ensures IsCallers(a)
  {
  }

  lemma {:induction false} SameAlive(f: Fleet, w: World, w': World)
    requires Registered(f, w) && Registered(f, w') && w'.sups == w.sups && w'.live == w.live
    requires AliveBut(f, w, {})
    ensures AliveBut(f, w', {})
  {
    hide KillsOwn;
  }

  lemma {:induction false} PlainReactAlive(f: Fleet, w: World, a: Action)
    requires StartAllInv(f, w) && OrderKnown(f, w) && Enabled(f, w, a) && Plain(f, a) && a.React? && AliveBut(f, w, {})
    ensures Registered(f, Apply(f, w, a)) && AliveBut(f, Apply(f, w, a), {})
  {
    hide StartAllInv, OnlyWaiters, AliveBut, Reacted, NoSenders, Accepts;
    ReactAlive(f, w, a.name, a.input, a.image, {});
  }

  /** Everybody's child is alive, in a lone start_all. */
  ghost predicate Peaceful(f: Fleet, w: World) {
    StartAllInv(f, w) && OrderKnown(f, w) && AliveBut(f, w, {})
  }

  lemma {:induction false} BootPeaceful(f: Fleet)
    requires ValidFleet(f)
    ensures Peaceful(f, Boot(f))
  {
    BootStartAll(f);
    BootAlive(f);
    hide StartAllInv, AliveBut, ValidFleet;
    ValidIsKnown(f, Boot(f));
  }

  lemma {:induction false} StepPeaceful(f: Fleet, w: World, a: Action)
    requires Peaceful(f, w) && Registered(f, w) && Enabled(f, w, a) && Plain(f, a)
    ensures Peaceful(f, Apply(f, w, a)) && Later(w, Apply(f, w, a))
  {
    hide StartAllInv, AliveBut, Later, OnlyWaiters, Apply, Enabled;
    StepStartAll(f, w, a);
    StartAllParts(f, w);
    StartAllParts(f, Apply(f, w, a));
    if a.React? {
      PlainReactAlive(f, w, a);
    } else if a.Perform? {
      PerformAlive(f, w, a.name);
    } else {
      OutsideAlive(f, w, a);
    }
  }

  lemma {:induction false} RunPeaceful(f: Fleet, w: World, acts: seq<Action>)
    requires Peaceful(f, w) && Legal(f, w, acts) && AllPlain(f, acts)
    ensures Peaceful(f, Outcome(f, w, acts)) && Later(w, Outcome(f, w, acts))
    decreases |acts|
  {
    hide Peaceful, Enabled, Apply, Later, Plain;
    if acts == [] {
      LaterSame(w);
    } else {
      assert acts[0] in acts;
      StepPeaceful(f, w, acts[0]);
      RunPeaceful(f, Apply(f, w, acts[0]), acts[1..]);
      LaterStill(w, Apply(f, w, acts[0]), Outcome(f, w, acts));
    }
  }

  /** If no child ends, any run goes on to one that can go no further. */
  lemma {:induction false} RunOut(f: Fleet, w: World) returns (acts: seq<Action>)
    requires Peaceful(f, w) && OrderKnown(f, w)
    ensures Legal(f, w, acts) && AllPlain(f, acts)
    ensures Registered(f, Outcome(f, w, acts)) && !GoesOn(f, Outcome(f, w, acts))
    decreases AllFuel(f, w)
  {
    acts := [];
    if GoesOn(f, w) {
      var a := PlainStep(f, w);
      hide *;
      var rest := RunOut(f, Apply(f, w, a));
      acts := [a] + rest;
      OneThen(f, w, a, rest);
    } else {
      hide Peaceful, GoesOn;
    }
  }

  lemma {:induction false} OneThen(f: Fleet, w: World, a: Action, rest: seq<Action>)
    requires Registered(f, w) && Enabled(f, w, a) && Legal(f, Apply(f, w, a), rest)
    ensures Legal(f, w, [a] + rest) && Outcome(f, w, [a] + rest) == Outcome(f, Apply(f, w, a), rest)
    ensures Plain(f, a) && AllPlain(f, rest) ==> AllPlain(f, [a] + rest)
  {
    hide Enabled, Apply, Plain, Registered;
    assert ([a] + rest)[1..] == rest;
  }

  lemma {:induction false} PlainStep(f: Fleet, w: World) returns (a: Action)
    requires Peaceful(f, w) && OrderKnown(f, w) && GoesOn(f, w)
    ensures Enabled(f, w, a) && Plain(f, a)
    ensures Peaceful(f, Apply(f, w, a)) && OrderKnown(f, Apply(f, w, a)) && AllFuel(f, Apply(f, w, a)) < AllFuel(f, w)
  {
    a :| Enabled(f, w, a) && Plain(f, a);
    hide StartAllInv, AliveBut, Enabled, Apply, Later, OnlyWaiters, AllFuel;
    StepPeaceful(f, w, a);
    StepBurns(f, w, a);
  }

  /** Nobody's exit is to be noticed. */
  lemma {:induction false} NoExit(f: Fleet, w: World, n: Name, i: Input)
    requires Peaceful(f, w) && Registered(f, w) && MayReact(f, w, n, i)
    ensures !i.Exit?
  {
    hide Inv, SupsOk, LiveOk, WaitersOk, GoneOk, LandsOk, AliveBut, KillsOwn, NoSenders, Discipline, ViewOf;
    LiveParts(f, w);
    SupAt(f, w, n);
    AliveBy(f, w, {}, n);
  }

  lemma {:induction false} OnlyDeath(f: Fleet, w: World, a: Action)
    requires Peaceful(f, w) && Registered(f, w) && !GoesOn(f, w) && Enabled(f, w, a) && OnlyWaiters(f, a)
    ensures a.Die?
  {
    hide Peaceful, GoesOn, OnlyWaiters, NoSenders, Accepts;
    if a.React? {
      NoExit(f, w, a.name, a.input);
    }
    hide Enabled;
    if !a.Die? {
      PlainGoesOn(f, w, a);
    }
  }

  lemma {:induction false} PeacefulEnd(f: Fleet, w: World)
    requires ValidFleet(f) && Peaceful(f, w) && Registered(f, w) && !GoesOn(f, w)
    ensures AtEnd(f, w) && !CanMove(f, w)
  {
    hide Peaceful, GoesOn, OnlyWaiters, ValidFleet, Enabled, Calm, WaiterReturned, WaitsInVain, Smooth;
    PeacefulParts(f, w);
    Halted(f, w);
    forall a | Enabled(f, w, a) && OnlyWaiters(f, a) ensures a.Die? {
      OnlyDeath(f, w, a);
    }
    forall a | Enabled(f, w, a) ensures !Smooth(f, w, a) {
      if Smooth(f, w, a) {
        SmoothWaiters(f, w, a);
        OnlyDeath(f, w, a);
        OnlyHealthyLive(f, w, a);
      }
    }
  }

  lemma {:induction false} SmoothWaiters(f: Fleet, w: World, a: Action)
    requires Smooth(f, w, a)
    ensures OnlyWaiters(f, a)
  {
  }

  lemma {:induction false} PeacefulParts(f: Fleet, w: World)
    requires Peaceful(f, w)
    ensures StartAllInv(f, w) && OrderKnown(f, w) && Inv(f, w) && AliveBut(f, w, {})
  {
  }

  /** In a calm world a child that is alive belongs to a healthy sidecar. */
  lemma {:induction false} OnlyHealthyLive(f: Fleet, w: World, a: Action)
    requires Registered(f, w) && Inv(f, w) && Calm(f, w) && Enabled(f, w, a)
    ensures a.Die? ==> !Smooth(f, w, a)
  {
    if a.Die? {
      hide Inv, SupsOk, Discipline, ViewOf, OnlyWaiters;
      LiveParts(f, w);
      var n := w.live[a.pid].owner;
      assert CalmAt(w, n);
      SupAt(f, w, n);
    }
  }

  lemma {:induction false} PlainGoesOn(f: Fleet, w: World, a: Action)
    requires Registered(f, w) && Enabled(f, w, a) && Plain(f, a)
    ensures GoesOn(f, w)
  {
    hide Enabled, Plain;
  }
}
