/**
 How one crash strands a start_all: a waiter has got past a dependency, which then fails for good, so that
 a sidecar the waiter comes to next is never started.
 */
module StartAllCrash {
  import opened Domain
  import opened Lifecycle
  import opened Extension
  import opened Reactions
  import opened Restarts
  import opened Graph
  import opened Fleet
  import opened FleetInvariants
  import opened FleetRuns
  import opened StartAllRuns
  import opened StartAll
  import opened StartAllPeace
  import opened StartAllBuilding
  import opened StartAllHangs

  // ---------------------------------------------------------------------------------------
  // The crash
  // ---------------------------------------------------------------------------------------

  /** A sidecar at rest that shows Healthy is in its monitor, and its child is alive. */
  lemma {:induction false} UpIsMonitor(f: Fleet, w: World, n: Name)
    requires Peaceful(f, w) && Registered(f, w) && ShowsHealthy(f, w, n)
    ensures w.sups[n].task.loc.Monitor? && w.sups[n].task.attempt <= Length(f.handles[n])
    ensures var pid := w.sups[n].task.loc.pid; pid in w.live && w.live[pid].owner == n
  {
    hide Inv, SupsOk, LiveOk, WaitersOk, GoneOk, LandsOk, AliveBut, KillsOwn, Discipline, ViewOf;
    LiveParts(f, w);
    SupAt(f, w, n);
    WaiterIs(f, w, IndexOf(f.order, n));
    AliveBy(f, w, {}, n);
    AttemptBounded(f.handles[n], w.sups[n].task);
  }

  /** What the end of a healthy child leads to, at once or after a wait. */
  lemma {:induction false} ExitFails(cfg: Config, t: Task, i: Input)
    requires t.loc.Monitor? && i.Exit? && t.attempt <= Length(cfg)
    ensures Accepts(cfg, t.loc, i)
    ensures
      var t1 := Feed(cfg, t, i);
      if t1.loc.Outer? then HasFailed(Published(t1.hist))
      else Accepts(cfg, t1.loc, Timer) && Feed(cfg, t1, Timer).loc.Spawning? && Feed(cfg, t1, Timer).attempt <= Length(cfg)
  {
    hide ViewOf, Discipline, Then, Say, Published, HasFailed, ClearEntry;
    var reaped := ClearEntry(cfg, Then(cfg, t.hist, Reaped(t.loc.pid, i.elapsed)));
    SaidFailed(cfg, reaped, Exited(i.code));
  }

  lemma {:induction false} DieAlive(f: Fleet, w: World, x: Name, pid: nat)
    requires Registered(f, w) && x in f.handles && pid in w.live && w.live[pid].owner == x && AliveBut(f, w, {})
    ensures AliveBut(f, w.(live := w.live - {pid}), {x})
  {
    hide KillsOwn, ViewOf;
    var w' := w.(live := w.live - {pid});
    assert forall n :: n in f.handles ==> ViewAt(f, w', n) == ViewAt(f, w, n);
  }

  const GONE: Input := Exit(None, 0)

  /** A run of a lone start_all, whatever ends in it. */
  ghost predicate Goes(f: Fleet, w: World, acts: seq<Action>, w': World) {
    Legal(f, w, acts) && AllOnlyWaiters(f, acts) && Outcome(f, w, acts) == w'
  }

  lemma {:induction false} GoesOne(f: Fleet, w: World, a: Action)
    requires Registered(f, w) && Enabled(f, w, a) && OnlyWaiters(f, a)
    ensures Goes(f, w, [a], Apply(f, w, a))
  {
    hide Enabled, Apply, OnlyWaiters;
    assert Legal(f, Apply(f, w, a), []);
    assert [a][1..] == [];
    assert Legal(f, w, [a]) && Outcome(f, w, [a]) == Outcome(f, Apply(f, w, a), []);
  }

  lemma {:induction false} GoesFurther(f: Fleet, a: World, xs: seq<Action>, b: World, ys: seq<Action>, c: World)
    requires Goes(f, a, xs, b) && Goes(f, b, ys, c)
    ensures Goes(f, a, xs + ys, c)
  {
    hide Legal, Outcome, OnlyWaiters;
    LegalConcat(f, a, xs, ys);
  }

  /** The supervisor of i runs a healthy child that is dead. */
  ghost predicate Bereft(f: Fleet, w: World, i: nat) {
    && OrderKnown(f, w) && i < |f.order| && AtRest(w, f.order[i])
    && w.sups[f.order[i]].task.loc.Monitor? && w.sups[f.order[i]].task.loc.pid !in w.live
    && AliveBut(f, w, {f.order[i]}) && StartAllInv(f, w)
  }

  lemma {:induction false} DieDoes(f: Fleet, w: World, pid: nat)
    requires Registered(f, w) && pid in w.live
    ensures Enabled(f, w, Die(pid)) && OnlyWaiters(f, Die(pid)) && Apply(f, w, Die(pid)) == w.(live := w.live - {pid})
  {
  }

  /** The child of the i-th sidecar, which is up, ends. */
  lemma {:induction false} ChildDies(f: Fleet, w: World, i: nat) returns (acts: seq<Action>, w': World)
    requires OrderKnown(f, w) && i < |f.order| && ShowsHealthy(f, w, f.order[i]) && Peaceful(f, w)
    ensures Goes(f, w, acts, w') && Bereft(f, w', i)
    ensures w'.sups == w.sups && w'.queues == w.queues && w'.callers == w.callers && w'.dropped == w.dropped
  {
    UpIsMonitor(f, w, f.order[i]);
    PeacefulParts(f, w);
    var pid := w.sups[f.order[i]].task.loc.pid;
    assert Registered(f, w) && AtRest(w, f.order[i]);
    w' := w.(live := w.live - {pid});
    DieAlive(f, w, f.order[i], pid);
    hide *;
    DieDoes(f, w, pid);
    GoesOne(f, w, Die(pid));
    StepStartAll(f, w, Die(pid));
    acts := [Die(pid)];
    NowBereft(f, w, w', i);
  }

  lemma {:induction false} NowBereft(f: Fleet, w: World, w': World, i: nat)
    requires OrderKnown(f, w) && i < |f.order| && AtRest(w, f.order[i]) && w.sups[f.order[i]].task.loc.Monitor?
    requires StartAllInv(f, w') && w' == w.(live := w.live - {w.sups[f.order[i]].task.loc.pid})
    requires Registered(f, w') && AliveBut(f, w', {f.order[i]})
    ensures Bereft(f, w', i)
  {
    hide StartAllInv, AliveBut;
  }

  /** The plan of i is the reaction to the end of its child. */
  ghost predicate Noticed(f: Fleet, t: Task, w': World, i: nat) {
    && OrderKnown(f, w') && i < |f.order| && t.loc.Monitor?
    && w'.sups[f.order[i]].task == FeedMonitor(f.handles[f.order[i]], t, GONE)
    && Prefix(w'.sups[f.order[i]].done, w'.sups[f.order[i]].task.hist)
  }

  lemma {:induction false} MayNotice(f: Fleet, w: World, i: nat)
    requires Bereft(f, w, i)
    ensures Registered(f, w) && MayReact(f, w, f.order[i], GONE)
  {
    hide StartAllInv, AliveBut, NoSenders;
  }

  /** Its supervisor notices. */
  lemma {:induction false} SupNotices(f: Fleet, w: World, i: nat) returns (acts: seq<Action>, w': World)
    requires Bereft(f, w, i)
    ensures Goes(f, w, acts, w') && Peaceful(f, w') && Elsewhere(f, w, w', i) && w'.callers == w.callers
    ensures i < |f.order| && f.order[i] in w.sups && Noticed(f, w.sups[f.order[i]].task, w', i)
  {
    hide StartAllInv, AliveBut, FeedMonitor, ViewAt, Reacted, NoSenders, Affect, StartsWith, Later, Goes, Peaceful, MayReact, Prefix;
    MayNotice(f, w, i);
    NoticeSteps(f, w, i);
    NoticePlans(f, w, i);
    w' := Reacted(f, w, f.order[i], GONE, None);
    acts := [React(f.order[i], GONE, None)];
  }

  lemma {:induction false} NoticePlans(f: Fleet, w: World, i: nat)
    requires OrderKnown(f, w) && i < |f.order| && MayReact(f, w, f.order[i], GONE) && w.sups[f.order[i]].task.loc.Monitor?
    ensures
      var w' := Reacted(f, w, f.order[i], GONE, None);
      Elsewhere(f, w, w', i) && w'.callers == w.callers && Noticed(f, w.sups[f.order[i]].task, w', i)
  {
    hide FeedMonitor, Reacted, MayReact, Prefix, Elsewhere, Leads;
    ReactOne(f, w, i, GONE);
  }

  lemma {:induction false} NoticeSteps(f: Fleet, w: World, i: nat)
    requires i < |f.order| && Registered(f, w) && MayReact(f, w, f.order[i], GONE) && Bereft(f, w, i)
    ensures
      var w' := Reacted(f, w, f.order[i], GONE, None);
      Goes(f, w, [React(f.order[i], GONE, None)], w') && Peaceful(f, w')
  {
    var n, a := f.order[i], React(f.order[i], GONE, None);
    hide StartAllInv, AliveBut, MayReact, Reacted, Later, Goes, Apply, Enabled, OnlyWaiters, OrderKnown;
    ReactDoes(f, w, n);
    ReactAlive(f, w, n, GONE, None, {n});
    hide Bereft;
    GoesOne(f, w, a);
    StepStartAll(f, w, a);
    StartAllParts(f, Apply(f, w, a));
  }

  lemma {:induction false} ReactDoes(f: Fleet, w: World, n: Name)
    requires Registered(f, w) && MayReact(f, w, n, GONE)
    ensures
      var a := React(n, GONE, None);
      Enabled(f, w, a) && OnlyWaiters(f, a) && Apply(f, w, a) == Reacted(f, w, n, GONE, None)
  {
    hide MayReact, Reacted;
  }

  /** The i-th sidecar, which is up, ends and fails for good. */
  lemma {:induction false} Crash(f: Fleet, w: World, i: nat) returns (acts: seq<Action>, w': World)
    requires OrderKnown(f, w) && i < |f.order| && ShowsHealthy(f, w, f.order[i]) && Peaceful(f, w)
    ensures Goes(f, w, acts, w') && Peaceful(f, w') && Elsewhere(f, w, w', i) && w'.callers == w.callers
    ensures OrderKnown(f, w') && Down(w', f.order[i])
  {
    var cfg, t := f.handles[f.order[i]], w.sups[f.order[i]].task;
    hide Peaceful, ShowsHealthy, Down, Leads, Goes, Bereft, Legal;
    UpIsMonitor(f, w, f.order[i]);
    var xs, w1 := ChildDies(f, w, i);
    BereftIsKnown(f, w1, i);
    hide OrderKnown, FeedMonitor, Noticed;
    assert Elsewhere(f, w, w1, i) by {
      SameElsewhere(f, w, w1, i);
    }
    hide Elsewhere;
    var ys, w2 := SupNotices(f, w1, i);
    GoesFurther(f, w, xs, w1, ys, w2);
    ElsewhereStill(f, w, w1, w2, i);
    var zs;
    zs, w' := Fails(f, w2, i, cfg, t);
    GoesFurther(f, w, xs + ys, w2, zs, w');
    ElsewhereStill(f, w, w2, w', i);
    acts := xs + ys + zs;
  }

  lemma {:induction false} BereftIsKnown(f: Fleet, w: World, i: nat)
    requires Bereft(f, w, i)
    ensures OrderKnown(f, w)
  {
  }

  lemma {:induction false} SameElsewhere(f: Fleet, w: World, w': World, i: nat)
    requires OrderKnown(f, w) && OrderKnown(f, w') && i < |f.order|
    requires w'.sups == w.sups && w'.queues == w.queues && w'.callers == w.callers && w'.dropped == w.dropped
    ensures Elsewhere(f, w, w', i)
  {
  }

  /** It completes its plan, and its remaining attempts are denied. */
  lemma {:induction false} Fails(f: Fleet, w: World, i: nat, cfg: Config, t: Task) returns (acts: seq<Action>, w': World)
    requires Noticed(f, t, w, i) && cfg == f.handles[f.order[i]] && t.attempt <= Length(cfg) && Peaceful(f, w)
    ensures Goes(f, w, acts, w') && Peaceful(f, w') && Elsewhere(f, w, w', i) && w'.callers == w.callers
    ensures OrderKnown(f, w') && Down(w', f.order[i])
  {
    hide Peaceful, HasFailed, Down, Leads, Goes, FeedMonitor, Prefix, Elsewhere;
    ExitFails(cfg, t, GONE);
    var ys, w1 := PerformAll(f, w, i);
    var zs;
    zs, w' := AfterCrash(f, w1, i, cfg, FeedMonitor(cfg, t, GONE));
    LeadsOn(f, w, ys, w1, zs, w', i);
    LeadsPeacefully(f, w, ys + zs, w', i);
    acts := ys + zs;
  }

  /** From the failure on: the remaining attempts are denied. */
  lemma {:induction false} AfterCrash(f: Fleet, w: World, i: nat, cfg: Config, t: Task) returns (acts: seq<Action>, w': World)
    requires At(f, w, i, t) && cfg == f.handles[f.order[i]]
    requires
      if t.loc.Outer? then HasFailed(Published(t.hist))
      else Accepts(cfg, t.loc, Timer) && Feed(cfg, t, Timer).loc.Spawning? && Feed(cfg, t, Timer).attempt <= Length(cfg)
    ensures Leads(f, w, acts, w', i) && OrderKnown(f, w') && w'.callers == w.callers
    ensures Down(w', f.order[i])
  {
    hide Leads, Feed, HasFailed, PublishedBy, Down;
    if t.loc.Outer? {
      acts, w' := [], w;
      LeadsNowhere(f, w, i);
      AtFailed(f, w, i, t);
    } else {
      var xs, w1 := Next(f, w, i, cfg, t, Timer);
      var ys;
      ys, w' := DenyAll(f, w1, i, cfg, Feed(cfg, t, Timer));
      LeadsOn(f, w, xs, w1, ys, w', i);
      acts := xs + ys;
    }
  }

  lemma {:induction false} LeadsPeacefully(f: Fleet, w: World, acts: seq<Action>, w': World, i: nat)
    requires Leads(f, w, acts, w', i) && Peaceful(f, w)
    ensures Goes(f, w, acts, w') && Elsewhere(f, w, w', i) && Peaceful(f, w')
  {
    hide Peaceful, AllPlain, Elsewhere, AllOnlyWaiters, Later;
    RunPeaceful(f, w, acts);
    PlainIsOnlyWaiters(f, acts);
  }
}
