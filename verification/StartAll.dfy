/**
 How long a start_all takes and where it can stop. As long as no child ends once it is Healthy, it takes
 no more steps than the configuration allows; where it can go no further, each waiter has returned or
 awaits a sidecar that nobody has started.
 */
module StartAll {
  import opened Domain
  import opened Lifecycle
  import opened LifecycleProofs
  import opened LifecycleTheorems
  import opened Extension
  import opened Reactions
  import opened Restarts
  import opened Graph
  import opened Closure
  import opened Fleet
  import opened FleetInvariants
  import opened FleetRuns
  import opened StartAllRuns

  // ---------------------------------------------------------------------------------------
  // Fuel
  // ---------------------------------------------------------------------------------------

  /** The effects planned and not yet performed. */
  function Pending(s: Sup): nat {
    if Size(s.done) <= Size(s.task.hist) then Size(s.task.hist) - Size(s.done) else 0
  }

  function SupFuel(cfg: Config, s: Sup): nat {
    20 * Left(cfg, s.task) + 2 * Pending(s)
  }

  /** How many more steps the i-th waiter can take, when it has `posts` dependencies to await. */
  function WaiterFuel(callers: map<nat, Caller>, i: nat, posts: nat): nat {
    if i !in callers then 2 * posts + 4
    else if callers[i].gone || callers[i].pc > posts then 0
    else 2 * (posts + 1 - callers[i].pc) + if callers[i].sent then 0 else 1
  }

  function FuelAt(f: Fleet, w: World, i: nat): nat
    requires i < |f.order| && f.order[i] in f.handles && f.order[i] in w.sups
  {
    var cfg := f.handles[f.order[i]];
    SupFuel(cfg, w.sups[f.order[i]]) + WaiterFuel(w.callers, i, |cfg.dependsOn|)
  }

  /** The fuel of the first k waiters and their sidecars. */
  function Fuel(f: Fleet, w: World, k: nat): nat
    requires k <= |f.order| && forall n :: n in f.order ==> n in f.handles && n in w.sups
  {
    if k == 0 then 0 else Fuel(f, w, k - 1) + FuelAt(f, w, k - 1)
  }

  /** The fuel of all, and one step for each child that may die. */
  function AllFuel(f: Fleet, w: World): nat
    requires forall n :: n in f.order ==> n in f.handles && n in w.sups
  {
    Fuel(f, w, |f.order|) + |w.live|
  }

  /** What start_all can spend on the first k sidecars: it depends on dependencies and schedules only. */
  function Allowance(f: Fleet, k: nat): nat
    requires k <= |f.order| && forall n :: n in f.order ==> n in f.handles
  {
    if k == 0 then 0
    else
      var cfg := f.handles[f.order[k - 1]];
      Allowance(f, k - 1) + 20 * (5 * Length(cfg) + 7) + 2 * |cfg.dependsOn| + 4
  }

  lemma {:induction false} BootFuel(f: Fleet, k: nat)
    requires k <= |f.order| && forall n :: n in f.order ==> n in f.handles
    ensures Fuel(f, Boot(f), k) == Allowance(f, k)
  {
    if k > 0 {
      BootFuel(f, k - 1);
      assert f.order[k - 1] in f.order;
    }
  }

  /** Only the i-th waiter and its sidecar move. */
  ghost predicate MovesOnly(f: Fleet, w: World, w': World, i: nat)
    requires OrderKnown(f, w) && OrderKnown(f, w') && i < |f.order|
  {
    && (forall j :: j != i ==> (j in w'.callers <==> j in w.callers) && (j in w.callers ==> w'.callers[j] == w.callers[j]))
    && (forall n :: n in f.handles && n != f.order[i] ==> w'.sups[n] == w.sups[n])
  }

  lemma {:induction false} FuelElsewhere(f: Fleet, w: World, w': World, i: nat, j: nat)
    requires OrderKnown(f, w) && OrderKnown(f, w') && i < |f.order| && j < |f.order| && j != i
    requires MovesOnly(f, w, w', i)
    ensures FuelAt(f, w', j) == FuelAt(f, w, j)
  {
    assert f.order[j] != f.order[i];
    hide SupFuel;
  }

  lemma {:induction false} FuelMoves(f: Fleet, w: World, w': World, i: nat)
    requires OrderKnown(f, w) && OrderKnown(f, w') && i < |f.order|
    requires MovesOnly(f, w, w', i)
    ensures Fuel(f, w', |f.order|) == Fuel(f, w, |f.order|) + FuelAt(f, w', i) - FuelAt(f, w, i)
  {
    forall j | 0 <= j < |f.order| && j != i ensures FuelAt(f, w', j) == FuelAt(f, w, j) {
      FuelElsewhere(f, w, w', i, j);
    }
    hide FuelAt, MovesOnly;
    FuelDiffers(f, w, w', i, |f.order|);
  }

  lemma {:induction false} FuelDiffers(f: Fleet, w: World, w': World, i: nat, k: nat)
    requires k <= |f.order| && i < |f.order|
    requires forall n :: n in f.order ==> n in f.handles && n in w.sups && n in w'.sups
    requires forall j :: 0 <= j < |f.order| && j != i ==> FuelAt(f, w', j) == FuelAt(f, w, j)
    ensures Fuel(f, w', k) == Fuel(f, w, k) + if i < k then FuelAt(f, w', i) - FuelAt(f, w, i) else 0
  {
    hide FuelAt;
    if k > 0 {
      FuelDiffers(f, w, w', i, k - 1);
    }
  }

  lemma {:induction false} LiveGrowth(f: Fleet, w: World, n: Name, e: Effect, image: Option<string>)
    requires n in f.handles && n in w.sups
    ensures |Affect(f, w, n, e, image).live| <= |w.live| + 1
  {
    if e.Spawned? {
      OneMoreChild(w.live, e.pid, Child(n, image));
    } else if e.Killed? {
      OneChildLess(w.live, e.pid);
    }
  }

  lemma {:induction false} OneMoreChild(live: map<nat, Child>, pid: nat, child: Child)
    ensures |live[pid := child]| <= |live| + 1
  {
    assert live[pid := child].Keys == live.Keys + {pid};
  }

  lemma {:induction false} OneChildLess(live: map<nat, Child>, pid: nat)
    ensures |live - {pid}| <= |live|
  {
    Smaller((live - {pid}).Keys, live.Keys);
  }

  lemma {:induction false} Smaller(a: set<nat>, b: set<nat>)
    requires a <= b
    ensures |a| <= |b|
  {
    assert b == a + (b - a);
  }

  lemma {:induction false} SizeAfter(h: History, e: Effect)
    ensures Size(After(h, e)) == Size(h) + 1
  {
  }

  lemma {:induction false} PerformBurns(f: Fleet, w: World, n: Name)
    requires OrderKnown(f, w) && Enabled(f, w, Perform(n))
    ensures OrderKnown(f, Apply(f, w, Perform(n))) && AllFuel(f, Apply(f, w, Perform(n))) < AllFuel(f, w)
  {
    PerformFields(f, w, n);
    var s, w', i := w.sups[n], Apply(f, w, Perform(n)), IndexOf(f.order, n);
    hide Apply, Enabled, Affect, NextEffect, SupFuel, WaiterFuel, Prefix;
    EffectFuel(f.handles[n], s, NextEffect(s.done, s.task.hist));
    LiveGrowth(f, w, n, NextEffect(s.done, s.task.hist), None);
    assert MovesOnly(f, w, w', i);
    hide MovesOnly;
    FuelMoves(f, w, w', i);
  }

  lemma {:induction false} EffectFuel(cfg: Config, s: Sup, e: Effect)
    requires Prefix(s.done, s.task.hist) && s.done != s.task.hist
    ensures SupFuel(cfg, s.(done := After(s.done, e))) < SupFuel(cfg, s) - 1
  {
    PrefixSize(s.done, s.task.hist);
    SizeAfter(s.done, e);
    hide Size, Left;
  }

  /** From t to t' there are at most six effects more, and fewer answers are left. */
  predicate AnswersOnce(cfg: Config, t: Task, t': Task) {
    Size(t'.hist) <= Size(t.hist) + 6 && Left(cfg, t') < Left(cfg, t)
  }

  lemma {:induction false} AnswerFuel(cfg: Config, s: Sup, t: Task, e: Effect)
    requires s.done == s.task.hist && AnswersOnce(cfg, s.task, t)
    ensures SupFuel(cfg, Sup(t, After(s.done, e))) < SupFuel(cfg, s) - 1
  {
    SizeAfter(s.done, e);
    hide Size, Left;
  }

  /** What an answer does to a task, unless it is the end of a healthy child. */
  lemma {:induction false} ReactAdvances(f: Fleet, w: World, n: Name, i: Input)
    requires OrderKnown(f, w) && MayReact(f, w, n, i) && (i.Exit? ==> !w.sups[n].task.loc.Monitor?)
    requires StartAllInv(f, w)
    ensures n in f.handles && Accepts(f.handles[n], w.sups[n].task.loc, i)
    ensures AnswersOnce(f.handles[n], w.sups[n].task, Feed(f.handles[n], w.sups[n].task, i))
  {
    hide Inv, SupsOk, WaitersOk, GoneOk, LandsOk, Feed, NoSenders, Left, Size, TaskInv;
    var cfg, t := f.handles[n], w.sups[n].task;
    InputIs(f, w, n, i);
    if i.Cmd? {
      FirstPublishes(cfg, i.cmd);
      LeftFirst(cfg, i.cmd);
    } else {
      InvParts(f, w);
      SupAt(f, w, n);
      AttemptBounded(cfg, t);
      assert t != FRESH;
      LeftDecreases(cfg, t, i);
      var k, s := FeedPublishes(cfg, t, i);
    }
  }

  lemma {:induction false} AttemptBounded(cfg: Config, t: Task)
    requires TaskInv(cfg, t)
    ensures t.loc.Outer? || t.loc.Ended? || t.attempt <= Length(cfg)
  {
    hide ViewOf, Discipline;
  }

  /** The k-th sidecar answers: its fuel drops by more than the one child there may be more. */
  lemma {:induction false} FuelDrops(f: Fleet, w: World, w': World, k: nat, t: Task, e: Effect)
    requires OrderKnown(f, w) && Registered(f, w') && k < |f.order| && w'.callers == w.callers
    requires w'.sups == w.sups[f.order[k] := Sup(t, After(w.sups[f.order[k]].done, e))]
    requires AnswersOnce(f.handles[f.order[k]], w.sups[f.order[k]].task, t)
    requires w.sups[f.order[k]].done == w.sups[f.order[k]].task.hist && |w'.live| <= |w.live| + 1
    ensures AllFuel(f, w') < AllFuel(f, w)
  {
    hide WaiterFuel, SupFuel, Fuel;
    AnswerFuel(f.handles[f.order[k]], w.sups[f.order[k]], t, e);
    assert OrderKnown(f, w') && MovesOnly(f, w, w', k);
    hide MovesOnly, OrderKnown;
    FuelMoves(f, w, w', k);
  }

  lemma {:induction false} ReactBurns(f: Fleet, w: World, n: Name, i: Input, image: Option<string>)
    requires OrderKnown(f, w) && MayReact(f, w, n, i) && (i.Exit? ==> !w.sups[n].task.loc.Monitor?)
    requires StartAllInv(f, w)
    ensures OrderKnown(f, Reacted(f, w, n, i, image)) && AllFuel(f, Reacted(f, w, n, i, image)) < AllFuel(f, w)
  {
    hide StartAllInv, Feed, Reacted, Accepts, NoSenders, Affect, AnswersOnce, AllFuel;
    ReactAdvances(f, w, n, i);
    var e := ReactReplaces(f, w, n, i, image);
    LiveGrowth(f, Plan(f, w, n, i), n, e, image);
    hide MayReact;
    FuelDrops(f, w, Reacted(f, w, n, i, image), IndexOf(f.order, n), Feed(f.handles[n], w.sups[n].task, i), e);
  }

  lemma {:induction false} DieBurns(f: Fleet, w: World, pid: nat)
    requires OrderKnown(f, w) && pid in w.live
    ensures AllFuel(f, w.(live := w.live - {pid})) < AllFuel(f, w)
  {
    var w' := w.(live := w.live - {pid});
    assert w.live.Keys == w'.live.Keys + {pid};
    SameFuel(f, w, w', |f.order|);
  }

  lemma {:induction false} SameFuel(f: Fleet, w: World, w': World, k: nat)
    requires k <= |f.order| && (forall n :: n in f.order ==> n in f.handles && n in w.sups)
    requires w'.sups == w.sups && w'.callers == w.callers
    ensures Fuel(f, w', k) == Fuel(f, w, k)
  {
    if k > 0 {
      SameFuel(f, w, w', k - 1);
    }
  }

  /** What a waiter's action does to the waiter. */
  predicate StepsOn(a: Action, callers: map<nat, Caller>, c': Caller)
    requires IsCallers(a)
  {
    if a.Call? then a.id !in callers && c' == Caller(a.prog, 0, false, false)
    else
      a.id in callers && !callers[a.id].gone &&
      var c := callers[a.id];
      if a.Deliver? then !c.sent && c' == c.(sent := true)
      else if a.Resume? then c.sent && c' == c.(pc := c.pc + 1, sent := false)
      else if a.Observe? then c' == c.(pc := c.pc + 1)
      else c' == c.(gone := true)
  }

  lemma {:induction false} WaiterNext(f: Fleet, w: World, a: Action) returns (c': Caller)
    requires Registered(f, w) && Enabled(f, w, a) && IsCallers(a)
    ensures StepsOn(a, w.callers, c')
    ensures
      var w' := Apply(f, w, a);
      && w'.callers == w.callers[a.id := c'] && w'.sups == w.sups && w'.live == w.live && w'.queues.Keys == w.queues.Keys
  {
    hide ViewAt, HasReturned, IsProgram, MayReact, Reacted, PerformNext;
    c' := Apply(f, w, a).callers[a.id];
  }

  lemma {:induction false} WaiterSpends(a: Action, callers: map<nat, Caller>, c': Caller, posts: nat)
    requires IsCallers(a) && StepsOn(a, callers, c')
    requires a.id in callers ==> callers[a.id].pc <= posts
    ensures WaiterFuel(callers[a.id := c'], a.id, posts) < WaiterFuel(callers, a.id, posts)
  {
  }

  lemma {:induction false} WaiterBurns(f: Fleet, w: World, a: Action)
    requires OrderKnown(f, w) && Enabled(f, w, a) && IsCallers(a) && OnlyWaiters(f, a)
    requires WaitersOk(f, w)
    ensures OrderKnown(f, Apply(f, w, a)) && AllFuel(f, Apply(f, w, a)) < AllFuel(f, w)
  {
    hide WaitersOk, ViewAt, HasReturned, MayReact, Reacted, PerformNext, WaiterOf, IsProgram, Begun, Untouched, SupFuel;
    if !a.Call? {
      OpOf(f, w, a.id);
    }
    var c' := WaiterNext(f, w, a);
    hide Apply, Enabled, WaiterFuel, StepsOn;
    WaiterSpends(a, w.callers, c', |f.handles[f.order[a.id]].dependsOn|);
    assert MovesOnly(f, w, Apply(f, w, a), a.id);
    hide MovesOnly;
    FuelMoves(f, w, Apply(f, w, a), a.id);
  }

  /** Every step but the end of a healthy child uses up fuel. */
  lemma {:induction false} StepBurns(f: Fleet, w: World, a: Action)
    requires StartAllInv(f, w) && OrderKnown(f, w) && Enabled(f, w, a) && OnlyWaiters(f, a)
    requires a.React? && a.input.Exit? && a.name in w.sups ==> !w.sups[a.name].task.loc.Monitor?
    ensures OrderKnown(f, Apply(f, w, a)) && AllFuel(f, Apply(f, w, a)) < AllFuel(f, w)
  {
    hide *;
    if a.React? {
      ReactionBurns(f, w, a);
    } else if a.Perform? {
      PerformBurns(f, w, a.name);
    } else if a.Die? {
      DeathBurns(f, w, a);
    } else {
      IsWaiterAction(f, a);
      StartAllParts(f, w);
      WaiterBurns(f, w, a);
    }
  }

  lemma {:induction false} ReactionBurns(f: Fleet, w: World, a: Action)
    requires StartAllInv(f, w) && OrderKnown(f, w) && Enabled(f, w, a) && a.React?
    requires a.input.Exit? && a.name in w.sups ==> !w.sups[a.name].task.loc.Monitor?
    ensures OrderKnown(f, Apply(f, w, a)) && AllFuel(f, Apply(f, w, a)) < AllFuel(f, w)
  {
    hide StartAllInv, Reacted, NoSenders, Accepts, AllFuel;
    ReactBurns(f, w, a.name, a.input, a.image);
  }

  lemma {:induction false} DeathBurns(f: Fleet, w: World, a: Action)
    requires OrderKnown(f, w) && Enabled(f, w, a) && a.Die?
    ensures OrderKnown(f, Apply(f, w, a)) && AllFuel(f, Apply(f, w, a)) < AllFuel(f, w)
  {
    hide AllFuel;
    DieBurns(f, w, a.pid);
  }

  lemma {:induction false} IsWaiterAction(f: Fleet, a: Action)
    requires OnlyWaiters(f, a) && !a.React? && !a.Perform? && !a.Die?
    ensures IsCallers(a)
  {
  }

  // ---------------------------------------------------------------------------------------
  // Where a run can stop
  // ---------------------------------------------------------------------------------------

  /** A step of a lone start_all in which no child ends. */
  predicate Plain(f: Fleet, a: Action) {
    OnlyWaiters(f, a) && !a.Die? && (a.React? ==> !a.input.Exit?)
  }

  ghost predicate GoesOn(f: Fleet, w: World)
    requires Registered(f, w)
  {
    exists a :: Enabled(f, w, a) && Plain(f, a)
  }

  lemma {:induction false} Above(s: set<nat>) returns (bound: nat)
    ensures forall x :: x in s ==> x < bound
  {
    bound := 0;
    if s != {} {
      var x :| x in s;
      var rest := Above(s - {x});
      bound := if x < rest then rest else x + 1;
      forall y | y in s ensures y < bound {
        assert y == x || y in s - {x};
      }
    }
  }

  /** Nothing is under way at n. */
  predicate CalmAt(w: World, n: Name)
    requires n in w.sups && n in w.queues
  {
    AtRest(w, n) && (w.sups[n].task.loc.Outer? || w.sups[n].task.loc.Monitor?) && w.queues[n] == []
  }

  ghost predicate Calm(f: Fleet, w: World)
    requires Registered(f, w)
  {
    forall n :: n in f.handles ==> CalmAt(w, n)
  }

  /** An answer that a supervisor at rest waits for. */
  lemma {:induction false} NextInput(f: Fleet, w: World, n: Name) returns (i: Input)
    requires OrderKnown(f, w) && n in f.handles && AtRest(w, n) && !CalmAt(w, n)
    requires WaitersOk(f, w)
    ensures MayReact(f, w, n, i) && !i.Exit?
  {
    WaiterIs(f, w, IndexOf(f.order, n));
    hide WaitersOk, ConsumedIn;
    if w.queues[n] != [] {
      i := Cmd(w.queues[n][0]);
    } else {
      match w.sups[n].task.loc
      case Spawning => i := PortGiven(0);
      case Launching =>
        var pid := Above(w.live.Keys);
        i := SpawnDone(pid);
      case Health(_) => i := ProbePassed;
      case Waiting(_) => i := Timer;
    }
  }

  lemma {:induction false} SupGoesOn(f: Fleet, w: World, n: Name)
    requires StartAllInv(f, w) && OrderKnown(f, w) && n in f.handles && !CalmAt(w, n)
    ensures GoesOn(f, w)
  {
    hide Inv, SupsOk, WaitersOk, GoneOk, LandsOk, TaskInv, CalmAt;
    if AtRest(w, n) {
      var i := NextInput(f, w, n);
      hide MayReact;
      assert Enabled(f, w, React(n, i, None)) && Plain(f, React(n, i, None));
    } else {
      InvParts(f, w);
      SupAt(f, w, n);
      assert Enabled(f, w, Perform(n)) && Plain(f, Perform(n));
    }
  }

  predicate WaiterReturned(w: World, i: nat) {
    i in w.callers && (w.callers[i].gone || w.callers[i].pc >= |w.callers[i].prog|)
  }

  /** Waiter i awaits a sidecar that nobody has started. */
  ghost predicate WaitsInVain(f: Fleet, w: World, i: nat)
    requires OrderKnown(f, w) && i < |f.order|
  {
    && i in w.callers && !w.callers[i].gone
    && var pc, deps := w.callers[i].pc, f.handles[f.order[i]].dependsOn;
       pc < |deps| && deps[pc] in f.handles && Untouched(w, deps[pc])
  }

  lemma {:induction false} AckedHappened(trace: Trace, n: Name, c: Command)
    requires c in AckedIn(HistoryIn(trace, n))
    ensures Event(n, Acked(c)) in trace
  {
    var before, last := trace[..|trace| - 1], trace[|trace| - 1];
    assert trace == before + [last];
    TraceGrows(before, last, n);
    if last != Event(n, Acked(c)) {
      AckedHappened(before, n, c);
    }
  }

  /** A sidecar that has begun and is calm is up or has failed, for everyone to see. */
  lemma {:induction false} CalmIsUpOrFailed(f: Fleet, w: World, i: nat)
    requires StartAllInv(f, w) && OrderKnown(f, w) && i < |f.order|
    requires Begun(f, w, i) && CalmAt(w, f.order[i])
    ensures
      var n := f.order[i];
      var seen := ViewAt(f, w, n).seen;
      if w.sups[n].task.loc.Monitor? then seen.Healthy? && EndsHealthy(PublishedBy(w, n))
      else seen.Failed? && HasFailed(PublishedBy(w, n))
    ensures Event(f.order[i], Acked(StartOf(f, i))) in w.trace
  {
    hide Inv, SupsOk, Discipline, ViewOf, WaitersOk, GoneOk;
    var n := f.order[i];
    InvParts(f, w);
    SupAt(f, w, n);
    DoneDisciplined(f, w, n);
    AcksFollow(f.handles[n], w.sups[n].done);
    DisciplinedPath(f.handles[n], w.sups[n].done);
    assert Lands(w.sups[n].task);
    assert AckedIn(w.sups[n].done) == [StartOf(f, i)];
    AckedHappened(w.trace, n, StartOf(f, i));
    hide Lands, ConsumedIn;
    LastIsSeen(f.handles[n], w.sups[n].task);
  }

  /** At rest the watch channel shows the last state published. */
  lemma {:induction false} LastIsSeen(cfg: Config, t: Task)
    requires TaskInv(cfg, t) && Lands(t) && t != FRESH
    ensures
      var s, seen := Published(t.hist), ViewOf(cfg, t.hist).seen;
      && (t.loc.Monitor? ==> seen.Healthy? && EndsHealthy(s))
      && (t.loc.Outer? ==> seen.Failed? && HasFailed(s))
  {
    DisciplinedPath(cfg, t.hist);
    hide ViewOf, Discipline, Published;
    var s := Published(t.hist);
    assert t.loc.Outer? ==> s[|s| - 1] in s;
  }

  lemma {:induction false} AwaitingGoesOn(f: Fleet, w: World, i: nat)
    requires ValidFleet(f) && StartAllInv(f, w) && OrderKnown(f, w) && i < |f.order| && Calm(f, w)
    requires i in w.callers && !w.callers[i].gone && w.callers[i].pc < |f.handles[f.order[i]].dependsOn|
    ensures GoesOn(f, w) || WaitsInVain(f, w, i)
  {
    hide Inv, WaitersOk, GoneOk, LandsOk, ViewAt, Begun, PublishedBy;
    WaiterIs(f, w, i);
    assert Active(w, i);
    OpOf(f, w, i);
    var d := f.handles[f.order[i]].dependsOn[w.callers[i].pc];
    DependencyKnown(f, f.order[i], d);
    var j := IndexOf(f.order, d);
    assert CalmAt(w, d);
    hide ValidFleet, Calm;
    if !Untouched(w, d) {
      CalmBegun(f, w, j);
      CalmIsUpOrFailed(f, w, j);
      hide *;
      SeesAndMoves(f, w, i, d);
    }
  }

  lemma {:induction false} SeesAndMoves(f: Fleet, w: World, i: nat, d: Name)
    requires Registered(f, w) && d in f.handles && Active(w, i) && CurrentOp(w, i) == AwaitHealthy(d)
    requires ViewAt(f, w, d).seen.Healthy? || ViewAt(f, w, d).seen.Failed?
    ensures GoesOn(f, w)
  {
    hide ViewAt, HasReturned, MayReact, IsProgram;
    if ViewAt(f, w, d).seen.Healthy? {
      assert Enabled(f, w, Observe(i)) && Plain(f, Observe(i));
    } else {
      assert Enabled(f, w, Abandon(i)) && Plain(f, Abandon(i));
    }
  }

  lemma {:induction false} DependencyKnown(f: Fleet, n: Name, d: Name)
    requires ValidFleet(f) && n in f.handles && d in f.handles[n].dependsOn
    ensures d in f.handles && d in f.order && Edge(HandleGraph(f.handles), n, d)
    ensures n in f.order && IndexOf(f.order, d) < IndexOf(f.order, n)
  {
    assert Edge(HandleGraph(f.handles), n, d);
    IndexDecreases(HandleGraph(f.handles), f.order, n, d);
  }

  /** In a calm world a sidecar that is not untouched has begun. */
  lemma {:induction false} CalmBegun(f: Fleet, w: World, j: nat)
    requires OrderKnown(f, w) && WaitersOk(f, w) && j < |f.order|
    requires CalmAt(w, f.order[j]) && !Untouched(w, f.order[j])
    ensures Begun(f, w, j)
  {
    WaiterIs(f, w, j);
    hide Begun;
  }

  lemma {:induction false} PostingGoesOn(f: Fleet, w: World, i: nat)
    requires StartAllInv(f, w) && OrderKnown(f, w) && i < |f.order| && Calm(f, w)
    requires i in w.callers && !w.callers[i].gone && w.callers[i].pc == |f.handles[f.order[i]].dependsOn|
    ensures GoesOn(f, w)
  {
    hide Inv, WaitersOk, GoneOk, LandsOk, ViewAt, Begun, PublishedBy, HasReturned;
    WaiterIs(f, w, i);
    assert Active(w, i);
    OpOf(f, w, i);
    var n := f.order[i];
    assert CalmAt(w, n);
    hide Calm;
    if w.callers[i].sent {
      CalmIsUpOrFailed(f, w, i);
      assert CurrentCommand(w, i) == StartOf(f, i);
      assert Enabled(f, w, Resume(i)) && Plain(f, Resume(i));
    } else {
      assert Enabled(f, w, Deliver(i)) && Plain(f, Deliver(i));
    }
  }

  lemma {:induction false} WaiterStops(f: Fleet, w: World, i: nat)
    requires ValidFleet(f) && StartAllInv(f, w) && OrderKnown(f, w) && i < |f.order| && Calm(f, w)
    requires !GoesOn(f, w)
    ensures WaiterReturned(w, i) || WaitsInVain(f, w, i)
  {
    assert !w.dropped;
    hide Inv, WaitersOk, GoneOk, LandsOk, GoesOn, WaitsInVain, ValidFleet, Calm, Begun, Untouched;
    WaiterIs(f, w, i);
    if i !in w.callers {
      CallGoesOn(f, w, i);
    } else if !w.callers[i].gone {
      if w.callers[i].pc < |f.handles[f.order[i]].dependsOn| {
        AwaitingGoesOn(f, w, i);
      } else if w.callers[i].pc == |f.handles[f.order[i]].dependsOn| {
        PostingGoesOn(f, w, i);
      }
    }
  }

  lemma {:induction false} CallGoesOn(f: Fleet, w: World, i: nat)
    requires OrderKnown(f, w) && i < |f.order| && i !in w.callers && !w.dropped
    ensures GoesOn(f, w)
  {
    assert IsWaiter(f, WaiterOf(f, i));
    assert Enabled(f, w, Call(i, WaiterOf(f, i))) && Plain(f, Call(i, WaiterOf(f, i)));
  }

  /** Where nothing is enabled, everything is calm, and each waiter has returned or waits in vain. */
  lemma {:induction false} Halted(f: Fleet, w: World)
    requires ValidFleet(f) && StartAllInv(f, w) && OrderKnown(f, w)
    requires !GoesOn(f, w)
    ensures Calm(f, w)
    ensures forall i :: 0 <= i < |f.order| ==> WaiterReturned(w, i) || WaitsInVain(f, w, i)
  {
    hide StartAllInv, ValidFleet, GoesOn, CalmAt, WaiterReturned, WaitsInVain;
    forall n | n in f.handles ensures CalmAt(w, n) {
      if !CalmAt(w, n) {
        SupGoesOn(f, w, n);
      }
    }
    assert Calm(f, w);
    hide Calm;
    forall i | 0 <= i < |f.order| ensures WaiterReturned(w, i) || WaitsInVain(f, w, i) {
      WaiterStops(f, w, i);
    }
  }

  // ---------------------------------------------------------------------------------------
  // No crash after Healthy
  // ---------------------------------------------------------------------------------------

  /** A step of a lone start_all that is no crash after Healthy. */
  predicate Smooth(f: Fleet, w: World, a: Action) {
    && OnlyWaiters(f, a)
    && (a.React? && a.input.Exit? && a.name in w.sups ==> !w.sups[a.name].task.loc.Monitor?)
    && (a.Die? && a.pid in w.live && w.live[a.pid].owner in w.sups ==> !w.sups[w.live[a.pid].owner].task.loc.Monitor?)
  }

  ghost predicate AllSmooth(f: Fleet, w: World, acts: seq<Action>)
    requires Legal(f, w, acts)
    decreases |acts|
  {
    acts == [] || (Smooth(f, w, acts[0]) && AllSmooth(f, Apply(f, w, acts[0]), acts[1..]))
  }

  /** Healthy is never left, and Failed comes last. */
  predicate Steady(cfg: Config, t: Task) {
    && t.attempt <= Length(cfg)
    && (Healthy in Published(t.hist) ==> t.loc.Monitor?)
    && (t.loc.Monitor? ==> EndsHealthy(Published(t.hist)))
    && (HasFailed(Published(t.hist)) ==> t.loc.Outer?)
    && (t.loc.Outer? ==> EndsFailed(Published(t.hist)))
  }

  /** Every answer but a command or the end of a healthy child keeps a sidecar on its way. */
  lemma {:induction false} FeedSteady(cfg: Config, t: Task, i: Input)
    requires Steady(cfg, t) && Accepts(cfg, t.loc, i) && !i.Cmd? && !i.Closed? && !t.loc.Monitor?
    ensures Steady(cfg, Feed(cfg, t, i))
  {
    var k, s := FeedPublishes(cfg, t, i);
    FinalAttempt(cfg, t, i);
    hide Feed;
    PublishedSteady(cfg, t, Feed(cfg, t, i), k, s);
  }

  lemma {:induction false} FinalAttempt(cfg: Config, t: Task, i: Input)
    requires Accepts(cfg, t.loc, i) && !i.Cmd? && !i.Closed? && !t.loc.Monitor? && t.attempt <= Length(cfg)
    ensures Feed(cfg, t, i).attempt <= Length(cfg)
  {
    hide ViewOf, Discipline, Then, Say, ClearEntry;
  }

  /** A state added to a sidecar on its way. */
  lemma {:induction false} PublishedSteady(cfg: Config, t: Task, t': Task, k: nat, s: seq<State>)
    requires Steady(cfg, t) && !t.loc.Monitor? && !t.loc.Outer? && t'.attempt <= Length(cfg)
    requires Publishes(t.hist, t', k, s)
    ensures Steady(cfg, t')
  {
    var p, p' := Published(t.hist), Published(t'.hist);
    assert p' == p + s;
    assert forall x :: x in p' <==> x in p || x in s;
    if s != [] {
      assert s == [s[0]] && s[0] in s;
    }
  }

  lemma {:induction false} FirstSteady(cfg: Config, c: Command)
    requires c.kind.Start?
    ensures Steady(cfg, Feed(cfg, FRESH, Cmd(c)))
  {
    FirstPublishes(cfg, c);
    FeedFirst(cfg, c);
    hide Feed;
  }

  /** Every sidecar is fresh or on its way. */
  ghost predicate SteadyAll(f: Fleet, w: World)
    requires Registered(f, w)
  {
    forall n :: n in f.handles ==> w.sups[n].task == FRESH || Steady(f.handles[n], w.sups[n].task)
  }

  ghost predicate SmoothInv(f: Fleet, w: World) {
    StartAllInv(f, w) && SteadyAll(f, w)
  }

  /** One task is replaced by a steady one. */
  lemma {:induction false} SteadyExcept(f: Fleet, w: World, w': World, n: Name)
    requires Registered(f, w) && Registered(f, w') && n in f.handles && SteadyAll(f, w)
    requires forall m :: m in f.handles && m != n ==> w'.sups[m] == w.sups[m]
    requires w'.sups[n].task == w.sups[n].task || Steady(f.handles[n], w'.sups[n].task)
    ensures SteadyAll(f, w')
  {
    hide Steady;
  }

  lemma {:induction false} ReactSteady(f: Fleet, w: World, n: Name, i: Input, image: Option<string>)
    requires OrderKnown(f, w) && MayReact(f, w, n, i) && (i.Exit? ==> !w.sups[n].task.loc.Monitor?)
    requires WaitersOk(f, w) && SteadyAll(f, w)
    ensures Registered(f, Reacted(f, w, n, i, image)) && SteadyAll(f, Reacted(f, w, n, i, image))
  {
    var e := ReactReplaces(f, w, n, i, image);
    AnswerSteady(f, w, n, i);
    hide WaitersOk, SteadyAll, Reacted, Steady, Feed, MayReact;
    SteadyExcept(f, w, Reacted(f, w, n, i, image), n);
  }

  lemma {:induction false} AnswerSteady(f: Fleet, w: World, n: Name, i: Input)
    requires OrderKnown(f, w) && MayReact(f, w, n, i) && (i.Exit? ==> !w.sups[n].task.loc.Monitor?)
    requires WaitersOk(f, w) && SteadyAll(f, w)
    ensures n in f.handles && Accepts(f.handles[n], w.sups[n].task.loc, i)
    ensures Steady(f.handles[n], Feed(f.handles[n], w.sups[n].task, i))
  {
    assert w.sups[n].task == FRESH || Steady(f.handles[n], w.sups[n].task);
    InputIs(f, w, n, i);
    hide WaitersOk, SteadyAll, Steady, Feed, NoSenders, Begun, Untouched;
    if i.Cmd? {
      FirstSteady(f.handles[n], i.cmd);
    } else {
      FeedSteady(f.handles[n], w.sups[n].task, i);
    }
  }

  lemma {:induction false} StepSteady(f: Fleet, w: World, a: Action)
    requires SmoothInv(f, w) && Registered(f, w) && Enabled(f, w, a) && Smooth(f, w, a)
    ensures Registered(f, Apply(f, w, a)) && SteadyAll(f, Apply(f, w, a))
  {
    hide Inv, WaitersOk, GoneOk, LandsOk, SteadyAll, Reacted, PerformNext, ViewAt, NoSenders, Accepts, Steady, IsProgram, HasReturned;
    if a.React? {
      ReactSteady(f, w, a.name, a.input, a.image);
    } else if a.Perform? {
      hide Apply;
      PerformFields(f, w, a.name);
      SteadyExcept(f, w, Apply(f, w, a), a.name);
    } else {
      OutsideStep(f, w, a);
      hide Apply, Enabled;
      SameSteady(f, w, Apply(f, w, a));
    }
  }

  lemma {:induction false} SameSteady(f: Fleet, w: World, w': World)
    requires Registered(f, w) && Registered(f, w') && w'.sups == w.sups && SteadyAll(f, w)
    ensures SteadyAll(f, w')
  {
    hide Steady;
  }

  lemma {:induction false} StepSmooth(f: Fleet, w: World, a: Action)
    requires SmoothInv(f, w) && Registered(f, w) && Enabled(f, w, a) && Smooth(f, w, a)
    ensures SmoothInv(f, Apply(f, w, a)) && Later(w, Apply(f, w, a))
  {
    assert StartAllInv(f, w) && OnlyWaiters(f, a);
    StepStartAll(f, w, a);
    StepSteady(f, w, a);
    hide Inv, WaitersOk, GoneOk, LandsOk, SteadyAll, Apply, Enabled, Later, Smooth;
  }

  lemma {:induction false} InvIsKnown(f: Fleet, w: World)
    requires SmoothInv(f, w)
    ensures OrderKnown(f, w)
  {
  }

  lemma {:induction false} BootSmooth(f: Fleet)
    requires ValidFleet(f)
    ensures SmoothInv(f, Boot(f))
  {
    hide ValidFleet;
    BootStartAll(f);
  }

  lemma {:induction false} SmoothBurns(f: Fleet, w: World, a: Action)
    requires SmoothInv(f, w) && OrderKnown(f, w) && Enabled(f, w, a) && Smooth(f, w, a)
    ensures OrderKnown(f, Apply(f, w, a)) && AllFuel(f, Apply(f, w, a)) < AllFuel(f, w)
  {
    hide StartAllInv, Enabled, Apply, OnlyWaiters, AllFuel;
    StepBurns(f, w, a);
  }

  lemma {:induction false} RunSmooth(f: Fleet, w: World, acts: seq<Action>)
    requires SmoothInv(f, w) && OrderKnown(f, w) && Legal(f, w, acts) && AllSmooth(f, w, acts)
    ensures SmoothInv(f, Outcome(f, w, acts)) && Later(w, Outcome(f, w, acts)) && OrderKnown(f, Outcome(f, w, acts))
    ensures |acts| + AllFuel(f, Outcome(f, w, acts)) <= AllFuel(f, w)
    decreases |acts|
  {
    hide SmoothInv, Enabled, Apply, Later, Smooth, AllFuel;
    if acts == [] {
      LaterSame(w);
    } else {
      var w1 := Apply(f, w, acts[0]);
      StepSmooth(f, w, acts[0]);
      SmoothBurns(f, w, acts[0]);
      InvIsKnown(f, w1);
      RunSmooth(f, w1, acts[1..]);
      LaterStill(w, w1, Outcome(f, w, acts));
    }
  }

  ghost predicate CanMove(f: Fleet, w: World)
    requires Registered(f, w)
  {
    exists a :: Enabled(f, w, a) && Smooth(f, w, a)
  }

  lemma {:induction false} PlainMoves(f: Fleet, w: World)
    requires Registered(f, w) && GoesOn(f, w)
    ensures CanMove(f, w)
  {
    hide Enabled, OnlyWaiters;
    var a :| Enabled(f, w, a) && Plain(f, a);
    assert Smooth(f, w, a);
  }

  // ---------------------------------------------------------------------------------------
  // Progress
  // ---------------------------------------------------------------------------------------

  ghost predicate NoneFailed(f: Fleet, w: World)
    requires Registered(f, w)
  {
    forall n :: n in f.handles ==> !HasFailed(PublishedBy(w, n))
  }

  /** Waiter i has returned, having started its sidecar, which is up. */
  predicate BroughtUp(f: Fleet, w: World, i: nat)
    requires i < |f.order| && f.order[i] in f.handles && f.order[i] in w.sups
  {
    var n := f.order[i];
    && i in w.callers && !w.callers[i].gone && w.callers[i].pc == |w.callers[i].prog|
    && AtRest(w, n) && w.sups[n].task.loc.Monitor? && EndsHealthy(PublishedBy(w, n))
    && ConsumedIn(w.sups[n].done) == [StartOf(f, i)]
  }

  /** The first k waiters have brought their sidecars up. */
  ghost predicate FirstUp(f: Fleet, w: World, k: nat)
    requires OrderKnown(f, w) && k <= |f.order|
  {
    forall i :: 0 <= i < k ==> BroughtUp(f, w, i)
  }

  lemma {:induction false} AllBroughtUp(f: Fleet, w: World, k: nat)
    requires ValidFleet(f) && StartAllInv(f, w) && OrderKnown(f, w) && k <= |f.order|
    requires Calm(f, w) && NoneFailed(f, w)
    requires forall i :: 0 <= i < |f.order| ==> WaiterReturned(w, i) || WaitsInVain(f, w, i)
    ensures FirstUp(f, w, k)
  {
    hide StartAllInv, ValidFleet, Calm, NoneFailed, BroughtUp, WaiterReturned, WaitsInVain;
    if k > 0 {
      AllBroughtUp(f, w, k - 1);
      NextBroughtUp(f, w, k - 1);
    }
  }

  lemma {:induction false} NextBroughtUp(f: Fleet, w: World, i: nat)
    requires ValidFleet(f) && StartAllInv(f, w) && OrderKnown(f, w) && i < |f.order|
    requires Calm(f, w) && NoneFailed(f, w)
    requires WaiterReturned(w, i) || WaitsInVain(f, w, i)
    requires FirstUp(f, w, i)
    ensures BroughtUp(f, w, i)
  {
    hide Inv, WaitersOk, GoneOk, LandsOk, ValidFleet, HasFailed, PublishedBy, Begun, EndsHealthy;
    WaiterIs(f, w, i);
    NotGone(f, w, i);
    NotInVain(f, w, i);
    var n := f.order[i];
    assert CalmAt(w, n);
    hide Calm, Untouched;
    assert Begun(f, w, i);
    CalmIsUpOrFailed(f, w, i);
    assert !HasFailed(PublishedBy(w, n));
    BegunConsumed(f, w, i);
  }

  lemma {:induction false} BegunConsumed(f: Fleet, w: World, i: nat)
    requires i < |f.order| && f.order[i] in f.handles && f.order[i] in w.sups && f.order[i] in w.queues
    requires Begun(f, w, i) && AtRest(w, f.order[i])
    ensures ConsumedIn(w.sups[f.order[i]].done) == [StartOf(f, i)]
  {
  }

  lemma {:induction false} SomeoneFailed(f: Fleet, w: World, i: nat)
    requires OrderKnown(f, w) && GoneOk(f, w) && i in w.callers && w.callers[i].gone
    ensures !NoneFailed(f, w)
  {
    hide HasFailed, PublishedBy, NoneFailed;
    assert AwaitsFailed(f, w, i);
    FailedIsSome(f, w, f.handles[f.order[i]].dependsOn[w.callers[i].pc]);
  }

  lemma {:induction false} FailedIsSome(f: Fleet, w: World, n: Name)
    requires Registered(f, w) && n in f.handles && HasFailed(PublishedBy(w, n))
    ensures !NoneFailed(f, w)
  {
    hide HasFailed, PublishedBy;
  }

  lemma {:induction false} NotGone(f: Fleet, w: World, i: nat)
    requires StartAllInv(f, w) && OrderKnown(f, w) && NoneFailed(f, w)
    ensures i in w.callers ==> !w.callers[i].gone
  {
    hide Inv, WaitersOk, GoneOk, LandsOk, NoneFailed;
    if i in w.callers && w.callers[i].gone {
      SomeoneFailed(f, w, i);
    }
  }

  /** Who waits in vain waits for an earlier sidecar that is not up. */
  lemma {:induction false} VainDependency(f: Fleet, w: World, i: nat) returns (j: nat)
    requires ValidFleet(f) && OrderKnown(f, w) && i < |f.order| && WaitsInVain(f, w, i)
    ensures j < i && !BroughtUp(f, w, j)
  {
    hide EndsHealthy;
    var d := f.handles[f.order[i]].dependsOn[w.callers[i].pc];
    DependencyKnown(f, f.order[i], d);
    var k := IndexOf(f.order, f.order[i]);
    assert f.order[k] == f.order[i] && k == i;
    j := IndexOf(f.order, d);
  }

  lemma {:induction false} NotInVain(f: Fleet, w: World, i: nat)
    requires ValidFleet(f) && OrderKnown(f, w) && i < |f.order|
    requires FirstUp(f, w, i)
    ensures !WaitsInVain(f, w, i)
  {
    hide ValidFleet, OrderKnown, WaitsInVain, BroughtUp;
    if WaitsInVain(f, w, i) {
      var j := VainDependency(f, w, i);
    }
  }

  ghost predicate AllUp(f: Fleet, w: World)
    requires OrderKnown(f, w)
  {
    forall i :: 0 <= i < |f.order| ==> BroughtUp(f, w, i)
  }

  /** Where no more happens and none has failed for good, all are up. */
  lemma {:induction false} UpOrMoving(f: Fleet, w: World)
    requires ValidFleet(f) && StartAllInv(f, w) && OrderKnown(f, w) && NoneFailed(f, w)
    ensures GoesOn(f, w) || AllUp(f, w)
  {
    hide StartAllInv, ValidFleet, GoesOn, NoneFailed, BroughtUp, WaiterReturned, WaitsInVain, Calm;
    if !GoesOn(f, w) {
      Halted(f, w);
      AllBroughtUp(f, w, |f.order|);
    }
  }

  /** The i-th sidecar is sent nothing but its one Start. */
  lemma {:induction false} ConsumesOneStart(f: Fleet, w: World, i: nat)
    requires StartAllInv(f, w) && OrderKnown(f, w) && i < |f.order|
    ensures ConsumedIn(HistoryIn(w.trace, f.order[i])) <= [StartOf(f, i)]
  {
    hide Inv, SupsOk, WaitersOk, GoneOk, TaskInv, HistoryIn;
    var n := f.order[i];
    WaiterIs(f, w, i);
    InvParts(f, w);
    SupAt(f, w, n);
    ConsumedGrows(w.sups[n].done, w.sups[n].task.hist);
  }

  lemma {:induction false} ConsumedGrows(p: History, h: History)
    requires Prefix(p, h)
    ensures ConsumedIn(p) <= ConsumedIn(h)
  {
    if p != h {
      ConsumedGrows(p, h.before);
    }
  }

  lemma {:induction false} SmoothReached(f: Fleet, acts: seq<Action>)
    requires ValidFleet(f) && Legal(f, Boot(f), acts) && AllSmooth(f, Boot(f), acts)
    ensures SmoothInv(f, Reached(f, acts)) && OrderKnown(f, Reached(f, acts))
    ensures |acts| <= Allowance(f, |f.order|)
  {
    ValidIsKnown(f, Boot(f));
    BootSmooth(f);
    BootFuel(f, |f.order|);
    assert Boot(f).live == map[];
    hide SmoothInv, ValidFleet, Legal, AllSmooth, Boot, Fuel, Later, Allowance;
    RunSmooth(f, Boot(f), acts);
  }

  /**
   Progress of a start_all. Let the manager be asked for one start_all and for nothing else, and let
   no child end once it is Healthy; otherwise ports, spawns and probes may fail and children may die
   as they like. Then in whatever order things happen: the run takes no more steps than a bound
   fixed by dependencies and schedules; no sidecar is sent more than its one Start; and as long as none
   has failed for good, some step is enabled or every waiter has returned and every sidecar is up, its
   last state Healthy.
   */
  lemma {:induction false} StartAllProgress(f: Fleet, acts: seq<Action>)
    requires ValidFleet(f) && Legal(f, Boot(f), acts) && AllSmooth(f, Boot(f), acts)
    ensures OrderKnown(f, Reached(f, acts))
    ensures |acts| <= Allowance(f, |f.order|)
    ensures forall i :: 0 <= i < |f.order| ==>
      ConsumedIn(HistoryIn(Reached(f, acts).trace, f.order[i])) <= [StartOf(f, i)]
    ensures NoneFailed(f, Reached(f, acts)) ==> CanMove(f, Reached(f, acts)) || AllUp(f, Reached(f, acts))
  {
    SmoothReached(f, acts);
    var w := Reached(f, acts);
    hide *;
    SmoothParts(f, w);
    forall i | 0 <= i < |f.order| ensures ConsumedIn(HistoryIn(w.trace, f.order[i])) <= [StartOf(f, i)] {
      InOrder(f, w, i);
      ConsumesOneStart(f, w, i);
    }
    if NoneFailed(f, w) {
      UpOrMoving(f, w);
      if GoesOn(f, w) {
        PlainMoves(f, w);
      }
    }
  }

  lemma {:induction false} InOrder(f: Fleet, w: World, i: nat)
    requires OrderKnown(f, w) && i < |f.order|
    ensures f.order[i] in f.handles
  {
  }

  lemma {:induction false} SmoothParts(f: Fleet, w: World)
    requires SmoothInv(f, w)
    ensures StartAllInv(f, w) && OrderKnown(f, w)
  {
  }
}
