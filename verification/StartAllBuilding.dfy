/** Building blocks for runs of a lone start_all: bringing sidecars up, letting them fail. */
module StartAllBuilding {
  import opened Domain
  import opened Lifecycle
  import opened LifecycleProofs
  import opened Extension
  import opened Reactions
  import opened Restarts
  import opened Graph
  import opened Fleet
  import opened FleetInvariants
  import opened FleetRuns
  import opened StartAllRuns
  import opened StartAll
  import opened StartAllReturns
  import opened StartAllPeace

  // ---------------------------------------------------------------------------------------
  // Building runs
  // ---------------------------------------------------------------------------------------

  lemma {:induction false} PlainIsSmooth(f: Fleet, w: World, acts: seq<Action>)
    requires Legal(f, w, acts) && AllPlain(f, acts)
    ensures AllSmooth(f, w, acts)
    decreases |acts|
  {
    hide Apply, Enabled, OnlyWaiters;
    if acts != [] {
      assert acts[0] in acts;
      PlainIsSmooth(f, Apply(f, w, acts[0]), acts[1..]);
    }
  }

  lemma {:induction false} PlainConcat(f: Fleet, acts: seq<Action>, more: seq<Action>)
    requires AllPlain(f, acts) && AllPlain(f, more)
    ensures AllPlain(f, acts + more)
  {
    hide Plain;
  }

  /** Nothing but the i-th waiter and its sidecar has moved. */
  ghost predicate Elsewhere(f: Fleet, w: World, w': World, i: nat) {
    && OrderKnown(f, w) && OrderKnown(f, w') && i < |f.order| && w'.dropped == w.dropped
    && (forall j :: j != i ==> (j in w'.callers <==> j in w.callers))
    && forall n :: n in f.handles && n != f.order[i] ==> w'.sups[n] == w.sups[n] && w'.queues[n] == w.queues[n]
  }

  lemma {:induction false} ElsewhereStill(f: Fleet, a: World, b: World, c: World, i: nat)
    requires Elsewhere(f, a, b, i) && Elsewhere(f, b, c, i)
    ensures Elsewhere(f, a, c, i)
  {
    hide OrderKnown;
    assert Registered(f, a) && Registered(f, b) && Registered(f, c) by {
      AllRegistered(f, a, b, i);
      AllRegistered(f, b, c, i);
    }
  }

  lemma {:induction false} AllRegistered(f: Fleet, a: World, b: World, i: nat)
    requires Elsewhere(f, a, b, i)
    ensures Registered(f, a) && Registered(f, b)
  {
  }

  /** A plain run from w to w' that moves only the i-th waiter and its sidecar. */
  ghost predicate Leads(f: Fleet, w: World, acts: seq<Action>, w': World, i: nat) {
    Legal(f, w, acts) && AllPlain(f, acts) && Outcome(f, w, acts) == w' && Elsewhere(f, w, w', i)
  }

  lemma {:induction false} LeadsOn(f: Fleet, a: World, xs: seq<Action>, b: World, ys: seq<Action>, c: World, i: nat)
    requires Leads(f, a, xs, b, i) && Leads(f, b, ys, c, i)
    ensures Leads(f, a, xs + ys, c, i)
  {
    hide Legal, AllPlain, Elsewhere, Outcome;
    LegalConcat(f, a, xs, ys);
    PlainConcat(f, xs, ys);
    ElsewhereStill(f, a, b, c, i);
  }

  lemma {:induction false} LeadsOne(f: Fleet, w: World, a: Action, i: nat)
    requires Registered(f, w) && Enabled(f, w, a) && Plain(f, a) && Elsewhere(f, w, Apply(f, w, a), i)
    ensures Leads(f, w, [a], Apply(f, w, a), i)
  {
    hide Enabled, Apply, Plain, Elsewhere, Registered;
    assert Legal(f, Apply(f, w, a), []);
    assert [a][1..] == [];
    assert Legal(f, w, [a]) && Outcome(f, w, [a]) == Outcome(f, Apply(f, w, a), []);
  }

  lemma {:induction false} LeadsNowhere(f: Fleet, w: World, i: nat)
    requires OrderKnown(f, w) && i < |f.order|
    ensures Leads(f, w, [], w, i)
  {
  }

  // ---------------------------------------------------------------------------------------
  // Steps of one supervisor
  // ---------------------------------------------------------------------------------------

  /** n completes its plan. */
  lemma {:induction false} PerformAll(f: Fleet, w: World, i: nat) returns (acts: seq<Action>, w': World)
    requires OrderKnown(f, w) && i < |f.order| && Prefix(w.sups[f.order[i]].done, w.sups[f.order[i]].task.hist)
    ensures Leads(f, w, acts, w', i) && OrderKnown(f, w')
    ensures var t := w.sups[f.order[i]].task; w'.sups[f.order[i]] == Sup(t, t.hist)
    ensures w'.queues == w.queues && w'.callers == w.callers
    decreases Size(w.sups[f.order[i]].task.hist) - Size(w.sups[f.order[i]].done)
  {
    hide Apply, Leads, Affect, NextEffect;
    var n := f.order[i];
    var p, h := w.sups[n].done, w.sups[n].task.hist;
    if p == h {
      acts, w' := [], w;
      LeadsNowhere(f, w, i);
    } else {
      var w1 := Apply(f, w, Perform(n));
      PerformFields(f, w, n);
      NextIsPrefix(p, h);
      PrefixSize(w1.sups[n].done, h);
      assert OrderKnown(f, w1);
      LeadsOne(f, w, Perform(n), i);
      var rest;
      rest, w' := PerformAll(f, w1, i);
      acts := [Perform(n)] + rest;
      LeadsOn(f, w, [Perform(n)], w1, rest, w', i);
    }
  }

  /** n reacts to an input, from rest to rest. */
  lemma {:induction false} ReactFully(f: Fleet, w: World, i: nat, input: Input) returns (acts: seq<Action>, w': World)
    requires OrderKnown(f, w) && i < |f.order| && MayReact(f, w, f.order[i], input) && !input.Exit?
    ensures Leads(f, w, acts, w', i) && OrderKnown(f, w')
    ensures
      var n := f.order[i];
      var t := Feed(f.handles[n], w.sups[n].task, input);
      w'.sups[n] == Sup(t, t.hist) && w'.queues[n] == (if input.Cmd? then w.queues[n][1..] else w.queues[n])
    ensures w'.callers == w.callers
  {
    hide Feed, ViewOf, Reacted, Accepts, NextEffect, Leads, NoSenders, Affect, StartsWith;
    var n, a := f.order[i], React(f.order[i], input, None);
    var w1 := Reacted(f, w, n, input, None);
    ReactOne(f, w, i, input);
    ReactLeads(f, w, i, input);
    var rest;
    rest, w' := PerformAll(f, w1, i);
    acts := [a] + rest;
    hide Elsewhere, MayReact;
    LeadsOn(f, w, [a], w1, rest, w', i);
  }

  lemma {:induction false} ReactOne(f: Fleet, w: World, i: nat, input: Input)
    requires OrderKnown(f, w) && i < |f.order| && MayReact(f, w, f.order[i], input)
    ensures
      var n, w' := f.order[i], Reacted(f, w, f.order[i], input, None);
      && OrderKnown(f, w') && w'.callers == w.callers
      && w'.sups[n].task == Feed(f.handles[n], w.sups[n].task, input) && Prefix(w'.sups[n].done, w'.sups[n].task.hist)
      && w'.queues[n] == (if input.Cmd? then w.queues[n][1..] else w.queues[n])
      && Elsewhere(f, w, w', i)
  {
    hide Feed, Reacted, Affect, StartsWith, Accepts, NoSenders, Prefix;
    var n := f.order[i];
    assert w.sups[n].done == w.sups[n].task.hist;
    hide MayReact;
    var e := ReactFields(f, w, n, input, None);
    StartsWithin(w.sups[n].task, e, Feed(f.handles[n], w.sups[n].task, input).hist);
  }

  lemma {:induction false} ReactLeads(f: Fleet, w: World, i: nat, input: Input)
    requires Registered(f, w) && i < |f.order| && MayReact(f, w, f.order[i], input) && !input.Exit?
    requires Elsewhere(f, w, Reacted(f, w, f.order[i], input, None), i)
    ensures Leads(f, w, [React(f.order[i], input, None)], Reacted(f, w, f.order[i], input, None), i)
  {
    var a := React(f.order[i], input, None);
    hide Reacted, MayReact, Elsewhere, Leads;
    assert Enabled(f, w, a) && Plain(f, a) && Apply(f, w, a) == Reacted(f, w, f.order[i], input, None);
    hide Apply, Enabled, Plain;
    LeadsOne(f, w, a, i);
  }

  lemma {:induction false} StartsWithin(t: Task, e: Effect, h: History)
    requires StartsWith(t, e, h)
    ensures Prefix(After(t.hist, e), h)
  {
  }

  // ---------------------------------------------------------------------------------------
  // Starting one sidecar
  // ---------------------------------------------------------------------------------------

  /** n is at rest and shows Healthy. */
  predicate ShowsHealthy(f: Fleet, w: World, n: Name) {
    n in f.handles && n in w.sups && AtRest(w, n) && ViewAt(f, w, n).seen.Healthy?
  }

  lemma {:induction false} CallWaiter(f: Fleet, w: World, i: nat)
    requires OrderKnown(f, w) && i < |f.order| && i !in w.callers && !w.dropped
    ensures
      var a := Call(i, WaiterOf(f, i));
      && Enabled(f, w, a) && Plain(f, a)
      && Apply(f, w, a) == StepCaller(w, i, Caller(WaiterOf(f, i), 0, false, false))
  {
    assert IsWaiter(f, WaiterOf(f, i));
  }

  /** The waiter gets past its first dependencies, if they show Healthy. */
  lemma {:induction false} Observes(f: Fleet, w: World, i: nat, pc: nat, upTo: nat) returns (acts: seq<Action>, w': World)
    requires OrderKnown(f, w) && i < |f.order| && i in w.callers && pc <= upTo <= |f.handles[f.order[i]].dependsOn|
    requires w.callers[i] == Caller(WaiterOf(f, i), pc, false, false)
    requires forall q :: pc <= q < upTo ==> ShowsHealthy(f, w, f.handles[f.order[i]].dependsOn[q])
    ensures Leads(f, w, acts, w', i) && OrderKnown(f, w')
    ensures w' == StepCaller(w, i, Caller(WaiterOf(f, i), upTo, false, false))
    decreases upTo - pc
  {
    var deps := f.handles[f.order[i]].dependsOn;
    hide ViewAt, Leads, WaiterOf, ShowsHealthy, Enabled, Apply, Plain;
    if pc == upTo {
      acts, w' := [], w;
      LeadsNowhere(f, w, i);
      assert w.callers[i := w.callers[i]] == w.callers;
    } else {
      var w1 := StepCaller(w, i, Caller(WaiterOf(f, i), pc + 1, false, false));
      OneObserved(f, w, i, pc);
      forall q | pc + 1 <= q < upTo ensures ShowsHealthy(f, w1, deps[q]) {
        StillShown(f, w, w1, deps[q]);
      }
      SteppedTwice(w, i, Caller(WaiterOf(f, i), pc + 1, false, false), Caller(WaiterOf(f, i), upTo, false, false));
      hide *;
      var rest;
      rest, w' := Observes(f, w1, i, pc + 1, upTo);
      acts := [Observe(i)] + rest;
      LeadsOn(f, w, [Observe(i)], w1, rest, w', i);
    }
  }

  lemma {:induction false} SteppedTwice(w: World, i: nat, c: Caller, c': Caller)
    ensures StepCaller(StepCaller(w, i, c), i, c') == StepCaller(w, i, c') && StepCaller(w, i, c).callers[i] == c
  {
  }

  lemma {:induction false} OneObserved(f: Fleet, w: World, i: nat, pc: nat)
    requires OrderKnown(f, w) && i < |f.order| && i in w.callers && pc < |f.handles[f.order[i]].dependsOn|
    requires w.callers[i] == Caller(WaiterOf(f, i), pc, false, false)
    requires ShowsHealthy(f, w, f.handles[f.order[i]].dependsOn[pc])
    ensures
      var w' := StepCaller(w, i, Caller(WaiterOf(f, i), pc + 1, false, false));
      OrderKnown(f, w') && i in w'.callers && w'.sups == w.sups && Leads(f, w, [Observe(i)], w', i)
  {
    hide Leads, WaiterOf, ShowsHealthy, Enabled, Apply, Plain;
    ObserveOne(f, w, i, pc);
    LeadsOne(f, w, Observe(i), i);
  }

  /** The waiter of i is spawned and gets past its first dependencies. */
  lemma {:induction false} CallAndObserve(f: Fleet, w: World, i: nat, upTo: nat) returns (acts: seq<Action>, w': World)
    requires OrderKnown(f, w) && i < |f.order| && i !in w.callers && !w.dropped
    requires upTo <= |f.handles[f.order[i]].dependsOn|
    requires forall q :: 0 <= q < upTo ==> ShowsHealthy(f, w, f.handles[f.order[i]].dependsOn[q])
    ensures Leads(f, w, acts, w', i) && OrderKnown(f, w')
    ensures w' == StepCaller(w, i, Caller(WaiterOf(f, i), upTo, false, false))
  {
    hide ViewAt, Leads, WaiterOf, Apply, Enabled, Plain, ShowsHealthy;
    var deps, a := f.handles[f.order[i]].dependsOn, Call(i, WaiterOf(f, i));
    CallWaiter(f, w, i);
    var w1 := Apply(f, w, a);
    LeadsOne(f, w, a, i);
    forall q | 0 <= q < upTo ensures ShowsHealthy(f, w1, deps[q]) {
      StillShown(f, w, w1, deps[q]);
    }
    var xs;
    xs, w' := Observes(f, w1, i, 0, upTo);
    LeadsOn(f, w, [a], w1, xs, w', i);
    acts := [a] + xs;
    assert w1.callers[i := Caller(WaiterOf(f, i), upTo, false, false)] == w.callers[i := Caller(WaiterOf(f, i), upTo, false, false)];
  }

  lemma {:induction false} StillShown(f: Fleet, w: World, w': World, n: Name)
    requires ShowsHealthy(f, w, n) && w'.sups == w.sups
    ensures ShowsHealthy(f, w', n)
  {
  }

  lemma {:induction false} SameView(f: Fleet, w: World, w': World, n: Name)
    requires n in f.handles && n in w.sups && n in w'.sups && w'.sups[n] == w.sups[n]
    ensures ViewAt(f, w', n) == ViewAt(f, w, n)
  {
  }

  lemma {:induction false} ObserveOne(f: Fleet, w: World, i: nat, pc: nat)
    requires OrderKnown(f, w) && i < |f.order| && i in w.callers && pc < |f.handles[f.order[i]].dependsOn|
    requires w.callers[i] == Caller(WaiterOf(f, i), pc, false, false)
    requires ShowsHealthy(f, w, f.handles[f.order[i]].dependsOn[pc])
    ensures Enabled(f, w, Observe(i)) && Plain(f, Observe(i))
    ensures Apply(f, w, Observe(i)) == StepCaller(w, i, Caller(WaiterOf(f, i), pc + 1, false, false))
    ensures Elsewhere(f, w, Apply(f, w, Observe(i)), i)
  {
    hide ViewAt, HasReturned, MayReact, Reacted, PerformNext;
    assert CurrentOp(w, i) == AwaitHealthy(f.handles[f.order[i]].dependsOn[pc]);
    hide WaiterOf;
  }

  lemma {:induction false} DeliverDoes(f: Fleet, w: World, i: nat)
    requires OrderKnown(f, w) && i < |f.order| && i in w.callers && Untouched(w, f.order[i])
    requires w.callers[i] == Caller(WaiterOf(f, i), |f.handles[f.order[i]].dependsOn|, false, false)
    ensures Enabled(f, w, Deliver(i)) && Plain(f, Deliver(i))
    ensures
      var n := f.order[i];
      Apply(f, w, Deliver(i)) ==
        StepCaller(w, i, w.callers[i].(sent := true)).(queues := w.queues[n := w.queues[n] + [StartOf(f, i)]])
  {
    var n := f.order[i];
    assert f.handles[n].name == n;
    hide OrderKnown, ViewAt, MayReact, Reacted, PerformNext, IsProgram;
    assert CurrentOp(w, i) == Post(n, Start) && CurrentCommand(w, i) == StartOf(f, i);
    hide WaiterOf;
  }

  lemma {:induction false} DeliverOne(f: Fleet, w: World, i: nat)
    requires OrderKnown(f, w) && i < |f.order| && i in w.callers && Untouched(w, f.order[i])
    requires w.callers[i] == Caller(WaiterOf(f, i), |f.handles[f.order[i]].dependsOn|, false, false)
    ensures Enabled(f, w, Deliver(i)) && Plain(f, Deliver(i))
    ensures
      var w', n := Apply(f, w, Deliver(i)), f.order[i];
      Elsewhere(f, w, w', i) && w'.sups == w.sups && w'.queues[n] == [StartOf(f, i)]
  {
    DeliverDoes(f, w, i);
    hide Enabled, Apply, WaiterOf, StartOf, Plain;
  }

  /** The i-th sidecar, whose dependencies show Healthy, is started. */
  lemma {:induction false} StartOne(f: Fleet, w: World, i: nat) returns (acts: seq<Action>, w': World)
    requires OrderKnown(f, w) && i < |f.order| && i !in w.callers && !w.dropped && Untouched(w, f.order[i])
    requires forall d :: d in f.handles[f.order[i]].dependsOn ==> ShowsHealthy(f, w, d)
    ensures Leads(f, w, acts, w', i) && OrderKnown(f, w')
    ensures
      var n := f.order[i];
      var t := Feed(f.handles[n], FRESH, Cmd(StartOf(f, i)));
      w'.sups[n] == Sup(t, t.hist) && w'.queues[n] == []
  {
    hide ViewAt, Leads, WaiterOf, Feed, Apply, Enabled, Plain, ViewOf, ShowsHealthy;
    var xs, w2 := CallAndObserve(f, w, i, |f.handles[f.order[i]].dependsOn|);
    DeliverOne(f, w2, i);
    var w3 := Apply(f, w2, Deliver(i));
    LeadsOne(f, w2, Deliver(i), i);
    LeadsOn(f, w, xs, w2, [Deliver(i)], w3, i);
    StartArrives(f, w3, i);
    var ys;
    ys, w' := ReactFully(f, w3, i, Cmd(StartOf(f, i)));
    acts := xs + [Deliver(i)] + ys;
    LeadsOn(f, w, xs + [Deliver(i)], w3, ys, w', i);
  }

  lemma {:induction false} StartArrives(f: Fleet, w: World, i: nat)
    requires OrderKnown(f, w) && i < |f.order|
    requires w.sups[f.order[i]] == Sup(FRESH, Empty) && w.queues[f.order[i]] == [StartOf(f, i)]
    ensures MayReact(f, w, f.order[i], Cmd(StartOf(f, i)))
  {
  }

  // ---------------------------------------------------------------------------------------
  // Bringing one up, letting one fail
  // ---------------------------------------------------------------------------------------

  /** The i-th sidecar rests at the task t. */
  ghost predicate At(f: Fleet, w: World, i: nat, t: Task) {
    OrderKnown(f, w) && i < |f.order| && w.sups[f.order[i]] == Sup(t, t.hist)
  }

  predicate SameQueue(w: World, w': World, n: Name) {
    n in w.queues && n in w'.queues && w'.queues[n] == w.queues[n]
  }

  lemma {:induction false} Next(f: Fleet, w: World, i: nat, cfg: Config, t: Task, input: Input)
    returns (acts: seq<Action>, w': World)
    requires At(f, w, i, t) && cfg == f.handles[f.order[i]] && Accepts(cfg, t.loc, input)
    requires !input.Cmd? && !input.Closed? && !input.Exit? && (input.SpawnDone? ==> input.pid !in w.live)
    ensures Leads(f, w, acts, w', i) && At(f, w', i, Feed(cfg, t, input)) && w'.callers == w.callers
    ensures SameQueue(w, w', f.order[i])
  {
    hide Leads, Feed, Accepts, NoSenders;
    acts, w' := ReactFully(f, w, i, input);
  }

  lemma {:induction false} BringUp(f: Fleet, w: World, i: nat) returns (acts: seq<Action>, w': World)
    requires OrderKnown(f, w) && i < |f.order| && i !in w.callers && !w.dropped && Untouched(w, f.order[i])
    requires forall d :: d in f.handles[f.order[i]].dependsOn ==> ShowsHealthy(f, w, d)
    requires Probeable(f.handles[f.order[i]])
    ensures Leads(f, w, acts, w', i) && ShowsHealthy(f, w', f.order[i])
  {
    var cfg := f.handles[f.order[i]];
    var t := Feed(cfg, FRESH, Cmd(StartOf(f, i)));
    hide ShowsHealthy, Leads, Probeable, TaskInv, Feed, Untouched, StartOf;
    var xs, w1 := StartOne(f, w, i);
    FreshInv(cfg);
    FeedFirst(cfg, StartOf(f, i));
    FeedKeeps(cfg, FRESH, Cmd(StartOf(f, i)));
    assert At(f, w1, i, t);
    var ys;
    ys, w' := Succeed(f, w1, i, cfg, t);
    acts := xs + ys;
    LeadsOn(f, w, xs, w1, ys, w', i);
  }

  lemma {:induction false} Succeed(f: Fleet, w: World, i: nat, cfg: Config, t: Task) returns (acts: seq<Action>, w': World)
    requires At(f, w, i, t) && cfg == f.handles[f.order[i]] && TaskInv(cfg, t) && t.loc.Spawning? && Probeable(cfg)
    ensures Leads(f, w, acts, w', i) && ShowsHealthy(f, w', f.order[i]) && w'.callers == w.callers
    ensures f.order[i] in w'.sups && PublishedBy(w', f.order[i]) == Published(t.hist) + [Healthy]
  {
    hide ShowsHealthy, Leads, Probeable, TaskInv, At, ViewOf, Feed;
    var t1 := Feed(cfg, t, PortGiven(0));
    GoodPort(cfg, t, 0);
    var xs, w1 := Next(f, w, i, cfg, t, PortGiven(0));
    var pid := Above(w1.live.Keys);
    var t2 := Feed(cfg, t1, SpawnDone(pid));
    GoodSpawn(cfg, t1, pid);
    var ys, w2 := Next(f, w1, i, cfg, t1, SpawnDone(pid));
    var zs;
    GoodProbe(cfg, t2);
    zs, w' := Next(f, w2, i, cfg, t2, ProbePassed);
    LeadsOn(f, w, xs, w1, ys, w2, i);
    LeadsOn(f, w, xs + ys, w2, zs, w', i);
    acts := xs + ys + zs;
    RestShows(f, w', i, Feed(cfg, t2, ProbePassed));
    SuccessPublishes(cfg, t, 0, pid);
  }

  lemma {:induction false} SuccessPublishes(cfg: Config, t: Task, free: nat, pid: nat)
    requires Accepts(cfg, t.loc, PortGiven(free)) && var t1 := Feed(cfg, t, PortGiven(free)); Accepts(cfg, t1.loc, SpawnDone(pid))
    requires ProbeCanPass(cfg, Feed(cfg, Feed(cfg, t, PortGiven(free)), SpawnDone(pid)).port)
    ensures
      var t2 := Feed(cfg, Feed(cfg, t, PortGiven(free)), SpawnDone(pid));
      Accepts(cfg, t2.loc, ProbePassed) && Published(Feed(cfg, t2, ProbePassed).hist) == Published(t.hist) + [Healthy]
  {
    hide ViewOf, Discipline, Then, Say, Adds;
    var t1 := Feed(cfg, t, PortGiven(free));
    var t2 := Feed(cfg, t1, SpawnDone(pid));
    var spawned := Then(cfg, t1.hist, Spawned(pid, t1.port));
    NothingAdded(t.hist);
    ThenAdds(cfg, t.hist, t.hist, 0, [], PortSet(ChosenPort(cfg, free)));
    ThenAdds(cfg, t.hist, t1.hist, 1, [], Spawned(pid, t1.port));
    ThenAdds(cfg, t.hist, spawned, 2, [], Inserted(pid));
    ThenAdds(cfg, t.hist, Then(cfg, spawned, Inserted(pid)), 3, [], Flushed);
    SayAdds(cfg, t.hist, t2.hist, 4, Healthy);
    AddedPublished(t.hist, Feed(cfg, t2, ProbePassed).hist, 6, [Healthy]);
  }

  lemma {:induction false} AddedPublished(h: History, h': History, k: nat, s: seq<State>)
    requires Adds(h, h', k, s)
    ensures Published(h') == Published(h) + s
  {
  }

  lemma {:induction false} RestShows(f: Fleet, w: World, i: nat, t: Task)
    requires At(f, w, i, t) && ViewOf(f.handles[f.order[i]], t.hist).seen.Healthy?
    ensures ShowsHealthy(f, w, f.order[i]) && f.order[i] in w.sups && PublishedBy(w, f.order[i]) == Published(t.hist)
  {
    hide ViewOf;
  }

  lemma {:induction false} GoodPort(cfg: Config, t: Task, free: nat)
    requires TaskInv(cfg, t) && t.loc.Spawning? && Probeable(cfg)
    ensures Accepts(cfg, t.loc, PortGiven(free))
    ensures var t' := Feed(cfg, t, PortGiven(free)); TaskInv(cfg, t') && t'.loc.Launching? && ProbeCanPass(cfg, t'.port)
  {
    FeedKeeps(cfg, t, PortGiven(free));
    hide TaskInv, Then;
  }

  lemma {:induction false} GoodSpawn(cfg: Config, t: Task, pid: nat)
    requires TaskInv(cfg, t) && t.loc.Launching? && ProbeCanPass(cfg, t.port)
    ensures Accepts(cfg, t.loc, SpawnDone(pid))
    ensures var t' := Feed(cfg, t, SpawnDone(pid)); TaskInv(cfg, t') && t'.loc.Health? && ProbeCanPass(cfg, t'.port)
  {
    FeedKeeps(cfg, t, SpawnDone(pid));
    hide TaskInv, Then;
  }

  lemma {:induction false} GoodProbe(cfg: Config, t: Task)
    requires TaskInv(cfg, t) && t.loc.Health? && ProbeCanPass(cfg, t.port)
    ensures Accepts(cfg, t.loc, ProbePassed)
    ensures ViewOf(cfg, Feed(cfg, t, ProbePassed).hist).seen.Healthy?
  {
    FeedKeeps(cfg, t, ProbePassed);
    hide Then, Say, ViewOf, Discipline;
  }

  /** Its spawns are denied until the schedule is used up. */
  lemma {:induction false} DenyAll(f: Fleet, w: World, i: nat, cfg: Config, t: Task) returns (acts: seq<Action>, w': World)
    requires At(f, w, i, t) && cfg == f.handles[f.order[i]] && t.loc.Spawning? && t.attempt <= Length(cfg)
    ensures Leads(f, w, acts, w', i) && OrderKnown(f, w') && HasFailed(PublishedBy(w', f.order[i])) && w'.callers == w.callers
    ensures Down(w', f.order[i]) && ViewAt(f, w', f.order[i]).seen.Failed? && SameQueue(w, w', f.order[i])
    decreases Length(cfg) - t.attempt
  {
    hide Leads, At, Feed, HasFailed, PublishedBy, Down, ViewAt, ViewOf;
    DenyOnce(cfg, t);
    var t1 := Feed(cfg, t, PortGiven(0));
    var t2 := Feed(cfg, t1, SpawnDenied);
    var xs, w1 := Next(f, w, i, cfg, t, PortGiven(0));
    var ys, w2 := Next(f, w1, i, cfg, t1, SpawnDenied);
    LeadsOn(f, w, xs, w1, ys, w2, i);
    if t.attempt == Length(cfg) {
      acts, w' := xs + ys, w2;
      AtFailed(f, w2, i, t2);
    } else {
      var zs, w3 := Next(f, w2, i, cfg, t2, Timer);
      LeadsOn(f, w, xs + ys, w2, zs, w3, i);
      var us;
      us, w' := DenyAll(f, w3, i, cfg, Feed(cfg, t2, Timer));
      LeadsOn(f, w, xs + ys + zs, w3, us, w', i);
      acts := xs + ys + zs + us;
    }
  }

  lemma {:induction false} AtFailed(f: Fleet, w: World, i: nat, t: Task)
    requires At(f, w, i, t) && t.loc.Outer? && HasFailed(Published(t.hist))
    ensures OrderKnown(f, w) && HasFailed(PublishedBy(w, f.order[i])) && Down(w, f.order[i])
    ensures ViewAt(f, w, f.order[i]).seen == ViewOf(f.handles[f.order[i]], t.hist).seen
  {
    assert HasFailed(Published(FRESH.hist)) ==> false;
    hide HasFailed, Published;
  }

  /** n has been started and is back in its outer loop. */
  predicate Down(w: World, n: Name) {
    n in w.sups && AtRest(w, n) && w.sups[n].task.loc.Outer? && w.sups[n].task != FRESH
  }

  /** One denied spawn: on to the next attempt, or to Failed after the last. */
  lemma {:induction false} DenyOnce(cfg: Config, t: Task)
    requires t.loc.Spawning? && t.attempt <= Length(cfg)
    ensures Accepts(cfg, t.loc, PortGiven(0))
    ensures
      var t1 := Feed(cfg, t, PortGiven(0));
      && Accepts(cfg, t1.loc, SpawnDenied)
      && var t2 := Feed(cfg, t1, SpawnDenied);
         if t.attempt == Length(cfg) then t2.loc.Outer? && HasFailed(Published(t2.hist)) && ViewOf(cfg, t2.hist).seen.Failed?
         else Accepts(cfg, t2.loc, Timer) && Feed(cfg, t2, Timer).loc.Spawning? && Feed(cfg, t2, Timer).attempt == t.attempt + 1
  {
    hide ViewOf, Discipline, Then, Say, Published, HasFailed;
    SaidFailed(cfg, Feed(cfg, t, PortGiven(0)).hist, SpawnError);
  }

  lemma {:induction false} SaidFailed(cfg: Config, h: History, why: Reason)
    ensures HasFailed(Published(Say(cfg, h, Failed(why)))) && ViewOf(cfg, Say(cfg, h, Failed(why))).seen == Failed(why)
  {
    assert Published(Say(cfg, h, Failed(why))) == Published(h) + [Failed(why)];
    assert Failed(why) in Published(h) + [Failed(why)];
  }

  lemma {:induction false} LetFail(f: Fleet, w: World, i: nat) returns (acts: seq<Action>, w': World)
    requires OrderKnown(f, w) && i < |f.order| && i !in w.callers && !w.dropped && Untouched(w, f.order[i])
    requires forall d :: d in f.handles[f.order[i]].dependsOn ==> ShowsHealthy(f, w, d)
    ensures Leads(f, w, acts, w', i) && OrderKnown(f, w') && HasFailed(PublishedBy(w', f.order[i]))
  {
    var cfg := f.handles[f.order[i]];
    FeedFirst(cfg, StartOf(f, i));
    hide ShowsHealthy, Leads, Feed, HasFailed, Untouched, StartOf, PublishedBy;
    var xs, w1 := StartOne(f, w, i);
    var t := Feed(cfg, FRESH, Cmd(StartOf(f, i)));
    assert At(f, w1, i, t);
    hide At;
    var ys;
    ys, w' := DenyAll(f, w1, i, cfg, t);
    acts := xs + ys;
    LeadsOn(f, w, xs, w1, ys, w', i);
  }

  // ---------------------------------------------------------------------------------------
  // Everything needed is up, and one sidecar fails
  // ---------------------------------------------------------------------------------------

  /** Of the first m sidecars those in `up` show Healthy; nothing else was touched. */
  ghost predicate Stage(f: Fleet, w: World, up: set<Name>, m: nat) {
    && OrderKnown(f, w) && !w.dropped && m <= |f.order|
    && (forall i :: 0 <= i < m && f.order[i] in up ==> ShowsHealthy(f, w, f.order[i]))
    && forall i :: 0 <= i < |f.order| && !(i < m && f.order[i] in up) ==> i !in w.callers && Untouched(w, f.order[i])
  }

  lemma {:induction false} StageGoesOn(f: Fleet, w: World, w': World, up: set<Name>, m: nat)
    requires Stage(f, w, up, m) && m < |f.order| && f.order[m] in up
    requires Elsewhere(f, w, w', m) && ShowsHealthy(f, w', f.order[m])
    ensures Stage(f, w', up, m + 1)
  {
    hide ViewAt, Untouched, ShowsHealthy;
    forall i | 0 <= i < m && f.order[i] in up ensures ShowsHealthy(f, w', f.order[i]) {
      assert f.order[i] != f.order[m];
      ShownElsewhere(f, w, w', m, f.order[i]);
    }
    forall i | 0 <= i < |f.order| && !(i < m + 1 && f.order[i] in up) ensures i !in w'.callers && Untouched(w', f.order[i]) {
      assert f.order[i] != f.order[m];
      UntouchedElsewhere(f, w, w', m, f.order[i]);
    }
  }

  lemma {:induction false} ShownElsewhere(f: Fleet, w: World, w': World, i: nat, n: Name)
    requires Elsewhere(f, w, w', i) && n in f.handles && n != f.order[i] && ShowsHealthy(f, w, n)
    ensures ShowsHealthy(f, w', n)
  {
    SameView(f, w, w', n);
    hide ViewAt;
  }

  lemma {:induction false} UntouchedElsewhere(f: Fleet, w: World, w': World, i: nat, n: Name)
    requires Elsewhere(f, w, w', i) && n in f.handles && n != f.order[i] && Untouched(w, n)
    ensures Untouched(w', n)
  {
  }

  /** The dependencies of a sidecar in `up` come before it and are in `up`. */
  ghost predicate Grown(f: Fleet, up: set<Name>) {
    forall n, d :: n in up && n in f.handles && d in f.handles[n].dependsOn ==> d in up
  }

  lemma {:induction false} DependenciesShow(f: Fleet, w: World, up: set<Name>, m: nat, i: nat)
    requires ValidFleet(f) && Stage(f, w, up, m) && i < |f.order|
    requires f.order[i] in f.handles && forall d :: d in f.handles[f.order[i]].dependsOn ==> d in up
    requires i <= m || m == |f.order|
    ensures forall d :: d in f.handles[f.order[i]].dependsOn ==> ShowsHealthy(f, w, d)
  {
    hide ValidFleet, ShowsHealthy, Untouched;
    forall d | d in f.handles[f.order[i]].dependsOn ensures ShowsHealthy(f, w, d) {
      DependencyKnown(f, f.order[i], d);
      var j := IndexOf(f.order, d);
      assert f.order[IndexOf(f.order, f.order[i])] == f.order[i];
      assert j < m && f.order[j] in up;
    }
  }

  lemma {:induction false} BringUpAll(f: Fleet, up: set<Name>, m: nat) returns (acts: seq<Action>)
    requires ValidFleet(f) && Grown(f, up) && m <= |f.order|
    requires forall n :: n in up && n in f.handles ==> Probeable(f.handles[n])
    ensures Legal(f, Boot(f), acts) && AllPlain(f, acts) && Stage(f, Outcome(f, Boot(f), acts), up, m)
  {
    if m == 0 {
      acts := [];
      StageBegins(f, up);
    } else {
      hide *;
      var first := BringUpAll(f, up, m - 1);
      var w := Outcome(f, Boot(f), first);
      InHandles(f, m - 1);
      if f.order[m - 1] in up {
        var more := BringUpNext(f, w, up, m - 1);
        LegalConcat(f, Boot(f), first, more);
        PlainConcat(f, first, more);
        acts := first + more;
      } else {
        acts := first;
        StageSkips(f, w, up, m - 1);
      }
    }
  }

  lemma {:induction false} StageBegins(f: Fleet, up: set<Name>)
    requires ValidFleet(f)
    ensures Stage(f, Boot(f), up, 0)
  {
    ValidIsKnown(f, Boot(f));
    hide ValidFleet;
  }

  lemma {:induction false} BringUpNext(f: Fleet, w: World, up: set<Name>, m: nat) returns (acts: seq<Action>)
    requires ValidFleet(f) && Grown(f, up) && m < |f.order| && f.order[m] in up && f.order[m] in f.handles
    requires Stage(f, w, up, m) && Probeable(f.handles[f.order[m]])
    ensures Legal(f, w, acts) && AllPlain(f, acts) && Stage(f, Outcome(f, w, acts), up, m + 1)
  {
    hide ValidFleet, Legal, Probeable, ShowsHealthy, AllPlain, Elsewhere, Untouched, Stage;
    StageKnown(f, w, up, m);
    DependenciesShow(f, w, up, m, m);
    var w';
    acts, w' := BringUp(f, w, m);
    StageGoesOn(f, w, w', up, m);
  }

  lemma {:induction false} StageKnown(f: Fleet, w: World, up: set<Name>, m: nat)
    requires Stage(f, w, up, m)
    ensures OrderKnown(f, w) && !w.dropped
    ensures m < |f.order| ==> m !in w.callers && Untouched(w, f.order[m])
    ensures forall i :: 0 <= i < |f.order| && f.order[i] !in up ==> i !in w.callers && Untouched(w, f.order[i])
    ensures m == |f.order| ==> forall i :: 0 <= i < |f.order| && f.order[i] in up ==> ShowsHealthy(f, w, f.order[i])
  {
    hide ShowsHealthy;
  }

  lemma {:induction false} StageSkips(f: Fleet, w: World, up: set<Name>, m: nat)
    requires Stage(f, w, up, m) && m < |f.order| && f.order[m] !in up
    ensures Stage(f, w, up, m + 1)
  {
    hide ShowsHealthy, Untouched;
  }

  lemma {:induction false} InHandles(f: Fleet, i: nat)
    requires ValidFleet(f) && i < |f.order|
    ensures f.order[i] in f.handles
  {
    assert f.order[i] in f.order;
  }
}
