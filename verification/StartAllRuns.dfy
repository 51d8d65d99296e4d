/**
 Runs in which the manager is asked for one start_all and for nothing else. Whatever the operating
 system does, each waiter and its sidecar go hand in hand.
 */
module StartAllRuns {
  import opened Domain
  import opened Lifecycle
  import opened LifecycleTheorems
  import opened Extension
  import opened Reactions
  import opened Graph
  import opened Fleet
  import opened FleetInvariants
  import opened FleetRuns

  /** The i-th waiter is the one for the i-th name of the start order. */
  function WaiterOf(f: Fleet, i: nat): seq<Op>
    requires i < |f.order| && f.order[i] in f.handles
  {
    WaiterProgram(f.handles[f.order[i]])
  }

  /** The only command the i-th sidecar is ever sent. */
  function StartOf(f: Fleet, i: nat): Command
    requires i < |f.order| && f.order[i] in f.handles
  {
    Command(Start, i, |f.handles[f.order[i]].dependsOn|)
  }

  /**
   The manager is kept, and does nothing but spawn the waiters, each at most once; anything else may
   happen.
   */
  predicate OnlyWaiters(f: Fleet, a: Action) {
    && !a.Cancel? && !a.DropManager?
    && (a.Call? ==> a.id < |f.order| && f.order[a.id] in f.handles && a.prog == WaiterOf(f, a.id))
  }

  ghost predicate AllOnlyWaiters(f: Fleet, acts: seq<Action>) {
    forall a :: a in acts ==> OnlyWaiters(f, a)
  }

  predicate Untouched(w: World, n: Name)
    requires n in w.sups && n in w.queues
  {
    w.sups[n] == Sup(FRESH, Empty) && w.queues[n] == []
  }

  /** The i-th sidecar has consumed its Start, and nothing else. */
  predicate Begun(f: Fleet, w: World, i: nat)
    requires i < |f.order| && f.order[i] in f.handles && f.order[i] in w.sups && f.order[i] in w.queues
  {
    var n := f.order[i];
    && w.queues[n] == [] && w.sups[n].done != Empty
    && ConsumedIn(w.sups[n].task.hist) == [StartOf(f, i)] && !w.sups[n].task.loc.Ended?
  }

  /** Until its waiter has posted, a sidecar is untouched; a waiter that gave up never posted. */
  predicate WaiterOk(f: Fleet, w: World, i: nat)
    requires i < |f.order| && f.order[i] in f.handles && f.order[i] in w.sups && f.order[i] in w.queues
  {
    var n := f.order[i];
    if i !in w.callers then Untouched(w, n)
    else
      var c, posts := w.callers[i], |f.handles[n].dependsOn|;
      && c.prog == WaiterOf(f, i) && c.pc <= posts + 1
      && (c.sent ==> c.pc == posts)
      && (c.gone ==> c.pc < posts)
      && if c.pc <= posts && !c.sent then Untouched(w, n)
         else Begun(f, w, i) || (c.sent && w.sups[n] == Sup(FRESH, Empty) && w.queues[n] == [StartOf(f, i)])
  }

  ghost predicate OrderKnown(f: Fleet, w: World) {
    && Registered(f, w)
    && Distinct(f.order)
    && (forall n :: n in f.order <==> n in f.handles)
    && (forall n :: n in f.handles ==> f.handles[n].name == n)
  }

  ghost predicate WaitersOk(f: Fleet, w: World)
    requires OrderKnown(f, w)
  {
    && !w.dropped
    && (forall id :: id in w.callers ==> id < |f.order|)
    && forall i :: 0 <= i < |f.order| ==> WaiterOk(f, w, i)
  }

  lemma {:induction false} ValidIsKnown(f: Fleet, w: World)
    requires ValidFleet(f) && Registered(f, w)
    ensures OrderKnown(f, w)
  {
  }

  lemma {:induction false} WaiterIs(f: Fleet, w: World, i: nat)
    requires OrderKnown(f, w) && i < |f.order|
    requires WaitersOk(f, w)
    ensures WaiterOk(f, w, i)
  {
  }

  lemma {:induction false} BootWaiters(f: Fleet)
    requires OrderKnown(f, Boot(f))
    ensures WaitersOk(f, Boot(f))
  {
  }

  // ---------------------------------------------------------------------------------------
  // Every action keeps it
  // ---------------------------------------------------------------------------------------

  /** A step on the i-th waiter or sidecar only. */
  lemma {:induction false} OthersStayOk(f: Fleet, w: World, w': World, i: nat)
    requires OrderKnown(f, w) && OrderKnown(f, w') && i < |f.order|
    requires WaitersOk(f, w) && !w'.dropped
    requires forall id :: id in w'.callers && id != i ==> id in w.callers && w'.callers[id] == w.callers[id]
    requires forall id :: id in w.callers ==> id in w'.callers
    requires forall n :: n in f.handles && n != f.order[i] ==> w'.sups[n] == w.sups[n] && w'.queues[n] == w.queues[n]
    requires WaiterOk(f, w', i)
    ensures WaitersOk(f, w')
  {
    forall j | 0 <= j < |f.order| ensures WaiterOk(f, w', j) {
      if j != i {
        assert WaiterOk(f, w, j);
        assert f.order[j] != f.order[i];
        hide ConsumedIn;
      }
    }
  }

  /** The operation a waiter is at. */
  lemma {:induction false} OpOf(f: Fleet, w: World, id: nat)
    requires OrderKnown(f, w) && Active(w, id)
    requires WaitersOk(f, w)
    ensures id < |f.order| && WaiterOk(f, w, id)
    ensures
      var c, deps := w.callers[id], f.handles[f.order[id]].dependsOn;
      && c.pc <= |deps|
      && CurrentOp(w, id) == if c.pc < |deps| then AwaitHealthy(deps[c.pc]) else Post(f.order[id], Start)
  {
    assert WaiterOk(f, w, id);
    hide Untouched, Begun;
    assert f.handles[f.order[id]].name == f.order[id];
  }

  lemma {:induction false} CallerStays(f: Fleet, w: World, id: nat, c: Caller)
    requires OrderKnown(f, w) && id < |f.order|
    requires WaitersOk(f, w)
    requires WaiterOk(f, StepCaller(w, id, c), id)
    ensures OrderKnown(f, StepCaller(w, id, c)) && WaitersOk(f, StepCaller(w, id, c))
  {
    assert !w.dropped;
    hide WaiterOk, WaitersOk;
    OthersStayOk(f, w, StepCaller(w, id, c), id);
  }

  lemma {:induction false} NotReturned(f: Fleet, w: World, n: Name)
    requires OrderKnown(f, w) && n in f.handles
    requires WaitersOk(f, w)
    ensures !HasReturned(w, n)
  {
    WaiterIs(f, w, IndexOf(f.order, n));
  }

  lemma {:induction false} DeliverStays(f: Fleet, w: World, id: nat)
    requires OrderKnown(f, w) && Enabled(f, w, Deliver(id))
    requires WaitersOk(f, w)
    ensures OrderKnown(f, Apply(f, w, Deliver(id))) && WaitersOk(f, Apply(f, w, Deliver(id)))
  {
    assert !w.dropped;
    OpOf(f, w, id);
    NotReturned(f, w, f.order[id]);
    hide WaitersOk, ViewAt, MayReact, Reacted, PerformNext, HasReturned, WaiterOf, IsProgram;
    var n, c := f.order[id], w.callers[id].(sent := true);
    assert CurrentCommand(w, id) == StartOf(f, id);
    var w' := Apply(f, w, Deliver(id));
    assert w' == w.(callers := w.callers[id := c], queues := w.queues[n := w.queues[n] + [StartOf(f, id)]]);
    hide Apply, Enabled, Begun;
    assert w'.queues[n] == [StartOf(f, id)];
    OthersStayOk(f, w, w', id);
  }

  lemma {:induction false} NoEventsYet(trace: Trace, n: Name, e: Effect)
    requires Event(n, e) in trace
    ensures HistoryIn(trace, n) != Empty
  {
    var before, last := trace[..|trace| - 1], trace[|trace| - 1];
    assert trace == before + [last];
    TraceGrows(before, last, n);
    if last.name != n {
      NoEventsYet(before, n, e);
    }
  }

  /** An acknowledgement means that the supervisor has begun. */
  lemma {:induction false} AckMeansBegun(f: Fleet, w: World, n: Name, c: Command)
    requires Registered(f, w) && n in f.handles
    requires Inv(f, w) && Event(n, Acked(c)) in w.trace
    ensures w.sups[n].done != Empty
  {
    hide Inv, SupsOk, Discipline;
    InvParts(f, w);
    DoneDisciplined(f, w, n);
    NoEventsYet(w.trace, n, Acked(c));
  }

  lemma {:induction false} ResumeStays(f: Fleet, w: World, id: nat)
    requires OrderKnown(f, w) && Enabled(f, w, Resume(id))
    requires WaitersOk(f, w) && Inv(f, w)
    ensures OrderKnown(f, Apply(f, w, Resume(id))) && WaitersOk(f, Apply(f, w, Resume(id)))
  {
    OpOf(f, w, id);
    ResumedHasBegun(f, w, id);
    var c := w.callers[id].(pc := w.callers[id].pc + 1, sent := false);
    hide WaitersOk, Inv, ViewAt, MayReact, Reacted, PerformNext, HasReturned, WaiterOf, IsProgram;
    SameBegun(f, w, StepCaller(w, id, c), id);
    hide Begun, Untouched;
    CallerStays(f, w, id, c);
  }

  lemma {:induction false} ResumedHasBegun(f: Fleet, w: World, id: nat)
    requires OrderKnown(f, w) && Enabled(f, w, Resume(id))
    requires WaitersOk(f, w) && Inv(f, w)
    ensures id < |f.order| && Begun(f, w, id)
  {
    OpOf(f, w, id);
    NotReturned(f, w, f.order[id]);
    hide WaitersOk, Inv, ViewAt, MayReact, Reacted, PerformNext, HasReturned, WaiterOf, IsProgram, ConsumedIn;
    AckMeansBegun(f, w, f.order[id], CurrentCommand(w, id));
  }

  lemma {:induction false} SameBegun(f: Fleet, w: World, w': World, i: nat)
    requires i < |f.order| && f.order[i] in f.handles && f.order[i] in w.sups && f.order[i] in w.queues
    requires Begun(f, w, i) && w'.sups == w.sups && w'.queues == w.queues
    ensures Begun(f, w', i)
  {
  }

  predicate IsCallers(a: Action) {
    a.Call? || a.Deliver? || a.Resume? || a.Observe? || a.Abandon?
  }

  /** What a waiter does itself. */
  lemma {:induction false} WaiterActs(f: Fleet, w: World, a: Action)
    requires OrderKnown(f, w) && Enabled(f, w, a) && IsCallers(a) && OnlyWaiters(f, a)
    requires WaitersOk(f, w) && Inv(f, w)
    ensures OrderKnown(f, Apply(f, w, a)) && WaitersOk(f, Apply(f, w, a))
  {
    hide WaitersOk, Inv, ViewAt, HasReturned, MayReact, Reacted, PerformNext, WaiterOf, IsProgram, Begun;
    if a.Call? {
      WaiterIs(f, w, a.id);
      CallerStays(f, w, a.id, Caller(a.prog, 0, false, false));
    } else if a.Deliver? {
      DeliverStays(f, w, a.id);
    } else if a.Resume? {
      ResumeStays(f, w, a.id);
    } else {
      OpOf(f, w, a.id);
      CallerStays(f, w, a.id, Apply(f, w, a).callers[a.id]);
    }
  }

  /** A sidecar that has begun goes on. */
  lemma {:induction false} SupActs(f: Fleet, w: World, w': World, n: Name)
    requires OrderKnown(f, w) && OrderKnown(f, w') && n in f.handles
    requires WaitersOk(f, w) && w'.callers == w.callers && !w'.dropped && !Untouched(w, n)
    requires forall m :: m in f.handles && m != n ==> w'.sups[m] == w.sups[m] && w'.queues[m] == w.queues[m]
    requires Begun(f, w', IndexOf(f.order, n))
    ensures WaitersOk(f, w')
  {
    var i := IndexOf(f.order, n);
    WaiterIs(f, w, i);
    hide WaitersOk, Untouched, Begun;
    assert WaiterOk(f, w', i);
    OthersStayOk(f, w, w', i);
  }

  lemma {:induction false} PerformStays(f: Fleet, w: World, n: Name)
    requires OrderKnown(f, w) && Enabled(f, w, Perform(n))
    requires WaitersOk(f, w)
    ensures OrderKnown(f, Apply(f, w, Perform(n))) && WaitersOk(f, Apply(f, w, Perform(n)))
  {
    assert !w.dropped;
    WaiterIs(f, w, IndexOf(f.order, n));
    PerformFields(f, w, n);
    hide WaitersOk, Apply, ConsumedIn, NextEffect, Prefix, Affect;
    assert Begun(f, w, IndexOf(f.order, n));
    SupActs(f, w, Apply(f, w, Perform(n)), n);
  }

  /** An input other than a command ends no task, unless the channel is closed. */
  lemma {:induction false} FeedGoesOn(cfg: Config, t: Task, i: Input)
    requires Accepts(cfg, t.loc, i) && !i.Cmd? && !i.Closed? && !t.loc.Ended?
    ensures !Feed(cfg, t, i).loc.Ended?
    ensures ConsumedIn(Feed(cfg, t, i).hist) == ConsumedIn(t.hist)
  {
    FeedConsumes(cfg, t, i);
    hide Then, Say, ClearEntry, StopChild, Take, ConsumedIn;
  }

  lemma {:induction false} FeedFirst(cfg: Config, c: Command)
    requires c.kind.Start?
    ensures Accepts(cfg, FRESH.loc, Cmd(c))
    ensures var t := Feed(cfg, FRESH, Cmd(c)); t.loc.Spawning? && t.attempt == 0 && ConsumedIn(t.hist) == [c]
  {
    FeedConsumes(cfg, FRESH, Cmd(c));
    hide Then, Say, Take, ConsumedIn;
    assert ConsumedIn(Empty) == [] && [] + [c] == [c];
  }

  /** The task and the input of a reaction: either the first Start, or no command at all. */
  lemma {:induction false} InputIs(f: Fleet, w: World, n: Name, i: Input)
    requires OrderKnown(f, w) && MayReact(f, w, n, i)
    requires WaitersOk(f, w)
    ensures !i.Closed? && !Untouched(w, n)
    ensures
      var k := IndexOf(f.order, n);
      if i.Cmd? then w.sups[n] == Sup(FRESH, Empty) && w.queues[n] == [StartOf(f, k)] && i == Cmd(StartOf(f, k))
      else Begun(f, w, k)
  {
    WaiterIs(f, w, IndexOf(f.order, n));
    hide ConsumedIn;
  }

  lemma {:induction false} BegunAfter(f: Fleet, w: World, n: Name, i: Input, image: Option<string>)
    requires OrderKnown(f, w) && MayReact(f, w, n, i)
    requires WaitersOk(f, w)
    ensures OrderKnown(f, Reacted(f, w, n, i, image)) && Begun(f, Reacted(f, w, n, i, image), IndexOf(f.order, n))
  {
    hide WaitersOk, Feed, Reacted, StartsWith, NoSenders, Affect, ConsumedIn, Accepts;
    var k := IndexOf(f.order, n);
    var e := ReactFields(f, w, n, i, image);
    InputIs(f, w, n, i);
    if i.Cmd? {
      FeedFirst(f.handles[n], StartOf(f, k));
    } else {
      FeedGoesOn(f.handles[n], w.sups[n].task, i);
    }
  }

  lemma {:induction false} ReactStays(f: Fleet, w: World, n: Name, i: Input, image: Option<string>)
    requires OrderKnown(f, w) && MayReact(f, w, n, i)
    requires WaitersOk(f, w)
    ensures OrderKnown(f, Reacted(f, w, n, i, image)) && WaitersOk(f, Reacted(f, w, n, i, image))
  {
    assert !w.dropped;
    hide WaitersOk, Feed, Reacted, StartsWith, Accepts, NoSenders, Affect, ConsumedIn;
    var k := IndexOf(f.order, n);
    InputIs(f, w, n, i);
    BegunAfter(f, w, n, i, image);
    ReactTouches(f, w, n, i, image);
    hide MayReact, Begun, Untouched;
    SupActs(f, w, Reacted(f, w, n, i, image), n);
  }

  /** A reaction touches one sidecar and no call. */
  lemma {:induction false} ReactTouches(f: Fleet, w: World, n: Name, i: Input, image: Option<string>)
    requires Registered(f, w) && MayReact(f, w, n, i)
    ensures
      var w' := Reacted(f, w, n, i, image);
      && w'.callers == w.callers && w'.dropped == w.dropped
      && forall m :: m in f.handles && m != n ==> w'.sups[m] == w.sups[m] && w'.queues[m] == w.queues[m]
  {
    hide Feed, Reacted, Accepts, NoSenders, Affect, StartsWith;
    var e := ReactFields(f, w, n, i, image);
    hide MayReact;
  }

  lemma {:induction false} DieStays(f: Fleet, w: World, pid: nat)
    requires OrderKnown(f, w)
    requires WaitersOk(f, w)
    ensures OrderKnown(f, w.(live := w.live - {pid})) && WaitersOk(f, w.(live := w.live - {pid}))
  {
    var w' := w.(live := w.live - {pid});
    forall i | 0 <= i < |f.order| ensures WaiterOk(f, w', i) {
      assert WaiterOk(f, w, i);
    }
  }

  lemma {:induction false} StepWaiters(f: Fleet, w: World, a: Action)
    requires OrderKnown(f, w) && Enabled(f, w, a) && OnlyWaiters(f, a)
    requires WaitersOk(f, w) && Inv(f, w)
    ensures OrderKnown(f, Apply(f, w, a)) && WaitersOk(f, Apply(f, w, a))
  {
    hide WaitersOk, Inv, Reacted, PerformNext, ViewAt, MayReact;
    if a.React? {
      ReactStays(f, w, a.name, a.input, a.image);
    } else if a.Perform? {
      PerformStays(f, w, a.name);
    } else if a.Die? {
      DieStays(f, w, a.pid);
    } else {
      WaiterActs(f, w, a);
    }
  }

  // ---------------------------------------------------------------------------------------
  // What happened stays
  // ---------------------------------------------------------------------------------------

  lemma {:induction false} PublishedAfter(h: History, e: Effect)
    ensures Published(h) <= Published(After(h, e))
  {
  }

  /** What n has published so far. */
  function PublishedBy(w: World, n: Name): seq<State>
    requires n in w.sups
  {
    Published(w.sups[n].done)
  }

  /** w' comes after w: what is published stays, a waiter that gave up does nothing more. */
  ghost predicate Later(w: World, w': World) {
    && (forall n :: n in w.sups ==> n in w'.sups && PublishedBy(w, n) <= PublishedBy(w', n))
    && forall i :: i in w.callers ==>
         i in w'.callers && (w.callers[i].gone ==> w'.callers[i] == w.callers[i])
  }

  lemma {:induction false} StepIsLater(f: Fleet, w: World, a: Action)
    requires Registered(f, w) && Enabled(f, w, a)
    ensures Later(w, Apply(f, w, a))
  {
    hide Reacted, PerformNext, ViewAt, HasReturned, Published, IsProgram, NoSenders, Accepts;
    if a.React? {
      var e := ReactFields(f, w, a.name, a.input, a.image);
      PublishedAfter(w.sups[a.name].done, e);
    } else if a.Perform? {
      PerformFields(f, w, a.name);
      PublishedAfter(w.sups[a.name].done, NextEffect(w.sups[a.name].done, w.sups[a.name].task.hist));
    } else {
      OutsideStep(f, w, a);
      OutsideCallers(f, w, a);
      hide Apply, Enabled;
    }
  }

  /** A step that is none of a supervisor. */
  lemma {:induction false} OutsideStep(f: Fleet, w: World, a: Action)
    requires Registered(f, w) && Enabled(f, w, a) && !a.React? && !a.Perform?
    ensures
      var w' := Apply(f, w, a);
      Registered(f, w') && w'.sups == w.sups
  {
    hide ViewAt, HasReturned, IsProgram, MayReact, Reacted, PerformNext;
  }

  /** A waiter that is gone does nothing; it gives up, or is dropped, to be gone. */
  lemma {:induction false} OutsideCallers(f: Fleet, w: World, a: Action)
    requires Registered(f, w) && Enabled(f, w, a) && !a.React? && !a.Perform?
    ensures
      var w' := Apply(f, w, a);
      && (forall i :: i in w.callers ==> i in w'.callers && (w.callers[i].gone ==> w'.callers[i] == w.callers[i]))
      && forall i :: i in w'.callers && w'.callers[i].gone ==>
           i in w.callers && w'.callers[i].pc == w.callers[i].pc && (w.callers[i].gone || a == Abandon(i) || a == Cancel(i))
  {
    hide ViewAt, HasReturned, IsProgram, MayReact, Reacted, PerformNext;
  }

  lemma {:induction false} LaterStill(a: World, b: World, c: World)
    requires Later(a, b) && Later(b, c)
    ensures Later(a, c)
  {
    hide PublishedBy;
  }

  /** The dependency at which waiter i is has published Failed. */
  ghost predicate AwaitsFailed(f: Fleet, w: World, i: nat)
    requires OrderKnown(f, w)
  {
    && i < |f.order| && i in w.callers
    && var pc, deps := w.callers[i].pc, f.handles[f.order[i]].dependsOn;
       pc < |deps| && deps[pc] in f.handles && HasFailed(PublishedBy(w, deps[pc]))
  }

  /** A waiter gives up only on a dependency that has published Failed. */
  ghost predicate GoneOk(f: Fleet, w: World)
    requires OrderKnown(f, w)
  {
    forall i :: i in w.callers && w.callers[i].gone ==> AwaitsFailed(f, w, i)
  }

  /** Every state on the watch channel was published. */
  lemma {:induction false} SeenIsPublished(cfg: Config, h: History)
    requires Discipline(cfg, h)
    ensures var v := ViewOf(cfg, h); v.published.Idle? || v.published in Published(h)
    ensures var v := ViewOf(cfg, h); v.seen.Idle? || v.seen in Published(h)
  {
    hide See, Allowed;
    if h.After? {
      SeenIsPublished(cfg, h.before);
      SentIsPublished(cfg, ViewOf(cfg, h.before), h.effect);
    } else {
      assert BLANK.published.Idle? && BLANK.seen.Idle?;
    }
  }

  lemma {:induction false} FailedStays(w: World, w': World, n: Name)
    requires n in w.sups && Later(w, w') && HasFailed(PublishedBy(w, n))
    ensures n in w'.sups && HasFailed(PublishedBy(w', n))
  {
    hide PublishedBy;
    var st :| st in PublishedBy(w, n) && st.Failed?;
    assert st in PublishedBy(w', n);
  }

  lemma {:induction false} AbandonsFailed(f: Fleet, w: World, id: nat)
    requires OrderKnown(f, w) && Enabled(f, w, Abandon(id))
    requires WaitersOk(f, w) && Inv(f, w)
    ensures AwaitsFailed(f, w, id)
  {
    OpOf(f, w, id);
    var d := CurrentOp(w, id).dep;
    NotReturned(f, w, d);
    hide Inv, SupsOk, Discipline, ViewOf, WaitersOk, WaiterOk, HasReturned, MayReact, IsProgram;
    InvParts(f, w);
    DoneDisciplined(f, w, d);
    SeenIsPublished(f.handles[d], w.sups[d].done);
  }

  lemma {:induction false} StepGone(f: Fleet, w: World, a: Action)
    requires OrderKnown(f, w) && Enabled(f, w, a) && OnlyWaiters(f, a) && OrderKnown(f, Apply(f, w, a))
    requires WaitersOk(f, w) && Inv(f, w) && GoneOk(f, w)
    ensures GoneOk(f, Apply(f, w, a))
  {
    hide Apply, Enabled, Inv, WaitersOk, HasFailed, PublishedBy, GoneOk, Later, OnlyWaiters;
    StepIsLater(f, w, a);
    NewlyGone(f, w, a);
    if a.Abandon? {
      AbandonsFailed(f, w, a.id);
    }
    GoneForAReason(f, w, Apply(f, w, a), a);
  }

  lemma {:induction false} GoneForAReason(f: Fleet, w: World, w': World, a: Action)
    requires OrderKnown(f, w) && OrderKnown(f, w') && Later(w, w')
    requires GoneOk(f, w)
    requires forall i :: i in w'.callers && w'.callers[i].gone ==>
      i in w.callers && w'.callers[i].pc == w.callers[i].pc && (w.callers[i].gone || a == Abandon(i))
    requires a.Abandon? ==> AwaitsFailed(f, w, a.id)
    ensures GoneOk(f, w')
  {
    hide HasFailed, PublishedBy, Later;
    forall i | i in w'.callers && w'.callers[i].gone ensures AwaitsFailed(f, w', i) {
      FailedStays(w, w', f.handles[f.order[i]].dependsOn[w'.callers[i].pc]);
    }
  }

  /** Whoever is gone was gone before, or gives up right now. */
  lemma {:induction false} NewlyGone(f: Fleet, w: World, a: Action)
    requires Registered(f, w) && Enabled(f, w, a) && OnlyWaiters(f, a)
    ensures
      var w' := Apply(f, w, a);
      forall i :: i in w'.callers && w'.callers[i].gone ==>
        i in w.callers && w'.callers[i].pc == w.callers[i].pc && (w.callers[i].gone || a == Abandon(i))
  {
    if a.React? || a.Perform? {
      CallsKept(f, w, a);
    } else {
      OutsideCallers(f, w, a);
    }
    hide Apply, Enabled;
  }

  // ---------------------------------------------------------------------------------------
  // Runs
  // ---------------------------------------------------------------------------------------

  /** Every supervisor in its outer loop is fresh or failed, in its monitor healthy. */
  ghost predicate LandsOk(f: Fleet, w: World)
    requires Registered(f, w)
  {
    forall n :: n in f.handles ==> Lands(w.sups[n].task)
  }

  /** A reaction replaces one task, and touches no waiter. */
  lemma {:induction false} ReactReplaces(f: Fleet, w: World, n: Name, i: Input, image: Option<string>) returns (e: Effect)
    requires Registered(f, w) && MayReact(f, w, n, i)
    ensures n in f.handles && Accepts(f.handles[n], w.sups[n].task.loc, i) && w.sups[n].done == w.sups[n].task.hist
    ensures
      var w' := Reacted(f, w, n, i, image);
      && Registered(f, w') && w'.callers == w.callers
      && w'.sups == w.sups[n := Sup(Feed(f.handles[n], w.sups[n].task, i), After(w.sups[n].done, e))]
    ensures Reacted(f, w, n, i, image).live == Affect(f, Plan(f, w, n, i), n, e, image).live
  {
    hide Feed, Reacted, Accepts, NoSenders, Affect, StartsWith;
    e := ReactFields(f, w, n, i, image);
  }

  lemma {:induction false} LandsExcept(f: Fleet, w: World, w': World, n: Name)
    requires Registered(f, w) && Registered(f, w') && n in f.handles && LandsOk(f, w)
    requires forall m :: m in f.handles && m != n ==> w'.sups[m] == w.sups[m]
    requires Lands(w'.sups[n].task)
    ensures LandsOk(f, w')
  {
    hide Lands;
  }

  lemma {:induction false} FirstLands(cfg: Config, c: Command)
    requires c.kind.Start?
    ensures Lands(Feed(cfg, FRESH, Cmd(c)))
  {
    FeedFirst(cfg, c);
    hide Feed;
  }

  lemma {:induction false} ReactLands(f: Fleet, w: World, n: Name, i: Input, image: Option<string>)
    requires OrderKnown(f, w) && MayReact(f, w, n, i)
    requires WaitersOk(f, w) && LandsOk(f, w)
    ensures Registered(f, Reacted(f, w, n, i, image)) && LandsOk(f, Reacted(f, w, n, i, image))
  {
    hide WaitersOk, LandsOk, Reacted, Feed, Accepts, NoSenders, Affect, StartsWith, Begun, Untouched;
    InputIs(f, w, n, i);
    var e := ReactReplaces(f, w, n, i, image);
    hide MayReact, Lands;
    if i.Cmd? {
      FirstLands(f.handles[n], i.cmd);
    } else {
      FeedLands(f.handles[n], w.sups[n].task, i);
    }
    LandsExcept(f, w, Reacted(f, w, n, i, image), n);
  }

  lemma {:induction false} SameLands(f: Fleet, w: World, w': World)
    requires Registered(f, w) && Registered(f, w') && LandsOk(f, w)
    requires forall n :: n in f.handles ==> w'.sups[n].task == w.sups[n].task
    ensures LandsOk(f, w')
  {
    hide Lands;
  }

  lemma {:induction false} StepLands(f: Fleet, w: World, a: Action)
    requires OrderKnown(f, w) && Enabled(f, w, a)
    requires WaitersOk(f, w) && LandsOk(f, w)
    ensures Registered(f, Apply(f, w, a)) && LandsOk(f, Apply(f, w, a))
  {
    hide WaitersOk, LandsOk, Reacted, PerformNext, ViewAt, NoSenders, Accepts, IsProgram, HasReturned;
    if a.React? {
      ReactLands(f, w, a.name, a.input, a.image);
    } else if a.Perform? {
      PerformFields(f, w, a.name);
      hide Apply, Enabled;
      SameLands(f, w, Apply(f, w, a));
    } else {
      OutsideStep(f, w, a);
      hide Apply, Enabled;
      SameLands(f, w, Apply(f, w, a));
    }
  }

  ghost predicate StartAllInv(f: Fleet, w: World) {
    OrderKnown(f, w) && WaitersOk(f, w) && GoneOk(f, w) && LandsOk(f, w) && Inv(f, w)
  }

  lemma {:induction false} StartAllParts(f: Fleet, w: World)
    requires StartAllInv(f, w)
    ensures OrderKnown(f, w) && WaitersOk(f, w) && GoneOk(f, w) && LandsOk(f, w) && Inv(f, w)
  {
  }

  lemma {:induction false} BootStartAll(f: Fleet)
    requires ValidFleet(f)
    ensures StartAllInv(f, Boot(f))
  {
    ValidIsKnown(f, Boot(f));
    BootWaiters(f);
    BootInv(f);
    hide Inv, WaitersOk;
  }

  lemma {:induction false} StepStartAll(f: Fleet, w: World, a: Action)
    requires StartAllInv(f, w) && Registered(f, w) && Enabled(f, w, a) && OnlyWaiters(f, a)
    ensures StartAllInv(f, Apply(f, w, a)) && Later(w, Apply(f, w, a))
  {
    hide Inv, WaitersOk, GoneOk, LandsOk, Apply, Enabled, Later, OnlyWaiters;
    StepKeeps(f, w, a);
    StepWaiters(f, w, a);
    StepGone(f, w, a);
    StepLands(f, w, a);
    StepIsLater(f, w, a);
  }

  lemma {:induction false} LaterSame(w: World)
    ensures Later(w, w)
  {
  }

  lemma {:induction false} RunStartAll(f: Fleet, w: World, acts: seq<Action>)
    requires StartAllInv(f, w) && AllOnlyWaiters(f, acts) && Legal(f, w, acts)
    ensures StartAllInv(f, Outcome(f, w, acts)) && Later(w, Outcome(f, w, acts))
    decreases |acts|
  {
    hide StartAllInv, Enabled, Apply, Later, OnlyWaiters;
    if acts == [] {
      LaterSame(w);
    } else {
      assert acts[0] in acts;
      StepStartAll(f, w, acts[0]);
      RunStartAll(f, Apply(f, w, acts[0]), acts[1..]);
      LaterStill(w, Apply(f, w, acts[0]), Outcome(f, w, acts));
    }
  }
}
