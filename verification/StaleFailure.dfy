/**
 A failure that a `start` finds left over. `start` asks a dependency to start and then looks at what it
 shows; between the acknowledgement and the next Starting it may still show the Failed of an earlier
 attempt. Here is when this can happen, and that it does.
 */
module StaleFailure {
  import opened Domain
  import opened Lifecycle
  import opened LifecycleProofs
  import opened Graph
  import opened Closure
  import opened Fleet
  import opened FleetInvariants
  import opened FleetRuns
  import opened FleetTheorems
  import opened Extension
  import opened StartAllRuns
  import opened StartAllReturns
  import opened StartAllBuilding

  // ---------------------------------------------------------------------------------------
  // What became of a post
  // ---------------------------------------------------------------------------------------

  /** c was acknowledged by n, or n has returned. */
  predicate Answered(w: World, n: Name, c: Command) {
    Event(n, Acked(c)) in w.trace || (n in w.sups && HasReturned(w, n))
  }

  /** The k-th operation of a call, if it is a post that is completed, was answered. */
  predicate PostAnswered(w: World, id: nat, k: nat) {
    id in w.callers && k < |w.callers[id].prog| && k < w.callers[id].pc && w.callers[id].prog[k].Post? ==>
      Answered(w, w.callers[id].prog[k].target, Command(w.callers[id].prog[k].kind, id, k))
  }

  ghost predicate PostsAnswered(w: World) {
    forall id, k :: PostAnswered(w, id, k)
  }

  /** What happened stays, and whoever has returned stays so. */
  predicate Onward(w: World, w': World) {
    w.trace <= w'.trace && forall n :: n in w.sups && HasReturned(w, n) ==> n in w'.sups && HasReturned(w', n)
  }

  lemma {:induction false} StepIsOnward(f: Fleet, w: World, a: Action)
    requires Registered(f, w) && Enabled(f, w, a)
    ensures Onward(w, Apply(f, w, a))
  {
    hide *;
    if a.React? {
      ReactIsOnward(f, w, a);
    } else if a.Perform? {
      PerformIsOnward(f, w, a);
    } else {
      OutsideIsOnward(f, w, a);
    }
  }

  lemma {:induction false} ReactIsOnward(f: Fleet, w: World, a: Action)
    requires Registered(f, w) && Enabled(f, w, a) && a.React?
    ensures Onward(w, Apply(f, w, a))
  {
    assert !w.sups[a.name].task.loc.Ended?;
    hide Reacted, Affect, Feed, Accepts, NoSenders;
    var e := ReactFields(f, w, a.name, a.input, a.image);
  }

  lemma {:induction false} PerformIsOnward(f: Fleet, w: World, a: Action)
    requires Registered(f, w) && Enabled(f, w, a) && a.Perform?
    ensures Onward(w, Apply(f, w, a))
  {
    PerformFields(f, w, a.name);
    hide Apply, Affect, Prefix, NextEffect;
  }

  lemma {:induction false} OutsideIsOnward(f: Fleet, w: World, a: Action)
    requires Registered(f, w) && Enabled(f, w, a) && !a.React? && !a.Perform?
    ensures Onward(w, Apply(f, w, a))
  {
    hide ViewAt, IsProgram, MayReact, Reacted, PerformNext;
  }

  lemma {:induction false} StillAnswered(w: World, w': World, n: Name, c: Command)
    requires Onward(w, w') && Answered(w, n, c)
    ensures Answered(w', n, c)
  {
    hide HasReturned;
  }

  /** How far the calls come in one step. */
  lemma {:induction false} CallsMove(f: Fleet, w: World, a: Action, id: nat)
    requires Registered(f, w) && Enabled(f, w, a) && id in Apply(f, w, a).callers
    ensures
      var c' := Apply(f, w, a).callers[id];
      if id in w.callers then
        && c'.prog == w.callers[id].prog
        && (c'.pc == w.callers[id].pc || (c'.pc == w.callers[id].pc + 1 && (a == Resume(id) || a == Observe(id))))
      else c'.pc == 0
  {
    if a.React? || a.Perform? {
      CallsKept(f, w, a);
      hide Apply, Enabled;
    } else {
      hide Reacted, PerformNext, ViewAt, IsProgram, MayReact, HasReturned;
    }
  }

  lemma {:induction false} ResumedIsAnswered(f: Fleet, w: World, id: nat)
    requires Registered(f, w) && Enabled(f, w, Resume(id))
    ensures Answered(w, CurrentOp(w, id).target, CurrentCommand(w, id))
  {
    hide HasReturned;
  }

  lemma {:induction false} ObservedIsAwait(f: Fleet, w: World, id: nat)
    requires Registered(f, w) && Enabled(f, w, Observe(id))
    ensures Active(w, id) && CurrentOp(w, id).AwaitHealthy?
  {
    hide ViewAt;
  }

  lemma {:induction false} StepAnswers(f: Fleet, w: World, a: Action)
    requires Registered(f, w) && Enabled(f, w, a) && PostsAnswered(w)
    ensures PostsAnswered(Apply(f, w, a))
  {
    var w' := Apply(f, w, a);
    forall id, k ensures PostAnswered(w', id, k) {
      PostStaysAnswered(f, w, a, id, k);
    }
  }

  lemma {:induction false} PostStaysAnswered(f: Fleet, w: World, a: Action, id: nat, k: nat)
    requires Registered(f, w) && Enabled(f, w, a) && PostAnswered(w, id, k)
    ensures PostAnswered(Apply(f, w, a), id, k)
  {
    var w' := Apply(f, w, a);
    StepIsOnward(f, w, a);
    hide Enabled, Apply, Onward, Answered;
    if id in w'.callers && k < |w'.callers[id].prog| && k < w'.callers[id].pc && w'.callers[id].prog[k].Post? {
      CallsMove(f, w, a, id);
      var op := w'.callers[id].prog[k];
      if k == w.callers[id].pc {
        if a == Resume(id) {
          ResumedIsAnswered(f, w, id);
          IsCurrent(f, w, id, k);
        } else {
          ObservedIsAwait(f, w, id);
        }
      }
      StillAnswered(w, w', op.target, Command(op.kind, id, k));
    }
  }

  lemma {:induction false} IsCurrent(f: Fleet, w: World, id: nat, k: nat)
    requires Registered(f, w) && Enabled(f, w, Resume(id)) && k == w.callers[id].pc
    ensures
      var op := w.callers[id].prog[k];
      CurrentOp(w, id) == op && CurrentCommand(w, id) == Command(op.kind, id, k)
  {
    hide HasReturned;
  }

  lemma {:induction false} RunAnswers(f: Fleet, w: World, acts: seq<Action>)
    requires Legal(f, w, acts) && PostsAnswered(w)
    ensures PostsAnswered(Outcome(f, w, acts))
    decreases |acts|
  {
    hide PostsAnswered, Enabled, Apply;
    if acts != [] {
      StepAnswers(f, w, acts[0]);
      RunAnswers(f, Apply(f, w, acts[0]), acts[1..]);
    }
  }

  // ---------------------------------------------------------------------------------------
  // What the dependency showed
  // ---------------------------------------------------------------------------------------

  /** After the j-th event n has shown a Failed anew. */
  ghost predicate FailedSince(trace: Trace, n: Name, j: nat) {
    exists k :: j < k < |trace| && trace[k].name == n && trace[k].effect.Sent? && trace[k].effect.state.Failed?
  }

  lemma {:induction false} AckedWasConsumed(cfg: Config, trace: Trace, n: Name, c: Command)
    requires Discipline(cfg, HistoryIn(trace, n))
    requires Event(n, Acked(c)) in trace || ViewOf(cfg, HistoryIn(trace, n)).open == Some(c)
    ensures Event(n, Consumed(c)) in trace
  {
    if trace != [] {
      var before, last := trace[..|trace| - 1], trace[|trace| - 1];
      assert trace == before + [last];
      TraceGrows(before, last, n);
      if last.name == n {
        OpenStep(cfg, ViewOf(cfg, HistoryIn(before, n)), last.effect, c);
      }
      hide See, Allowed;
      if last != Event(n, Consumed(c)) {
        AckedWasConsumed(cfg, before, n, c);
      }
    }
  }

  lemma {:induction false} OpenStep(cfg: Config, v: View, e: Effect, c: Command)
    requires Allowed(cfg, v, e)
    ensures e == Acked(c) ==> v.open == Some(c)
    ensures See(cfg, v, e).open == Some(c) ==> e == Consumed(c) || v.open == Some(c)
  {
  }

  /** An old Failed is visible, and a Starting is owed or about to be shown. */
  predicate Owing(v: View) {
    v.seen.Failed? && ((v.published.Failed? && v.ledger.owed) || v.published.Starting?)
  }

  lemma {:induction false} OwingStep(cfg: Config, v: View, e: Effect)
    requires Allowed(cfg, v, e) && Owing(v) && !e.Sent?
    ensures Owing(See(cfg, v, e))
  {
  }

  lemma {:induction false} ConsumedOwes(cfg: Config, v: View, c: Command)
    requires Allowed(cfg, v, Consumed(c)) && c.kind.Start?
    ensures See(cfg, v, Consumed(c)).seen == v.seen
    ensures v.seen.Failed? ==> Owing(See(cfg, v, Consumed(c)))
  {
  }

  lemma {:induction false} SeenStep(cfg: Config, v: View, e: Effect)
    ensures See(cfg, v, e).seen == if e.Sent? then e.state else v.seen
  {
  }

  /** A Failed that is visible after a Start was consumed is new, or was visible then and is on its way out. */
  lemma {:induction false} NewOrLeftOver(cfg: Config, trace: Trace, n: Name, j: nat, c: Command)
    requires j < |trace| && trace[j] == Event(n, Consumed(c)) && c.kind.Start?
    requires Discipline(cfg, HistoryIn(trace, n)) && ViewOf(cfg, HistoryIn(trace, n)).seen.Failed?
    ensures
      || FailedSince(trace, n, j)
      || (ViewOf(cfg, HistoryIn(trace[..j], n)).seen.Failed? && Owing(ViewOf(cfg, HistoryIn(trace, n))))
    decreases |trace|
  {
    var before, last := trace[..|trace| - 1], trace[|trace| - 1];
    assert trace == before + [last];
    TraceGrows(before, last, n);
    var v := ViewOf(cfg, HistoryIn(before, n));
    SeenStep(cfg, v, last.effect);
    if j == |trace| - 1 {
      assert trace[..j] == before;
      ConsumedOwes(cfg, v, c);
      hide See, Allowed;
    } else if last.name == n && last.effect.Sent? {
      hide See, Allowed;
      assert FailedSince(trace, n, j);
    } else {
      if last.name == n && Owing(v) {
        OwingStep(cfg, v, last.effect);
      }
      hide See, Allowed, Owing;
      assert before[..j] == trace[..j] && before[j] == trace[j];
      NewOrLeftOver(cfg, before, n, j, c);
      if FailedSince(before, n, j) {
        var k :| j < k < |before| && before[k].name == n && before[k].effect.Sent? && before[k].effect.state.Failed?;
        assert trace[k] == before[k];
      }
    }
  }

  // ---------------------------------------------------------------------------------------
  // When a start can fail on a failure left over
  // ---------------------------------------------------------------------------------------

  /** Call id, a `start`, awaits d. */
  ghost predicate StartAwaits(f: Fleet, w: World, id: nat, d: Name) {
    Awaiting(f, w, id) && CurrentOp(w, id) == AwaitHealthy(d) && IsStart(f, w.callers[id].prog)
  }

  /** It has asked d to start just before. */
  lemma {:induction false} AskedBefore(f: Fleet, p: seq<Op>, o: nat, d: Name)
    requires IsStart(f, p) && o < |p| && p[o] == AwaitHealthy(d)
    ensures o > 0 && p[o - 1] == Post(d, Start)
  {
    var name, chain :| name in f.handles && IsChain(HandleGraph(f.handles), name, chain) && p == StartProgram(chain, name);
    ChainShape(HandleGraph(f.handles), name, chain);
    StartProgramAt(chain, name);
    hide IsChain, StartProgram;
    var i := o / 2;
    assert p[2 * i].Post?;
    assert p[2 * i + 1] == AwaitHealthy(chain[i]) && p[2 * i] == Post(chain[i], Start);
  }

  /**
   When a start reads Failed at a dependency, the dependency has consumed the Start of this very call,
   and has shown a new Failed since, unless it showed Failed just as it consumed that Start and has not
   come to show the Starting it owes.
   */
  lemma {:induction false} NewUnlessShown(f: Fleet, acts: seq<Action>, id: nat, d: Name) returns (j: nat)
    requires Legal(f, Boot(f), acts) && StartAwaits(f, Reached(f, acts), id, d)
    requires ViewAt(f, Reached(f, acts), d).seen.Failed? && !HasReturned(Reached(f, acts), d)
    ensures
      var w := Reached(f, acts);
      && w.callers[id].pc > 0 && j < |w.trace|
      && w.trace[j] == Event(d, Consumed(Command(Start, id, w.callers[id].pc - 1)))
      && (FailedSince(w.trace, d, j) || (ViewOf(f.handles[d], HistoryIn(w.trace[..j], d)).seen.Failed? && !AtRest(w, d)))
  {
    var w := Reached(f, acts);
    ReachedInv(f, acts);
    RunAnswers(f, Boot(f), acts);
    hide Reached, Legal, Boot, Inv;
    j := OwnStart(f, w, id, d);
    OnItsWay(f, w, d, j);
  }

  lemma {:induction false} OwnStart(f: Fleet, w: World, id: nat, d: Name) returns (j: nat)
    requires Registered(f, w) && StartAwaits(f, w, id, d) && !HasReturned(w, d)
    requires Inv(f, w) && PostsAnswered(w)
    ensures w.callers[id].pc > 0 && j < |w.trace| && w.trace[j] == Event(d, Consumed(Command(Start, id, w.callers[id].pc - 1)))
  {
    var c := OwnAnswered(f, w, id, d);
    hide *;
    InvParts(f, w);
    DoneDisciplined(f, w, d);
    AckedWasConsumed(f.handles[d], w.trace, d, c);
    j :| 0 <= j < |w.trace| && w.trace[j] == Event(d, Consumed(c));
  }

  lemma {:induction false} OwnAnswered(f: Fleet, w: World, id: nat, d: Name) returns (c: Command)
    requires Registered(f, w) && StartAwaits(f, w, id, d) && !HasReturned(w, d) && PostsAnswered(w)
    ensures id in w.callers && w.callers[id].pc > 0 && c == Command(Start, id, w.callers[id].pc - 1)
    ensures d in f.handles && Event(d, Acked(c)) in w.trace
  {
    var k := w.callers[id].pc;
    AskedBefore(f, w.callers[id].prog, k, d);
    hide IsStart, HasReturned;
    assert PostAnswered(w, id, k - 1);
    c := Command(Start, id, k - 1);
  }

  lemma {:induction false} OnItsWay(f: Fleet, w: World, d: Name, j: nat)
    requires Registered(f, w) && d in f.handles && !HasReturned(w, d) && ViewAt(f, w, d).seen.Failed?
    requires j < |w.trace| && w.trace[j].name == d && w.trace[j].effect.Consumed? && w.trace[j].effect.cmd.kind.Start?
    requires Inv(f, w)
    ensures
      || FailedSince(w.trace, d, j)
      || (ViewOf(f.handles[d], HistoryIn(w.trace[..j], d)).seen.Failed? && !AtRest(w, d))
  {
    hide Inv, SupsOk, Discipline, ViewOf, FailedSince, HistoryIn, Owing;
    InvParts(f, w);
    SupAt(f, w, d);
    DoneDisciplined(f, w, d);
    NewOrLeftOver(f.handles[d], w.trace, d, j, w.trace[j].effect.cmd);
    if AtRest(w, d) && Owing(ViewOf(f.handles[d], HistoryIn(w.trace, d))) {
      NothingOwed(f.handles[d], w.sups[d].task);
    }
  }

  /** A supervisor at rest has shown what it published, and owes nothing. */
  lemma {:induction false} NothingOwed(cfg: Config, t: Task)
    requires TaskInv(cfg, t) && !t.loc.Ended?
    ensures !Owing(ViewOf(cfg, t.hist))
  {
    hide ViewOf, Discipline;
  }

  // ---------------------------------------------------------------------------------------
  // That it does
  // ---------------------------------------------------------------------------------------

  /** d rests and shows Failed; the next command it will see is the Start of call id, which then awaits it. */
  ghost predicate Asked(f: Fleet, w: World, id: nat, d: Name) {
    && Registered(f, w) && d in f.handles && AtRest(w, d) && w.sups[d].task.loc.Outer? && ViewAt(f, w, d).seen.Failed?
    && Active(w, id) && w.callers[id].sent && CurrentOp(w, id) == Post(d, Start)
    && w.callers[id].pc + 1 < |w.callers[id].prog| && w.callers[id].prog[w.callers[id].pc + 1] == AwaitHealthy(d)
    && w.queues[d] != [] && w.queues[d][0] == CurrentCommand(w, id)
  }

  lemma {:induction false} MayTake(f: Fleet, w: World, id: nat, d: Name)
    requires Asked(f, w, id, d)
    ensures
      var c, t := CurrentCommand(w, id), w.sups[d].task;
      && MayReact(f, w, d, Cmd(c)) && c.kind.Start? && t.hist == w.sups[d].done
      && Feed(f.handles[d], t, Cmd(c)) == Go(f.handles[d], 0, t.port, Take(f.handles[d], t.hist, c))
  {
    hide ViewAt, Go, Take;
  }

  /** A reaction to a command consumes it. */
  lemma {:induction false} Consumes(f: Fleet, w: World, d: Name, c: Command)
    requires Registered(f, w) && MayReact(f, w, d, Cmd(c))
    ensures
      var t, w' := w.sups[d].task, Reacted(f, w, d, Cmd(c), None);
      && Registered(f, w') && w'.callers == w.callers && w'.dropped == w.dropped
      && w'.sups == w.sups[d := Sup(Feed(f.handles[d], t, Cmd(c)), After(w.sups[d].done, Consumed(c)))]
      && w'.trace == w.trace + [Event(d, Consumed(c))]
      && w'.queues == w.queues[d := w.queues[d][1..]]
  {
    hide Reacted, Affect, Feed, Accepts, StartsWith;
    var e := ReactFields(f, w, d, Cmd(c), None);
    assert e == Consumed(c);
    hide MayReact;
  }

  /** The actions lead from w to w'. */
  ghost predicate Runs(f: Fleet, w: World, acts: seq<Action>, w': World) {
    Legal(f, w, acts) && Outcome(f, w, acts) == w'
  }

  lemma {:induction false} RunsOne(f: Fleet, w: World, a: Action)
    requires Registered(f, w) && Enabled(f, w, a)
    ensures Runs(f, w, [a], Apply(f, w, a))
  {
    hide Enabled, Apply;
    assert Legal(f, Apply(f, w, a), []);
    assert [a][1..] == [];
    assert Legal(f, w, [a]) && Outcome(f, w, [a]) == Outcome(f, Apply(f, w, a), []);
  }

  lemma {:induction false} RunsOn(f: Fleet, a: World, xs: seq<Action>, b: World, ys: seq<Action>, c: World)
    requires Runs(f, a, xs, b) && Runs(f, b, ys, c)
    ensures Runs(f, a, xs + ys, c)
  {
    hide Legal, Outcome;
    LegalConcat(f, a, xs, ys);
  }

  /** The plan on a Start: acknowledge, then turn to Starting. */
  lemma {:induction false} GoHistory(cfg: Config, t: Task, c: Command)
    requires t.loc.Outer? && c.kind.Start?
    ensures
      var h := Feed(cfg, t, Cmd(c)).hist;
      && Prefix(After(After(t.hist, Consumed(c)), Acked(c)), h)
      && Published(h) == Published(t.hist) + [Starting]
    ensures Feed(cfg, t, Cmd(c)).loc.Spawning?
  {
    var acked := After(After(t.hist, Consumed(c)), Acked(c));
    var said := After(acked, Emitted(Starting));
    assert Feed(cfg, t, Cmd(c)).hist == After(said, Sent(Starting)) by {
      hide ViewOf, Discipline;
    }
    hide Feed;
    OneMore(After(t.hist, Consumed(c)), Acked(c));
    OneMore(t.hist, Consumed(c));
    OneMore(acked, Emitted(Starting));
    OneMore(said, Sent(Starting));
    assert Prefix(acked, After(said, Sent(Starting)));
  }

  lemma {:induction false} OneMore(h: History, e: Effect)
    ensures Prefix(h, After(h, e)) && forall p :: Prefix(p, h) ==> Prefix(p, After(h, e))
    ensures Published(After(h, e)) == Published(h) + if e.Emitted? then [e.state] else []
  {
  }

  /** d has consumed and acknowledged the Start c, and turns to Starting next. */
  ghost predicate JustAcked(f: Fleet, w: World, w': World, d: Name, c: Command) {
    && Registered(f, w) && Registered(f, w') && d in f.handles && w.sups[d].task.loc.Outer?
    && var h := After(After(w.sups[d].task.hist, Consumed(c)), Acked(c));
       && w'.sups == w.sups[d := Sup(Feed(f.handles[d], w.sups[d].task, Cmd(c)), h)]
       && w'.trace == w.trace + [Event(d, Consumed(c)), Event(d, Acked(c))]
  }

  lemma {:induction false} Acks(f: Fleet, w: World, d: Name, c: Command) returns (acts: seq<Action>, w': World)
    requires Registered(f, w) && MayReact(f, w, d, Cmd(c)) && w.sups[d].task.loc.Outer? && c.kind.Start?
    ensures Runs(f, w, acts, w') && JustAcked(f, w, w', d, c) && w'.callers == w.callers
  {
    hide Feed, Runs, Affect, NextEffect, Prefix;
    assert w.sups[d].done == w.sups[d].task.hist;
    GoHistory(f.handles[d], w.sups[d].task, c);
    Consumes(f, w, d, c);
    var w1 := Reacted(f, w, d, Cmd(c), None);
    ReactRuns(f, w, d, c);
    hide MayReact, Reacted;
    var h := After(w.sups[d].task.hist, Consumed(c));
    PerformsNext(f, w1, d, h, Acked(c));
    w' := Apply(f, w1, Perform(d));
    RunsOne(f, w1, Perform(d));
    acts := [React(d, Cmd(c), None)] + [Perform(d)];
    hide Apply, Enabled;
    RunsOn(f, w, [React(d, Cmd(c), None)], w1, [Perform(d)], w');
  }

  lemma {:induction false} ReactRuns(f: Fleet, w: World, d: Name, c: Command)
    requires Registered(f, w) && MayReact(f, w, d, Cmd(c))
    ensures Runs(f, w, [React(d, Cmd(c), None)], Reacted(f, w, d, Cmd(c), None))
  {
    hide MayReact, Reacted, Runs;
    RunsOne(f, w, React(d, Cmd(c), None));
  }

  lemma {:induction false} PerformsNext(f: Fleet, w: World, d: Name, h: History, e: Effect)
    requires Registered(f, w) && d in f.handles && w.sups[d].done == h && Prefix(After(h, e), w.sups[d].task.hist)
    ensures Enabled(f, w, Perform(d))
    ensures
      var w' := Apply(f, w, Perform(d));
      && Registered(f, w') && w'.callers == w.callers && w'.trace == w.trace + [Event(d, e)]
      && w'.sups == w.sups[d := w.sups[d].(done := After(h, e))]
  {
    NextIs(h, e, w.sups[d].task.hist);
    hide Apply, Affect, NextEffect, Prefix;
    PerformFields(f, w, d);
  }

  lemma {:induction false} IsTold(f: Fleet, w: World, w1: World, id: nat, d: Name)
    requires Asked(f, w, id, d) && JustAcked(f, w, w1, d, CurrentCommand(w, id)) && w1.callers == w.callers
    ensures Enabled(f, w1, Resume(id))
    ensures Apply(f, w1, Resume(id)) == StepCaller(w1, id, w.callers[id].(pc := w.callers[id].pc + 1, sent := false))
  {
    hide ViewAt, MayReact, Reacted, PerformNext, HasReturned, IsProgram, Feed;
  }

  lemma {:induction false} Looks(f: Fleet, w: World, id: nat, d: Name)
    requires Registered(f, w) && d in f.handles && ViewAt(f, w, d).seen.Failed?
    requires Active(w, id) && CurrentOp(w, id) == AwaitHealthy(d)
    ensures Enabled(f, w, Abandon(id)) && Apply(f, w, Abandon(id)) == StepCaller(w, id, w.callers[id].(gone := true))
  {
    hide ViewAt, MayReact, Reacted, PerformNext, HasReturned, IsProgram;
  }

  /** The call is told, looks, and gives up. */
  lemma {:induction false} GivesUp(f: Fleet, w: World, w1: World, id: nat, d: Name) returns (w': World)
    requires Asked(f, w, id, d) && JustAcked(f, w, w1, d, CurrentCommand(w, id)) && w1.callers == w.callers
    ensures Runs(f, w1, [Resume(id)] + [Abandon(id)], w')
    ensures w' == StepCaller(w1, id, w.callers[id].(pc := w.callers[id].pc + 1, sent := false, gone := true))
  {
    StillFailed(f, w, w1, id, d);
    IsTold(f, w, w1, id, d);
    hide Runs, ViewAt, Enabled, Apply, JustAcked;
    var w2 := Apply(f, w1, Resume(id));
    SameView(f, w1, w2, d);
    Looks(f, w2, id, d);
    w' := Apply(f, w2, Abandon(id));
    RunsOne(f, w1, Resume(id));
    RunsOne(f, w2, Abandon(id));
    RunsOn(f, w1, [Resume(id)], w2, [Abandon(id)], w');
    assert w'.callers == w1.callers[id := w.callers[id].(pc := w.callers[id].pc + 1, sent := false, gone := true)];
  }

  lemma {:induction false} StillFailed(f: Fleet, w: World, w1: World, id: nat, d: Name)
    requires Asked(f, w, id, d) && JustAcked(f, w, w1, d, CurrentCommand(w, id))
    ensures Registered(f, w1) && d in f.handles && ViewAt(f, w1, d).seen.Failed?
  {
    var cfg, h, c := f.handles[d], w.sups[d].task.hist, CurrentCommand(w, id);
    SeenStep(cfg, ViewOf(cfg, h), Consumed(c));
    SeenStep(cfg, ViewOf(cfg, After(h, Consumed(c))), Acked(c));
    hide Feed, See;
  }

  /** Call id has given up on d. */
  predicate GaveUpOn(w: World, id: nat, d: Name) {
    && id in w.callers && w.callers[id].gone && w.callers[id].pc < |w.callers[id].prog|
    && w.callers[id].prog[w.callers[id].pc] == AwaitHealthy(d)
  }

  /** The rest of d's plan, and success. */
  lemma {:induction false} Recovers(f: Fleet, w: World, i: nat, t: Task) returns (acts: seq<Action>, w': World)
    requires OrderKnown(f, w) && i < |f.order| && Probeable(f.handles[f.order[i]])
    requires w.sups[f.order[i]].task == t && TaskInv(f.handles[f.order[i]], t) && t.loc.Spawning?
    requires Prefix(w.sups[f.order[i]].done, t.hist)
    ensures Runs(f, w, acts, w') && w'.callers == w.callers
    ensures ShowsHealthy(f, w', f.order[i]) && PublishedBy(w', f.order[i]) == Published(t.hist) + [Healthy]
  {
    hide Leads, TaskInv, Probeable, ShowsHealthy, PublishedBy, Published, Prefix;
    var xs, w1 := PerformAll(f, w, i);
    var ys;
    ys, w' := Succeed(f, w1, i, f.handles[f.order[i]], t);
    LeadsOn(f, w, xs, w1, ys, w', i);
    acts := xs + ys;
    LeadsRuns(f, w, acts, w', i);
    assert f.order[i] in w'.sups;
  }

  lemma {:induction false} LeadsRuns(f: Fleet, w: World, acts: seq<Action>, w': World, i: nat)
    requires Leads(f, w, acts, w', i)
    ensures Runs(f, w, acts, w')
  {
  }

  /**
   Wherever d shows Failed as the Start of a call is the next thing it sees, the call may end with that
   failure, although d is restarted by it and comes up: all that d publishes from then on is Starting
   and Healthy.
   */
  lemma {:induction false} LeftOverFails(f: Fleet, w: World, i: nat, id: nat) returns (acts: seq<Action>, w': World)
    requires Inv(f, w) && OrderKnown(f, w) && i < |f.order|
    requires Asked(f, w, id, f.order[i]) && Probeable(f.handles[f.order[i]])
    ensures Runs(f, w, acts, w') && GaveUpOn(w', id, f.order[i]) && ShowsHealthy(f, w', f.order[i])
    ensures PublishedBy(w', f.order[i]) == PublishedBy(w, f.order[i]) + [Starting, Healthy]
  {
    hide *;
    var d := f.order[i];
    var c := AskedSup(f, w, id, d);
    var xs, w1 := Acks(f, w, d, c);
    var ys := [Resume(id)] + [Abandon(id)];
    var w2 := GivesUp(f, w, w1, id, d);
    RunsOn(f, w, xs, w1, ys, w2);
    var t := HasGivenUp(f, w, w1, w2, i, id);
    var zs;
    zs, w' := Recovers(f, w2, i, t);
    RunsOn(f, w, xs + ys, w2, zs, w');
    acts := xs + ys + zs;
    StillGone(w2, w', id, d);
    assert PublishedBy(w, d) + [Starting] + [Healthy] == PublishedBy(w, d) + [Starting, Healthy];
  }

  lemma {:induction false} AskedSup(f: Fleet, w: World, id: nat, d: Name) returns (c: Command)
    requires Asked(f, w, id, d)
    ensures Registered(f, w) && d in f.handles && d in w.sups && w.sups[d].task.loc.Outer? && id in w.callers
    ensures Accepts(f.handles[d], w.sups[d].task.loc, Cmd(c))
    ensures MayReact(f, w, d, Cmd(c)) && c.kind.Start? && Active(w, id) && CurrentOp(w, id).Post? && c == CurrentCommand(w, id)
  {
    MayTake(f, w, id, d);
    c := CurrentCommand(w, id);
    hide MayReact, ViewAt, AtRest;
  }

  lemma {:induction false} StillGone(w: World, w': World, id: nat, d: Name)
    requires GaveUpOn(w, id, d) && w'.callers == w.callers
    ensures GaveUpOn(w', id, d)
  {
  }

  /** Where the call has given up, d is about to turn to Starting. */
  lemma {:induction false} HasGivenUp(f: Fleet, w: World, w1: World, w2: World, i: nat, id: nat) returns (t: Task)
    requires Inv(f, w) && OrderKnown(f, w) && i < |f.order| && Asked(f, w, id, f.order[i])
    requires JustAcked(f, w, w1, f.order[i], CurrentCommand(w, id))
    requires w2 == StepCaller(w1, id, w.callers[id].(pc := w.callers[id].pc + 1, sent := false, gone := true))
    ensures OrderKnown(f, w2) && GaveUpOn(w2, id, f.order[i])
    ensures w2.sups[f.order[i]].task == t && TaskInv(f.handles[f.order[i]], t) && t.loc.Spawning?
    ensures Prefix(w2.sups[f.order[i]].done, t.hist)
    ensures f.order[i] in w.sups && Published(t.hist) == PublishedBy(w, f.order[i]) + [Starting]
  {
    hide *;
    var d := f.order[i];
    var c := AskedSup(f, w, id, d);
    t := Feed(f.handles[d], w.sups[d].task, Cmd(c));
    TaskGoes(f, w, d, c);
    GoHistory(f.handles[d], w.sups[d].task, c);
    AtRestPublished(f, w, id, d);
    AckedSup(f, w, w1, d, c);
    SameOrder(f, w, w1, id, w.callers[id].(pc := w.callers[id].pc + 1, sent := false, gone := true));
    IsGone(f, w, w1, id, d);
  }

  lemma {:induction false} AtRestPublished(f: Fleet, w: World, id: nat, d: Name)
    requires Asked(f, w, id, d)
    ensures d in w.sups && PublishedBy(w, d) == Published(w.sups[d].task.hist)
  {
    hide ViewAt, Published;
  }

  lemma {:induction false} AckedSup(f: Fleet, w: World, w1: World, d: Name, c: Command)
    requires JustAcked(f, w, w1, d, c)
    ensures Registered(f, w1) && d in w1.sups
    ensures w1.sups[d] == Sup(Feed(f.handles[d], w.sups[d].task, Cmd(c)), After(After(w.sups[d].task.hist, Consumed(c)), Acked(c)))
  {
    hide Feed;
  }

  lemma {:induction false} SameOrder(f: Fleet, w: World, w1: World, id: nat, c: Caller)
    requires OrderKnown(f, w) && Registered(f, w1)
    ensures OrderKnown(f, StepCaller(w1, id, c)) && StepCaller(w1, id, c).sups == w1.sups
  {
  }

  lemma {:induction false} IsGone(f: Fleet, w: World, w1: World, id: nat, d: Name)
    requires Asked(f, w, id, d)
    ensures GaveUpOn(StepCaller(w1, id, w.callers[id].(pc := w.callers[id].pc + 1, sent := false, gone := true)), id, d)
  {
    hide ViewAt;
  }

  lemma {:induction false} TaskGoes(f: Fleet, w: World, d: Name, c: Command)
    requires Registered(f, w) && Inv(f, w) && MayReact(f, w, d, Cmd(c))
    ensures TaskInv(f.handles[d], Feed(f.handles[d], w.sups[d].task, Cmd(c)))
  {
    hide Inv, SupsOk, TaskInv, Feed;
    InvParts(f, w);
    SupAt(f, w, d);
    FeedKeeps(f.handles[d], w.sups[d].task, Cmd(c));
  }

  /** Call id has asked d, which was idle or has failed, to start. */
  lemma {:induction false} Asks(f: Fleet, w: World, id: nat, n: Name, chain: seq<Name>) returns (acts: seq<Action>, w': World)
    requires Registered(f, w) && !w.dropped && id !in w.callers && n in f.handles && IsChain(HandleGraph(f.handles), n, chain)
    requires chain[0] in f.handles && w.queues[chain[0]] == [] && !w.sups[chain[0]].task.loc.Ended?
    ensures Runs(f, w, acts, w')
    ensures
      var p, d := StartProgram(chain, n), chain[0];
      && p != [] && p[0] == Post(d, Start)
      && w' == w.(callers := w.callers[id := Caller(p, 0, true, false)], queues := w.queues[d := [Command(Start, id, 0)]])
  {
    var p, d := StartProgram(chain, n), chain[0];
    ChainShape(HandleGraph(f.handles), n, chain);
    StartProgramAt(chain, n);
    assert p[2 * 0] == Post(d, Start);
    assert IsStart(f, p);
    hide StartProgram, IsChain, MayReact, Reacted, PerformNext, ViewAt, IsWaiter, IsSingle, ShutdownProgram, IsStart, Runs;
    assert Enabled(f, w, Call(id, p));
    var w1 := StepCaller(w, id, Caller(p, 0, false, false));
    RunsOne(f, w, Call(id, p));
    Delivers(f, w1, id, d);
    assert w1.queues[d] + [Command(Start, id, 0)] == [Command(Start, id, 0)];
    RunsOne(f, w1, Deliver(id));
    w' := Apply(f, w1, Deliver(id));
    hide Enabled, Apply;
    assert w'.callers == w.callers[id := Caller(p, 0, true, false)];
    RunsOn(f, w, [Call(id, p)], w1, [Deliver(id)], w');
    acts := [Call(id, p)] + [Deliver(id)];
  }

  lemma {:induction false} Delivers(f: Fleet, w: World, id: nat, d: Name)
    requires Registered(f, w) && d in f.handles && !w.sups[d].task.loc.Ended? && |w.queues[d]| < QUEUE_CAPACITY
    requires Active(w, id) && w.callers[id].pc == 0 && !w.callers[id].sent && w.callers[id].prog[0] == Post(d, Start)
    ensures Enabled(f, w, Deliver(id))
    ensures Apply(f, w, Deliver(id)) ==
      StepCaller(w, id, w.callers[id].(sent := true)).(queues := w.queues[d := w.queues[d] + [Command(Start, id, 0)]])
  {
    hide MayReact, Reacted, PerformNext, ViewAt, IsProgram;
  }

  /** d has failed for good, has nothing in its queue, and only call 0 was ever made. */
  ghost predicate FailedOnce(f: Fleet, w: World, d: Name) {
    && OrderKnown(f, w) && !w.dropped && 1 !in w.callers && d in f.handles
    && Down(w, d) && ViewAt(f, w, d).seen.Failed? && w.queues[d] == []
  }

  lemma {:induction false} FailsOnce(f: Fleet, n: Name, chain: seq<Name>, i: nat) returns (acts: seq<Action>, w: World)
    requires ValidFleet(f) && n in f.handles && IsChain(HandleGraph(f.handles), n, chain)
    requires i < |f.order| && f.order[i] == chain[0] && chain[0] in f.handles
    ensures Runs(f, Boot(f), acts, w) && FailedOnce(f, w, chain[0])
  {
    ValidIsKnown(f, Boot(f));
    hide ValidFleet, IsChain, Runs, Leads, FailedOnce, StartProgram;
    var xs, w1 := Asks(f, Boot(f), 0, n, chain);
    assert OrderKnown(f, w1);
    var ys;
    ys, w := TakesAndFails(f, w1, i, Command(Start, 0, 0));
    RunsOn(f, Boot(f), xs, w1, ys, w);
    acts := xs + ys;
  }

  lemma {:induction false} TakesAndFails(f: Fleet, w: World, i: nat, c: Command) returns (acts: seq<Action>, w': World)
    requires OrderKnown(f, w) && i < |f.order| && !w.dropped && 1 !in w.callers && c.kind.Start?
    requires w.sups[f.order[i]] == Sup(FRESH, Empty) && w.queues[f.order[i]] == [c]
    ensures Runs(f, w, acts, w') && FailedOnce(f, w', f.order[i])
  {
    var cfg := f.handles[f.order[i]];
    FeedFirst(cfg, c);
    assert MayReact(f, w, f.order[i], Cmd(c));
    hide Runs, Leads, Feed, ViewAt, Down, MayReact;
    var xs, w1 := ReactFully(f, w, i, Cmd(c));
    assert At(f, w1, i, Feed(cfg, FRESH, Cmd(c)));
    var ys;
    ys, w' := DenyAll(f, w1, i, cfg, Feed(cfg, FRESH, Cmd(c)));
    LeadsOn(f, w, xs, w1, ys, w', i);
    LeadsRuns(f, w, xs + ys, w', i);
    LeadsKeeps(f, w, xs + ys, w', i);
    acts := xs + ys;
  }

  lemma {:induction false} LeadsKeeps(f: Fleet, w: World, acts: seq<Action>, w': World, i: nat)
    requires Leads(f, w, acts, w', i)
    ensures OrderKnown(f, w') && w'.dropped == w.dropped
  {
    hide Legal, Outcome;
  }

  lemma {:induction false} AsksAgain(f: Fleet, w: World, n: Name, chain: seq<Name>) returns (acts: seq<Action>, w': World)
    requires n in f.handles && IsChain(HandleGraph(f.handles), n, chain) && |chain| > 1
    requires FailedOnce(f, w, chain[0])
    ensures Runs(f, w, acts, w') && Asked(f, w', 1, chain[0]) && OrderKnown(f, w')
  {
    ChainShape(HandleGraph(f.handles), n, chain);
    StartProgramAt(chain, n);
    assert StartProgram(chain, n)[2 * 0 + 1] == AwaitHealthy(chain[0]);
    CanBeAsked(f, w, chain[0]);
    hide *;
    acts, w' := Asks(f, w, 1, n, chain);
    NowAsked(f, w, StartProgram(chain, n), chain[0]);
  }

  lemma {:induction false} CanBeAsked(f: Fleet, w: World, d: Name)
    requires FailedOnce(f, w, d)
    ensures Registered(f, w) && d in f.handles && d in w.sups && d in w.queues
    ensures !w.dropped && 1 !in w.callers && w.queues[d] == [] && !w.sups[d].task.loc.Ended?
  {
    hide ViewAt;
  }

  lemma {:induction false} NowAsked(f: Fleet, w: World, p: seq<Op>, d: Name)
    requires FailedOnce(f, w, d) && |p| > 1 && p[0] == Post(d, Start) && p[1] == AwaitHealthy(d)
    ensures
      var w' := w.(callers := w.callers[1 := Caller(p, 0, true, false)], queues := w.queues[d := [Command(Start, 1, 0)]]);
      Asked(f, w', 1, d) && OrderKnown(f, w')
  {
    var w' := w.(callers := w.callers[1 := Caller(p, 0, true, false)], queues := w.queues[d := [Command(Start, 1, 0)]]);
    SameView(f, w, w', d);
    hide ViewAt;
  }

  /**
   It happens in every fleet, to every sidecar that has a dependency, if the first of the chain can be
   probed: it fails for good on one call; a second call asks it to start, and gives up on it because of
   that failure; and it turns Healthy.
   */
  lemma {:induction false} StaleFailureHappens(f: Fleet, n: Name, chain: seq<Name>)
    returns (before: seq<Action>, w: World, after: seq<Action>, w': World)
    requires ValidFleet(f) && n in f.handles && IsChain(HandleGraph(f.handles), n, chain) && |chain| > 1
    requires chain[0] in f.handles && Probeable(f.handles[chain[0]])
    ensures Runs(f, Boot(f), before, w) && Asked(f, w, 1, chain[0])
    ensures Runs(f, w, after, w') && GaveUpOn(w', 1, chain[0]) && ShowsHealthy(f, w', chain[0])
    ensures chain[0] in w.sups && PublishedBy(w', chain[0]) == PublishedBy(w, chain[0]) + [Starting, Healthy]
  {
    assert chain[0] in f.order;
    var i := IndexOf(f.order, chain[0]);
    hide *;
    var xs, w1 := FailsOnce(f, n, chain, i);
    var ys;
    ys, w := AsksAgain(f, w1, n, chain);
    before := xs + ys;
    RunsOn(f, Boot(f), xs, w1, ys, w);
    RunsKeepInv(f, before, w);
    after, w' := LeftOverFails(f, w, i, 1);
    var c := AskedSup(f, w, 1, chain[0]);
  }

  lemma {:induction false} RunsKeepInv(f: Fleet, acts: seq<Action>, w: World)
    requires Runs(f, Boot(f), acts, w)
    ensures Inv(f, w)
  {
    BootInv(f);
    hide Inv, Boot;
    RunKeepsInv(f, Boot(f), acts);
  }
}
