/** Restart budget, backoff numbering and the end of the spawn loop. */
module Restarts {
  import opened Domain
  import opened Lifecycle
  import opened LifecycleProofs
  import opened LifecycleTheorems

  // ---------------------------------------------------------------------------------------
  // Restart budget
  // ---------------------------------------------------------------------------------------

  function Length(cfg: Config): nat {
    |Schedule(cfg)|
  }

  /** Starting states the supervisor may still publish without a further command or long run. */
  function Potential(cfg: Config, v: View): nat
    requires v.ledger.backoffs <= Length(cfg)
  {
    var left := Length(cfg) - v.ledger.backoffs;
    if v.ledger.owed then Length(cfg) + 1
    else match v.published
      case Starting => left
      case Healthy => left
      case Backoff(_, _) => left + 1
      case _ => 0
  }

  function Budget(cfg: Config, v: View): nat {
    (Length(cfg) + 1) * v.ledger.charges + Length(cfg) * v.ledger.longRuns
  }

  predicate WithinBudget(cfg: Config, v: View) {
    && v.ledger.backoffs <= Length(cfg)
    && v.ledger.starts + Potential(cfg, v) <= Budget(cfg, v)
  }

  lemma {:induction false} BudgetGrows(cfg: Config, v: View, w: View)
    ensures w.ledger.charges == v.ledger.charges && w.ledger.longRuns == v.ledger.longRuns ==> Budget(cfg, w) == Budget(cfg, v)
    ensures w.ledger.charges == v.ledger.charges + 1 && w.ledger.longRuns == v.ledger.longRuns ==>
              Budget(cfg, w) == Budget(cfg, v) + Length(cfg) + 1
    ensures w.ledger.charges == v.ledger.charges && w.ledger.longRuns == v.ledger.longRuns + 1 ==>
              Budget(cfg, w) == Budget(cfg, v) + Length(cfg)
  {
  }

  lemma {:induction false} SeenLedger(cfg: Config, v: View, e: Effect)
    ensures See(cfg, v, e).ledger == Booked(cfg, v, e)
    ensures See(cfg, v, e).published == if e.Emitted? then e.state else v.published
  {
    hide Booked;
  }

  lemma {:induction false} BudgetStep(cfg: Config, v: View, e: Effect)
    requires WithinBudget(cfg, v) && Allowed(cfg, v, e)
    ensures WithinBudget(cfg, See(cfg, v, e))
  {
    hide SumTo, Clean, Budget, PortFits;
    SeenLedger(cfg, v, e);
    BudgetGrows(cfg, v, See(cfg, v, e));
    hide See;
  }

  lemma {:induction false} BudgetHolds(cfg: Config, h: History)
    requires Discipline(cfg, h)
    ensures WithinBudget(cfg, ViewOf(cfg, h))
  {
    hide See, Allowed;
    if h.After? {
      BudgetHolds(cfg, h.before);
      BudgetStep(cfg, ViewOf(cfg, h.before), h.effect);
    }
  }

  function Startings(s: seq<State>): nat {
    if s == [] then 0 else Startings(s[..|s| - 1]) + if s[|s| - 1].Starting? then 1 else 0
  }

  lemma {:induction false} StartsStep(cfg: Config, v: View, e: Effect)
    ensures See(cfg, v, e).ledger.starts == v.ledger.starts + if e == Emitted(Starting) then 1 else 0
  {
    SeenLedger(cfg, v, e);
    hide See;
  }

  lemma {:induction false} StartsCounted(cfg: Config, h: History)
    ensures ViewOf(cfg, h).ledger.starts == Startings(Published(h))
  {
    hide See;
    if h.After? {
      StartsStep(cfg, ViewOf(cfg, h.before), h.effect);
      StartsCounted(cfg, h.before);
      var s, e := Published(h.before), h.effect;
      if e.Emitted? {
        assert (s + [e.state])[..|s|] == s;
      }
    }
  }

  /**
   With a schedule of length L, at most (L + 1) Starting states are published per charged command
   and at most L more per healthy run long enough to reset the schedule.
   */
  lemma {:induction false} RestartBudget(cfg: Config, ins: seq<Input>)
    requires Fits(cfg, FRESH, ins)
    ensures
      var h, L := HistoryOf(cfg, ins), Length(cfg);
      Startings(Published(h)) <= (L + 1) * ViewOf(cfg, h).ledger.charges + L * ViewOf(cfg, h).ledger.longRuns
  {
    AllRunsDisciplined(cfg, ins);
    BudgetHolds(cfg, HistoryOf(cfg, ins));
    StartsCounted(cfg, HistoryOf(cfg, ins));
  }

  /**
   Between two resets the published Backoff states are numbered 1, 2, 3, ... with the delays of the
   schedule; Failed comes exactly when the schedule is used up; and at every Starting the time
   waited out since the last reset is the sum of the delays announced since then.
   */
  lemma {:induction false} BackoffNumbering(cfg: Config, ins: seq<Input>, p: History, st: State)
    requires Fits(cfg, FRESH, ins)
    requires Prefix(After(p, Emitted(st)), HistoryOf(cfg, ins))
    ensures
      var v, schedule := ViewOf(cfg, p), Schedule(cfg);
      && v.ledger.backoffs <= |schedule|
      && (st.Backoff? ==> v.ledger.backoffs < |schedule| && st == Backoff(v.ledger.backoffs + 1, schedule[v.ledger.backoffs]))
      && (st.Failed? ==> v.ledger.backoffs == |schedule|)
      && (st.Starting? ==> v.ledger.waited == SumTo(schedule, v.ledger.backoffs))
  {
    AllRunsDisciplined(cfg, ins);
    hide Fits, RunFrom, TaskInv, LifecycleEdge, ViewOf, Discipline, Clean, SumTo, NextEffect, HistoryOf;
    NextAllowed(cfg, p, Emitted(st), HistoryOf(cfg, ins));
    assert MayEmit(cfg, ViewOf(cfg, p), st);
  }

  // ---------------------------------------------------------------------------------------
  // The spawn loop ends
  // ---------------------------------------------------------------------------------------

  function Rank(cfg: Config, t: Task): nat
    requires t.attempt <= Length(cfg) || t.loc.Outer? || t.loc.Ended?
  {
    match t.loc
    case Ended => 0
    case Outer => 1
    case Monitor(_) => 5 * (Length(cfg) - t.attempt) + 2
    case Health(_) => 5 * (Length(cfg) - t.attempt) + 3
    case Launching => 5 * (Length(cfg) - t.attempt) + 4
    case Spawning => 5 * (Length(cfg) - t.attempt) + 5
    case Waiting(_) => 5 * (Length(cfg) - t.attempt) + 6
  }

  /** No command, and no crash that resets the schedule. */
  predicate Unaided(cfg: Config, t: Task, i: Input) {
    !i.Cmd? && !(t.loc.Monitor? && i.Exit? && Resets(cfg, i.elapsed))
  }

  lemma {:induction false} RankDecreases(cfg: Config, t: Task, i: Input)
    requires Accepts(cfg, t.loc, i) && Unaided(cfg, t, i)
    requires t.attempt <= Length(cfg) || t.loc.Outer? || t.loc.Ended?
    ensures
      var t' := Feed(cfg, t, i);
      (t'.attempt <= Length(cfg) || t'.loc.Outer? || t'.loc.Ended?) && Rank(cfg, t') < Rank(cfg, t)
  {
    hide Then, Say, ClearEntry, StopChild, Take;
  }

  predicate AllUnaided(cfg: Config, t: Task, ins: seq<Input>)
    requires Fits(cfg, t, ins)
    decreases |ins|
  {
    ins == [] || (Unaided(cfg, t, ins[0]) && AllUnaided(cfg, Feed(cfg, t, ins[0]), ins[1..]))
  }

  /** Left alone, the spawn loop takes no more steps than its rank allows. */
  lemma {:induction false} SpawnLoopEnds(cfg: Config, t: Task, ins: seq<Input>)
    requires Fits(cfg, t, ins) && AllUnaided(cfg, t, ins)
    requires t.attempt <= Length(cfg) || t.loc.Outer? || t.loc.Ended?
    ensures |ins| <= Rank(cfg, t)
    decreases |ins|
  {
    if ins != [] {
      RankDecreases(cfg, t, ins[0]);
      SpawnLoopEnds(cfg, Feed(cfg, t, ins[0]), ins[1..]);
    }
  }

  /** One way for a start attempt to fail. */
  datatype Episode =
    | PortFails
    | LaunchFails(free: nat)
    | ProbeFails(free: nat, pid: nat)
    | DiesEarly(free: nat, pid: nat, code: Option<int>)
    | Crashes(free: nat, pid: nat, code: Option<int>, elapsed: nat)

  predicate CanHappen(cfg: Config, e: Episode) {
    match e
    case PortFails => !cfg.port.NoPort?
    case Crashes(free, _, _, elapsed) => ProbeCanPass(cfg, ChosenPort(cfg, free)) && !Resets(cfg, elapsed)
    case _ => true
  }

  function EpisodeInputs(e: Episode): seq<Input> {
    match e
    case PortFails => [PortDenied]
    case LaunchFails(free) => [PortGiven(free), SpawnDenied]
    case ProbeFails(free, pid) => [PortGiven(free), SpawnDone(pid), ProbeFailed]
    case DiesEarly(free, pid, code) => [PortGiven(free), SpawnDone(pid), Exit(code, 0)]
    case Crashes(free, pid, code, elapsed) => [PortGiven(free), SpawnDone(pid), ProbePassed, Exit(code, elapsed)]
  }

  /** Failing episodes, each but the first after a full backoff delay. */
  function EpisodesInputs(es: seq<Episode>): seq<Input> {
    if es == [] then []
    else if |es| == 1 then EpisodeInputs(es[0])
    else EpisodeInputs(es[0]) + [Timer] + EpisodesInputs(es[1..])
  }

  lemma {:induction false} RunAppend(cfg: Config, t: Task, xs: seq<Input>, ys: seq<Input>)
    requires Fits(cfg, t, xs) && Fits(cfg, RunFrom(cfg, t, xs), ys)
    ensures Fits(cfg, t, xs + ys) && RunFrom(cfg, t, xs + ys) == RunFrom(cfg, RunFrom(cfg, t, xs), ys)
    decreases |xs|
  {
    hide Feed, Accepts;
    if xs == [] {
      assert xs + ys == ys;
    } else {
      RunAppend(cfg, Feed(cfg, t, xs[0]), xs[1..], ys);
      assert (xs + ys)[1..] == xs[1..] + ys;
    }
  }

  /** Where a failure in attempt `attempt` leaves the task. */
  predicate FailedAt(cfg: Config, attempt: nat, t: Task)
    requires attempt <= Length(cfg)
  {
    if attempt < Length(cfg) then
      && t.loc == Waiting(Schedule(cfg)[attempt]) && t.attempt == attempt + 1
      && ViewOf(cfg, t.hist).published == Backoff(attempt + 1, Schedule(cfg)[attempt])
    else
      t.loc == Outer && ViewOf(cfg, t.hist).published.Failed?
  }

  lemma {:induction false} FailFails(cfg: Config, attempt: nat, port: Option<nat>, h: History, why: Reason)
    requires attempt <= Length(cfg)
    ensures FailedAt(cfg, attempt, Fail(cfg, attempt, port, h, why))
  {
    hide ViewOf, Discipline;
  }

  lemma {:induction false} RunOne(cfg: Config, t: Task, i: Input, rest: seq<Input>)
    requires Accepts(cfg, t.loc, i) && Fits(cfg, Feed(cfg, t, i), rest)
    ensures Fits(cfg, t, [i] + rest)
    ensures RunFrom(cfg, t, [i] + rest) == RunFrom(cfg, Feed(cfg, t, i), rest)
  {
    assert ([i] + rest)[1..] == rest;
  }

  lemma {:induction false} EpisodeFails(cfg: Config, t: Task, e: Episode)
    requires t.loc.Spawning? && t.attempt <= Length(cfg) && CanHappen(cfg, e)
    ensures Fits(cfg, t, EpisodeInputs(e))
    ensures FailedAt(cfg, t.attempt, RunFrom(cfg, t, EpisodeInputs(e)))
  {
    hide ViewOf, Discipline, Fail, FailedAt, Then, Say, ClearEntry;
    if e.PortFails? {
      FailFails(cfg, t.attempt, t.port, t.hist, PortUnavailable);
      RunOne(cfg, t, PortDenied, []);
      assert [PortDenied] + [] == EpisodeInputs(e);
    } else {
      var given := PortGiven(e.free);
      var rest := EpisodeInputs(e)[1..];
      assert [given] + rest == EpisodeInputs(e);
      LaunchedFails(cfg, Feed(cfg, t, given), e, rest);
      RunOne(cfg, t, given, rest);
    }
  }

  /** The same from the moment the port is known. */
  lemma {:induction false} LaunchedFails(cfg: Config, t: Task, e: Episode, rest: seq<Input>)
    requires t.loc.Launching? && t.attempt <= Length(cfg) && CanHappen(cfg, e) && !e.PortFails?
    requires t.port == ChosenPort(cfg, e.free) && rest == EpisodeInputs(e)[1..]
    ensures Fits(cfg, t, rest) && FailedAt(cfg, t.attempt, RunFrom(cfg, t, rest))
  {
    hide ViewOf, Discipline, Fail, FailedAt, Then, Say, ClearEntry;
    if e.LaunchFails? {
      FailFails(cfg, t.attempt, t.port, t.hist, SpawnError);
      RunOne(cfg, t, SpawnDenied, []);
      assert [SpawnDenied] + [] == rest;
    } else {
      var done := SpawnDone(e.pid);
      var last := EpisodeInputs(e)[2..];
      assert [done] + last == rest;
      CheckedFails(cfg, Feed(cfg, t, done), e, last);
      RunOne(cfg, t, done, last);
    }
  }

  /** The same from the moment the child runs. */
  lemma {:induction false} CheckedFails(cfg: Config, t: Task, e: Episode, rest: seq<Input>)
    requires e.ProbeFails? || e.DiesEarly? || e.Crashes?
    requires t.loc == Health(e.pid) && t.attempt <= Length(cfg) && CanHappen(cfg, e)
    requires t.port == ChosenPort(cfg, e.free) && rest == EpisodeInputs(e)[2..]
    ensures Fits(cfg, t, rest) && FailedAt(cfg, t.attempt, RunFrom(cfg, t, rest))
  {
    hide ViewOf, Discipline, Fail, FailedAt, Then, Say, ClearEntry;
    match e
    case ProbeFails(_, pid) =>
      FailFails(cfg, t.attempt, t.port, ClearEntry(cfg, Then(cfg, t.hist, Killed(pid))), ProbeError);
      RunOne(cfg, t, ProbeFailed, []);
      assert [ProbeFailed] + [] == rest;
    case DiesEarly(_, pid, code) =>
      var killed := Then(cfg, Then(cfg, t.hist, Reaped(pid, 0)), Killed(pid));
      FailFails(cfg, t.attempt, t.port, ClearEntry(cfg, killed), DiedInHealthCheck(code));
      RunOne(cfg, t, Exit(code, 0), []);
      assert [Exit(code, 0)] + [] == rest;
    case Crashes(_, pid, code, elapsed) =>
      var m := Feed(cfg, t, ProbePassed);
      var exit := Exit(code, elapsed);
      FailFails(cfg, m.attempt, m.port, ClearEntry(cfg, Then(cfg, m.hist, Reaped(pid, elapsed))), Exited(code));
      RunOne(cfg, m, exit, []);
      assert [exit] + [] == [exit];
      RunOne(cfg, t, ProbePassed, [exit]);
      assert [ProbePassed] + [exit] == rest;
  }

  lemma {:induction false} FailedShows(cfg: Config, attempt: nat, t: Task)
    requires attempt <= Length(cfg) && FailedAt(cfg, attempt, t)
    ensures ViewOf(cfg, t.hist).published.Failed? <==> attempt == Length(cfg)
  {
    hide ViewOf;
  }

  lemma {:induction false} TimerRetries(cfg: Config, attempt: nat, t: Task)
    requires attempt < Length(cfg) && FailedAt(cfg, attempt, t)
    ensures Accepts(cfg, t.loc, Timer)
    ensures var again := Feed(cfg, t, Timer); again.loc.Spawning? && again.attempt == attempt + 1
  {
    hide ViewOf, Then, Say;
  }

  /**
   A persistently failing sidecar: started with `attempt` restarts already used, it is in Backoff
   after each of the next L - attempt failures, whatever their kind, and in Failed after exactly
   one more.
   */
  lemma {:induction false} PersistentFailure(cfg: Config, t: Task, es: seq<Episode>)
    requires t.loc.Spawning? && t.attempt <= Length(cfg)
    requires 1 <= |es| <= Length(cfg) - t.attempt + 1
    requires forall e :: e in es ==> CanHappen(cfg, e)
    ensures Fits(cfg, t, EpisodesInputs(es))
    ensures
      var t' := RunFrom(cfg, t, EpisodesInputs(es));
      && FailedAt(cfg, t.attempt + |es| - 1, t')
      && (ViewOf(cfg, t'.hist).published.Failed? <==> |es| == Length(cfg) - t.attempt + 1)
    decreases |es|
  {
    hide ViewOf, Feed, Accepts, FailedAt, EpisodeInputs, CanHappen, Fits, RunFrom;
    EpisodeFails(cfg, t, es[0]);
    if |es| == 1 {
      FailedShows(cfg, t.attempt, RunFrom(cfg, t, EpisodeInputs(es[0])));
    } else {
      var failed := RunFrom(cfg, t, EpisodeInputs(es[0]));
      TimerRetries(cfg, t.attempt, failed);
      var again := Feed(cfg, failed, Timer);
      PersistentFailure(cfg, again, es[1..]);
      RunOne(cfg, failed, Timer, EpisodesInputs(es[1..]));
      RunAppend(cfg, t, EpisodeInputs(es[0]), [Timer] + EpisodesInputs(es[1..]));
      assert EpisodeInputs(es[0]) + ([Timer] + EpisodesInputs(es[1..])) == EpisodesInputs(es);
    }
  }
}
