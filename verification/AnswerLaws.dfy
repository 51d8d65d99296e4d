/** What a user sees of a supervisor's answers: states, delays, reasons, ports, and how many starts. */
module AnswerLaws {
  import opened Domain
  import opened Lifecycle
  import opened LifecycleTheorems
  import opened Restarts
  import opened Answers

  // ---------------------------------------------------------------------------------------
  // States in a log
  // ---------------------------------------------------------------------------------------

  /** The states given to the sink. */
  function StatesIn(log: seq<Effect>): seq<State> {
    if log == [] then []
    else StatesIn(log[..|log| - 1]) + if log[|log| - 1].Emitted? then [log[|log| - 1].state] else []
  }

  /** The values given to the watch channel. */
  function ValuesIn(log: seq<Effect>): seq<State> {
    if log == [] then []
    else ValuesIn(log[..|log| - 1]) + if log[|log| - 1].Sent? then [log[|log| - 1].state] else []
  }

  function LastOf(s: seq<State>): State {
    if s == [] then Idle else s[|s| - 1]
  }

  lemma {:induction false} StatesConcat(a: seq<Effect>, b: seq<Effect>)
    ensures StatesIn(a + b) == StatesIn(a) + StatesIn(b) && ValuesIn(a + b) == ValuesIn(a) + ValuesIn(b)
  {
    if b == [] {
      assert a + b == a;
    } else {
      assert (a + b)[..|a + b| - 1] == a + b[..|b| - 1];
      StatesConcat(a, b[..|b| - 1]);
    }
  }

  lemma {:induction false} PublishedInLog(h: History)
    ensures Published(h) == StatesIn(Log(h)) && StateOf(Log(h)) == LastOf(Published(h))
  {
    if h.After? {
      PublishedInLog(h.before);
      LogGrows(h.before, h.effect);
    }
  }

  /** es publishes s, on the sink and on the watch channel alike. */
  predicate Publishing(es: seq<Effect>, s: seq<State>) {
    StatesIn(es) == s && ValuesIn(es) == s
  }

  lemma {:induction false} OneEffect(e: Effect)
    ensures StatesIn([e]) == (if e.Emitted? then [e.state] else []) && ValuesIn([e]) == (if e.Sent? then [e.state] else [])
  {
    assert [e][..0] == [];
  }

  lemma {:induction false} ShowsPublishes(st: State)
    ensures Publishing(Shows(st), [st])
  {
    OneEffect(Emitted(st));
    OneEffect(Sent(st));
    StatesConcat([Emitted(st)], [Sent(st)]);
    assert [Emitted(st)] + [Sent(st)] == Shows(st);
  }

  lemma {:induction false} PublishingBoth(a: seq<Effect>, s: seq<State>, b: seq<Effect>, s': seq<State>)
    requires Publishing(a, s) && Publishing(b, s')
    ensures Publishing(a + b, s + s')
  {
    StatesConcat(a, b);
  }

  /** Effects that are no state changes. */
  lemma {:induction false} Silent(es: seq<Effect>)
    requires forall e :: e in es ==> !e.Emitted? && !e.Sent?
    ensures Publishing(es, [])
  {
    if es != [] {
      Silent(es[..|es| - 1]);
    }
  }

  lemma {:induction false} FailingPublishes(cfg: Config, used: nat, why: Reason)
    ensures Publishing(Failing(cfg, used, why), [FailedOr(cfg, used, why)])
  {
    ShowsPublishes(FailedOr(cfg, used, why));
    hide Publishing, Shows;
  }

  /** What a failure publishes after `used` restarts. */
  function FailedOr(cfg: Config, used: nat, why: Reason): State {
    match cfg.restart
    case Never => Failed(why)
    case OnCrash(secs, _) => if used < |secs| then Backoff(used + 1, secs[used]) else Failed(why)
  }

  lemma {:induction false} StopsPublish(cfg: Config, log: seq<Effect>)
    ensures Publishing(Stops(cfg, log), [Stopping])
  {
    hide PortOf, ChildOf;
    var hook := match cfg.graceful
      case NoGrace => []
      case Signal => [Hooked(true)]
      case HttpPost => [Hooked(PortOf(log).Some?)];
    var ends := [Killed(ChildOf(log)), Removed, Flushed];
    ShowsPublishes(Stopping);
    Silent(hook + ends);
    PublishingBoth(Shows(Stopping), [Stopping], hook + ends, []);
    assert Shows(Stopping) + (hook + ends) == Stops(cfg, log);
  }

  // ---------------------------------------------------------------------------------------
  // What each answer publishes
  // ---------------------------------------------------------------------------------------

  /** The states published on a command, given the state before. */
  function OnCommand(st: State, kind: Kind): seq<State> {
    match st
    case Healthy => (
      match kind
      case Start => []
      case Restart => [Stopping, Starting]
      case Stop => [Stopping, Stopped]
      case Shutdown => [Stopping, Stopped])
    case Backoff(_, _) => (
      match kind
      case Start => [Starting]
      case Restart => [Starting]
      case Stop => [Stopped]
      case Shutdown => [])
    case _ => if kind.Start? || kind.Restart? then [Starting] else []
  }

  lemma {:induction false} CommandPublishes(cfg: Config, log: seq<Effect>, c: Command)
    ensures Publishing(AnswerCommand(cfg, log, c), OnCommand(StateOf(log), c.kind))
  {
    hide StateOf, Stops, Publishing;
    Silent([Consumed(c)]);
    Silent([Acked(c)]);
    Silent([Returned]);
    Silent([Acked(c), Returned]);
    ShowsPublishes(Starting);
    ShowsPublishes(Stopped);
    hide Shows;
    if StateOf(log).Healthy? {
      StopsPublish(cfg, log);
      PublishingBoth(Stops(cfg, log), [Stopping], [Acked(c)], []);
      var stops := Stops(cfg, log) + [Acked(c)];
      PublishingBoth(stops, [Stopping] + [], Shows(Starting), [Starting]);
      PublishingBoth(stops, [Stopping] + [], Shows(Stopped), [Stopped]);
      PublishingBoth(stops + Shows(Stopped), [Stopping] + [] + [Stopped], [Returned], []);
      PublishingBoth([Consumed(c)], [], [Acked(c)], []);
      PublishingBoth([Consumed(c)], [], stops + Shows(Starting), [Stopping] + [] + [Starting]);
      PublishingBoth([Consumed(c)], [], stops + Shows(Stopped), [Stopping] + [] + [Stopped]);
      PublishingBoth([Consumed(c)], [], stops + Shows(Stopped) + [Returned], [Stopping] + [] + [Stopped] + []);
      assert [] + ([Stopping] + [] + [Starting]) == [Stopping, Starting];
      assert [] + ([Stopping] + [] + [Stopped]) == [Stopping, Stopped];
      assert [] + ([Stopping] + [] + [Stopped] + []) == [Stopping, Stopped];
    } else {
      PublishingBoth([Acked(c)], [], Shows(Starting), [Starting]);
      PublishingBoth([Acked(c)], [], Shows(Stopped), [Stopped]);
      PublishingBoth([Consumed(c)], [], [Acked(c)] + Shows(Starting), [] + [Starting]);
      PublishingBoth([Consumed(c)], [], [Acked(c)] + Shows(Stopped), [] + [Stopped]);
      PublishingBoth([Consumed(c)], [], [Acked(c), Returned], []);
      PublishingBoth([Consumed(c)], [], [Acked(c)], []);
      assert [Acked(c)] + [] == [Acked(c)];
      assert [] + ([] + [Starting]) == [Starting] && [] + ([] + [Stopped]) == [Stopped];
    }
  }

  /** The reason of a failure, where the answer is one. */
  function WhyFailed(st: State, i: Input): Option<Reason> {
    match i
    case PortDenied => Some(PortUnavailable)
    case SpawnDenied => Some(SpawnError)
    case ProbeFailed => Some(ProbeError)
    case Exit(code, _) => Some(if st.Healthy? then Exited(code) else DiedInHealthCheck(code))
    case _ => None
  }

  /** The restarts that count against a failure. */
  function UsedAt(cfg: Config, log: seq<Effect>, i: Input): nat {
    if i.Exit? && LongRun(cfg, log, i.elapsed) then 0 else Used(cfg, log)
  }

  lemma {:induction false} FailurePublishes(cfg: Config, log: seq<Effect>, i: Input)
    requires WhyFailed(StateOf(log), i).Some?
    ensures Publishing(Answer(cfg, log, i), [FailedOr(cfg, UsedAt(cfg, log, i), WhyFailed(StateOf(log), i).value)])
  {
    hide StateOf, Publishing, Failing, LongRun;
    var pid, why, used := ChildOf(log), WhyFailed(StateOf(log), i).value, UsedAt(cfg, log, i);
    var before :=
      if i.ProbeFailed? then [Killed(pid), Removed, Flushed]
      else if !i.Exit? then []
      else if StateOf(log).Healthy? then [Reaped(pid, i.elapsed), Removed, Flushed]
      else [Reaped(pid, i.elapsed), Killed(pid), Removed, Flushed];
    Silent(before);
    FailingPublishes(cfg, used, why);
    PublishingBoth(before, [], Failing(cfg, used, why), [FailedOr(cfg, used, why)]);
    assert i.Exit? && !StateOf(log).Healthy? ==> used == Used(cfg, log) by {
      NoLongRun(cfg, log, if i.Exit? then i.elapsed else 0);
    }
    assert before + Failing(cfg, used, why) == Answer(cfg, log, i);
    assert [] + [FailedOr(cfg, used, why)] == [FailedOr(cfg, used, why)];
  }

  lemma {:induction false} NoLongRun(cfg: Config, log: seq<Effect>, elapsed: nat)
    ensures !StateOf(log).Healthy? ==> !LongRun(cfg, log, elapsed)
  {
  }

  /** What an answer publishes that is neither a command nor a failure. */
  lemma {:induction false} OtherPublishes(cfg: Config, log: seq<Effect>, i: Input)
    requires !i.Cmd? && WhyFailed(StateOf(log), i).None?
    ensures
      var st := StateOf(log);
      var stuck := (cfg.health.Tcp? || cfg.health.Http?) && PortOf(log).None?;
      Publishing(Answer(cfg, log, i),
        match i
        case Closed => if st.Healthy? then [Stopping] else []
        case ProbePassed => [if stuck then FailedOr(cfg, Used(cfg, log), ProbeError) else Healthy]
        case Timer => [Starting]
        case _ => [])
  {
    hide StateOf, PortOf, ChildOf, Used, Publishing, Failing, Stops;
    if i.Closed? {
      StopsPublish(cfg, log);
      Silent([Returned]);
      PublishingBoth(Stops(cfg, log), [Stopping], [Returned], []);
      assert [] + [Returned] == [Returned] && [Stopping] + [] == [Stopping];
    } else if i.ProbePassed? {
      var killed := [Killed(ChildOf(log)), Removed, Flushed];
      Silent(killed);
      FailingPublishes(cfg, Used(cfg, log), ProbeError);
      PublishingBoth(killed, [], Failing(cfg, Used(cfg, log), ProbeError), [FailedOr(cfg, Used(cfg, log), ProbeError)]);
      assert [] + [FailedOr(cfg, Used(cfg, log), ProbeError)] == [FailedOr(cfg, Used(cfg, log), ProbeError)];
      ShowsPublishes(Healthy);
    } else if i.Timer? {
      var slept := if StateOf(log).Backoff? then [Slept(StateOf(log).delaySecs)] else [];
      Silent(slept);
      ShowsPublishes(Starting);
      PublishingBoth(slept, [], Shows(Starting), [Starting]);
      assert [] + [Starting] == [Starting];
    } else {
      Silent(Answer(cfg, log, i));
    }
  }

  // ---------------------------------------------------------------------------------------
  // Over all runs
  // ---------------------------------------------------------------------------------------

  /** A run and one answer more: what is published in between. */
  ghost predicate ThenPublishes(cfg: Config, ins: seq<Input>, i: Input, s: seq<State>)
    requires Fits(cfg, FRESH, ins) && Fits(cfg, FRESH, ins + [i])
  {
    && Published(HistoryOf(cfg, ins + [i])) == Published(HistoryOf(cfg, ins)) + s
    && ValuesIn(Log(HistoryOf(cfg, ins + [i]))) == ValuesIn(Log(HistoryOf(cfg, ins))) + s
  }

  lemma {:induction false} OneMorePublished(cfg: Config, ins: seq<Input>, i: Input, s: seq<State>)
    requires Fits(cfg, FRESH, ins) && Fits(cfg, FRESH, ins + [i])
    requires Publishing(Answer(cfg, Log(HistoryOf(cfg, ins)), i), s)
    ensures ThenPublishes(cfg, ins, i, s)
  {
    hide Answer, HistoryOf, Fits, Published, StateOf;
    var log := Log(HistoryOf(cfg, ins));
    OneMoreAnswer(cfg, ins, i);
    StatesConcat(log, Answer(cfg, log, i));
    PublishedInLog(HistoryOf(cfg, ins));
    PublishedInLog(HistoryOf(cfg, ins + [i]));
  }

  /**
   What a command makes a supervisor publish, on the sink and on the watch channel: while Healthy a Stop
   or Shutdown leads to Stopped by way of Stopping, a Restart to Starting, and a Start to nothing; in
   Backoff a Stop is shown and a Shutdown is not; otherwise only a Start or Restart is. A Shutdown, and
   nothing else, ends the task.
   */
  lemma {:induction false} CommandsPublish(cfg: Config, ins: seq<Input>, c: Command)
    requires Fits(cfg, FRESH, ins) && Fits(cfg, FRESH, ins + [Cmd(c)])
    ensures ThenPublishes(cfg, ins, Cmd(c), OnCommand(LastOf(Published(HistoryOf(cfg, ins))), c.kind))
    ensures Log(HistoryOf(cfg, ins + [Cmd(c)])) != []
    ensures
      var log := Log(HistoryOf(cfg, ins + [Cmd(c)]));
      log[|log| - 1].Returned? <==> c.kind.Shutdown?
  {
    var log := Log(HistoryOf(cfg, ins));
    PublishedInLog(HistoryOf(cfg, ins));
    CommandPublishes(cfg, log, c);
    OneMoreAnswer(cfg, ins, Cmd(c));
    CommandEnds(cfg, log, c);
    hide *;
    assert Answer(cfg, log, Cmd(c)) == AnswerCommand(cfg, log, c) by {
      IsCommand(cfg, log, c);
    }
    OneMorePublished(cfg, ins, Cmd(c), OnCommand(StateOf(log), c.kind));
  }

  lemma {:induction false} IsCommand(cfg: Config, log: seq<Effect>, c: Command)
    ensures Answer(cfg, log, Cmd(c)) == AnswerCommand(cfg, log, c)
  {
  }

  lemma {:induction false} CommandEnds(cfg: Config, log: seq<Effect>, c: Command)
    ensures AnswerCommand(cfg, log, c) != []
    ensures var es := AnswerCommand(cfg, log, c); es[|es| - 1].Returned? <==> c.kind.Shutdown?
  {
    hide Stops, StateOf;
  }

  /** What the closed channel makes it publish. */
  lemma {:induction false} ClosedPublishes(cfg: Config, ins: seq<Input>)
    requires Fits(cfg, FRESH, ins) && Fits(cfg, FRESH, ins + [Closed])
    ensures ThenPublishes(cfg, ins, Closed, if LastOf(Published(HistoryOf(cfg, ins))).Healthy? then [Stopping] else [])
  {
    PublishedInLog(HistoryOf(cfg, ins));
    OtherPublishes(cfg, Log(HistoryOf(cfg, ins)), Closed);
    hide Publishing, ThenPublishes, HistoryOf, Answer;
    OneMorePublished(cfg, ins, Closed, if LastOf(Published(HistoryOf(cfg, ins))).Healthy? then [Stopping] else []);
  }

  /**
   What a failure makes it publish: one state, which for the policy Never is Failed, and for OnCrash the
   next delay of its list, or Failed when as many Backoff states as it has delays were published since
   the schedule last began afresh. The reason tells which failure it was.
   */
  lemma {:induction false} FailuresPublish(cfg: Config, ins: seq<Input>, i: Input)
    requires Fits(cfg, FRESH, ins) && Fits(cfg, FRESH, ins + [i])
    requires i.PortDenied? || i.SpawnDenied? || i.ProbeFailed? || i.Exit?
    ensures
      var log, st := Log(HistoryOf(cfg, ins)), LastOf(Published(HistoryOf(cfg, ins)));
      var used := if i.Exit? && LongRun(cfg, log, i.elapsed) then 0 else Used(cfg, log);
      var why := match i
        case PortDenied => PortUnavailable
        case SpawnDenied => SpawnError
        case Exit(code, _) => if st.Healthy? then Exited(code) else DiedInHealthCheck(code)
        case _ => ProbeError;
      ThenPublishes(cfg, ins, i,
        match cfg.restart
        case Never => [Failed(why)]
        case OnCrash(secs, _) => [if used < |secs| then Backoff(used + 1, secs[used]) else Failed(why)])
  {
    hide *;
    var log, st := Log(HistoryOf(cfg, ins)), LastOf(Published(HistoryOf(cfg, ins)));
    PublishedInLog(HistoryOf(cfg, ins));
    HasReason(st, i);
    FailurePublishes(cfg, log, i);
    OneMorePublished(cfg, ins, i, [FailedOr(cfg, UsedAt(cfg, log, i), WhyFailed(st, i).value)]);
    FailureSpelled(cfg, log, st, i);
  }

  lemma {:induction false} HasReason(st: State, i: Input)
    requires i.PortDenied? || i.SpawnDenied? || i.ProbeFailed? || i.Exit?
    ensures WhyFailed(st, i).Some?
  {
  }

  lemma {:induction false} FailureSpelled(cfg: Config, log: seq<Effect>, st: State, i: Input)
    requires WhyFailed(st, i).Some?
    ensures
      var used := if i.Exit? && LongRun(cfg, log, i.elapsed) then 0 else Used(cfg, log);
      var why := match i
        case PortDenied => PortUnavailable
        case SpawnDenied => SpawnError
        case Exit(code, _) => if st.Healthy? then Exited(code) else DiedInHealthCheck(code)
        case _ => ProbeError;
      [FailedOr(cfg, UsedAt(cfg, log, i), WhyFailed(st, i).value)] ==
        match cfg.restart
        case Never => [Failed(why)]
        case OnCrash(secs, _) => [if used < |secs| then Backoff(used + 1, secs[used]) else Failed(why)]
  {
    hide LongRun, Used;
  }

  // ---------------------------------------------------------------------------------------
  // How many backoffs and starts
  // ---------------------------------------------------------------------------------------

  /** The commands that are charged: Starts and Restarts, but for a Start taken while Healthy. */
  function ChargesIn(log: seq<Effect>): nat {
    if log == [] then 0
    else
      var before, e := log[..|log| - 1], log[|log| - 1];
      ChargesIn(before) + if e.Consumed? && Charges(before, e.cmd) then 1 else 0
  }

  /** The crashes after a long healthy run. */
  function LongRunsIn(cfg: Config, log: seq<Effect>): nat {
    if log == [] then 0
    else
      var before, e := log[..|log| - 1], log[|log| - 1];
      LongRunsIn(cfg, before) + if e.Reaped? && LongRun(cfg, before, e.elapsed) then 1 else 0
  }

  lemma {:induction false} BooksStep(cfg: Config, v: View, e: Effect, log: seq<Effect>)
    requires v.published == StateOf(log) && v.ledger.charges == ChargesIn(log) && v.ledger.longRuns == LongRunsIn(cfg, log)
    ensures See(cfg, v, e).ledger.charges == ChargesIn(log + [e])
    ensures See(cfg, v, e).ledger.longRuns == LongRunsIn(cfg, log + [e])
  {
    assert (log + [e])[..|log|] == log;
  }

  lemma {:induction false} BooksInLog(cfg: Config, h: History)
    ensures ViewOf(cfg, h).ledger.charges == ChargesIn(Log(h)) && ViewOf(cfg, h).ledger.longRuns == LongRunsIn(cfg, Log(h))
  {
    hide See;
    if h.After? {
      BooksInLog(cfg, h.before);
      LogShows(cfg, h.before);
      BooksStep(cfg, ViewOf(cfg, h.before), h.effect, Log(h.before));
    }
  }

  /**
   The restart budget. Under Never there is at most one Starting for each charged command; under OnCrash
   with L delays at most L + 1 for each, and L more for each crash after a long healthy run.
   */
  lemma {:induction false} StartsBounded(cfg: Config, ins: seq<Input>)
    requires Fits(cfg, FRESH, ins)
    ensures
      var h := HistoryOf(cfg, ins);
      Startings(Published(h)) <=
        match cfg.restart
        case Never => ChargesIn(Log(h))
        case OnCrash(secs, _) => (|secs| + 1) * ChargesIn(Log(h)) + |secs| * LongRunsIn(cfg, Log(h))
  {
    RestartBudget(cfg, ins);
    BooksInLog(cfg, HistoryOf(cfg, ins));
    var h := HistoryOf(cfg, ins);
    var b := ViewOf(cfg, h).ledger;
    assert Length(cfg) == match cfg.restart case Never => 0 case OnCrash(secs, _) => |secs|;
    hide *;
    BudgetSpelled(cfg, b, Startings(Published(h)));
  }

  /** The budget with the length of the schedule written out. */
  lemma {:induction false} BudgetSpelled(cfg: Config, b: Ledger, starts: nat)
    requires Length(cfg) == match cfg.restart case Never => 0 case OnCrash(secs, _) => |secs|
    requires starts <= (Length(cfg) + 1) * b.charges + Length(cfg) * b.longRuns
    ensures starts <= match cfg.restart
      case Never => b.charges
      case OnCrash(secs, _) => (|secs| + 1) * b.charges + |secs| * b.longRuns
  {
    hide Length;
  }

  lemma {:induction false} LogAt(h: History, j: nat) returns (p: History)
    requires j < |Log(h)|
    ensures Prefix(After(p, Log(h)[j]), h) && Log(p) == Log(h)[..j]
  {
    LogGrows(h.before, h.effect);
    if j == |Log(h)| - 1 {
      p := h.before;
      assert Prefix(h, h);
    } else {
      p := LogAt(h.before, j);
    }
  }

  /**
   Every Backoff and every Failed. Under Never no Backoff is published. Under OnCrash the k-th Backoff
   since the schedule last began afresh is Backoff(k, the k-th delay), and Failed comes exactly when there
   were as many as there are delays.
   */
  lemma {:induction false} BackoffsFollowPolicy(cfg: Config, ins: seq<Input>, j: nat)
    requires Fits(cfg, FRESH, ins) && j < |Log(HistoryOf(cfg, ins))| && Log(HistoryOf(cfg, ins))[j].Emitted?
    ensures
      var log := Log(HistoryOf(cfg, ins));
      var st, used := log[j].state, Used(cfg, log[..j]);
      match cfg.restart
      case Never => !st.Backoff?
      case OnCrash(secs, _) =>
        && used <= |secs|
        && (st.Backoff? ==> used < |secs| && st == Backoff(used + 1, secs[used]))
        && (st.Failed? ==> used == |secs|)
  {
    var h := HistoryOf(cfg, ins);
    var p := LogAt(h, j);
    BackoffNumbering(cfg, ins, p, Log(h)[j].state);
    LogShows(cfg, p);
    hide ViewOf, Log, Used, HistoryOf, Fits, Prefix;
  }

  // ---------------------------------------------------------------------------------------
  // Ports
  // ---------------------------------------------------------------------------------------

  lemma {:induction false} PortAnswers(cfg: Config, log: seq<Effect>, free: nat, pid: nat)
    ensures
      var port := match cfg.port case NoPort => None case Fixed(q) => Some(q) case Dynamic => Some(free);
      && Answer(cfg, log, PortGiven(free)) == [PortSet(port)]
      && Answer(cfg, log + [PortSet(port)], SpawnDone(pid)) == [Spawned(pid, port), Inserted(pid), Flushed]
  {
  }

  /**
   Where a port was to be had and the spawn succeeds, the cell and the child get the very port that was
   offered if the strategy is dynamic, the configured one if it is fixed, and none otherwise.
   */
  lemma {:induction false} PortIsInjected(cfg: Config, ins: seq<Input>, free: nat, pid: nat)
    requires Fits(cfg, FRESH, ins) && Fits(cfg, FRESH, ins + [PortGiven(free), SpawnDone(pid)])
    ensures
      var port := match cfg.port case NoPort => None case Fixed(q) => Some(q) case Dynamic => Some(free);
      Log(HistoryOf(cfg, ins + [PortGiven(free), SpawnDone(pid)])) ==
        Log(HistoryOf(cfg, ins)) + [PortSet(port), Spawned(pid, port), Inserted(pid), Flushed]
  {
    var given, done := PortGiven(free), SpawnDone(pid);
    assert ins + [given, done] == (ins + [given]) + [done];
    RunMore(cfg, FRESH, ins + [given], [done]);
    var log := Log(HistoryOf(cfg, ins));
    var port := match cfg.port case NoPort => None case Fixed(q) => Some(q) case Dynamic => Some(free);
    OneMoreAnswer(cfg, ins, given);
    OneMoreAnswer(cfg, ins + [given], done);
    PortAnswers(cfg, log, free, pid);
    hide *;
    assert log + [PortSet(port)] + [Spawned(pid, port), Inserted(pid), Flushed]
      == log + [PortSet(port), Spawned(pid, port), Inserted(pid), Flushed];
  }
}
