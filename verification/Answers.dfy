/**
 What a supervisor does with one more answer of the outside world, read off what it has done so far: no
 location, no counter and no history but the log of its effects. The step machine of `Lifecycle` is
 proved to do exactly this in every run.
 */
module Answers {
  import opened Domain
  import opened Lifecycle
  import opened LifecycleProofs
  import opened LifecycleTheorems

  // ---------------------------------------------------------------------------------------
  // Reading a log
  // ---------------------------------------------------------------------------------------

  /** The state last given to the sink. */
  function StateOf(log: seq<Effect>): State {
    if log == [] then Idle
    else if log[|log| - 1].Emitted? then log[|log| - 1].state
    else StateOf(log[..|log| - 1])
  }

  /** The shared port cell. */
  function PortOf(log: seq<Effect>): Option<nat> {
    if log == [] then None
    else if log[|log| - 1].PortSet? then log[|log| - 1].port
    else PortOf(log[..|log| - 1])
  }

  /** The child spawned last; 0 before the first. */
  function ChildOf(log: seq<Effect>): nat {
    if log == [] then 0
    else if log[|log| - 1].Spawned? then log[|log| - 1].pid
    else ChildOf(log[..|log| - 1])
  }

  /** A Start or Restart, but for a Start taken while Healthy. */
  predicate Charges(log: seq<Effect>, c: Command) {
    c.kind.Restart? || (c.kind.Start? && StateOf(log) != Healthy)
  }

  /** A crash while Healthy, after a run long enough for a fresh schedule. */
  predicate LongRun(cfg: Config, log: seq<Effect>, elapsed: nat) {
    StateOf(log) == Healthy && match cfg.restart case Never => false case OnCrash(_, reset) => elapsed >= reset
  }

  /** The Backoff states published since the schedule last began afresh. */
  function Used(cfg: Config, log: seq<Effect>): nat {
    if log == [] then 0
    else
      var before := log[..|log| - 1];
      match log[|log| - 1]
      case Consumed(c) => if Charges(before, c) then 0 else Used(cfg, before)
      case Reaped(_, elapsed) => if LongRun(cfg, before, elapsed) then 0 else Used(cfg, before)
      case Emitted(st) => Used(cfg, before) + if st.Backoff? then 1 else 0
      case _ => Used(cfg, before)
  }

  // ---------------------------------------------------------------------------------------
  // The answer to the outside world
  // ---------------------------------------------------------------------------------------

  /** A state change: the sink first, then the watch channel. */
  function Shows(st: State): seq<Effect> {
    [Emitted(st), Sent(st)]
  }

  /** A failure with `used` restarts used: the next delay of the schedule, or the end. */
  function Failing(cfg: Config, used: nat, why: Reason): seq<Effect> {
    match cfg.restart
    case Never => Shows(Failed(why))
    case OnCrash(secs, _) => if used < |secs| then Shows(Backoff(used + 1, secs[used])) else Shows(Failed(why))
  }

  /** The child asked to leave, by a signal or a request to its port, then killed and forgotten. */
  function Leaves(cfg: Config, port: Option<nat>, pid: nat): seq<Effect> {
    Shows(Stopping)
    + (match cfg.graceful
       case NoGrace => []
       case Signal => [Hooked(true)]
       case HttpPost => [Hooked(port.Some?)])
    + [Killed(pid), Removed, Flushed]
  }

  function Stops(cfg: Config, log: seq<Effect>): seq<Effect> {
    Leaves(cfg, PortOf(log), ChildOf(log))
  }

  function AnswerCommand(cfg: Config, log: seq<Effect>, c: Command): seq<Effect> {
    [Consumed(c)] +
    if StateOf(log).Healthy? then
      match c.kind
      case Start => [Acked(c)]
      case Restart => Stops(cfg, log) + [Acked(c)] + Shows(Starting)
      case Stop => Stops(cfg, log) + [Acked(c)] + Shows(Stopped)
      case Shutdown => Stops(cfg, log) + [Acked(c)] + Shows(Stopped) + [Returned]
    else
      match c.kind
      case Start => [Acked(c)] + Shows(Starting)
      case Restart => [Acked(c)] + Shows(Starting)
      case Stop => [Acked(c)] + if StateOf(log).Backoff? then Shows(Stopped) else []
      case Shutdown => [Acked(c), Returned]
  }

  /** What happens between the answer i and the next one, after the log so far. */
  function Answer(cfg: Config, log: seq<Effect>, i: Input): seq<Effect> {
    var port, pid := PortOf(log), ChildOf(log);
    match i
    case Cmd(c) => AnswerCommand(cfg, log, c)
    case Closed => (if StateOf(log).Healthy? then Stops(cfg, log) else []) + [Returned]
    case PortDenied => Failing(cfg, Used(cfg, log), PortUnavailable)
    case PortGiven(free) =>
      [PortSet(match cfg.port case NoPort => None case Fixed(p) => Some(p) case Dynamic => Some(free))]
    case SpawnDenied => Failing(cfg, Used(cfg, log), SpawnError)
    case SpawnDone(child) => [Spawned(child, port), Inserted(child), Flushed]
    case ProbePassed =>
      if (cfg.health.Tcp? || cfg.health.Http?) && port.None? then
        [Killed(pid), Removed, Flushed] + Failing(cfg, Used(cfg, log), ProbeError)
      else Shows(Healthy)
    case ProbeFailed => [Killed(pid), Removed, Flushed] + Failing(cfg, Used(cfg, log), ProbeError)
    case Exit(code, elapsed) =>
      if StateOf(log).Healthy? then
        [Reaped(pid, elapsed), Removed, Flushed]
        + Failing(cfg, if LongRun(cfg, log, elapsed) then 0 else Used(cfg, log), Exited(code))
      else
        [Reaped(pid, elapsed), Killed(pid), Removed, Flushed]
        + Failing(cfg, Used(cfg, log), DiedInHealthCheck(code))
    case Timer => (if StateOf(log).Backoff? then [Slept(StateOf(log).delaySecs)] else []) + Shows(Starting)
  }

  /** Whether the supervisor waits for i. */
  predicate WaitsFor(cfg: Config, log: seq<Effect>, i: Input) {
    if log == [] then i.Cmd? || i.Closed?
    else
      var last := log[|log| - 1];
      if last.Returned? then false
      else match StateOf(log)
        case Starting =>
          if last.Sent? then i.PortGiven? || (i.PortDenied? && cfg.port != NoPort)
          else if last.PortSet? then i.SpawnDenied? || i.SpawnDone?
          else i.ProbePassed? || i.ProbeFailed? || i.Exit?
        case Healthy => i.Exit? || i.Cmd? || i.Closed?
        case Backoff(_, _) => i.Timer? || i.Cmd? || i.Closed?
        case _ => i.Cmd? || i.Closed?
  }

  /** Each answer comes where the supervisor waits for it. */
  predicate WaitsForAll(cfg: Config, log: seq<Effect>, ins: seq<Input>)
    decreases |ins|
  {
    ins == [] || (WaitsFor(cfg, log, ins[0]) && WaitsForAll(cfg, log + Answer(cfg, log, ins[0]), ins[1..]))
  }

  /** The log after all the answers, one after the other. */
  function Told(cfg: Config, log: seq<Effect>, ins: seq<Input>): seq<Effect>
    decreases |ins|
  {
    if ins == [] then log else Told(cfg, log + Answer(cfg, log, ins[0]), ins[1..])
  }

  // ---------------------------------------------------------------------------------------
  // The log shows what the machine keeps
  // ---------------------------------------------------------------------------------------

  lemma {:induction false} LogGrows(h: History, e: Effect)
    ensures Log(After(h, e)) == Log(h) + [e] && Log(After(h, e))[..|Log(h)|] == Log(h)
  {
  }

  lemma {:induction false} StateStep(cfg: Config, v: View, e: Effect)
    ensures See(cfg, v, e).published == if e.Emitted? then e.state else v.published
    ensures See(cfg, v, e).port == if e.PortSet? then e.port else v.port
    ensures See(cfg, v, e).running.Some? ==> See(cfg, v, e).running == if e.Spawned? then Some(e.pid) else v.running
  {
    hide Booked;
  }

  lemma {:induction false} LedgerStep(cfg: Config, v: View, e: Effect, log: seq<Effect>)
    requires v.published == StateOf(log) && v.ledger.backoffs == Used(cfg, log)
    ensures See(cfg, v, e).ledger.backoffs == Used(cfg, log + [e])
  {
    assert (log + [e])[..|log|] == log;
  }

  /** State, port, child and restarts used can be read off the log. */
  lemma {:induction false} LogShows(cfg: Config, h: History)
    ensures
      var v, log := ViewOf(cfg, h), Log(h);
      && v.published == StateOf(log) && v.port == PortOf(log) && v.ledger.backoffs == Used(cfg, log)
      && (v.running.Some? ==> v.running.value == ChildOf(log))
  {
    hide See, Used;
    if h.After? {
      LogShows(cfg, h.before);
      LogGrows(h.before, h.effect);
      StateStep(cfg, ViewOf(cfg, h.before), h.effect);
      LedgerStep(cfg, ViewOf(cfg, h.before), h.effect, Log(h.before));
    } else {
      NothingUsed(cfg);
    }
  }

  lemma {:induction false} NothingUsed(cfg: Config)
    ensures Used(cfg, []) == 0 && BLANK.ledger.backoffs == 0 && BLANK.published.Idle? && BLANK.port.None?
  {
  }

  // ---------------------------------------------------------------------------------------
  // One answer
  // ---------------------------------------------------------------------------------------

  /** h' is h with the effects es added. */
  predicate Grows(h: History, h': History, es: seq<Effect>) {
    Log(h') == Log(h) + es
  }

  lemma {:induction false} GrowsNot(h: History)
    ensures Grows(h, h, [])
  {
  }

  lemma {:induction false} GrowsThen(cfg: Config, h: History, h': History, es: seq<Effect>, e: Effect)
    requires Grows(h, h', es)
    ensures Grows(h, Then(cfg, h', e), es + [e])
  {
  }

  lemma {:induction false} GrowsSay(cfg: Config, h: History, h': History, es: seq<Effect>, st: State)
    requires Grows(h, h', es)
    ensures Grows(h, Say(cfg, h', st), es + Shows(st))
  {
    hide ViewOf, Discipline;
    GrowsThen(cfg, h, h', es, Emitted(st));
    GrowsThen(cfg, h, Then(cfg, h', Emitted(st)), es + [Emitted(st)], Sent(st));
    assert es + [Emitted(st)] + [Sent(st)] == es + Shows(st);
  }

  lemma {:induction false} GrowsClear(cfg: Config, h: History, h': History, es: seq<Effect>)
    requires Grows(h, h', es)
    ensures Grows(h, ClearEntry(cfg, h'), es + [Removed, Flushed])
  {
    hide ViewOf, Discipline;
    GrowsThen(cfg, h, h', es, Removed);
    GrowsThen(cfg, h, Then(cfg, h', Removed), es + [Removed], Flushed);
    assert es + [Removed] + [Flushed] == es + [Removed, Flushed];
  }

  lemma {:induction false} GrowsFail(cfg: Config, h: History, h': History, es: seq<Effect>, used: nat, port: Option<nat>, why: Reason)
    requires Grows(h, h', es)
    ensures Grows(h, Fail(cfg, used, port, h', why).hist, es + Failing(cfg, used, why))
  {
    hide ViewOf, Discipline, Say, Grows;
    var schedule := Schedule(cfg);
    GrowsSay(cfg, h, h', es, if used < |schedule| then Backoff(used + 1, schedule[used]) else Failed(why));
  }

  lemma {:induction false} GrowsStop(cfg: Config, h: History, h': History, es: seq<Effect>, port: Option<nat>, pid: nat)
    requires Grows(h, h', es)
    ensures Grows(h, StopChild(cfg, port, h', pid), es + Leaves(cfg, port, pid))
  {
    hide ViewOf, Discipline, Grows, Say, ClearEntry, Then;
    var stopping := Say(cfg, h', Stopping);
    var es1 := es + Shows(Stopping);
    GrowsSay(cfg, h, h', es, Stopping);
    var sent := cfg.graceful.Signal? || port.Some?;
    var es2 := if cfg.graceful.NoGrace? then es1 else es1 + [Hooked(sent)];
    GrowsThen(cfg, h, stopping, es1, Hooked(sent));
    var graced := Grace(cfg, port, stopping);
    assert Grows(h, graced, es2);
    GrowsThen(cfg, h, graced, es2, Killed(pid));
    GrowsClear(cfg, h, Then(cfg, graced, Killed(pid)), es2 + [Killed(pid)]);
    assert es2 + [Killed(pid)] + [Removed, Flushed] == es + Leaves(cfg, port, pid);
  }

  /** The task is where its log says. */
  ghost predicate Located(cfg: Config, t: Task) {
    TaskInv(cfg, t) && LastFits(t)
  }

  /** What a task did last, where it waits. */
  predicate LastFits(t: Task) {
    match t.loc
    case Spawning => t.hist.After? && t.hist.effect == Sent(Starting)
    case Launching => t.hist.After? && t.hist.effect.PortSet?
    case Health(_) => t.hist.After? && t.hist.effect.Flushed?
    case Ended => t.hist.After? && t.hist.effect.Returned?
    case _ => t.hist.After? ==> !t.hist.effect.Returned?
  }

  lemma {:induction false} FeedLast(cfg: Config, t: Task, i: Input)
    requires Accepts(cfg, t.loc, i)
    ensures LastFits(Feed(cfg, t, i))
  {
    hide ViewOf, Discipline;
  }

  lemma {:induction false} AnswersOuter(cfg: Config, t: Task, i: Input)
    requires TaskInv(cfg, t) && t.loc.Outer? && Accepts(cfg, t.loc, i)
    ensures Grows(t.hist, FeedOuter(cfg, t, i).hist, Answer(cfg, Log(t.hist), i))
  {
    OuterShows(cfg, t);
    hide TaskInv, Grows, Then, Say, StateOf, PortOf, ChildOf, Used;
    GrowsNot(t.hist);
    if i.Closed? {
      GrowsThen(cfg, t.hist, t.hist, [], Returned);
    } else {
      AnswersFirst(cfg, t, i.cmd);
    }
  }

  lemma {:induction false} OuterShows(cfg: Config, t: Task)
    requires TaskInv(cfg, t) && t.loc.Outer?
    ensures !StateOf(Log(t.hist)).Healthy? && !StateOf(Log(t.hist)).Backoff?
  {
    LogShows(cfg, t.hist);
    hide ViewOf, Discipline, Used;
  }

  /** A command while nothing runs. */
  lemma {:induction false} AnswersFirst(cfg: Config, t: Task, c: Command)
    requires t.loc.Outer? && !StateOf(Log(t.hist)).Healthy? && !StateOf(Log(t.hist)).Backoff?
    ensures Grows(t.hist, FeedOuter(cfg, t, Cmd(c)).hist, Answer(cfg, Log(t.hist), Cmd(c)))
  {
    hide ViewOf, Discipline, Grows, Then, Say, StateOf, PortOf, ChildOf;
    var h, es := t.hist, [Consumed(c), Acked(c)];
    GrowsTake(cfg, h, c);
    var taken := Take(cfg, h, c);
    hide Take;
    if c.kind.Stop? {
      assert es == [Consumed(c)] + ([Acked(c)] + []);
    } else if c.kind.Shutdown? {
      GrowsThen(cfg, h, taken, es, Returned);
      assert es + [Returned] == [Consumed(c)] + [Acked(c), Returned];
    } else {
      GrowsSay(cfg, h, taken, es, Starting);
      assert es + Shows(Starting) == [Consumed(c)] + ([Acked(c)] + Shows(Starting));
    }
  }

  lemma {:induction false} GrowsTake(cfg: Config, h: History, c: Command)
    ensures Grows(h, Take(cfg, h, c), [Consumed(c), Acked(c)])
  {
    hide ViewOf, Discipline;
    GrowsNot(h);
    GrowsThen(cfg, h, h, [], Consumed(c));
    GrowsThen(cfg, h, Then(cfg, h, Consumed(c)), [] + [Consumed(c)], Acked(c));
    assert [] + [Consumed(c)] + [Acked(c)] == [Consumed(c), Acked(c)];
  }

  lemma {:induction false} AnswersWaiting(cfg: Config, t: Task, i: Input)
    requires TaskInv(cfg, t) && t.loc.Waiting? && Accepts(cfg, t.loc, i)
    ensures Grows(t.hist, FeedWaiting(cfg, t, i).hist, Answer(cfg, Log(t.hist), i))
  {
    WaitingShows(cfg, t);
    hide TaskInv, Grows, Then, Say, StateOf, PortOf, ChildOf, Used;
    var h, log := t.hist, Log(t.hist);
    GrowsNot(h);
    if i.Timer? {
      var slept := Then(cfg, h, Slept(t.loc.delay));
      GrowsThen(cfg, h, h, [], Slept(t.loc.delay));
      GrowsSay(cfg, h, slept, [] + [Slept(t.loc.delay)], Starting);
      assert [] + [Slept(t.loc.delay)] == [Slept(t.loc.delay)];
    } else if i.Closed? {
      GrowsThen(cfg, h, h, [], Returned);
    } else {
      AnswersInBackoff(cfg, t, i.cmd);
    }
  }

  lemma {:induction false} WaitingShows(cfg: Config, t: Task)
    requires TaskInv(cfg, t) && t.loc.Waiting?
    ensures StateOf(Log(t.hist)).Backoff? && StateOf(Log(t.hist)).delaySecs == t.loc.delay
  {
    LogShows(cfg, t.hist);
    hide ViewOf, Discipline, Used;
  }

  /** A command during backoff. */
  lemma {:induction false} AnswersInBackoff(cfg: Config, t: Task, c: Command)
    requires t.loc.Waiting? && StateOf(Log(t.hist)).Backoff?
    ensures Grows(t.hist, FeedWaiting(cfg, t, Cmd(c)).hist, Answer(cfg, Log(t.hist), Cmd(c)))
  {
    hide ViewOf, Discipline, Grows, Then, Say, StateOf, PortOf, ChildOf;
    var h, es := t.hist, [Consumed(c), Acked(c)];
    GrowsTake(cfg, h, c);
    var taken := Take(cfg, h, c);
    hide Take;
    if c.kind.Stop? {
      GrowsSay(cfg, h, taken, es, Stopped);
      assert es + Shows(Stopped) == [Consumed(c)] + ([Acked(c)] + Shows(Stopped));
    } else if c.kind.Shutdown? {
      GrowsThen(cfg, h, taken, es, Returned);
      assert es + [Returned] == [Consumed(c)] + [Acked(c), Returned];
    } else {
      GrowsSay(cfg, h, taken, es, Starting);
      assert es + Shows(Starting) == [Consumed(c)] + ([Acked(c)] + Shows(Starting));
    }
  }

  lemma {:induction false} AnswersSpawn(cfg: Config, t: Task, i: Input)
    requires TaskInv(cfg, t) && (t.loc.Spawning? || t.loc.Launching?) && Accepts(cfg, t.loc, i)
    ensures Grows(t.hist, FeedSpawn(cfg, t, i).hist, Answer(cfg, Log(t.hist), i))
  {
    LogShows(cfg, t.hist);
    hide ViewOf, Discipline, Grows, Then, Fail, Failing, Used;
    var h, log := t.hist, Log(t.hist);
    GrowsNot(h);
    if i.PortGiven? {
      GrowsThen(cfg, h, h, [], PortSet(ChosenPort(cfg, i.free)));
      assert [] + [PortSet(ChosenPort(cfg, i.free))] == Answer(cfg, log, i);
    } else if i.SpawnDone? {
      var spawned := Then(cfg, h, Spawned(i.pid, t.port));
      GrowsThen(cfg, h, h, [], Spawned(i.pid, t.port));
      GrowsThen(cfg, h, spawned, [] + [Spawned(i.pid, t.port)], Inserted(i.pid));
      GrowsThen(cfg, h, Then(cfg, spawned, Inserted(i.pid)), [] + [Spawned(i.pid, t.port)] + [Inserted(i.pid)], Flushed);
      assert [] + [Spawned(i.pid, t.port)] + [Inserted(i.pid)] + [Flushed] == Answer(cfg, log, i);
    } else {
      var why := if i.PortDenied? then PortUnavailable else SpawnError;
      GrowsFail(cfg, h, h, [], t.attempt, t.port, why);
      assert [] + Failing(cfg, t.attempt, why) == Answer(cfg, log, i);
    }
  }

  lemma {:induction false} AnswersHealth(cfg: Config, t: Task, i: Input)
    requires TaskInv(cfg, t) && t.loc.Health? && Accepts(cfg, t.loc, i)
    ensures Grows(t.hist, FeedHealth(cfg, t, i).hist, Answer(cfg, Log(t.hist), i))
  {
    LogShows(cfg, t.hist);
    hide ViewOf, Discipline, Grows, Then, Say, ClearEntry, Fail, Failing, Used;
    var h, log, pid := t.hist, Log(t.hist), t.loc.pid;
    GrowsNot(h);
    if i.ProbePassed? && ProbeCanPass(cfg, t.port) {
      GrowsSay(cfg, h, h, [], Healthy);
      assert [] + Shows(Healthy) == Answer(cfg, log, i);
    } else if i.Exit? {
      var reaped, es := Then(cfg, h, Reaped(pid, i.elapsed)), [] + [Reaped(pid, i.elapsed)];
      var killed, es' := Then(cfg, reaped, Killed(pid)), es + [Killed(pid)];
      GrowsThen(cfg, h, h, [], Reaped(pid, i.elapsed));
      GrowsThen(cfg, h, reaped, es, Killed(pid));
      GrowsClear(cfg, h, killed, es');
      GrowsFail(cfg, h, ClearEntry(cfg, killed), es' + [Removed, Flushed], t.attempt, t.port, DiedInHealthCheck(i.code));
      assert es' + [Removed, Flushed] == [Reaped(pid, i.elapsed), Killed(pid), Removed, Flushed];
    } else {
      var killed, es := Then(cfg, h, Killed(pid)), [] + [Killed(pid)];
      GrowsThen(cfg, h, h, [], Killed(pid));
      GrowsClear(cfg, h, killed, es);
      GrowsFail(cfg, h, ClearEntry(cfg, killed), es + [Removed, Flushed], t.attempt, t.port, ProbeError);
      assert es + [Removed, Flushed] == [Killed(pid), Removed, Flushed];
    }
  }

  lemma {:induction false} AnswersMonitor(cfg: Config, t: Task, i: Input)
    requires TaskInv(cfg, t) && t.loc.Monitor? && Accepts(cfg, t.loc, i)
    ensures Grows(t.hist, FeedMonitor(cfg, t, i).hist, Answer(cfg, Log(t.hist), i))
  {
    LogShows(cfg, t.hist);
    hide ViewOf, Discipline, Grows, Then, Say, ClearEntry, StopChild, Leaves, Fail, Failing, Used;
    var h, log, pid := t.hist, Log(t.hist), t.loc.pid;
    GrowsNot(h);
    if i.Exit? {
      var reaped, es := Then(cfg, h, Reaped(pid, i.elapsed)), [] + [Reaped(pid, i.elapsed)];
      GrowsThen(cfg, h, h, [], Reaped(pid, i.elapsed));
      GrowsClear(cfg, h, reaped, es);
      var used := if Resets(cfg, i.elapsed) then 0 else t.attempt;
      GrowsFail(cfg, h, ClearEntry(cfg, reaped), es + [Removed, Flushed], used, t.port, Exited(i.code));
      assert es + [Removed, Flushed] == [Reaped(pid, i.elapsed), Removed, Flushed];
    } else if i.Closed? {
      GrowsStop(cfg, h, h, [], t.port, pid);
      GrowsThen(cfg, h, StopChild(cfg, t.port, h, pid), [] + Stops(cfg, log), Returned);
      assert [] + Stops(cfg, log) + [Returned] == Answer(cfg, log, i);
    } else if i.cmd.kind.Start? {
      GrowsTake(cfg, h, i.cmd);
      assert [Consumed(i.cmd), Acked(i.cmd)] == Answer(cfg, log, i);
    } else {
      AnswersStop(cfg, t, i.cmd);
    }
  }

  /** A Stop, Restart or Shutdown while Healthy. */
  lemma {:induction false} AnswersStop(cfg: Config, t: Task, c: Command)
    requires TaskInv(cfg, t) && t.loc.Monitor? && !c.kind.Start?
    ensures Grows(t.hist, FeedMonitor(cfg, t, Cmd(c)).hist, Answer(cfg, Log(t.hist), Cmd(c)))
  {
    hide *;
    var h, log, pid := t.hist, Log(t.hist), t.loc.pid;
    MonitorShows(cfg, t);
    var consumed, es := Then(cfg, h, Consumed(c)), [] + [Consumed(c)];
    GrowsNot(h);
    GrowsThen(cfg, h, h, [], Consumed(c));
    GrowsStop(cfg, h, consumed, es, t.port, pid);
    var left := StopChild(cfg, t.port, consumed, pid);
    var leaves := Leaves(cfg, t.port, pid);
    GrowsThen(cfg, h, left, es + leaves, Acked(c));
    AnswersStopped(cfg, t, c, Then(cfg, left, Acked(c)), leaves);
  }

  /** Where a healthy child is monitored, the log shows its port and its pid. */
  lemma {:induction false} MonitorShows(cfg: Config, t: Task)
    requires TaskInv(cfg, t) && t.loc.Monitor?
    ensures StateOf(Log(t.hist)).Healthy? && Stops(cfg, Log(t.hist)) == Leaves(cfg, t.port, t.loc.pid)
  {
    LogShows(cfg, t.hist);
    hide ViewOf, Discipline, Used;
  }

  lemma {:induction false} AnswersStopped(cfg: Config, t: Task, c: Command, stopped: History, leaves: seq<Effect>)
    requires t.loc.Monitor? && !c.kind.Start? && StateOf(Log(t.hist)).Healthy?
    requires stopped == Then(cfg, StopChild(cfg, t.port, Then(cfg, t.hist, Consumed(c)), t.loc.pid), Acked(c))
    requires leaves == Stops(cfg, Log(t.hist)) && Grows(t.hist, stopped, [] + [Consumed(c)] + leaves + [Acked(c)])
    ensures Grows(t.hist, FeedMonitor(cfg, t, Cmd(c)).hist, Answer(cfg, Log(t.hist), Cmd(c)))
  {
    hide ViewOf, Discipline, Grows, Then, Say, StopChild, Stops, StateOf;
    var h, es := t.hist, [] + [Consumed(c)] + leaves + [Acked(c)];
    if c.kind.Restart? {
      GrowsSay(cfg, h, stopped, es, Starting);
      assert es + Shows(Starting) == [Consumed(c)] + (leaves + [Acked(c)] + Shows(Starting));
    } else if c.kind.Stop? {
      GrowsSay(cfg, h, stopped, es, Stopped);
      assert es + Shows(Stopped) == [Consumed(c)] + (leaves + [Acked(c)] + Shows(Stopped));
    } else {
      GrowsSay(cfg, h, stopped, es, Stopped);
      GrowsThen(cfg, h, Say(cfg, stopped, Stopped), es + Shows(Stopped), Returned);
      assert es + Shows(Stopped) + [Returned] == [Consumed(c)] + (leaves + [Acked(c)] + Shows(Stopped) + [Returned]);
    }
  }

  lemma {:induction false} FeedAnswers(cfg: Config, t: Task, i: Input)
    requires TaskInv(cfg, t) && Accepts(cfg, t.loc, i)
    ensures Grows(t.hist, Feed(cfg, t, i).hist, Answer(cfg, Log(t.hist), i))
  {
    hide TaskInv, Grows, Answer, FeedOuter, FeedSpawn, FeedHealth, FeedMonitor, FeedWaiting;
    match t.loc
    case Outer => AnswersOuter(cfg, t, i);
    case Spawning => AnswersSpawn(cfg, t, i);
    case Launching => AnswersSpawn(cfg, t, i);
    case Health(_) => AnswersHealth(cfg, t, i);
    case Monitor(_) => AnswersMonitor(cfg, t, i);
    case Waiting(_) => AnswersWaiting(cfg, t, i);
  }

  /** What a task waits for can be read off its log. */
  lemma {:induction false} AcceptsWaited(cfg: Config, t: Task, i: Input)
    requires Located(cfg, t)
    ensures Accepts(cfg, t.loc, i) <==> WaitsFor(cfg, Log(t.hist), i)
  {
    LogShows(cfg, t.hist);
    hide ViewOf, Discipline;
    LastInLog(t.hist);
  }

  lemma {:induction false} LastInLog(h: History)
    ensures if h.Empty? then Log(h) == [] else Log(h) != [] && Log(h)[|Log(h)| - 1] == h.effect
  {
  }

  // ---------------------------------------------------------------------------------------
  // All runs
  // ---------------------------------------------------------------------------------------

  lemma {:induction false} FeedLocated(cfg: Config, t: Task, i: Input)
    requires Located(cfg, t) && Accepts(cfg, t.loc, i)
    ensures Located(cfg, Feed(cfg, t, i))
    ensures Log(Feed(cfg, t, i).hist) == Log(t.hist) + Answer(cfg, Log(t.hist), i)
  {
    hide TaskInv, Feed, Accepts, Answer, LastFits;
    FeedKeeps(cfg, t, i);
    FeedLast(cfg, t, i);
    FeedAnswers(cfg, t, i);
  }

  lemma {:induction false} FreshIsLocated(cfg: Config)
    ensures Located(cfg, FRESH) && Log(FRESH.hist) == []
  {
    FreshInv(cfg);
  }

  lemma {:induction false} RunTold(cfg: Config, t: Task, ins: seq<Input>)
    requires Located(cfg, t)
    ensures Fits(cfg, t, ins) <==> WaitsForAll(cfg, Log(t.hist), ins)
    ensures Fits(cfg, t, ins) ==>
      Located(cfg, RunFrom(cfg, t, ins)) && Log(RunFrom(cfg, t, ins).hist) == Told(cfg, Log(t.hist), ins)
    decreases |ins|
  {
    hide Located, Feed, Accepts, Answer, WaitsFor;
    if ins != [] {
      AcceptsWaited(cfg, t, ins[0]);
      if Accepts(cfg, t.loc, ins[0]) {
        FeedLocated(cfg, t, ins[0]);
        RunTold(cfg, Feed(cfg, t, ins[0]), ins[1..]);
      }
    }
  }

  /**
   The log decides. A sequence of answers is a run of the machine if and only if each of them is one
   that the log up to there waits for; and what the supervisor does in that run is told by the log alone.
   */
  lemma {:induction false} LogDecides(cfg: Config, ins: seq<Input>)
    ensures Fits(cfg, FRESH, ins) <==> WaitsForAll(cfg, [], ins)
    ensures Fits(cfg, FRESH, ins) ==> Log(HistoryOf(cfg, ins)) == Told(cfg, [], ins)
  {
    FreshIsLocated(cfg);
    hide Located, Fits, RunFrom, WaitsForAll, Told;
    RunTold(cfg, FRESH, ins);
  }

  lemma {:induction false} RunMore(cfg: Config, t: Task, xs: seq<Input>, ys: seq<Input>)
    ensures Fits(cfg, t, xs + ys) <==> Fits(cfg, t, xs) && Fits(cfg, RunFrom(cfg, t, xs), ys)
    ensures Fits(cfg, t, xs + ys) ==> RunFrom(cfg, t, xs + ys) == RunFrom(cfg, RunFrom(cfg, t, xs), ys)
    decreases |xs|
  {
    hide Feed, Accepts;
    if xs == [] {
      assert xs + ys == ys;
    } else {
      assert (xs + ys)[0] == xs[0] && (xs + ys)[1..] == xs[1..] + ys;
      if Accepts(cfg, t.loc, xs[0]) {
        RunMore(cfg, Feed(cfg, t, xs[0]), xs[1..], ys);
      }
    }
  }

  /** One answer more, after any run. */
  lemma {:induction false} OneMoreAnswer(cfg: Config, ins: seq<Input>, i: Input)
    requires Fits(cfg, FRESH, ins)
    ensures Fits(cfg, FRESH, ins + [i]) <==> WaitsFor(cfg, Log(HistoryOf(cfg, ins)), i)
    ensures Fits(cfg, FRESH, ins + [i]) ==>
      var log := Log(HistoryOf(cfg, ins));
      Log(HistoryOf(cfg, ins + [i])) == log + Answer(cfg, log, i)
  {
    FreshIsLocated(cfg);
    RunMore(cfg, FRESH, ins, [i]);
    RunTold(cfg, FRESH, ins);
    var t := RunFrom(cfg, FRESH, ins);
    RunTold(cfg, t, [i]);
    OneWaited(cfg, Log(t.hist), i);
    hide *;
  }

  lemma {:induction false} OneWaited(cfg: Config, log: seq<Effect>, i: Input)
    ensures WaitsForAll(cfg, log, [i]) <==> WaitsFor(cfg, log, i)
    ensures Told(cfg, log, [i]) == log + Answer(cfg, log, i)
  {
    hide WaitsFor, Answer;
    assert [i][1..] == [];
    assert Told(cfg, log + Answer(cfg, log, i), []) == log + Answer(cfg, log, i);
  }
}
