/** What every run of a supervisor keeps, proved from the step machine of `Lifecycle`. */
module LifecycleProofs {
  import opened Domain
  import opened Lifecycle

  // ---------------------------------------------------------------------------------------
  // The machine respects the discipline
  // ---------------------------------------------------------------------------------------

  /** What a view looks like while the supervisor waits at a location. */
  predicate Settled(cfg: Config, t: Task, v: View) {
    var schedule := Schedule(cfg);
    && v.open.None? && !v.dirty && v.seen == v.published && t.port == v.port
    && v.ledger.backoffs <= |schedule|
    && (t.loc.Ended? <==> v.closing) && (v.closing <==> v.shut)
    && match t.loc
       case Outer => Clean(v) && !v.ledger.owed && (v.published.Idle? || v.published.Stopped? || v.published.Failed?)
       case Waiting(d) =>
         && Clean(v) && !v.ledger.owed && v.licensed && t.attempt == v.ledger.backoffs >= 1
         && v.published == Backoff(v.ledger.backoffs, d)
         && d == schedule[v.ledger.backoffs - 1]
         && v.ledger.waited == SumTo(schedule, v.ledger.backoffs - 1)
       case Ended => Clean(v)
       case _ =>
         && !v.ledger.owed && v.licensed && t.attempt == v.ledger.backoffs && v.ledger.waited == SumTo(schedule, v.ledger.backoffs)
         && match t.loc
            case Monitor(pid) =>
              v.published == Healthy && v.running == Some(pid) == v.entry && v.injected == v.port
            case Health(pid) =>
              v.published == Starting && v.running == Some(pid) == v.entry && v.injected == v.port
            case Launching => v.published == Starting && Clean(v) && v.chosen && PortFits(cfg.port, v.port)
            case _ => v.published == Starting && Clean(v)
  }

  predicate TaskInv(cfg: Config, t: Task) {
    Discipline(cfg, t.hist) && Settled(cfg, t, ViewOf(cfg, t.hist))
  }

  lemma {:induction false} FreshInv(cfg: Config)
    ensures TaskInv(cfg, FRESH)
  {
  }

  /** A failure counted from a clean view keeps the discipline. */
  lemma {:induction false} FailKeeps(cfg: Config, attempt: nat, port: Option<nat>, h: History, why: Reason)
    requires
      var v := ViewOf(cfg, h);
      && Discipline(cfg, h)
      && Clean(v) && v.open.None? && !v.dirty && v.seen == v.published && !v.ledger.owed && v.licensed
      && !v.closing && !v.shut
      && (v.published.Starting? || v.published.Healthy?)
      && port == v.port && attempt == v.ledger.backoffs <= |Schedule(cfg)|
      && v.ledger.waited == SumTo(Schedule(cfg), v.ledger.backoffs)
      && (why.Exited? <==> v.published.Healthy?)
    ensures TaskInv(cfg, Fail(cfg, attempt, port, h, why))
  {
    hide ViewOf, Discipline, Then;
  }

  /** A command taken while nothing runs is acknowledged at once. */
  lemma {:induction false} TakeKeeps(cfg: Config, h: History, c: Command)
    requires
      var v := ViewOf(cfg, h);
      && Discipline(cfg, h) && Clean(v)
      && !v.published.Starting? && !v.published.Healthy? && !v.published.Stopping?
      && v.open.None? && !v.closing && !v.shut && !v.dirty && v.seen == v.published
    ensures
      var v, h' := ViewOf(cfg, h), Take(cfg, h, c);
      var go := c.kind.Start? || c.kind.Restart?;
      && Discipline(cfg, h')
      && ViewOf(cfg, h') == v.(licensed := go || (v.licensed && !c.kind.Stop?),
                               closing := c.kind.Shutdown?, shut := c.kind.Shutdown?,
                               ledger := if !go then v.ledger
                                         else v.ledger.(charges := v.ledger.charges + 1, owed := true, backoffs := 0, waited := 0))
  {
    hide ViewOf, Discipline, Then, SumTo;
  }

  /** What the graceful step leaves in the view. */
  function Hooking(cfg: Config, v: View): Option<bool> {
    if cfg.graceful.NoGrace? then v.hooked else Some(HookSent(cfg, v.port))
  }

  /** stop_process takes a running child to a clean, flushed view in state Stopping. */
  lemma {:induction false} StopChildKeeps(cfg: Config, port: Option<nat>, h: History, pid: nat)
    requires
      var v := ViewOf(cfg, h);
      && Discipline(cfg, h) && port == v.port
      && v.running == Some(pid) == v.entry && v.published.Healthy? && v.seen == v.published
      && !v.dirty && v.ledger.backoffs <= |Schedule(cfg)|
    ensures
      var v, h' := ViewOf(cfg, h), StopChild(cfg, port, h, pid);
      && Discipline(cfg, h')
      && ViewOf(cfg, h') == v.(published := Stopping, seen := Stopping, running := None, entry := None,
                               hooked := Hooking(cfg, v))
  {
    hide ViewOf, Discipline, Then, SumTo;
    var v, emitted := ViewOf(cfg, h), Then(cfg, h, Emitted(Stopping));
    assert Discipline(cfg, emitted) && ViewOf(cfg, emitted) == v.(published := Stopping);
    hide MayEmit;
    GraceKeeps(cfg, port, emitted, pid);
  }

  /** The part of stop_process after Stopping was given to the sink. */
  lemma {:induction false} GraceKeeps(cfg: Config, port: Option<nat>, h: History, pid: nat)
    requires
      var v := ViewOf(cfg, h);
      && Discipline(cfg, h) && port == v.port
      && v.running == Some(pid) == v.entry && v.published.Stopping? && !v.dirty
    ensures
      var hooked := Grace(cfg, port, Then(cfg, h, Sent(Stopping)));
      var v, h' := ViewOf(cfg, h), ClearEntry(cfg, Then(cfg, hooked, Killed(pid)));
      && Discipline(cfg, h')
      && ViewOf(cfg, h') == v.(seen := Stopping, running := None, entry := None, hooked := Hooking(cfg, v))
  {
    hide ViewOf, Discipline, Then, MayEmit, HookSent;
    var hooked := Grace(cfg, port, Then(cfg, h, Sent(Stopping)));
    assert Discipline(cfg, hooked);
    assert Discipline(cfg, Then(cfg, hooked, Killed(pid)));
  }

  lemma {:induction false} FeedKeeps(cfg: Config, t: Task, i: Input)
    requires TaskInv(cfg, t) && Accepts(cfg, t.loc, i)
    ensures TaskInv(cfg, Feed(cfg, t, i))
  {
    match t.loc
    case Outer => FeedOuterKeeps(cfg, t, i);
    case Spawning => FeedSpawnKeeps(cfg, t, i);
    case Launching => FeedSpawnKeeps(cfg, t, i);
    case Health(_) => FeedHealthKeeps(cfg, t, i);
    case Monitor(_) => FeedMonitorKeeps(cfg, t, i);
    case Waiting(_) => FeedWaitingKeeps(cfg, t, i);
  }

  lemma {:induction false} FeedOuterKeeps(cfg: Config, t: Task, i: Input)
    requires t.loc.Outer? && TaskInv(cfg, t) && Accepts(cfg, t.loc, i)
    ensures TaskInv(cfg, FeedOuter(cfg, t, i))
  {
    hide ViewOf, Discipline, Then, Take;
    assert SumTo(Schedule(cfg), 0) == 0;
    if i.Cmd? {
      TakeKeeps(cfg, t.hist, i.cmd);
    }
  }

  lemma {:induction false} FeedSpawnKeeps(cfg: Config, t: Task, i: Input)
    requires (t.loc.Spawning? || t.loc.Launching?) && TaskInv(cfg, t) && Accepts(cfg, t.loc, i)
    ensures TaskInv(cfg, FeedSpawn(cfg, t, i))
  {
    hide ViewOf, Discipline, Then, Fail;
    if i.PortDenied? || i.SpawnDenied? {
      FailKeeps(cfg, t.attempt, t.port, t.hist, if i.PortDenied? then PortUnavailable else SpawnError);
    }
  }

  lemma {:induction false} FeedHealthKeeps(cfg: Config, t: Task, i: Input)
    requires t.loc.Health? && TaskInv(cfg, t) && Accepts(cfg, t.loc, i)
    ensures TaskInv(cfg, FeedHealth(cfg, t, i))
  {
    hide ViewOf, Discipline, Then, SumTo, Fail;
    var pid := t.loc.pid;
    if i.ProbePassed? && ProbeCanPass(cfg, t.port) {
    } else if i.Exit? {
      var reaped := Then(cfg, t.hist, Reaped(pid, i.elapsed));
      FailKeeps(cfg, t.attempt, t.port, ClearEntry(cfg, Then(cfg, reaped, Killed(pid))), DiedInHealthCheck(i.code));
    } else {
      FailKeeps(cfg, t.attempt, t.port, ClearEntry(cfg, Then(cfg, t.hist, Killed(pid))), ProbeError);
    }
  }

  lemma {:induction false} FeedMonitorKeeps(cfg: Config, t: Task, i: Input)
    requires t.loc.Monitor? && TaskInv(cfg, t) && Accepts(cfg, t.loc, i)
    ensures TaskInv(cfg, FeedMonitor(cfg, t, i))
  {
    hide ViewOf, Discipline, Then, Fail, StopChild;
    var pid := t.loc.pid;
    assert SumTo(Schedule(cfg), 0) == 0;
    match i
    case Exit(code, elapsed) =>
      var attempt := if Resets(cfg, elapsed) then 0 else t.attempt;
      FailKeeps(cfg, attempt, t.port, ClearEntry(cfg, Then(cfg, t.hist, Reaped(pid, elapsed))), Exited(code));
    case Closed => StopChildKeeps(cfg, t.port, t.hist, pid);
    case Cmd(c) => MonitorCommandKeeps(cfg, t, c);
  }

  lemma {:induction false} MonitorCommandKeeps(cfg: Config, t: Task, c: Command)
    requires t.loc.Monitor? && TaskInv(cfg, t)
    ensures TaskInv(cfg, FeedMonitor(cfg, t, Cmd(c)))
  {
    hide ViewOf, Discipline, Then, StopChild;
    assert SumTo(Schedule(cfg), 0) == 0;
    if !c.kind.Start? {
      StopChildKeeps(cfg, t.port, Then(cfg, t.hist, Consumed(c)), t.loc.pid);
    }
  }

  lemma {:induction false} FeedWaitingKeeps(cfg: Config, t: Task, i: Input)
    requires t.loc.Waiting? && TaskInv(cfg, t) && Accepts(cfg, t.loc, i)
    ensures TaskInv(cfg, FeedWaiting(cfg, t, i))
  {
    hide ViewOf, Discipline, Then, Take;
    assert SumTo(Schedule(cfg), 0) == 0;
    if i.Cmd? {
      TakeKeeps(cfg, t.hist, i.cmd);
    }
  }
}
