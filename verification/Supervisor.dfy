/**
 The supervisor task in the shape of the program: nested loops over mutable fields. Every method
 is proved to perform exactly the effects that the step machine of `Lifecycle` plans.
 */
module SupervisorTask {
  import opened Domain
  import opened Lifecycle
  import opened LifecycleTheorems
  import opened Answers

  /** How backoff_or_fail ended. `Suspended`: the task still waits when the answers run out. */
  datatype Outcome = Retry | GaveUp | Quit | Suspended

  class Supervisor {
    const cfg: Config
    /** Value of the watch channel. */
    var watch: State
    /** The shared port cell. */
    var port: Option<nat>
    /** What the task did so far. */
    var hist: History
    /** What the outside world will answer, in order. */
    var answers: seq<Input>
    /** The machine, fed with every answer used so far. */
    ghost var task: Task

    constructor (cfg: Config, answers: seq<Input>)
      requires Fits(cfg, FRESH, answers)
      ensures this.cfg == cfg && this.answers == answers && hist == Empty && task == FRESH
      ensures watch == Idle && port == None
    {
      this.cfg := cfg;
      this.answers := answers;
      watch := Idle;
      port := None;
      hist := Empty;
      task := FRESH;
    }

    /** The run the machine predicts from here. */
    ghost function Target(): Task
      reads this
      requires Fits(cfg, task, answers)
    {
      RunFrom(cfg, task, answers)
    }

    /** The machine waits for the next answer where it should. */
    ghost predicate Consistent()
      reads this
    {
      Fits(cfg, task, answers) && port == task.port && watch == ViewOf(cfg, hist).seen
    }

    method Perform(e: Effect)
      requires !e.Sent?
      modifies this`hist
      ensures hist == Then(cfg, old(hist), e) && Log(hist) == Log(old(hist)) + [e]
      ensures ViewOf(cfg, hist).seen == ViewOf(cfg, old(hist)).seen
    {
      hist := Then(cfg, hist, e);
    }

    /** set_state */
    method SetState(state: State)
      modifies this`hist, this`watch
      ensures hist == Say(cfg, old(hist), state) && Log(hist) == Log(old(hist)) + [Emitted(state), Sent(state)]
      ensures watch == state == ViewOf(cfg, hist).seen
    {
      hist := Then(cfg, Then(cfg, hist, Emitted(state)), Sent(state));
      watch := state;
    }

    /** Takes the next answer of the outside world and feeds it to the machine. */
    method Await() returns (i: Input)
      requires Consistent() && answers != []
      modifies this`answers, this`task
      ensures i == old(answers)[0] && Accepts(cfg, old(task).loc, i)
      ensures answers == old(answers)[1..] && task == Feed(cfg, old(task), i)
      ensures Fits(cfg, task, answers) && Target() == old(Target())
    {
      i := answers[0];
      task := Feed(cfg, task, i);
      answers := answers[1..];
    }

    method ClearEntryOf()
      requires watch == ViewOf(cfg, hist).seen
      modifies this`hist
      ensures hist == ClearEntry(cfg, old(hist))
      ensures watch == ViewOf(cfg, hist).seen
    {
      Perform(Removed);
      Perform(Flushed);
    }

    /** stop_process: the graceful step, and then the kill. */
    method StopProcess(pid: nat)
      modifies this`hist, this`watch
      ensures hist == StopChild(cfg, port, old(hist), pid)
      ensures watch == ViewOf(cfg, hist).seen
      ensures Log(hist) == Log(old(hist)) + Leaves(cfg, port, pid)
    {
      GrowsNot(hist);
      GrowsStop(cfg, hist, hist, [], port, pid);
      assert [] + Leaves(cfg, port, pid) == Leaves(cfg, port, pid);
      hide Log, Leaves;
      SetState(Stopping);
      match cfg.graceful {
        case NoGrace =>
        case Signal => Perform(Hooked(true));
        case HttpPost => Perform(Hooked(port.Some?));
      }
      Perform(Killed(pid));
      ClearEntryOf();
    }

    /** backoff_or_fail */
    method BackoffOrFail(attempt: nat, why: Reason) returns (attempt': nat, outcome: Outcome)
      requires task == Fail(cfg, attempt, port, hist, why) && Consistent()
      modifies this`hist, this`watch, this`answers, this`task
      ensures Consistent() && Target() == old(Target()) && |answers| <= |old(answers)|
      ensures outcome.Suspended? ==> answers == [] && hist == task.hist
      ensures outcome.GaveUp? ==> task.loc.Outer? && hist == task.hist
      ensures outcome.Quit? ==> task.loc.Ended? && Then(cfg, hist, Returned) == task.hist
      ensures outcome.Retry? ==> task == Go(cfg, attempt', port, hist)
      ensures Log(old(hist)) + Failing(cfg, attempt, why) <= Log(hist)
      ensures cfg.restart.Never? ==> outcome.GaveUp? && Log(hist) == Log(old(hist)) + [Emitted(Failed(why)), Sent(Failed(why))]
    {
      hide ViewOf, Discipline, Allowed, Log, Say;
      attempt' := attempt;
      GrowsNot(hist);
      GrowsFail(cfg, hist, hist, [], attempt, port, why);
      assert [] + Failing(cfg, attempt, why) == Failing(cfg, attempt, why);
      var schedule := Schedule(cfg);
      if attempt >= |schedule| {
        SetState(Failed(why));
        return attempt', GaveUp;
      }
      SetState(Backoff(attempt + 1, schedule[attempt]));
      attempt' := attempt + 1;
      if answers == [] {
        return attempt', Suspended;
      }
      var i := Await();
      match i {
        case Timer =>
          Perform(Slept(schedule[attempt]));
          outcome := Retry;
        case Closed =>
          outcome := Quit;
        case Cmd(c) =>
          Perform(Consumed(c));
          Perform(Acked(c));
          match c.kind {
            case Stop =>
              SetState(Stopped);
              outcome := GaveUp;
            case Shutdown =>
              outcome := Quit;
            case _ =>
              attempt' := 0;
              outcome := Retry;
          }
      }
    }

    /** spawn_once and the recording of the child. */
    method SpawnOnce() returns (result: Option<Result<nat, Reason>>)
      requires task.loc.Spawning? && hist == task.hist && Consistent()
      modifies this`hist, this`port, this`answers, this`task
      ensures Consistent() && Target() == old(Target()) && |answers| <= |old(answers)|
      ensures result.None? ==> answers == [] && hist == task.hist
      ensures result.Some? ==> |answers| < |old(answers)|
      ensures result.Some? && result.value.Ok? ==>
        task == old(task).(loc := Health(result.value.value), port := port, hist := hist)
      ensures result.Some? && result.value.Ok? ==>
        && |old(answers)| >= 2 && old(answers)[0].PortGiven? && old(answers)[1] == SpawnDone(result.value.value)
        && port == (match cfg.port case NoPort => None case Fixed(p) => Some(p) case Dynamic => Some(old(answers)[0].free))
        && Log(hist) == Log(old(hist)) + [PortSet(port), Spawned(result.value.value, port), Inserted(result.value.value), Flushed]
      ensures result.Some? && result.value.Err? ==>
        task == Fail(cfg, old(task).attempt, port, hist, result.value.error)
    {
      hide ViewOf, Discipline, Allowed, Say;
      if answers == [] {
        return None;
      }
      var i := Await();
      if i.PortDenied? {
        return Some(Err(PortUnavailable));
      }
      port := ChosenPort(cfg, i.free);
      Perform(PortSet(port));
      if answers == [] {
        return None;
      }
      i := Await();
      if i.SpawnDenied? {
        return Some(Err(SpawnError));
      }
      Perform(Spawned(i.pid, port));
      Perform(Inserted(i.pid));
      Perform(Flushed);
      result := Some(Ok(i.pid));
    }

    /** wait_healthy; on failure the child is killed and its entry cleared. */
    method WaitHealthy(pid: nat) returns (result: Option<Result<(), Reason>>)
      requires task.loc == Health(pid) && hist == task.hist && Consistent()
      modifies this`hist, this`answers, this`task
      ensures Consistent() && Target() == old(Target()) && |answers| <= |old(answers)|
      ensures result.None? ==> answers == [] && hist == task.hist
      ensures result.Some? ==> |answers| < |old(answers)|
      ensures result.Some? && result.value.Ok? ==>
        hist == old(hist) && task == old(task).(loc := Monitor(pid), hist := Say(cfg, hist, Healthy))
      ensures result.Some? && result.value.Err? ==>
        task == Fail(cfg, old(task).attempt, port, hist, result.value.error)
      ensures result.Some? && result.value.Err? ==>
        result.value.error.ProbeError? || result.value.error.DiedInHealthCheck?
      ensures result.Some? && result.value == Err(ProbeError) ==>
        hist == ClearEntry(cfg, Then(cfg, old(hist), Killed(pid)))
      ensures result.Some? && result.value.Err? && result.value.error.DiedInHealthCheck? ==>
        exists elapsed :: hist == ClearEntry(cfg, Then(cfg, Then(cfg, old(hist), Reaped(pid, elapsed)), Killed(pid)))
    {
      hide ViewOf, Discipline, Allowed, Say;
      if answers == [] {
        return None;
      }
      var i := Await();
      if i.ProbePassed? && ProbeCanPass(cfg, port) {
        return Some(Ok(()));
      }
      var why := ProbeError;
      if i.Exit? {
        Perform(Reaped(pid, i.elapsed));
        why := DiedInHealthCheck(i.code);
      }
      Perform(Killed(pid));
      ClearEntryOf();
      result := Some(Err(why));
    }

    /** The inner loop of active_loop: crash against command, for one healthy child. */
    method MonitorChild(pid: nat, attempt: nat) returns (attempt': nat, outcome: Outcome)
      requires task.loc == Monitor(pid) && task.attempt == attempt && hist == task.hist && Consistent()
      modifies this`hist, this`watch, this`answers, this`task
      ensures Consistent() && Target() == old(Target()) && |answers| <= |old(answers)|
      ensures outcome.Suspended? ==> answers == [] && hist == task.hist
      ensures outcome.GaveUp? ==> task.loc.Outer? && hist == task.hist
      ensures outcome.Quit? ==> task.loc.Ended? && Then(cfg, hist, Returned) == task.hist
      ensures outcome.Retry? ==> task == Go(cfg, attempt', port, hist)
    {
      hide ViewOf, Discipline, Allowed, Say, ClearEntry, StopChild;
      attempt' := attempt;
      while true
        invariant task.loc == Monitor(pid) && task.attempt == attempt == attempt' && hist == task.hist && Consistent()
        invariant Target() == old(Target()) && |answers| <= |old(answers)|
        decreases |answers|
      {
        if answers == [] {
          return attempt', Suspended;
        }
        var i := Await();
        match i {
          case Exit(code, elapsed) =>
            Perform(Reaped(pid, elapsed));
            ClearEntryOf();
            if Resets(cfg, elapsed) {
              attempt' := 0;
            }
            attempt', outcome := BackoffOrFail(attempt', Exited(code));
            return;
          case Closed =>
            StopProcess(pid);
            return attempt', Quit;
          case Cmd(c) =>
            Perform(Consumed(c));
            if c.kind.Start? {
              Perform(Acked(c));
            } else {
              StopProcess(pid);
              Perform(Acked(c));
              if c.kind.Restart? {
                return 0, Retry;
              }
              SetState(Stopped);
              return attempt', if c.kind.Stop? then GaveUp else Quit;
            }
        }
      }
    }

    /** active_loop */
    method ActiveLoop() returns (outcome: Outcome)
      requires task == Go(cfg, 0, port, hist) && Consistent()
      modifies this
      ensures Consistent() && Target() == old(Target()) && |answers| <= |old(answers)|
      ensures !outcome.Retry?
      ensures outcome.Suspended? ==> answers == [] && hist == task.hist
      ensures outcome.GaveUp? ==> task.loc.Outer? && hist == task.hist
      ensures outcome.Quit? ==> task.loc.Ended? && Then(cfg, hist, Returned) == task.hist
    {
      hide ViewOf, Discipline, Allowed, Say, Fail, Then;
      var attempt := 0;
      while true
        invariant task == Go(cfg, attempt, port, hist) && Consistent()
        invariant Target() == old(Target()) && |answers| <= |old(answers)|
        decreases |answers|
      {
        SetState(Starting);
        var spawned := SpawnOnce();
        if spawned.None? {
          return Suspended;
        }
        outcome := Retry;
        if spawned.value.Err? {
          attempt, outcome := BackoffOrFail(attempt, spawned.value.error);
        } else {
          var pid := spawned.value.value;
          var healthy := WaitHealthy(pid);
          if healthy.None? {
            return Suspended;
          }
          if healthy.value.Err? {
            attempt, outcome := BackoffOrFail(attempt, healthy.value.error);
          } else {
            SetState(Healthy);
            attempt, outcome := MonitorChild(pid, attempt);
          }
        }
        if !outcome.Retry? {
          return;
        }
      }
    }

    /** run */
    method Run()
      requires task == FRESH && hist == Empty && Consistent()
      modifies this
      ensures hist == old(Target()).hist && port == old(Target()).port
      ensures watch == ViewOf(cfg, hist).seen && Discipline(cfg, hist)
      ensures Log(hist) == Told(cfg, [], old(answers))
    {
      hide ViewOf, Allowed, Say, Fail, Told, Log;
      AllRunsDisciplined(cfg, answers);
      LogDecides(cfg, answers);
      while true
        invariant task.loc.Outer? && hist == task.hist && Consistent()
        invariant Target() == old(Target())
        decreases |answers|
      {
        if answers == [] {
          return;
        }
        var i := Await();
        if i.Closed? {
          break;
        }
        Perform(Consumed(i.cmd));
        Perform(Acked(i.cmd));
        if i.cmd.kind.Shutdown? {
          break;
        }
        if !i.cmd.kind.Stop? {
          var outcome := ActiveLoop();
          if outcome.Suspended? {
            return;
          }
          if outcome.Quit? {
            break;
          }
        }
      }
      Perform(Returned);
    }
  }
}
