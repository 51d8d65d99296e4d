/** Starting a sidecar that is already running is invisible. */
module RedundantStart {
  import opened Domain
  import opened Lifecycle

  /** A Start taken by the monitor loop. */
  predicate IsRedundant(t: Task, i: Input) {
    t.loc.Monitor? && i.Cmd? && i.cmd.kind.Start?
  }

  /** The inputs without the redundant Starts. */
  function Strip(cfg: Config, t: Task, ins: seq<Input>): seq<Input>
    requires Fits(cfg, t, ins)
    decreases |ins|
  {
    if ins == [] then []
    else
      var rest := Strip(cfg, Feed(cfg, t, ins[0]), ins[1..]);
      if IsRedundant(t, ins[0]) then rest else [ins[0]] + rest
  }

  /** The consumption or acknowledgement of a Start. */
  predicate IsStartTraffic(e: Effect) {
    (e.Consumed? || e.Acked?) && e.cmd.kind.Start?
  }

  /** Everything but the traffic of Start commands. */
  function Outward(h: History): History {
    match h
    case Empty => Empty
    case After(before, e) => if IsStartTraffic(e) then Outward(before) else After(Outward(before), e)
  }

  predicate Same(a: History, b: History) {
    Outward(a) == Outward(b)
  }

  /** Same location, attempt, port and outward history. */
  predicate Alike(a: Task, b: Task) {
    a.loc == b.loc && a.attempt == b.attempt && a.port == b.port && Same(a.hist, b.hist)
  }

  lemma {:induction false} ThenSame(cfg: Config, a: History, b: History, e: Effect)
    requires Same(a, b)
    ensures Same(Then(cfg, a, e), Then(cfg, b, e))
  {
  }

  lemma {:induction false} SaySame(cfg: Config, a: History, b: History, st: State)
    requires Same(a, b)
    ensures Same(Say(cfg, a, st), Say(cfg, b, st))
  {
    ThenSame(cfg, a, b, Emitted(st));
  }

  lemma {:induction false} TakeSame(cfg: Config, a: History, b: History, c: Command)
    requires Same(a, b)
    ensures Same(Take(cfg, a, c), Take(cfg, b, c))
  {
    ThenSame(cfg, a, b, Consumed(c));
  }

  lemma {:induction false} ClearSame(cfg: Config, a: History, b: History)
    requires Same(a, b)
    ensures Same(ClearEntry(cfg, a), ClearEntry(cfg, b))
  {
    ThenSame(cfg, a, b, Removed);
  }

  lemma {:induction false} StopSame(cfg: Config, port: Option<nat>, a: History, b: History, pid: nat)
    requires Same(a, b)
    ensures Same(StopChild(cfg, port, a, pid), StopChild(cfg, port, b, pid))
  {
    hide ViewOf, Discipline, Say, ClearEntry, Then, Same;
    var a1, b1 := Say(cfg, a, Stopping), Say(cfg, b, Stopping);
    SaySame(cfg, a, b, Stopping);
    ThenSame(cfg, a1, b1, Hooked(HookSent(cfg, port)));
    var a2, b2 := Grace(cfg, port, a1), Grace(cfg, port, b1);
    ThenSame(cfg, a2, b2, Killed(pid));
    ClearSame(cfg, Then(cfg, a2, Killed(pid)), Then(cfg, b2, Killed(pid)));
  }

  lemma {:induction false} FailSame(cfg: Config, attempt: nat, port: Option<nat>, a: History, b: History, why: Reason)
    requires Same(a, b)
    ensures Alike(Fail(cfg, attempt, port, a, why), Fail(cfg, attempt, port, b, why))
  {
    hide ViewOf, Discipline, Say, Same;
    var schedule := Schedule(cfg);
    SaySame(cfg, a, b, if attempt < |schedule| then Backoff(attempt + 1, schedule[attempt]) else Failed(why));
  }

  /** Alike tasks react alike. */
  lemma {:induction false} FeedAlike(cfg: Config, a: Task, b: Task, i: Input)
    requires Alike(a, b) && Accepts(cfg, a.loc, i)
    ensures Alike(Feed(cfg, a, i), Feed(cfg, b, i))
  {
    hide ViewOf, Discipline, Then, Say, Take, ClearEntry, StopChild, Fail, Same;
    match a.loc
    case Outer => CommandAlike(cfg, a, b, i);
    case Waiting(delay) =>
      CommandAlike(cfg, a, b, i);
      ThenSame(cfg, a.hist, b.hist, Slept(delay));
      SaySame(cfg, Then(cfg, a.hist, Slept(delay)), Then(cfg, b.hist, Slept(delay)), Starting);
    case Spawning =>
      FailSame(cfg, a.attempt, a.port, a.hist, b.hist, PortUnavailable);
      if i.PortGiven? {
        ThenSame(cfg, a.hist, b.hist, PortSet(ChosenPort(cfg, i.free)));
      }
    case Launching =>
      FailSame(cfg, a.attempt, a.port, a.hist, b.hist, SpawnError);
      if i.SpawnDone? {
        var a1, b1 := Then(cfg, a.hist, Spawned(i.pid, a.port)), Then(cfg, b.hist, Spawned(i.pid, a.port));
        ThenSame(cfg, a.hist, b.hist, Spawned(i.pid, a.port));
        ThenSame(cfg, a1, b1, Inserted(i.pid));
        ThenSame(cfg, Then(cfg, a1, Inserted(i.pid)), Then(cfg, b1, Inserted(i.pid)), Flushed);
      }
    case Health(pid) =>
      SaySame(cfg, a.hist, b.hist, Healthy);
      if i.Exit? {
        var e := Reaped(pid, i.elapsed);
        ThenSame(cfg, a.hist, b.hist, e);
        KilledAlike(cfg, a, Then(cfg, a.hist, e), Then(cfg, b.hist, e), pid, DiedInHealthCheck(i.code));
      } else {
        KilledAlike(cfg, a, a.hist, b.hist, pid, ProbeError);
      }
    case Monitor(_) => MonitorAlike(cfg, a, b, i);
  }

  lemma {:induction false} KilledAlike(cfg: Config, t: Task, a: History, b: History, pid: nat, why: Reason)
    requires Same(a, b)
    ensures Alike(Fail(cfg, t.attempt, t.port, ClearEntry(cfg, Then(cfg, a, Killed(pid))), why),
                  Fail(cfg, t.attempt, t.port, ClearEntry(cfg, Then(cfg, b, Killed(pid))), why))
  {
    hide ViewOf, Discipline, Then, ClearEntry, Fail, Same;
    var a1, b1 := Then(cfg, a, Killed(pid)), Then(cfg, b, Killed(pid));
    ThenSame(cfg, a, b, Killed(pid));
    ClearSame(cfg, a1, b1);
    FailSame(cfg, t.attempt, t.port, ClearEntry(cfg, a1), ClearEntry(cfg, b1), why);
  }

  /** The reactions to a command, or to the end of commands, where no child runs. */
  lemma {:induction false} CommandAlike(cfg: Config, a: Task, b: Task, i: Input)
    requires Alike(a, b) && (a.loc.Outer? || a.loc.Waiting?) && Accepts(cfg, a.loc, i)
    ensures !i.Timer? ==> Alike(Feed(cfg, a, i), Feed(cfg, b, i))
  {
    hide ViewOf, Discipline, Then, Say, Take, Same;
    if i.Cmd? {
      var a1, b1 := Take(cfg, a.hist, i.cmd), Take(cfg, b.hist, i.cmd);
      TakeSame(cfg, a.hist, b.hist, i.cmd);
      SaySame(cfg, a1, b1, Starting);
      SaySame(cfg, a1, b1, Stopped);
      ThenSame(cfg, a1, b1, Returned);
    } else {
      ThenSame(cfg, a.hist, b.hist, Returned);
    }
  }

  lemma {:induction false} MonitorAlike(cfg: Config, a: Task, b: Task, i: Input)
    requires Alike(a, b) && a.loc.Monitor? && Accepts(cfg, a.loc, i)
    ensures Alike(FeedMonitor(cfg, a, i), FeedMonitor(cfg, b, i))
  {
    hide ViewOf, Discipline, Then, Say, Take, ClearEntry, StopChild, Fail, Same;
    var pid := a.loc.pid;
    match i
    case Exit(code, elapsed) =>
      var a1, b1 := Then(cfg, a.hist, Reaped(pid, elapsed)), Then(cfg, b.hist, Reaped(pid, elapsed));
      ThenSame(cfg, a.hist, b.hist, Reaped(pid, elapsed));
      ClearSame(cfg, a1, b1);
      var attempt := if Resets(cfg, elapsed) then 0 else a.attempt;
      FailSame(cfg, attempt, a.port, ClearEntry(cfg, a1), ClearEntry(cfg, b1), Exited(code));
    case Closed =>
      StopSame(cfg, a.port, a.hist, b.hist, pid);
      ThenSame(cfg, StopChild(cfg, a.port, a.hist, pid), StopChild(cfg, b.port, b.hist, pid), Returned);
    case Cmd(c) =>
      TakeSame(cfg, a.hist, b.hist, c);
      var a1, b1 := Then(cfg, a.hist, Consumed(c)), Then(cfg, b.hist, Consumed(c));
      ThenSame(cfg, a.hist, b.hist, Consumed(c));
      StopSame(cfg, a.port, a1, b1, pid);
      var a2, b2 := Then(cfg, StopChild(cfg, a.port, a1, pid), Acked(c)), Then(cfg, StopChild(cfg, b.port, b1, pid), Acked(c));
      ThenSame(cfg, StopChild(cfg, a.port, a1, pid), StopChild(cfg, b.port, b1, pid), Acked(c));
      SaySame(cfg, a2, b2, Starting);
      SaySame(cfg, a2, b2, Stopped);
      ThenSame(cfg, Say(cfg, a2, Stopped), Say(cfg, b2, Stopped), Returned);
  }

  lemma {:induction false} RedundantIsAlike(cfg: Config, t: Task, i: Input)
    requires IsRedundant(t, i)
    ensures Alike(Feed(cfg, t, i), t)
  {
    assert Outward(Then(cfg, t.hist, Consumed(i.cmd))) == Outward(t.hist);
  }

  lemma {:induction false} StripAlike(cfg: Config, a: Task, b: Task, ins: seq<Input>)
    requires Fits(cfg, a, ins) && Alike(a, b)
    ensures Fits(cfg, b, Strip(cfg, a, ins))
    ensures Alike(RunFrom(cfg, a, ins), RunFrom(cfg, b, Strip(cfg, a, ins)))
    decreases |ins|
  {
    hide ViewOf, Discipline, Feed, Same;
    if ins != [] {
      var a' := Feed(cfg, a, ins[0]);
      if IsRedundant(a, ins[0]) {
        RedundantIsAlike(cfg, a, ins[0]);
        SameThrough(a', a, b);
        StripAlike(cfg, a', b, ins[1..]);
      } else {
        FeedAlike(cfg, a, b, ins[0]);
        StripAlike(cfg, a', Feed(cfg, b, ins[0]), ins[1..]);
        assert Strip(cfg, a, ins)[1..] == Strip(cfg, a', ins[1..]);
      }
    }
  }

  lemma {:induction false} SameThrough(a: Task, b: Task, c: Task)
    requires Alike(a, b) && Alike(b, c)
    ensures Alike(a, c)
  {
  }

  /**
   Deleting every Start consumed by the monitor loop from the input of a run gives another run that
   ends alike: same location, attempt and port, and, but for the traffic of Start commands, the
   same effects in the same order.
   */
  lemma {:induction false} RedundantStartsInvisible(cfg: Config, ins: seq<Input>)
    requires Fits(cfg, FRESH, ins)
    ensures Fits(cfg, FRESH, Strip(cfg, FRESH, ins))
    ensures Alike(RunFrom(cfg, FRESH, ins), RunFrom(cfg, FRESH, Strip(cfg, FRESH, ins)))
  {
    StripAlike(cfg, FRESH, FRESH, ins);
  }
}
