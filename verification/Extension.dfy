/** How a reaction extends a history: what it appends first, and what it hears. */
module Extension {
  import opened Domain
  import opened Lifecycle

  lemma {:induction false} PrefixTransitive(a: History, b: History, c: History)
    requires Prefix(a, b) && Prefix(b, c)
    ensures Prefix(a, c)
  {
    if b != c {
      PrefixTransitive(a, b, c.before);
    }
  }

  function Size(h: History): nat {
    match h
    case Empty => 0
    case After(before, _) => Size(before) + 1
  }

  lemma {:induction false} PrefixSize(p: History, h: History)
    requires Prefix(p, h)
    ensures Size(p) <= Size(h) && (Size(p) == Size(h) <==> p == h)
  {
    if p != h {
      PrefixSize(p, h.before);
    }
  }

  lemma {:induction false} NextIs(p: History, e: Effect, h: History)
    requires Prefix(After(p, e), h)
    ensures Prefix(p, h) && p != h && NextEffect(p, h) == e
  {
    PrefixSize(After(p, e), h);
    if h != After(p, e) {
      NextIs(p, e, h.before);
    } else {
      assert Prefix(p, p);
    }
  }

  lemma {:induction false} HeardGrows(p: History, h: History)
    requires Prefix(p, h)
    ensures Heard(p) <= Heard(h)
  {
    if p != h {
      HeardGrows(p, h.before);
    }
  }

  /** `h` extends `p` by effects that are not heard. */
  predicate Quietly(p: History, h: History) {
    Prefix(p, h) && Heard(p) == Heard(h)
  }

  lemma {:induction false} QuietlyThen(cfg: Config, p: History, h: History, e: Effect)
    requires Quietly(p, h) && !IsHeard(e)
    ensures Quietly(p, Then(cfg, h, e))
  {
  }

  lemma {:induction false} QuietlySame(h: History)
    ensures Quietly(h, h)
  {
  }

  lemma {:induction false} QuietlySay(cfg: Config, p: History, h: History, st: State)
    requires Quietly(p, h)
    ensures Quietly(p, Say(cfg, h, st))
  {
    QuietlyThen(cfg, p, h, Emitted(st));
    QuietlyThen(cfg, p, Then(cfg, h, Emitted(st)), Sent(st));
  }

  lemma {:induction false} QuietlyClear(cfg: Config, p: History, h: History)
    requires Quietly(p, h)
    ensures Quietly(p, ClearEntry(cfg, h))
  {
    QuietlyThen(cfg, p, h, Removed);
    QuietlyThen(cfg, p, Then(cfg, h, Removed), Flushed);
  }

  lemma {:induction false} QuietlyFail(cfg: Config, attempt: nat, port: Option<nat>, p: History, h: History, why: Reason)
    requires Quietly(p, h)
    ensures Quietly(p, Fail(cfg, attempt, port, h, why).hist)
  {
    var schedule := Schedule(cfg);
    QuietlySay(cfg, p, h, if attempt < |schedule| then Backoff(attempt + 1, schedule[attempt]) else Failed(why));
  }

  lemma {:induction false} QuietlyStop(cfg: Config, port: Option<nat>, p: History, h: History, pid: nat)
    requires Quietly(p, h)
    ensures Quietly(p, StopChild(cfg, port, h, pid))
  {
    hide ViewOf, Discipline, Then, Say, ClearEntry, Quietly;
    var stopping := Say(cfg, h, Stopping);
    QuietlySay(cfg, p, h, Stopping);
    QuietlyThen(cfg, p, stopping, Hooked(HookSent(cfg, port)));
    var hooked := Grace(cfg, port, stopping);
    QuietlyThen(cfg, p, hooked, Killed(pid));
    QuietlyClear(cfg, p, Then(cfg, hooked, Killed(pid)));
  }

  /** `h` is `t.hist` with effect `e` and then only quiet ones. */
  predicate StartsWith(t: Task, e: Effect, h: History) {
    Quietly(After(t.hist, e), h)
  }

  /**
   Every reaction appends at least one effect. The first is the heard one when there is one, and
   no other is.
   */
  lemma {:induction false} FeedStarts(cfg: Config, t: Task, i: Input) returns (e: Effect)
    requires Accepts(cfg, t.loc, i)
    ensures StartsWith(t, e, Feed(cfg, t, i).hist)
    ensures HeardFrom(t, i) == if IsHeard(e) then [e] else []
  {
    hide ViewOf, Discipline, Quietly, Say, ClearEntry, StopChild, Fail;
    match t.loc
    case Outer => e := CommandStarts(cfg, t, i);
    case Waiting(delay) =>
      if i.Timer? {
        e := Slept(delay);
        QuietlySame(After(t.hist, e));
        QuietlySay(cfg, After(t.hist, e), After(t.hist, e), Starting);
      } else {
        e := CommandStarts(cfg, t, i);
      }
    case Spawning =>
      if i.PortGiven? {
        e := PortSet(ChosenPort(cfg, i.free));
        QuietlySame(After(t.hist, e));
      } else {
        e := FailStarts(cfg, t, PortUnavailable);
      }
    case Launching =>
      if i.SpawnDone? {
        e := Spawned(i.pid, t.port);
        var h := After(t.hist, e);
        QuietlySame(h);
        QuietlyThen(cfg, h, h, Inserted(i.pid));
        QuietlyThen(cfg, h, Then(cfg, h, Inserted(i.pid)), Flushed);
      } else {
        e := FailStarts(cfg, t, SpawnError);
      }
    case Health(pid) => e := HealthStarts(cfg, t, i);
    case Monitor(pid) => e := MonitorStarts(cfg, t, i);
  }

  lemma {:induction false} FailStarts(cfg: Config, t: Task, why: Reason) returns (e: Effect)
    ensures StartsWith(t, e, Fail(cfg, t.attempt, t.port, t.hist, why).hist) && !IsHeard(e)
  {
    hide ViewOf, Discipline, Quietly;
    var schedule := Schedule(cfg);
    var st := if t.attempt < |schedule| then Backoff(t.attempt + 1, schedule[t.attempt]) else Failed(why);
    e := SayStarts(cfg, t, st);
  }

  lemma {:induction false} SayStarts(cfg: Config, t: Task, st: State) returns (e: Effect)
    ensures StartsWith(t, e, Say(cfg, t.hist, st)) && e == Emitted(st)
  {
    hide ViewOf, Discipline, Quietly;
    e := Emitted(st);
    QuietlySame(After(t.hist, e));
    QuietlyThen(cfg, After(t.hist, e), After(t.hist, e), Sent(st));
  }

  lemma {:induction false} CommandStarts(cfg: Config, t: Task, i: Input) returns (e: Effect)
    requires (t.loc.Outer? || t.loc.Waiting?) && Accepts(cfg, t.loc, i) && !i.Timer?
    ensures StartsWith(t, e, Feed(cfg, t, i).hist)
    ensures HeardFrom(t, i) == if IsHeard(e) then [e] else []
  {
    hide ViewOf, Discipline, Quietly, Say;
    if i.Closed? {
      e := Returned;
      QuietlySame(After(t.hist, e));
    } else {
      e := Consumed(i.cmd);
      var h := After(t.hist, e);
      var taken := Take(cfg, t.hist, i.cmd);
      QuietlySame(h);
      QuietlyThen(cfg, h, h, Acked(i.cmd));
      QuietlySay(cfg, h, taken, Starting);
      QuietlySay(cfg, h, taken, Stopped);
      QuietlyThen(cfg, h, taken, Returned);
    }
  }

  lemma {:induction false} HealthStarts(cfg: Config, t: Task, i: Input) returns (e: Effect)
    requires t.loc.Health? && Accepts(cfg, t.loc, i)
    ensures StartsWith(t, e, FeedHealth(cfg, t, i).hist)
    ensures HeardFrom(t, i) == if IsHeard(e) then [e] else []
  {
    hide ViewOf, Discipline, Quietly, Say, ClearEntry, Fail;
    var pid := t.loc.pid;
    if i.ProbePassed? && ProbeCanPass(cfg, t.port) {
      e := SayStarts(cfg, t, Healthy);
    } else if i.Exit? {
      e := Reaped(pid, i.elapsed);
      var h := After(t.hist, e);
      QuietlySame(h);
      QuietlyThen(cfg, h, h, Killed(pid));
      QuietlyClear(cfg, h, Then(cfg, h, Killed(pid)));
      QuietlyFail(cfg, t.attempt, t.port, h, ClearEntry(cfg, Then(cfg, h, Killed(pid))), DiedInHealthCheck(i.code));
    } else {
      e := Killed(pid);
      var h := After(t.hist, e);
      QuietlySame(h);
      QuietlyClear(cfg, h, h);
      QuietlyFail(cfg, t.attempt, t.port, h, ClearEntry(cfg, h), ProbeError);
    }
  }

  lemma {:induction false} MonitorStarts(cfg: Config, t: Task, i: Input) returns (e: Effect)
    requires t.loc.Monitor? && Accepts(cfg, t.loc, i)
    ensures StartsWith(t, e, FeedMonitor(cfg, t, i).hist)
    ensures HeardFrom(t, i) == if IsHeard(e) then [e] else []
  {
    hide ViewOf, Discipline, Quietly, Say, ClearEntry, StopChild, Fail;
    var pid := t.loc.pid;
    match i
    case Exit(code, elapsed) =>
      e := Reaped(pid, elapsed);
      var h := After(t.hist, e);
      QuietlySame(h);
      QuietlyClear(cfg, h, h);
      var attempt := if Resets(cfg, elapsed) then 0 else t.attempt;
      QuietlyFail(cfg, attempt, t.port, h, ClearEntry(cfg, h), Exited(code));
    case Closed =>
      e := Emitted(Stopping);
      StopStarts(cfg, t.port, t.hist, pid);
      QuietlyThen(cfg, After(t.hist, e), StopChild(cfg, t.port, t.hist, pid), Returned);
    case Cmd(c) =>
      e := Consumed(c);
      var h := After(t.hist, e);
      QuietlySame(h);
      QuietlyThen(cfg, h, h, Acked(c));
      QuietlyStop(cfg, t.port, h, h, pid);
      QuietlyThen(cfg, h, StopChild(cfg, t.port, h, pid), Acked(c));
      var stopped := Then(cfg, StopChild(cfg, t.port, h, pid), Acked(c));
      QuietlySay(cfg, h, stopped, Starting);
      QuietlySay(cfg, h, stopped, Stopped);
      QuietlyThen(cfg, h, Say(cfg, stopped, Stopped), Returned);
  }

  lemma {:induction false} StopStarts(cfg: Config, port: Option<nat>, h: History, pid: nat)
    ensures Quietly(After(h, Emitted(Stopping)), StopChild(cfg, port, h, pid))
  {
    hide ViewOf, Discipline, Quietly, ClearEntry;
    var base := After(h, Emitted(Stopping));
    var stopping := Say(cfg, h, Stopping);
    QuietlySame(base);
    QuietlyThen(cfg, base, base, Sent(Stopping));
    QuietlyThen(cfg, base, stopping, Hooked(HookSent(cfg, port)));
    var hooked := Grace(cfg, port, stopping);
    QuietlyThen(cfg, base, hooked, Killed(pid));
    QuietlyClear(cfg, base, Then(cfg, hooked, Killed(pid)));
  }

  /** A reaction hears exactly what its input says. */
  lemma {:induction false} FeedHears(cfg: Config, t: Task, i: Input)
    requires Accepts(cfg, t.loc, i)
    ensures Heard(Feed(cfg, t, i).hist) == Heard(t.hist) + HeardFrom(t, i)
  {
    var e := FeedStarts(cfg, t, i);
  }
}
