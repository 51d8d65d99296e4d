/** What a reaction to anything but a command adds to a history, and how far it brings a sidecar. */
module Reactions {
  import opened Domain
  import opened Lifecycle
  import opened Extension
  import opened Restarts

  predicate HasFailed(s: seq<State>) {
    exists st :: st in s && st.Failed?
  }

  predicate EndsHealthy(s: seq<State>) {
    s != [] && s[|s| - 1] == Healthy
  }

  predicate EndsFailed(s: seq<State>) {
    s != [] && s[|s| - 1].Failed?
  }

  // ---------------------------------------------------------------------------------------
  // Effects and states added
  // ---------------------------------------------------------------------------------------

  /** h' is h with k more effects, which publish s. */
  predicate Adds(h: History, h': History, k: nat, s: seq<State>) {
    Size(h') == Size(h) + k && Published(h') == Published(h) + s
  }

  lemma {:induction false} ThenAdds(cfg: Config, h: History, h': History, k: nat, s: seq<State>, e: Effect)
    requires Adds(h, h', k, s) && !e.Emitted?
    ensures Adds(h, Then(cfg, h', e), k + 1, s)
  {
  }

  lemma {:induction false} SayAdds(cfg: Config, h: History, h': History, k: nat, st: State)
    requires Adds(h, h', k, [])
    ensures Adds(h, Say(cfg, h', st), k + 2, [st])
  {
    assert Published(Say(cfg, h', st)) == Published(h') + [st];
  }

  lemma {:induction false} NothingAdded(h: History)
    ensures Adds(h, h, 0, [])
  {
  }

  lemma {:induction false} ClearAdds(cfg: Config, h: History, h': History, k: nat)
    requires Adds(h, h', k, [])
    ensures Adds(h, ClearEntry(cfg, h'), k + 2, [])
  {
    hide Adds, ViewOf, Discipline;
    ThenAdds(cfg, h, h', k, [], Removed);
    ThenAdds(cfg, h, Then(cfg, h', Removed), k + 1, [], Flushed);
  }

  /** t' publishes s after h: Healthy just on entering the monitor, Failed just on giving up. */
  predicate Publishes(h: History, t': Task, k: nat, s: seq<State>) {
    && Adds(h, t'.hist, k, s) && |s| <= 1
    && (t'.loc.Monitor? <==> s == [Healthy])
    && (t'.loc.Outer? <==> s != [] && s[0].Failed?)
  }

  lemma {:induction false} FailPublishes(cfg: Config, attempt: nat, port: Option<nat>, h0: History, h: History, k: nat, why: Reason)
    returns (s: seq<State>)
    requires Adds(h0, h, k, [])
    ensures Publishes(h0, Fail(cfg, attempt, port, h, why), k + 2, s)
  {
    hide ViewOf, Discipline, Say, Adds;
    var schedule := Schedule(cfg);
    var st := if attempt < |schedule| then Backoff(attempt + 1, schedule[attempt]) else Failed(why);
    SayAdds(cfg, h0, h, k, st);
    s := [st];
  }

  /** Every answer but a command and the closed channel: at most six effects and one state. */
  lemma {:induction false} FeedPublishes(cfg: Config, t: Task, i: Input) returns (k: nat, s: seq<State>)
    requires Accepts(cfg, t.loc, i) && !i.Cmd? && !i.Closed?
    ensures k <= 6 && Publishes(t.hist, Feed(cfg, t, i), k, s)
  {
    hide ViewOf, Discipline, Then, Say, ClearEntry, Fail, Adds;
    NothingAdded(t.hist);
    match t.loc
    case Spawning =>
      if i.PortGiven? {
        ThenAdds(cfg, t.hist, t.hist, 0, [], PortSet(ChosenPort(cfg, i.free)));
        k, s := 1, [];
      } else {
        s := FailPublishes(cfg, t.attempt, t.port, t.hist, t.hist, 0, PortUnavailable);
        k := 2;
      }
    case Launching =>
      if i.SpawnDone? {
        var spawned := Then(cfg, t.hist, Spawned(i.pid, t.port));
        ThenAdds(cfg, t.hist, t.hist, 0, [], Spawned(i.pid, t.port));
        ThenAdds(cfg, t.hist, spawned, 1, [], Inserted(i.pid));
        ThenAdds(cfg, t.hist, Then(cfg, spawned, Inserted(i.pid)), 2, [], Flushed);
        k, s := 3, [];
      } else {
        s := FailPublishes(cfg, t.attempt, t.port, t.hist, t.hist, 0, SpawnError);
        k := 2;
      }
    case Health(pid) => k, s := HealthPublishes(cfg, t, i);
    case Monitor(pid) =>
      var reaped := Then(cfg, t.hist, Reaped(pid, i.elapsed));
      var attempt := if Resets(cfg, i.elapsed) then 0 else t.attempt;
      ThenAdds(cfg, t.hist, t.hist, 0, [], Reaped(pid, i.elapsed));
      ClearAdds(cfg, t.hist, reaped, 1);
      s := FailPublishes(cfg, attempt, t.port, t.hist, ClearEntry(cfg, reaped), 3, Exited(i.code));
      k := 5;
    case Waiting(delay) =>
      ThenAdds(cfg, t.hist, t.hist, 0, [], Slept(delay));
      SayAdds(cfg, t.hist, Then(cfg, t.hist, Slept(delay)), 1, Starting);
      k, s := 3, [Starting];
  }

  lemma {:induction false} HealthPublishes(cfg: Config, t: Task, i: Input) returns (k: nat, s: seq<State>)
    requires t.loc.Health? && Accepts(cfg, t.loc, i)
    ensures k <= 6 && Publishes(t.hist, FeedHealth(cfg, t, i), k, s)
  {
    hide ViewOf, Discipline, Then, Say, ClearEntry, Fail, Adds;
    NothingAdded(t.hist);
    var pid := t.loc.pid;
    if i.ProbePassed? && ProbeCanPass(cfg, t.port) {
      SayAdds(cfg, t.hist, t.hist, 0, Healthy);
      k, s := 2, [Healthy];
    } else if i.Exit? {
      var reaped := Then(cfg, t.hist, Reaped(pid, i.elapsed));
      var killed := Then(cfg, reaped, Killed(pid));
      ThenAdds(cfg, t.hist, t.hist, 0, [], Reaped(pid, i.elapsed));
      ThenAdds(cfg, t.hist, reaped, 1, [], Killed(pid));
      ClearAdds(cfg, t.hist, killed, 2);
      s := FailPublishes(cfg, t.attempt, t.port, t.hist, ClearEntry(cfg, killed), 4, DiedInHealthCheck(i.code));
      k := 6;
    } else {
      var killed := Then(cfg, t.hist, Killed(pid));
      ThenAdds(cfg, t.hist, t.hist, 0, [], Killed(pid));
      ClearAdds(cfg, t.hist, killed, 1);
      s := FailPublishes(cfg, t.attempt, t.port, t.hist, ClearEntry(cfg, killed), 3, ProbeError);
      k := 5;
    }
  }

  /** A first Start: four effects and Starting. */
  lemma {:induction false} FirstPublishes(cfg: Config, c: Command)
    requires c.kind.Start?
    ensures Size(Feed(cfg, FRESH, Cmd(c)).hist) == 4 && Published(Feed(cfg, FRESH, Cmd(c)).hist) == [Starting]
  {
    hide ViewOf, Discipline, Then, Say;
    var taken := Take(cfg, Empty, c);
    NothingAdded(Empty);
    ThenAdds(cfg, Empty, Empty, 0, [], Consumed(c));
    ThenAdds(cfg, Empty, Then(cfg, Empty, Consumed(c)), 1, [], Acked(c));
    SayAdds(cfg, Empty, taken, 2, Starting);
  }

  // ---------------------------------------------------------------------------------------
  // Where a sidecar lands
  // ---------------------------------------------------------------------------------------

  /** A sidecar that was never stopped is in its outer loop fresh or failed, and in its monitor healthy. */
  predicate Lands(t: Task) {
    && (t.loc.Outer? ==> t == FRESH || EndsFailed(Published(t.hist)))
    && (t.loc.Monitor? ==> EndsHealthy(Published(t.hist)))
  }

  lemma {:induction false} FeedLands(cfg: Config, t: Task, i: Input)
    requires Accepts(cfg, t.loc, i) && !i.Cmd? && !i.Closed?
    ensures Lands(Feed(cfg, t, i))
  {
    var k, s := FeedPublishes(cfg, t, i);
    hide Feed, Accepts;
  }

  // ---------------------------------------------------------------------------------------
  // How many more answers it can take
  // ---------------------------------------------------------------------------------------

  /** The answers a sidecar can still take, if no healthy child ends. */
  function Left(cfg: Config, t: Task): nat {
    if t == FRESH then 5 * Length(cfg) + 7
    else if t.attempt <= Length(cfg) then Rank(cfg, t)
    else 0
  }

  lemma {:induction false} LeftFirst(cfg: Config, c: Command)
    requires c.kind.Start?
    ensures Left(cfg, Feed(cfg, FRESH, Cmd(c))) < Left(cfg, FRESH)
  {
    hide ViewOf, Discipline, Then, Say, Take;
  }

  lemma {:induction false} LeftDecreases(cfg: Config, t: Task, i: Input)
    requires Accepts(cfg, t.loc, i) && !i.Cmd? && !i.Closed? && !t.loc.Monitor?
    requires t.attempt <= Length(cfg) && t != FRESH
    ensures Left(cfg, Feed(cfg, t, i)) < Left(cfg, t)
  {
    RankDecreases(cfg, t, i);
    FeedNotFresh(cfg, t, i);
    hide Feed;
  }

  lemma {:induction false} FeedNotFresh(cfg: Config, t: Task, i: Input)
    requires Accepts(cfg, t.loc, i)
    ensures Feed(cfg, t, i) != FRESH
  {
    var e := FeedStarts(cfg, t, i);
    PrefixSize(After(t.hist, e), Feed(cfg, t, i).hist);
    hide Feed;
  }
}
