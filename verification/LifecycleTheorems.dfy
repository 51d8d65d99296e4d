/** The promises of a single supervisor, over all its runs. */
module LifecycleTheorems {
  import opened Domain
  import opened Lifecycle
  import opened LifecycleProofs
  import opened Extension

  /** The history of a run that starts with a fresh supervisor. */
  function HistoryOf(cfg: Config, ins: seq<Input>): History
    requires Fits(cfg, FRESH, ins)
  {
    RunFrom(cfg, FRESH, ins).hist
  }

  lemma {:induction false} RunKeeps(cfg: Config, t: Task, ins: seq<Input>)
    requires TaskInv(cfg, t) && Fits(cfg, t, ins)
    ensures TaskInv(cfg, RunFrom(cfg, t, ins))
    decreases |ins|
  {
    if ins != [] {
      FeedKeeps(cfg, t, ins[0]);
      RunKeeps(cfg, Feed(cfg, t, ins[0]), ins[1..]);
    }
  }

  lemma {:induction false} AllRunsDisciplined(cfg: Config, ins: seq<Input>)
    requires Fits(cfg, FRESH, ins)
    ensures TaskInv(cfg, RunFrom(cfg, FRESH, ins))
    ensures Discipline(cfg, HistoryOf(cfg, ins))
  {
    FreshInv(cfg);
    RunKeeps(cfg, FRESH, ins);
  }

  lemma {:induction false} DisciplineAt(cfg: Config, p: History, h: History)
    requires Discipline(cfg, h) && Prefix(p, h)
    ensures Discipline(cfg, p)
    ensures p != h ==>
      var e := NextEffect(p, h);
      Allowed(cfg, ViewOf(cfg, p), e) && Prefix(After(p, e), h) && Discipline(cfg, After(p, e))
  {
    if p != h {
      DisciplineAt(cfg, p, h.before);
      if p == h.before {
        assert Prefix(h, h);
      }
    }
  }

  /** An effect in a disciplined history was in order when it was performed. */
  lemma {:induction false} NextAllowed(cfg: Config, p: History, e: Effect, h: History)
    requires Discipline(cfg, h) && Prefix(After(p, e), h)
    ensures Allowed(cfg, ViewOf(cfg, p), e)
  {
    DisciplineAt(cfg, After(p, e), h);
  }

  // ---------------------------------------------------------------------------------------
  // Restarts out of Healthy
  // ---------------------------------------------------------------------------------------

  /** A Restart is consumed at i, after the last Healthy. */
  ghost predicate RestartedSinceHealthy(log: seq<Effect>, i: nat) {
    i < |log| && log[i].Consumed? && log[i].cmd.kind.Restart? && forall m :: i < m < |log| ==> log[m] != Emitted(Healthy)
  }

  /** Whether a start is still owed, and why. */
  lemma {:induction false} OwedStep(cfg: Config, v: View, e: Effect)
    requires Allowed(cfg, v, e)
    ensures
      var w := See(cfg, v, e);
      && (w.published.Starting? ==> v.published.Starting? || e == Emitted(Starting))
      && (w.ledger.owed ==> (v.ledger.owed && e != Emitted(Starting)) || (e.Consumed? && IsCharge(v, e.cmd)))
      && (w.published.Healthy? || w.published.Stopping? ==>
           e == Emitted(Healthy) || ((v.published.Healthy? || v.published.Stopping?) && e != Emitted(Healthy)))
      && (e == Emitted(Healthy) ==> v.published.Starting?)
      && (e.Consumed? ==> !v.published.Starting? && !v.published.Stopping?)
  {
  }

  /** While Healthy or Stopping a start is owed only to a Restart consumed since Healthy. */
  lemma {:induction false} OwedToRestart(cfg: Config, h: History)
    requires Discipline(cfg, h)
    ensures
      var v := ViewOf(cfg, h);
      && (v.published.Starting? ==> !v.ledger.owed)
      && ((v.published.Healthy? || v.published.Stopping?) && v.ledger.owed ==>
           exists i :: RestartedSinceHealthy(Log(h), i))
  {
    if h.After? {
      var b, e, v := h.before, h.effect, ViewOf(cfg, h);
      OwedToRestart(cfg, b);
      OwedStep(cfg, ViewOf(cfg, b), e);
      hide See, Allowed, Discipline;
      var log := Log(h);
      assert log == Log(b) + [e];
      if (v.published.Healthy? || v.published.Stopping?) && v.ledger.owed {
        if e.Consumed? && e.cmd.kind.Restart? {
          assert RestartedSinceHealthy(log, |log| - 1);
        } else {
          var i :| RestartedSinceHealthy(Log(b), i);
          assert RestartedSinceHealthy(log, i);
        }
      }
    }
  }

  /** Stopping goes to Starting only on a Restart consumed since the Healthy before. */
  ghost predicate OnlyRestartLeavesStopping(cfg: Config, h: History) {
    forall p :: Prefix(After(p, Emitted(Starting)), h) && ViewOf(cfg, p).published.Stopping? ==>
      exists i :: RestartedSinceHealthy(Log(p), i)
  }

  lemma {:induction false} StoppingsRestart(cfg: Config, h: History)
    requires Discipline(cfg, h)
    ensures OnlyRestartLeavesStopping(cfg, h)
  {
    forall p | Prefix(After(p, Emitted(Starting)), h) && ViewOf(cfg, p).published.Stopping?
      ensures exists i :: RestartedSinceHealthy(Log(p), i)
    {
      StoppingRestarts(cfg, h, p);
    }
  }

  lemma {:induction false} StoppingRestarts(cfg: Config, h: History, p: History)
    requires Discipline(cfg, h) && Prefix(After(p, Emitted(Starting)), h) && ViewOf(cfg, p).published.Stopping?
    ensures exists i :: RestartedSinceHealthy(Log(p), i)
  {
    DisciplineAt(cfg, After(p, Emitted(Starting)), h);
    hide ViewOf;
    OwedToRestart(cfg, p);
  }

  // ---------------------------------------------------------------------------------------
  // Lifecycle graph
  // ---------------------------------------------------------------------------------------

  /** The state published before the i-th one. */
  function Previous(s: seq<State>, i: nat): State
    requires i <= |s|
  {
    if i == 0 then Idle else s[i - 1]
  }

  ghost predicate IsPath(s: seq<State>) {
    forall i :: 0 <= i < |s| ==> LifecycleEdge(Previous(s, i), s[i])
  }

  lemma {:induction false} PathGrows(s: seq<State>, st: State)
    requires IsPath(s) && LifecycleEdge(Previous(s, |s|), st)
    ensures IsPath(s + [st])
  {
    hide LifecycleEdge;
    var s' := s + [st];
    forall i | 0 <= i < |s'| ensures LifecycleEdge(Previous(s', i), s'[i]) {
      assert Previous(s', i) == Previous(s, i);
    }
  }

  lemma {:induction false} PublishStep(cfg: Config, v: View, e: Effect)
    ensures See(cfg, v, e).published == if e.Emitted? then e.state else v.published
    ensures Allowed(cfg, v, e) && e.Emitted? ==> LifecycleEdge(v.published, e.state)
  {
  }

  lemma {:induction false} DisciplinedPath(cfg: Config, h: History)
    requires Discipline(cfg, h)
    ensures IsPath(Published(h))
    ensures ViewOf(cfg, h).published == Previous(Published(h), |Published(h)|)
  {
    hide See, Allowed, IsPath, LifecycleEdge;
    match h
    case Empty =>
      assert Published(h) == [] && BLANK.published.Idle?;
      NoPath();
    case After(before, e) =>
      DisciplinedPath(cfg, before);
      PublishStep(cfg, ViewOf(cfg, before), e);
      if e.Emitted? {
        PathGrows(Published(before), e.state);
      }
  }

  lemma {:induction false} NoPath()
    ensures IsPath([])
  {
  }

  lemma {:induction false} PathFacts(s: seq<State>)
    requires IsPath(s)
    ensures forall i :: 0 <= i < |s| && s[i].Healthy? ==> i > 0 && s[i - 1].Starting?
    ensures WaitingForDeps !in s
  {
    forall i | 0 <= i < |s|
      ensures s[i].Healthy? ==> i > 0 && s[i - 1].Starting?
      ensures s[i] != WaitingForDeps
    {
      assert LifecycleEdge(Previous(s, i), s[i]);
    }
  }

  /**
   Every run publishes a path of the lifecycle graph that starts in Idle; so each Healthy directly
   follows a Starting, and WaitingForDeps is never published. The edge from Stopping to Starting is
   taken only on a Restart consumed since the Healthy before it.
   */
  lemma {:induction false} PublishedIsAPath(cfg: Config, ins: seq<Input>)
    requires Fits(cfg, FRESH, ins)
    ensures
      var s := Published(HistoryOf(cfg, ins));
      && (forall i :: 0 <= i < |s| ==> LifecycleEdge(if i == 0 then Idle else s[i - 1], s[i]))
      && (forall i :: 0 <= i < |s| && s[i].Healthy? ==> i > 0 && s[i - 1].Starting?)
      && WaitingForDeps !in s
    ensures OnlyRestartLeavesStopping(cfg, HistoryOf(cfg, ins))
  {
    AllRunsDisciplined(cfg, ins);
    var h := HistoryOf(cfg, ins);
    hide *;
    DisciplinedPath(cfg, h);
    EdgesOf(Published(h));
    PathFacts(Published(h));
    StoppingsRestart(cfg, h);
  }

  lemma {:induction false} EdgesOf(s: seq<State>)
    requires IsPath(s)
    ensures forall i :: 0 <= i < |s| ==> LifecycleEdge(if i == 0 then Idle else s[i - 1], s[i])
  {
    hide LifecycleEdge;
    forall i | 0 <= i < |s| ensures LifecycleEdge(if i == 0 then Idle else s[i - 1], s[i]) {
      assert LifecycleEdge(Previous(s, i), s[i]);
    }
  }

  // ---------------------------------------------------------------------------------------
  // Requested stops
  // ---------------------------------------------------------------------------------------

  predicate IsLicence(e: Effect) {
    e.Consumed? && (e.cmd.kind.Start? || e.cmd.kind.Restart?)
  }

  predicate IsStop(e: Effect) {
    e.Consumed? && e.cmd.kind.Stop?
  }

  predicate IsShutdown(e: Effect) {
    e.Consumed? && e.cmd.kind.Shutdown?
  }

  lemma {:induction false} LicenceStep(cfg: Config, v: View, e: Effect)
    ensures See(cfg, v, e).licensed <==> IsLicence(e) || (v.licensed && !IsStop(e))
    ensures v.closing || IsShutdown(e) || e.Returned? ==> See(cfg, v, e).closing
    ensures v.shut || (e.Acked? && e.cmd.kind.Shutdown?) ==> See(cfg, v, e).shut
  {
  }

  lemma {:induction false} LicensedSince(cfg: Config, h: History, i: nat)
    requires i < |Log(h)| && IsStop(Log(h)[i]) && ViewOf(cfg, h).licensed
    ensures exists j :: i < j < |Log(h)| && IsLicence(Log(h)[j])
  {
    var log, e := Log(h), h.effect;
    assert log == Log(h.before) + [e];
    LicenceStep(cfg, ViewOf(cfg, h.before), e);
    hide See;
    if i < |Log(h.before)| {
      if IsLicence(e) {
        assert IsLicence(log[|log| - 1]);
      } else {
        LicensedSince(cfg, h.before, i);
        var j :| i < j < |Log(h.before)| && IsLicence(Log(h.before)[j]);
        assert IsLicence(log[j]);
      }
    }
  }

  lemma {:induction false} NoStartWithoutLicence(cfg: Config, h: History, i: nat, k: nat)
    requires Discipline(cfg, h)
    requires i < k < |Log(h)| && IsStop(Log(h)[i]) && Log(h)[k] == Emitted(Starting)
    ensures exists j :: i < j < k && IsLicence(Log(h)[j])
  {
    var log := Log(h);
    assert log == Log(h.before) + [h.effect];
    if k < |Log(h.before)| {
      NoStartWithoutLicence(cfg, h.before, i, k);
      var j :| i < j < k && IsLicence(Log(h.before)[j]);
      assert IsLicence(log[j]);
    } else {
      LicensedSince(cfg, h.before, i);
      var j :| i < j < |Log(h.before)| && IsLicence(Log(h.before)[j]);
      assert IsLicence(log[j]);
    }
  }

  lemma {:induction false} ClosingStays(cfg: Config, h: History, i: nat)
    requires i < |Log(h)| && (IsShutdown(Log(h)[i]) || Log(h)[i].Returned?)
    ensures ViewOf(cfg, h).closing
  {
    assert Log(h) == Log(h.before) + [h.effect];
    LicenceStep(cfg, ViewOf(cfg, h.before), h.effect);
    hide See;
    if i < |Log(h.before)| {
      ClosingStays(cfg, h.before, i);
    }
  }

  lemma {:induction false} NothingAfterShutdown(cfg: Config, h: History, i: nat, k: nat)
    requires Discipline(cfg, h)
    requires i < k < |Log(h)| && (IsShutdown(Log(h)[i]) || Log(h)[i].Returned?)
    ensures !Log(h)[k].Consumed? && !Log(h)[k].Spawned? && Log(h)[k] != Emitted(Starting)
  {
    assert Log(h) == Log(h.before) + [h.effect];
    if k < |Log(h.before)| {
      NothingAfterShutdown(cfg, h.before, i, k);
    } else {
      ClosingStays(cfg, h.before, i);
    }
  }

  /**
   A requested stop never restarts: between a consumed Stop and a later Starting lies a consumed
   Start or Restart; after a consumed Shutdown nothing is consumed, spawned or started again.
   */
  lemma {:induction false} StopNeverRestarts(cfg: Config, ins: seq<Input>, i: nat, k: nat)
    requires Fits(cfg, FRESH, ins)
    requires i < k < |Log(HistoryOf(cfg, ins))|
    ensures
      var log := Log(HistoryOf(cfg, ins));
      && (IsStop(log[i]) && log[k] == Emitted(Starting) ==> exists j :: i < j < k && IsLicence(log[j]))
      && (IsShutdown(log[i]) ==> !log[k].Consumed? && !log[k].Spawned? && log[k] != Emitted(Starting))
  {
    AllRunsDisciplined(cfg, ins);
    var h := HistoryOf(cfg, ins);
    if IsStop(Log(h)[i]) && Log(h)[k] == Emitted(Starting) {
      NoStartWithoutLicence(cfg, h, i, k);
    }
    if IsShutdown(Log(h)[i]) {
      NothingAfterShutdown(cfg, h, i, k);
    }
  }

  // ---------------------------------------------------------------------------------------
  // Acknowledgements
  // ---------------------------------------------------------------------------------------

  function CommandsIn(ins: seq<Input>): seq<Command> {
    if ins == [] then []
    else if ins[0].Cmd? then [ins[0].cmd] + CommandsIn(ins[1..])
    else CommandsIn(ins[1..])
  }

  /** The commands among heard effects. */
  function CommandsOf(es: seq<Effect>): seq<Command> {
    if es == [] then []
    else
      var e := es[|es| - 1];
      CommandsOf(es[..|es| - 1]) + if e.Consumed? then [e.cmd] else []
  }

  lemma {:induction false} ConsumedAreHeard(h: History)
    ensures ConsumedIn(h) == CommandsOf(Heard(h))
  {
    if h.After? {
      ConsumedAreHeard(h.before);
      var s := Heard(h.before);
      assert (s + [h.effect])[..|s|] == s;
    }
  }

  lemma {:induction false} FeedConsumes(cfg: Config, t: Task, i: Input)
    requires Accepts(cfg, t.loc, i)
    ensures ConsumedIn(Feed(cfg, t, i).hist) == ConsumedIn(t.hist) + (if i.Cmd? then [i.cmd] else [])
  {
    hide ViewOf, Discipline, Feed, ConsumedIn, Heard;
    FeedHears(cfg, t, i);
    ConsumedAreHeard(t.hist);
    ConsumedAreHeard(Feed(cfg, t, i).hist);
    var s, more := Heard(t.hist), HeardFrom(t, i);
    if more == [] {
      assert s + more == s;
    } else {
      assert more == [more[0]] && (s + more)[..|s|] == s;
    }
  }

  lemma {:induction false} RunConsumes(cfg: Config, t: Task, ins: seq<Input>)
    requires Fits(cfg, t, ins)
    ensures ConsumedIn(RunFrom(cfg, t, ins).hist) == ConsumedIn(t.hist) + CommandsIn(ins)
    decreases |ins|
  {
    if ins != [] {
      FeedConsumes(cfg, t, ins[0]);
      RunConsumes(cfg, Feed(cfg, t, ins[0]), ins[1..]);
    }
  }

  lemma {:induction false} OpenStep(cfg: Config, v: View, e: Effect)
    requires Allowed(cfg, v, e)
    ensures See(cfg, v, e).open == if e.Consumed? then Some(e.cmd) else if e.Acked? then None else v.open
    ensures e.Consumed? ==> v.open.None?
    ensures e.Acked? ==> v.open == Some(e.cmd)
  {
  }

  lemma {:induction false} AcksFollow(cfg: Config, h: History)
    requires Discipline(cfg, h)
    ensures ConsumedIn(h) == AckedIn(h) + (if ViewOf(cfg, h).open.Some? then [ViewOf(cfg, h).open.value] else [])
  {
    hide See, Allowed;
    if h.After? {
      AcksFollow(cfg, h.before);
      OpenStep(cfg, ViewOf(cfg, h.before), h.effect);
    } else {
      assert BLANK.open.None?;
    }
  }

  /**
   Commands are consumed in the order they arrive and each is acknowledged exactly once before
   the next is consumed; at any moment at most one is open.
   */
  lemma {:induction false} AcksInOrder(cfg: Config, ins: seq<Input>, p: History)
    requires Fits(cfg, FRESH, ins)
    requires Prefix(p, HistoryOf(cfg, ins))
    ensures AckedIn(HistoryOf(cfg, ins)) == ConsumedIn(HistoryOf(cfg, ins)) == CommandsIn(ins)
    ensures AckedIn(p) <= ConsumedIn(p) && |ConsumedIn(p)| <= |AckedIn(p)| + 1
    ensures |ConsumedIn(p)| == |AckedIn(p)| + 1 <==> ViewOf(cfg, p).open.Some?
  {
    AllRunsDisciplined(cfg, ins);
    var h := HistoryOf(cfg, ins);
    RunConsumes(cfg, FRESH, ins);
    AcksFollow(cfg, h);
    DisciplineAt(cfg, p, h);
    AcksFollow(cfg, p);
  }

  /**
   What an acknowledgement means: except for a Start taken while Healthy, where the child keeps
   running, the supervisor owns no direct child and its pid entry is gone, on disk included.
   */
  lemma {:induction false} AckMeaning(cfg: Config, ins: seq<Input>, p: History, c: Command)
    requires Fits(cfg, FRESH, ins)
    requires Prefix(After(p, Acked(c)), HistoryOf(cfg, ins))
    ensures
      var v := ViewOf(cfg, p);
      if c.kind.Start? && v.published.Healthy? then v.running.Some? && v.entry == v.running && !v.dirty
      else v.running.None? && v.entry.None? && !v.dirty
  {
    AllRunsDisciplined(cfg, ins);
    DisciplineAt(cfg, After(p, Acked(c)), HistoryOf(cfg, ins));
  }

  // ---------------------------------------------------------------------------------------
  // Ownership
  // ---------------------------------------------------------------------------------------

  /** How child, pid entry, port and state go together, at every moment and not only at rest. */
  predicate Ownership(v: View) {
    && (v.running.Some? ==> v.published.Starting? || v.published.Healthy? || v.published.Stopping?)
    && (v.running.Some? && v.entry.Some? ==> v.entry == v.running)
    && (v.running.Some? ==> v.port == v.injected)
    && ((v.published.Healthy? || v.published.Stopping?) && v.running.Some? ==> v.entry == v.running && !v.dirty)
    && (v.published.Backoff? || v.published.Failed? || v.published.Idle? || v.published.Stopped? ==>
         v.running.None? && v.entry.None? && !v.dirty)
    && (v.open.Some? && v.open.value.kind.Shutdown? ==> v.closing)
    && (v.shut ==> v.closing && v.running.None? && v.entry.None? && !v.dirty)
  }

  lemma {:induction false} OwnershipStep(cfg: Config, v: View, e: Effect)
    requires Ownership(v) && Allowed(cfg, v, e)
    ensures Ownership(See(cfg, v, e))
  {
    hide SumTo;
  }

  lemma {:induction false} OwnershipHolds(cfg: Config, h: History)
    requires Discipline(cfg, h)
    ensures Ownership(ViewOf(cfg, h))
  {
    hide Ownership, See, Allowed;
    if h.After? {
      OwnershipHolds(cfg, h.before);
      OwnershipStep(cfg, ViewOf(cfg, h.before), h.effect);
    } else {
      OwnershipBlank();
    }
  }

  lemma {:induction false} OwnershipBlank()
    ensures Ownership(BLANK)
  {
  }

  /**
   At every moment of every run the direct child, the pid entry, the port cell and the published
   state go together; and while the supervisor waits for health or monitors, the store maps the
   sidecar to the current child and the shared port is the one that child was given.
   */
  lemma {:induction false} OwnershipAlways(cfg: Config, ins: seq<Input>, p: History)
    requires Fits(cfg, FRESH, ins)
    requires Prefix(p, HistoryOf(cfg, ins))
    ensures Ownership(ViewOf(cfg, p))
    ensures
      var t := RunFrom(cfg, FRESH, ins);
      var v := ViewOf(cfg, t.hist);
      match t.loc
      case Health(pid) => v.running == v.entry == Some(pid) && !v.dirty && v.port == v.injected == t.port
      case Monitor(pid) => v.running == v.entry == Some(pid) && !v.dirty && v.port == v.injected == t.port
      case _ => v.running.None? && v.entry.None? && !v.dirty
  {
    AllRunsDisciplined(cfg, ins);
    DisciplineAt(cfg, p, HistoryOf(cfg, ins));
    OwnershipHolds(cfg, p);
  }

  // ---------------------------------------------------------------------------------------
  // What every child is given
  // ---------------------------------------------------------------------------------------

  /** The i-th effect is `e`, and no child was spawned since. */
  ghost predicate SinceLastSpawn(log: seq<Effect>, i: nat, e: Effect) {
    i < |log| && log[i] == e && forall m :: i < m < |log| ==> !log[m].Spawned?
  }

  lemma {:induction false} SpawnStep(cfg: Config, v: View, e: Effect)
    ensures
      var w := See(cfg, v, e);
      && (w.chosen ==> e.PortSet? || (v.chosen && !e.Spawned?))
      && (w.hooked.Some? ==> e == Hooked(w.hooked.value) || (v.hooked == w.hooked && !e.Spawned?))
      && w.port == if e.PortSet? then e.port else v.port
  {
    hide Booked;
  }

  /** The port in the cell, or the graceful step, was not there before the last spawn. */
  lemma {:induction false} DoneSinceSpawn(cfg: Config, h: History)
    ensures
      var v := ViewOf(cfg, h);
      && (v.chosen ==> exists i :: SinceLastSpawn(Log(h), i, PortSet(v.port)))
      && (v.hooked.Some? ==> exists i :: SinceLastSpawn(Log(h), i, Hooked(v.hooked.value)))
  {
    if h.After? {
      var b, e, v := h.before, h.effect, ViewOf(cfg, h);
      DoneSinceSpawn(cfg, b);
      SpawnStep(cfg, ViewOf(cfg, b), e);
      hide See;
      var log := Log(h);
      assert log == Log(b) + [e];
      assert e == PortSet(v.port) || e.Hooked? ==> SinceLastSpawn(log, |log| - 1, e);
      if v.chosen && !e.PortSet? {
        var i :| SinceLastSpawn(Log(b), i, PortSet(v.port));
        assert SinceLastSpawn(log, i, PortSet(v.port));
      }
      if v.hooked.Some? && !e.Hooked? {
        var i :| SinceLastSpawn(Log(b), i, Hooked(v.hooked.value));
        assert SinceLastSpawn(log, i, Hooked(v.hooked.value));
      }
    }
  }

  /**
   Every child is given a port as its strategy says, chosen since the child before it was spawned
   and put in the shared cell first.
   */
  lemma {:induction false} FreshPortPerSpawn(cfg: Config, ins: seq<Input>, p: History, pid: nat, port: Option<nat>)
    requires Fits(cfg, FRESH, ins)
    requires Prefix(After(p, Spawned(pid, port)), HistoryOf(cfg, ins))
    ensures PortFits(cfg.port, port)
    ensures exists i :: SinceLastSpawn(Log(p), i, PortSet(port))
  {
    AllRunsDisciplined(cfg, ins);
    hide Discipline, Fits, RunFrom, TaskInv, ViewOf;
    NextAllowed(cfg, p, Spawned(pid, port), HistoryOf(cfg, ins));
    DoneSinceSpawn(cfg, p);
  }

  /**
   A child that is stopped on request is killed only after its graceful step, if it has one: a
   signal, or a request if it was given a port, and the grace wait.
   */
  lemma {:induction false} GraceBeforeKill(cfg: Config, ins: seq<Input>, p: History, pid: nat)
    requires Fits(cfg, FRESH, ins) && !cfg.graceful.NoGrace?
    requires Prefix(After(p, Killed(pid)), HistoryOf(cfg, ins)) && ViewOf(cfg, p).published.Stopping?
    ensures cfg.graceful.Signal? || ViewOf(cfg, p).port.Some? ==> exists i :: SinceLastSpawn(Log(p), i, Hooked(true))
    ensures cfg.graceful.HttpPost? && ViewOf(cfg, p).port.None? ==> exists i :: SinceLastSpawn(Log(p), i, Hooked(false))
  {
    AllRunsDisciplined(cfg, ins);
    hide Discipline, Fits, RunFrom, TaskInv, ViewOf;
    NextAllowed(cfg, p, Killed(pid), HistoryOf(cfg, ins));
    DoneSinceSpawn(cfg, p);
  }
}
