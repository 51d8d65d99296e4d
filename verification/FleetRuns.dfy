/** Every reachable world satisfies the invariant of `FleetInvariants`. */
module FleetRuns {
  import opened Domain
  import opened Lifecycle
  import opened LifecycleTheorems
  import opened Fleet
  import opened FleetInvariants

  // ---------------------------------------------------------------------------------------
  // What histories say about acknowledgements and health
  // ---------------------------------------------------------------------------------------

  /** The watch channel says Healthy only after Healthy was given to the sink. */
  lemma {:induction false} SeenHealthyWasEmitted(cfg: Config, trace: Trace, n: Name)
    requires Discipline(cfg, HistoryIn(trace, n))
    ensures ViewOf(cfg, HistoryIn(trace, n)).published.Healthy? ==> HealthyIn(trace, n)
    ensures ViewOf(cfg, HistoryIn(trace, n)).seen.Healthy? ==> HealthyIn(trace, n)
  {
    if trace != [] {
      var before, last := trace[..|trace| - 1], trace[|trace| - 1];
      assert trace == before + [last];
      TraceGrows(before, last, n);
      SeenHealthyWasEmitted(cfg, before, n);
      if last.name == n {
        SentIsPublished(cfg, ViewOf(cfg, HistoryIn(before, n)), last.effect);
        hide See, Allowed, ViewOf;
        ViewAfter(cfg, HistoryIn(before, n), last.effect);
      }
    }
  }

  lemma {:induction false} SentIsPublished(cfg: Config, v: View, e: Effect)
    requires Allowed(cfg, v, e)
    ensures
      var v' := See(cfg, v, e);
      && v'.published == (if e.Emitted? then e.state else v.published)
      && v'.seen == (if e.Sent? then v.published else v.seen)
  {
  }

  /** An acknowledged Shutdown shuts the supervisor. */
  lemma {:induction false} AckedShutdownShuts(f: Fleet, trace: Trace, n: Name, c: Command)
    requires n in f.handles && c.kind.Shutdown? && Event(n, Acked(c)) in trace
    ensures ShutIn(f, trace, n)
  {
    var before, last := trace[..|trace| - 1], trace[|trace| - 1];
    assert trace == before + [last];
    TraceGrows(before, last, n);
    LicenceStep(f.handles[n], ViewOf(f.handles[n], HistoryIn(before, n)), last.effect);
    hide See;
    if last != Event(n, Acked(c)) {
      AckedShutdownShuts(f, before, n, c);
    }
  }

  // ---------------------------------------------------------------------------------------
  // Actions of callers
  // ---------------------------------------------------------------------------------------

  /** Replacing or adding a caller whose program stays and whose operations are completed so far. */
  lemma {:induction false} CallerStep(f: Fleet, w: World, id: nat, c: Caller)
    requires Registered(f, w)
    requires Inv(f, w)
    requires IsProgram(f, c.prog) && Ready(f, w.trace, c.prog, c.pc)
    requires id in w.callers ==> w.callers[id].prog == c.prog
    ensures Inv(f, StepCaller(w, id, c))
  {
    hide IsProgram, Ready, SupsOk, SharedOk, NamesOk;
    var w' := StepCaller(w, id, c);
    assert SupsOk(f, w') by {
      SupsIgnoreCallers(f, w, w');
    }
    assert SharedOk(f, w') by {
      SharedIgnoresCallers(f, w, w');
    }
    assert NamesOk(f, w') by {
      NamesSame(f, w, w');
    }
    CommandsKeepProgs(f, w, w');
    forall i | i in w'.callers ensures CallerOk(f, w', i) {
      if i != id {
        assert CallerOk(f, w, i);
      }
    }
  }

  lemma {:induction false} SupsIgnoreCallers(f: Fleet, w: World, w': World)
    requires SupsOk(f, w) && w'.sups == w.sups && w'.trace == w.trace && w'.queues.Keys == w.queues.Keys
    ensures SupsOk(f, w')
  {
    hide SupFits;
  }

  lemma {:induction false} SharedIgnoresCallers(f: Fleet, w: World, w': World)
    requires Registered(f, w) && Registered(f, w')
    requires SharedOk(f, w)
    requires w'.sups == w.sups && w'.store == w.store && w'.file == w.file && w'.live == w.live
    ensures SharedOk(f, w')
  {
    hide ViewOf, EntryOk, MirrorOk;
    assert forall n :: n in f.handles ==> ViewAt(f, w', n) == ViewAt(f, w, n);
  }

  lemma {:induction false} CommandsKeepProgs(f: Fleet, w: World, w': World)
    requires CommandsOk(f, w) && w'.trace == w.trace && w'.queues == w.queues
    requires forall i :: i in w.callers ==> i in w'.callers && w'.callers[i].prog == w.callers[i].prog
    ensures CommandsOk(f, w')
  {
    hide Ready;
    forall n, c | n in w'.queues && c in w'.queues[n] ensures Grounded(f, w'.trace, w'.callers, c, n) {
      assert Grounded(f, w.trace, w.callers, c, n);
    }
    forall i | 0 <= i < |w'.trace| && w'.trace[i].effect.Consumed?
      ensures Grounded(f, w'.trace[..i], w'.callers, w'.trace[i].effect.cmd, w'.trace[i].name)
    {
      assert Grounded(f, w.trace[..i], w.callers, w.trace[i].effect.cmd, w.trace[i].name);
    }
  }

  lemma {:induction false} CallerAt(f: Fleet, w: World, id: nat)
    requires id in w.callers && CallersOk(f, w)
    ensures IsProgram(f, w.callers[id].prog) && Ready(f, w.trace, w.callers[id].prog, w.callers[id].pc)
  {
    assert CallerOk(f, w, id);
  }

  /** One more operation is completed. */
  lemma {:induction false} ReadyOneMore(f: Fleet, trace: Trace, prog: seq<Op>, k: nat)
    requires Ready(f, trace, prog, k) && k < |prog| && OpDone(f, trace, prog[k])
    ensures Ready(f, trace, prog, k + 1)
  {
  }

  lemma {:induction false} EnqueueKeeps(f: Fleet, w: World, n: Name, c: Command)
    requires Registered(f, w) && n in f.handles
    requires Inv(f, w)
    requires Grounded(f, w.trace, w.callers, c, n)
    ensures Inv(f, w.(queues := w.queues[n := w.queues[n] + [c]]))
  {
    hide Grounded, SupsOk, SharedOk, NamesOk, CallerOk;
    var w' := w.(queues := w.queues[n := w.queues[n] + [c]]);
    SupsIgnoreCallers(f, w, w');
    SharedIgnoresCallers(f, w, w');
    NamesSame(f, w, w');
    CallersSame(f, w, w');
  }

  lemma {:induction false} DeliverKeeps(f: Fleet, w: World, id: nat)
    requires Registered(f, w) && Enabled(f, w, Deliver(id))
    requires Inv(f, w)
    ensures Inv(f, Apply(f, w, Deliver(id)))
  {
    hide Inv, CallersOk, SupsOk, IsProgram, Ready;
    InvParts(f, w);
    CallerAt(f, w, id);
    var n, c := CurrentOp(w, id).target, w.callers[id].(sent := true);
    var w' := StepCaller(w, id, c);
    CallerStep(f, w, id, c);
    if !HasReturned(w, n) {
      assert Grounded(f, w'.trace, w'.callers, CurrentCommand(w, id), n);
      hide Grounded;
      EnqueueKeeps(f, w', n, CurrentCommand(w, id));
    }
  }

  lemma {:induction false} ReturnedIsShut(f: Fleet, w: World, n: Name)
    requires Registered(f, w) && n in f.handles
    requires SupsOk(f, w) && HasReturned(w, n)
    ensures ShutIn(f, w.trace, n)
  {
    SupAt(f, w, n);
  }

  lemma {:induction false} ResumeKeeps(f: Fleet, w: World, id: nat)
    requires Registered(f, w) && Enabled(f, w, Resume(id))
    requires Inv(f, w)
    ensures Inv(f, Apply(f, w, Resume(id)))
  {
    hide Inv, ShutIn, CallersOk, SupsOk, IsProgram, Ready;
    InvParts(f, w);
    CallerAt(f, w, id);
    var op := CurrentOp(w, id);
    if op.kind.Shutdown? {
      if HasReturned(w, op.target) {
        ReturnedIsShut(f, w, op.target);
      } else {
        AckedShutdownShuts(f, w.trace, op.target, CurrentCommand(w, id));
      }
    }
    ReadyOneMore(f, w.trace, w.callers[id].prog, w.callers[id].pc);
    CallerStep(f, w, id, w.callers[id].(pc := w.callers[id].pc + 1, sent := false));
  }

  lemma {:induction false} InvParts(f: Fleet, w: World)
    requires Inv(f, w)
    ensures Registered(f, w) && SupsOk(f, w) && CallersOk(f, w) && CommandsOk(f, w) && SharedOk(f, w) && NamesOk(f, w)
  {
  }

  lemma {:induction false} ObserveKeeps(f: Fleet, w: World, id: nat)
    requires Registered(f, w) && Enabled(f, w, Observe(id))
    requires Inv(f, w)
    ensures Inv(f, Apply(f, w, Observe(id)))
  {
    hide Inv, CallersOk, SupsOk, IsProgram, Ready, ViewOf, HealthyIn;
    InvParts(f, w);
    CallerAt(f, w, id);
    var d := CurrentOp(w, id).dep;
    DoneDisciplined(f, w, d);
    SeenHealthyWasEmitted(f.handles[d], w.trace, d);
    ReadyOneMore(f, w.trace, w.callers[id].prog, w.callers[id].pc);
    CallerStep(f, w, id, w.callers[id].(pc := w.callers[id].pc + 1));
  }

  lemma {:induction false} DoneDisciplined(f: Fleet, w: World, n: Name)
    requires Registered(f, w) && n in f.handles
    requires SupsOk(f, w)
    ensures w.sups[n].done == HistoryIn(w.trace, n)
    ensures Discipline(f.handles[n], HistoryIn(w.trace, n))
  {
    SupAt(f, w, n);
    DisciplineAt(f.handles[n], w.sups[n].done, w.sups[n].task.hist);
  }

  lemma {:induction false} DieKeeps(f: Fleet, w: World, pid: nat)
    requires Registered(f, w)
    requires Inv(f, w)
    ensures Inv(f, w.(live := w.live - {pid}))
  {
    hide Grounded, SupsOk, CallerOk, EntryOk, MirrorOk, ViewOf;
    var w' := w.(live := w.live - {pid});
    SupsIgnoreCallers(f, w, w');
    CallersSame(f, w, w');
    assert forall n :: n in f.handles ==> ViewAt(f, w', n) == ViewAt(f, w, n);
  }

  lemma {:induction false} CallKeeps(f: Fleet, w: World, id: nat, prog: seq<Op>)
    requires Registered(f, w) && Enabled(f, w, Call(id, prog))
    requires Inv(f, w)
    ensures Inv(f, Apply(f, w, Call(id, prog)))
  {
    hide Inv, IsProgram;
    assert Ready(f, w.trace, prog, 0);
    CallerStep(f, w, id, Caller(prog, 0, false, false));
  }

  /** A call that gives up or is dropped. */
  lemma {:induction false} GoneKeeps(f: Fleet, w: World, id: nat)
    requires Registered(f, w) && id in w.callers
    requires Inv(f, w)
    ensures Inv(f, StepCaller(w, id, w.callers[id].(gone := true)))
  {
    hide Inv, CallersOk, IsProgram, Ready;
    InvParts(f, w);
    CallerAt(f, w, id);
    CallerStep(f, w, id, w.callers[id].(gone := true));
  }

  lemma {:induction false} DropKeeps(f: Fleet, w: World)
    requires Inv(f, w)
    ensures Inv(f, w.(dropped := true))
  {
    hide Grounded, SupsOk, CallerOk, EntryOk, MirrorOk, ViewOf;
    var w' := w.(dropped := true);
    SupsIgnoreCallers(f, w, w');
    SharedIgnoresCallers(f, w, w');
    CallersSame(f, w, w');
  }

  lemma {:induction false} CallerActionKeeps(f: Fleet, w: World, a: Action)
    requires Registered(f, w) && Enabled(f, w, a) && !a.React? && !a.Perform? && !a.Die? && !a.DropManager?
    requires Inv(f, w)
    ensures Inv(f, Apply(f, w, a))
  {
    hide Inv, HasReturned, ViewAt, IsProgram;
    match a
    case Call(id, prog) => CallKeeps(f, w, id, prog);
    case Deliver(id) => DeliverKeeps(f, w, id);
    case Resume(id) => ResumeKeeps(f, w, id);
    case Observe(id) => ObserveKeeps(f, w, id);
    case Abandon(id) => GoneKeeps(f, w, id);
    case Cancel(id) => GoneKeeps(f, w, id);
  }

  /** An action of a supervisor or of a child touches no call. */
  lemma {:induction false} CallsKept(f: Fleet, w: World, a: Action)
    requires Registered(f, w) && Enabled(f, w, a) && (a.React? || a.Perform? || a.Die?)
    ensures Apply(f, w, a).callers == w.callers
  {
    hide MayReact, Reacted, PerformNext, Affect;
    if a.React? {
      var e := ReactFields(f, w, a.name, a.input, a.image);
    } else if a.Perform? {
      PerformFields(f, w, a.name);
      hide Apply;
    }
  }

  /** Every enabled action keeps the invariant. */
  lemma {:induction false} StepKeeps(f: Fleet, w: World, a: Action)
    requires Registered(f, w) && Enabled(f, w, a)
    requires Inv(f, w)
    ensures Registered(f, Apply(f, w, a)) && Inv(f, Apply(f, w, a))
  {
    hide *;
    if a.React? || a.Perform? {
      SupActionKeeps(f, w, a);
    } else if a.Die? || a.DropManager? {
      OutsideKeeps(f, w, a);
    } else {
      CallerActionKeeps(f, w, a);
    }
    InvParts(f, Apply(f, w, a));
  }

  lemma {:induction false} SupActionKeeps(f: Fleet, w: World, a: Action)
    requires Registered(f, w) && Enabled(f, w, a) && (a.React? || a.Perform?)
    requires Inv(f, w)
    ensures Inv(f, Apply(f, w, a))
  {
    hide Inv, MayReact, Reacted, PerformNext;
    if a.React? {
      ReactKeeps(f, w, a.name, a.input, a.image);
    } else {
      PerformKeeps(f, w, a.name, None);
    }
  }

  lemma {:induction false} OutsideKeeps(f: Fleet, w: World, a: Action)
    requires Registered(f, w) && Enabled(f, w, a) && (a.Die? || a.DropManager?)
    requires Inv(f, w)
    ensures Inv(f, Apply(f, w, a))
  {
    hide Inv;
    if a.Die? {
      DieKeeps(f, w, a.pid);
    } else {
      DropKeeps(f, w);
    }
  }

  lemma {:induction false} RunKeepsInv(f: Fleet, w: World, acts: seq<Action>)
    requires Legal(f, w, acts) && Inv(f, w)
    ensures Inv(f, Outcome(f, w, acts))
    decreases |acts|
  {
    hide Inv, Enabled, Apply;
    if acts != [] {
      StepKeeps(f, w, acts[0]);
      RunKeepsInv(f, Apply(f, w, acts[0]), acts[1..]);
    }
  }

  /** The world that a run of the fleet leads to. */
  ghost function Reached(f: Fleet, acts: seq<Action>): (w: World)
    requires Legal(f, Boot(f), acts)
    ensures Registered(f, w)
  {
    BootInv(f);
    RunKeepsInv(f, Boot(f), acts);
    Outcome(f, Boot(f), acts)
  }

  lemma {:induction false} ReachedInv(f: Fleet, acts: seq<Action>)
    requires Legal(f, Boot(f), acts)
    ensures Inv(f, Reached(f, acts))
  {
    BootInv(f);
    RunKeepsInv(f, Boot(f), acts);
  }

  // ---------------------------------------------------------------------------------------
  // Putting runs together
  // ---------------------------------------------------------------------------------------

  lemma {:induction false} LegalConcat(f: Fleet, w: World, acts: seq<Action>, more: seq<Action>)
    requires Legal(f, w, acts) && Legal(f, Outcome(f, w, acts), more)
    ensures Legal(f, w, acts + more)
    ensures Outcome(f, w, acts + more) == Outcome(f, Outcome(f, w, acts), more)
    decreases |acts|
  {
    hide Enabled, Apply;
    if acts == [] {
      assert acts + more == more;
    } else {
      LegalConcat(f, Apply(f, w, acts[0]), acts[1..], more);
      assert (acts + more)[1..] == acts[1..] + more;
    }
  }

  lemma {:induction false} ThreeSteps(f: Fleet, w: World, a: Action, b: Action, c: Action)
    requires Registered(f, w) && Enabled(f, w, a)
    requires Registered(f, Apply(f, w, a)) && Enabled(f, Apply(f, w, a), b)
    requires Registered(f, Apply(f, Apply(f, w, a), b)) && Enabled(f, Apply(f, Apply(f, w, a), b), c)
    ensures Legal(f, w, [a, b, c])
    ensures Outcome(f, w, [a, b, c]) == Apply(f, Apply(f, Apply(f, w, a), b), c)
  {
    hide Enabled, Apply;
    var w1 := Apply(f, w, a);
    var w2 := Apply(f, w1, b);
    assert Legal(f, Apply(f, w2, c), []);
    assert [c][1..] == [] && [b, c][1..] == [c] && [a, b, c][1..] == [b, c];
    assert Legal(f, w2, [c]) && Outcome(f, w2, [c]) == Outcome(f, Apply(f, w2, c), []);
    assert Legal(f, w1, [b, c]) && Outcome(f, w1, [b, c]) == Outcome(f, w2, [c]);
  }

  /** A longer run goes through where the shorter one leads. */
  lemma {:induction false} RunSplits(f: Fleet, w: World, acts: seq<Action>, more: seq<Action>)
    requires acts <= more && Legal(f, w, acts) && Legal(f, w, more)
    ensures Legal(f, Outcome(f, w, acts), more[|acts|..])
    ensures Outcome(f, w, more) == Outcome(f, Outcome(f, w, acts), more[|acts|..])
    decreases |acts|
  {
    hide Enabled, Apply;
    if acts == [] {
      assert more[0..] == more;
    } else {
      RunSplits(f, Apply(f, w, acts[0]), acts[1..], more[1..]);
      assert more[1..][|acts[1..]|..] == more[|acts|..];
    }
  }
}
