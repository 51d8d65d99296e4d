/** What every step of the interleaved system keeps. */
module FleetInvariants {
  import opened Domain
  import opened Lifecycle
  import opened LifecycleProofs
  import opened LifecycleTheorems
  import opened Extension
  import opened PidStore
  import opened Fleet

  /** The part of the trace that one supervisor performed. */
  function HistoryIn(trace: Trace, n: Name): History {
    if trace == [] then Empty
    else
      var before, last := HistoryIn(trace[..|trace| - 1], n), trace[|trace| - 1];
      if last.name == n then After(before, last.effect) else before
  }

  lemma {:induction false} TraceGrows(trace: Trace, e: Event, n: Name)
    ensures HistoryIn(trace + [e], n) == if e.name == n then After(HistoryIn(trace, n), e.effect) else HistoryIn(trace, n)
  {
    assert (trace + [e])[..|trace|] == trace;
  }

  predicate HealthyIn(trace: Trace, n: Name) {
    Event(n, Emitted(Healthy)) in trace
  }

  predicate ShutIn(f: Fleet, trace: Trace, n: Name) {
    n in f.handles && ViewOf(f.handles[n], HistoryIn(trace, n)).shut
  }

  /** What is known once a caller has completed an operation. */
  predicate OpDone(f: Fleet, trace: Trace, op: Op) {
    match op
    case AwaitHealthy(d) => HealthyIn(trace, d)
    case Post(n, kind) => kind.Shutdown? ==> ShutIn(f, trace, n)
  }

  /** The first k operations are completed. */
  ghost predicate Ready(f: Fleet, trace: Trace, prog: seq<Op>, k: nat) {
    k <= |prog| && forall j :: 0 <= j < k ==> OpDone(f, trace, prog[j])
  }

  /** Command c to n belongs to a call whose earlier operations are completed. */
  ghost predicate Grounded(f: Fleet, trace: Trace, callers: map<nat, Caller>, c: Command, n: Name) {
    && c.caller in callers
    && var p := callers[c.caller].prog;
       c.op < |p| && p[c.op] == Post(n, c.kind) && Ready(f, trace, p, c.op)
  }

  /** A supervisor is in the middle of a sound plan and has performed the history h. */
  ghost predicate SupFits(cfg: Config, s: Sup, h: History) {
    TaskInv(cfg, s.task) && Quietly(s.done, s.task.hist) && s.done == h
  }

  ghost predicate CallerOk(f: Fleet, w: World, id: nat)
    requires id in w.callers
  {
    var c := w.callers[id];
    IsProgram(f, c.prog) && Ready(f, w.trace, c.prog, c.pc)
  }

  ghost predicate SupsOk(f: Fleet, w: World) {
    Registered(f, w) && forall n :: n in f.handles ==> SupFits(f.handles[n], w.sups[n], HistoryIn(w.trace, n))
  }

  ghost predicate CallersOk(f: Fleet, w: World) {
    forall id :: id in w.callers ==> CallerOk(f, w, id)
  }

  /** Every command in a queue, and every command ever consumed, is grounded. */
  ghost predicate CommandsOk(f: Fleet, w: World) {
    && (forall n, c :: n in w.queues && c in w.queues[n] ==> Grounded(f, w.trace, w.callers, c, n))
    && (forall i :: 0 <= i < |w.trace| && w.trace[i].effect.Consumed? ==>
         Grounded(f, w.trace[..i], w.callers, w.trace[i].effect.cmd, w.trace[i].name))
  }

  /** The map holds the entry of n exactly as its supervisor holds it. */
  predicate EntryOk(f: Fleet, store: Entries, n: Name, v: View)
    requires n in f.handles
  {
    if n in store then v.entry.Some? && store[n] == Entry(v.entry.value, f.handles[n].exe) else v.entry.None?
  }

  /** Unless its supervisor is between mutate and flush, the file has of n what the map has. */
  predicate MirrorOk(file: Entries, store: Entries, n: Name, v: View) {
    v.dirty || (if n in store then n in file && file[n] == store[n] else n !in file)
  }

  ghost predicate StoreOk(f: Fleet, w: World)
    requires Registered(f, w)
  {
    && w.store.Keys <= f.handles.Keys
    && forall n :: n in f.handles ==> EntryOk(f, w.store, n, ViewAt(f, w, n))
  }

  ghost predicate FileOk(f: Fleet, w: World)
    requires Registered(f, w)
  {
    && w.file.Keys <= f.handles.Keys
    && forall n :: n in f.handles ==> MirrorOk(w.file, w.store, n, ViewAt(f, w, n))
  }

  /** A live child is the one its supervisor is running. */
  ghost predicate LiveOk(f: Fleet, w: World)
    requires Registered(f, w)
  {
    forall pid :: pid in w.live ==>
      w.live[pid].owner in f.handles && ViewAt(f, w, w.live[pid].owner).running == Some(pid)
  }

  ghost predicate NamesOk(f: Fleet, w: World) {
    forall i :: 0 <= i < |w.trace| ==> w.trace[i].name in f.handles
  }

  ghost predicate SharedOk(f: Fleet, w: World)
    requires Registered(f, w)
  {
    StoreOk(f, w) && FileOk(f, w) && LiveOk(f, w)
  }

  ghost predicate Inv(f: Fleet, w: World) {
    && Registered(f, w)
    && SupsOk(f, w) && CallersOk(f, w) && CommandsOk(f, w) && SharedOk(f, w) && NamesOk(f, w)
  }

  lemma {:induction false} BootInv(f: Fleet)
    ensures Inv(f, Boot(f))
  {
    var w := Boot(f);
    forall n | n in f.handles ensures SupFits(f.handles[n], w.sups[n], HistoryIn(w.trace, n)) {
      FreshInv(f.handles[n]);
    }
  }

  // ---------------------------------------------------------------------------------------
  // Facts that stay once they hold
  // ---------------------------------------------------------------------------------------

  lemma {:induction false} ReadyGrows(f: Fleet, trace: Trace, e: Event, prog: seq<Op>, k: nat)
    requires Ready(f, trace, prog, k)
    ensures Ready(f, trace + [e], prog, k)
  {
    forall j | 0 <= j < k ensures OpDone(f, trace + [e], prog[j]) {
      assert OpDone(f, trace, prog[j]);
      match prog[j]
      case AwaitHealthy(d) =>
      case Post(n, kind) =>
        if kind.Shutdown? && e.name == n {
          TraceGrows(trace, e, n);
          LicenceStep(f.handles[n], ViewOf(f.handles[n], HistoryIn(trace, n)), e.effect);
          hide See;
        } else if kind.Shutdown? {
          TraceGrows(trace, e, n);
        }
    }
  }

  lemma {:induction false} GroundedGrows(f: Fleet, trace: Trace, e: Event, callers: map<nat, Caller>, c: Command, n: Name)
    requires Grounded(f, trace, callers, c, n)
    ensures Grounded(f, trace + [e], callers, c, n)
  {
    ReadyGrows(f, trace, e, callers[c.caller].prog, c.op);
  }

  // ---------------------------------------------------------------------------------------
  // One effect
  // ---------------------------------------------------------------------------------------

  lemma {:induction false} AffectCallers(f: Fleet, w: World, n: Name, e: Effect, image: Option<string>)
    requires n in f.handles && n in w.sups && CallersOk(f, w)
    ensures CallersOk(f, Affect(f, w, n, e, image))
  {
    hide Ready, IsProgram;
    var w' := Affect(f, w, n, e, image);
    forall id | id in w'.callers ensures CallerOk(f, w', id) {
      assert CallerOk(f, w, id);
      ReadyGrows(f, w.trace, Event(n, e), w.callers[id].prog, w.callers[id].pc);
    }
  }

  lemma {:induction false} AffectCommands(f: Fleet, w: World, n: Name, e: Effect, image: Option<string>)
    requires n in f.handles && n in w.sups && CommandsOk(f, w)
    requires e.Consumed? ==> Grounded(f, w.trace, w.callers, e.cmd, n)
    ensures CommandsOk(f, Affect(f, w, n, e, image))
  {
    hide Grounded;
    var w' := Affect(f, w, n, e, image);
    forall m, c | m in w'.queues && c in w'.queues[m] ensures Grounded(f, w'.trace, w'.callers, c, m) {
      GroundedGrows(f, w.trace, Event(n, e), w.callers, c, m);
    }
    forall i | 0 <= i < |w'.trace| && w'.trace[i].effect.Consumed?
      ensures Grounded(f, w'.trace[..i], w'.callers, w'.trace[i].effect.cmd, w'.trace[i].name)
    {
      assert w'.trace[..i] == w.trace[..i];
      assert i == |w.trace| ==> w.trace[..i] == w.trace;
    }
  }

  /** An effect of n leaves the callers, the queues and every other supervisor alone. */
  lemma {:induction false} AffectLocal(f: Fleet, w: World, n: Name, e: Effect, image: Option<string>)
    requires n in f.handles && n in w.sups
    ensures
      var w' := Affect(f, w, n, e, image);
      && w'.callers == w.callers && w'.queues == w.queues && w'.dropped == w.dropped
      && w'.trace == w.trace + [Event(n, e)]
      && w'.sups == w.sups[n := w.sups[n].(done := After(w.sups[n].done, e))]
  {
  }

  lemma {:induction false} SupsStep(f: Fleet, w: World, w': World, n: Name, e: Effect, s: Sup)
    requires n in f.handles && SupsOk(f, w)
    requires w'.trace == w.trace + [Event(n, e)]
    requires w'.sups == w.sups[n := s] && w'.queues.Keys == w.queues.Keys
    requires SupFits(f.handles[n], s, After(w.sups[n].done, e))
    ensures SupsOk(f, w')
  {
    hide TaskInv, Quietly, HistoryIn;
    assert w.sups[n].done == HistoryIn(w.trace, n) by {
      assert SupFits(f.handles[n], w.sups[n], HistoryIn(w.trace, n));
    }
    hide SupFits;
    forall m | m in f.handles ensures SupFits(f.handles[m], w'.sups[m], HistoryIn(w'.trace, m)) {
      TraceGrows(w.trace, Event(n, e), m);
      assert SupFits(f.handles[m], w.sups[m], HistoryIn(w.trace, m));
    }
  }

  lemma {:induction false} AffectSups(f: Fleet, w: World, n: Name, e: Effect, image: Option<string>)
    requires Registered(f, w) && n in f.handles
    requires SupsOk(f, w)
    requires Quietly(After(w.sups[n].done, e), w.sups[n].task.hist)
    ensures Registered(f, Affect(f, w, n, e, image)) && SupsOk(f, Affect(f, w, n, e, image))
  {
    SupAt(f, w, n);
    hide TaskInv, Quietly, SupsOk;
    SupsStep(f, w, Affect(f, w, n, e, image), n, e, w.sups[n].(done := After(w.sups[n].done, e)));
  }

  lemma {:induction false} AffectNames(f: Fleet, w: World, n: Name, e: Effect, image: Option<string>)
    requires n in f.handles && n in w.sups && NamesOk(f, w)
    ensures NamesOk(f, Affect(f, w, n, e, image))
  {
  }

  lemma {:induction false} ViewAfter(cfg: Config, h: History, e: Effect)
    ensures ViewOf(cfg, After(h, e)) == See(cfg, ViewOf(cfg, h), e)
  {
  }

  /** What an effect does to a view, as far as store, file and processes are concerned. */
  lemma {:induction false} SharedFacts(cfg: Config, v: View, e: Effect)
    requires Allowed(cfg, v, e)
    ensures
      var v' := See(cfg, v, e);
      && v'.entry == (if e.Inserted? then Some(e.pid) else if e.Removed? then None else v.entry)
      && v'.dirty == (if e.Inserted? || e.Removed? then true else if e.Flushed? then false else v.dirty)
      && v'.running == (if e.Spawned? then Some(e.pid) else if e.Reaped? || e.Killed? then None else v.running)
      && (e.Spawned? ==> v.running.None?)
      && (e.Reaped? ==> v.running == Some(e.pid))
      && (e.Killed? && v.running.Some? ==> v.running == Some(e.pid))
  {
  }

  /** The shared part of the world after an effect. */
  lemma {:induction false} AffectFields(f: Fleet, w: World, n: Name, e: Effect, image: Option<string>)
    requires Registered(f, w) && n in f.handles
    ensures
      var w' := Affect(f, w, n, e, image);
      && Registered(f, w')
      && ViewAt(f, w', n) == See(f.handles[n], ViewAt(f, w, n), e)
      && (forall m :: m in f.handles && m != n ==> ViewAt(f, w', m) == ViewAt(f, w, m))
      && w'.store == StoreAfter(f, w.store, n, e)
      && w'.file == (if e.Flushed? then w.store else w.file)
      && w'.live == LiveAfter(w.live, n, e, image)
  {
    hide ViewOf, See, StoreAfter, LiveAfter;
    ViewAfter(f.handles[n], w.sups[n].done, e);
  }

  lemma {:induction false} StoreStep(f: Fleet, w: World, w': World, n: Name, e: Effect)
    requires Registered(f, w) && Registered(f, w') && n in f.handles
    requires w'.store == StoreAfter(f, w.store, n, e)
    requires forall m :: m in f.handles && m != n ==> ViewAt(f, w', m) == ViewAt(f, w, m)
    requires ViewAt(f, w', n).entry == if e.Inserted? then Some(e.pid) else if e.Removed? then None else ViewAt(f, w, n).entry
    requires StoreOk(f, w)
    ensures StoreOk(f, w')
  {
    hide ViewAt;
    forall m | m in f.handles ensures EntryOk(f, w'.store, m, ViewAt(f, w', m)) {
      assert EntryOk(f, w.store, m, ViewAt(f, w, m));
    }
  }

  lemma {:induction false} FileStep(f: Fleet, w: World, w': World, n: Name, e: Effect)
    requires Registered(f, w) && Registered(f, w') && n in f.handles
    requires w'.store == StoreAfter(f, w.store, n, e)
    requires w'.file == if e.Flushed? then w.store else w.file
    requires forall m :: m in f.handles && m != n ==> ViewAt(f, w', m) == ViewAt(f, w, m)
    requires ViewAt(f, w', n).dirty ==
      if e.Inserted? || e.Removed? then true else if e.Flushed? then false else ViewAt(f, w, n).dirty
    requires w.store.Keys <= f.handles.Keys && FileOk(f, w)
    ensures FileOk(f, w')
  {
    hide ViewAt;
    forall m | m in f.handles ensures MirrorOk(w'.file, w'.store, m, ViewAt(f, w', m)) {
      assert MirrorOk(w.file, w.store, m, ViewAt(f, w, m));
    }
  }

  lemma {:induction false} LiveStep(f: Fleet, w: World, w': World, n: Name, e: Effect, image: Option<string>)
    requires Registered(f, w) && Registered(f, w') && n in f.handles
    requires w'.live == LiveAfter(w.live, n, e, image)
    requires forall m :: m in f.handles && m != n ==> ViewAt(f, w', m) == ViewAt(f, w, m)
    requires
      var v, v' := ViewAt(f, w, n), ViewAt(f, w', n);
      && v'.running == (if e.Spawned? then Some(e.pid) else if e.Reaped? || e.Killed? then None else v.running)
      && (e.Spawned? ==> v.running.None?)
      && (e.Reaped? ==> v.running == Some(e.pid))
      && (e.Killed? && v.running.Some? ==> v.running == Some(e.pid))
    requires e.Reaped? ==> !(e.pid in w.live && w.live[e.pid].owner == n)
    requires LiveOk(f, w)
    ensures LiveOk(f, w')
  {
    hide ViewAt;
  }

  /** The shared state follows an effect that is in order. */
  lemma {:induction false} AffectShared(f: Fleet, w: World, n: Name, e: Effect, image: Option<string>)
    requires Registered(f, w) && n in f.handles
    requires SharedOk(f, w)
    requires Allowed(f.handles[n], ViewAt(f, w, n), e)
    requires e.Reaped? ==> !(e.pid in w.live && w.live[e.pid].owner == n)
    ensures Registered(f, Affect(f, w, n, e, image)) && SharedOk(f, Affect(f, w, n, e, image))
  {
    hide ViewAt, Affect, See, Allowed, StoreOk, FileOk, LiveOk;
    var w' := Affect(f, w, n, e, image);
    AffectFields(f, w, n, e, image);
    SharedFacts(f.handles[n], ViewAt(f, w, n), e);
    StoreStep(f, w, w', n, e);
    StoreKeys(f, w);
    FileStep(f, w, w', n, e);
    LiveStep(f, w, w', n, e, image);
  }

  lemma {:induction false} StoreKeys(f: Fleet, w: World)
    requires Registered(f, w) && StoreOk(f, w)
    ensures w.store.Keys <= f.handles.Keys
  {
  }

  lemma {:induction false} SupAt(f: Fleet, w: World, n: Name)
    requires Registered(f, w) && n in f.handles
    requires SupsOk(f, w)
    ensures TaskInv(f.handles[n], w.sups[n].task) && Quietly(w.sups[n].done, w.sups[n].task.hist)
    ensures w.sups[n].done == HistoryIn(w.trace, n)
  {
    hide TaskInv, Quietly;
    assert SupFits(f.handles[n], w.sups[n], HistoryIn(w.trace, n));
  }

  lemma {:induction false} EffectAllowed(cfg: Config, t: Task, p: History, e: Effect)
    requires TaskInv(cfg, t) && Quietly(After(p, e), t.hist)
    ensures Allowed(cfg, ViewOf(cfg, p), e)
  {
    NextAllowed(cfg, p, e, t.hist);
  }

  lemma {:induction false} AffectKeeps(f: Fleet, w: World, n: Name, e: Effect, image: Option<string>)
    requires Registered(f, w) && n in f.handles
    requires SupsOk(f, w) && CallersOk(f, w) && CommandsOk(f, w) && SharedOk(f, w) && NamesOk(f, w)
    requires Quietly(After(w.sups[n].done, e), w.sups[n].task.hist)
    requires e.Consumed? ==> Grounded(f, w.trace, w.callers, e.cmd, n)
    requires e.Reaped? ==> !(e.pid in w.live && w.live[e.pid].owner == n)
    ensures Inv(f, Affect(f, w, n, e, image))
  {
    hide Allowed, ViewOf, Quietly, Grounded, SupsOk, CallersOk, CommandsOk, SharedOk, NamesOk, TaskInv, Affect;
    SupAt(f, w, n);
    EffectAllowed(f.handles[n], w.sups[n].task, w.sups[n].done, e);
    AffectSups(f, w, n, e, image);
    AffectCallers(f, w, n, e, image);
    AffectCommands(f, w, n, e, image);
    AffectShared(f, w, n, e, image);
    AffectNames(f, w, n, e, image);
  }

  // ---------------------------------------------------------------------------------------
  // Actions of supervisors
  // ---------------------------------------------------------------------------------------

  lemma {:induction false} NextIsPrefix(p: History, h: History)
    requires Prefix(p, h) && p != h
    ensures Prefix(After(p, NextEffect(p, h)), h)
  {
    if h.before != p {
      NextIsPrefix(p, h.before);
    } else {
      assert Prefix(h, h);
    }
  }

  /** The next effect of a plan in progress is never a heard one. */
  lemma {:induction false} QuietNext(p: History, h: History)
    requires Quietly(p, h) && p != h
    ensures !IsHeard(NextEffect(p, h)) && Quietly(After(p, NextEffect(p, h)), h)
  {
    var e := NextEffect(p, h);
    NextIsPrefix(p, h);
    HeardGrows(After(p, e), h);
    assert |Heard(After(p, e))| == |Heard(p)| + if IsHeard(e) then 1 else 0;
  }

  lemma {:induction false} PerformKeeps(f: Fleet, w: World, n: Name, image: Option<string>)
    requires Registered(f, w) && n in f.handles && Prefix(w.sups[n].done, w.sups[n].task.hist)
    requires Inv(f, w)
    ensures Inv(f, PerformNext(f, w, n, image))
  {
    hide Allowed, ViewOf, Quietly, Grounded, SupsOk, CallersOk, CommandsOk, SharedOk, NamesOk, TaskInv, Affect;
    var s := w.sups[n];
    if s.done != s.task.hist {
      SupAt(f, w, n);
      QuietNext(s.done, s.task.hist);
      AffectKeeps(f, w, n, NextEffect(s.done, s.task.hist), image);
    }
  }

  /** The plan itself touches only the task and the queue. */
  lemma {:induction false} PlanKeeps(f: Fleet, w: World, n: Name, i: Input)
    requires Registered(f, w) && MayReact(f, w, n, i)
    requires CallersOk(f, w) && CommandsOk(f, w) && SharedOk(f, w) && NamesOk(f, w)
    ensures
      var p := Plan(f, w, n, i);
      Registered(f, p) && CallersOk(f, p) && CommandsOk(f, p) && SharedOk(f, p) && NamesOk(f, p)
  {
    hide Feed, ViewOf, Grounded, Accepts, CallerOk, NoSenders;
    var p := Plan(f, w, n, i);
    assert forall m :: m in f.handles ==> ViewAt(f, p, m) == ViewAt(f, w, m);
    hide ViewAt;
    assert SharedOk(f, p);
    hide SharedOk, CallersOk, CommandsOk, NamesOk;
    CallersSame(f, w, p);
    CommandsSame(f, w, p);
    assert NamesOk(f, p) by {
      NamesSame(f, w, p);
    }
  }

  lemma {:induction false} NamesSame(f: Fleet, w: World, w': World)
    requires NamesOk(f, w) && w'.trace == w.trace
    ensures NamesOk(f, w')
  {
  }

  lemma {:induction false} CallersSame(f: Fleet, w: World, p: World)
    requires CallersOk(f, w) && p.callers == w.callers && p.trace == w.trace
    ensures CallersOk(f, p)
  {
    forall id | id in p.callers ensures CallerOk(f, p, id) {
      assert CallerOk(f, w, id);
    }
  }

  lemma {:induction false} CommandsSame(f: Fleet, w: World, p: World)
    requires CommandsOk(f, w) && p.callers == w.callers && p.trace == w.trace
    requires p.queues.Keys == w.queues.Keys
    requires forall m, c :: m in p.queues && c in p.queues[m] ==> c in w.queues[m]
    ensures CommandsOk(f, p)
  {
    hide Grounded;
  }

  /** Planning the reaction to i is sound and e is its first effect. */
  ghost predicate StartsPlan(f: Fleet, w: World, n: Name, i: Input, e: Effect)
    requires Registered(f, w) && MayReact(f, w, n, i)
  {
    var t := Feed(f.handles[n], w.sups[n].task, i);
    TaskInv(f.handles[n], t) && Quietly(After(w.sups[n].done, e), t.hist)
  }

  lemma {:induction false} PlannedSups(f: Fleet, w: World, n: Name, i: Input, e: Effect, image: Option<string>)
    requires Registered(f, w) && MayReact(f, w, n, i)
    requires StartsPlan(f, w, n, i, e)
    requires SupsOk(f, w)
    ensures Registered(f, Plan(f, w, n, i)) && SupsOk(f, Affect(f, Plan(f, w, n, i), n, e, image))
  {
    hide Feed, TaskInv, Quietly, Accepts, SupsOk, NoSenders;
    var s := Sup(Feed(f.handles[n], w.sups[n].task, i), After(w.sups[n].done, e));
    var p := Plan(f, w, n, i);
    AffectLocal(f, p, n, e, image);
    assert p.sups[n := s] == w.sups[n := s];
    hide Affect, Plan, MayReact, StartsPlan;
    SupsStep(f, w, Affect(f, Plan(f, w, n, i), n, e, image), n, e, s);
  }

  lemma {:induction false} PlanThenAffect(f: Fleet, w: World, n: Name, i: Input, e: Effect, image: Option<string>)
    requires Registered(f, w) && MayReact(f, w, n, i)
    requires StartsPlan(f, w, n, i, e)
    requires e.Consumed? ==> Grounded(f, w.trace, w.callers, e.cmd, n)
    requires e.Reaped? ==> !(e.pid in w.live && w.live[e.pid].owner == n)
    requires Inv(f, w)
    ensures Inv(f, Affect(f, Plan(f, w, n, i), n, e, image))
  {
    hide MayReact, StartsPlan, Grounded, Allowed, ViewOf, Affect, Plan;
    hide SupsOk, CallersOk, CommandsOk, SharedOk, NamesOk;
    var p := Plan(f, w, n, i);
    PlannedAllowed(f, w, n, i, e);
    PlannedSups(f, w, n, i, e, image);
    PlanKeeps(f, w, n, i);
    PlanFields(f, w, n, i);
    AffectCallers(f, p, n, e, image);
    AffectCommands(f, p, n, e, image);
    AffectShared(f, p, n, e, image);
    AffectNames(f, p, n, e, image);
  }

  lemma {:induction false} PlanFields(f: Fleet, w: World, n: Name, i: Input)
    requires Registered(f, w) && MayReact(f, w, n, i)
    ensures
      var p := Plan(f, w, n, i);
      n in f.handles && p.sups[n].done == w.sups[n].done
      && p.trace == w.trace && p.callers == w.callers && p.live == w.live
  {
  }

  lemma {:induction false} PlannedAllowed(f: Fleet, w: World, n: Name, i: Input, e: Effect)
    requires Registered(f, w) && MayReact(f, w, n, i)
    requires StartsPlan(f, w, n, i, e)
    ensures n in f.handles && Allowed(f.handles[n], ViewOf(f.handles[n], w.sups[n].done), e)
  {
    hide Feed, TaskInv, ViewOf, Quietly, Accepts, Allowed;
    EffectAllowed(f.handles[n], Feed(f.handles[n], w.sups[n].task, i), w.sups[n].done, e);
  }

  lemma {:induction false} QueueHeadGrounded(f: Fleet, w: World, n: Name)
    requires n in w.queues && w.queues[n] != [] && CommandsOk(f, w)
    ensures Grounded(f, w.trace, w.callers, w.queues[n][0], n)
  {
    assert w.queues[n][0] in w.queues[n];
  }

  /** A reaction: its plan, and the first effect at once. */
  lemma {:induction false} ReactKeeps(f: Fleet, w: World, n: Name, i: Input, image: Option<string>)
    requires Registered(f, w) && MayReact(f, w, n, i)
    requires Inv(f, w)
    ensures Inv(f, Reacted(f, w, n, i, image))
  {
    hide Feed, TaskInv, ViewOf, Quietly, Grounded, SupsOk, CallersOk, CommandsOk, SharedOk, NamesOk, Accepts, Affect;
    SupAt(f, w, n);
    var cfg, t := f.handles[n], w.sups[n].task;
    var e := FeedStarts(cfg, t, i);
    FeedKeeps(cfg, t, i);
    QuietlyIsNext(t.hist, e, Feed(cfg, t, i).hist);
    HeardCases(cfg, t, i, e);
    if i.Cmd? {
      QueueHeadGrounded(f, w, n);
    }
    PlanThenAffect(f, w, n, i, e, image);
  }

  lemma {:induction false} QuietlyIsNext(p: History, e: Effect, h: History)
    requires Quietly(After(p, e), h)
    ensures Prefix(p, h) && p != h && NextEffect(p, h) == e
  {
    NextIs(p, e, h);
  }

  lemma {:induction false} HeardCases(cfg: Config, t: Task, i: Input, e: Effect)
    requires Accepts(cfg, t.loc, i)
    requires HeardFrom(t, i) == if IsHeard(e) then [e] else []
    ensures e.Consumed? ==> i == Cmd(e.cmd)
    ensures e.Reaped? ==> i.Exit? && (t.loc.Health? || t.loc.Monitor?) && e.pid == t.loc.pid
  {
  }

  // ---------------------------------------------------------------------------------------
  // What supervisor actions touch
  // ---------------------------------------------------------------------------------------

  /** n performs e: nothing else of the tasks, queues and calls changes. */
  predicate Performs(f: Fleet, w: World, w': World, n: Name, e: Effect) {
    && Registered(f, w) && Registered(f, w') && n in f.handles
    && w'.callers == w.callers && w'.queues == w.queues && w'.dropped == w.dropped
    && w'.trace == w.trace + [Event(n, e)]
    && w'.sups == w.sups[n := w.sups[n].(done := After(w.sups[n].done, e))]
  }

  lemma {:induction false} PerformFields(f: Fleet, w: World, n: Name)
    requires Registered(f, w) && Enabled(f, w, Perform(n))
    ensures Prefix(w.sups[n].done, w.sups[n].task.hist) && w.sups[n].done != w.sups[n].task.hist
    ensures
      var e := NextEffect(w.sups[n].done, w.sups[n].task.hist);
      Apply(f, w, Perform(n)) == Affect(f, w, n, e, None) && Performs(f, w, Apply(f, w, Perform(n)), n, e)
  {
    hide Affect, NextEffect, Prefix;
    AffectLocal(f, w, n, NextEffect(w.sups[n].done, w.sups[n].task.hist), None);
  }

  /** A reaction plans, and performs its first effect, which is the heard one if there is one. */
  lemma {:induction false} ReactFields(f: Fleet, w: World, n: Name, i: Input, image: Option<string>) returns (e: Effect)
    requires Registered(f, w) && MayReact(f, w, n, i)
    ensures n in f.handles && Accepts(f.handles[n], w.sups[n].task.loc, i)
    ensures Reacted(f, w, n, i, image) == Affect(f, Plan(f, w, n, i), n, e, image)
    ensures Performs(f, Plan(f, w, n, i), Reacted(f, w, n, i, image), n, e)
    ensures StartsWith(w.sups[n].task, e, Feed(f.handles[n], w.sups[n].task, i).hist)
    ensures HeardFrom(w.sups[n].task, i) == if IsHeard(e) then [e] else []
  {
    hide Feed, ViewOf, Quietly, Accepts, NoSenders;
    var t := w.sups[n].task;
    e := FeedStarts(f.handles[n], t, i);
    QuietlyIsNext(t.hist, e, Feed(f.handles[n], t, i).hist);
    hide Affect;
    AffectLocal(f, Plan(f, w, n, i), n, e, image);
  }
}
