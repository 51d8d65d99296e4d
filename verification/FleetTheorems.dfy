/** The promises of the manager over a whole fleet, for every interleaving. */
module FleetTheorems {
  import opened Domain
  import opened Lifecycle
  import opened LifecycleProofs
  import opened LifecycleTheorems
  import opened Extension
  import opened Graph
  import opened Closure
  import opened Fleet
  import opened FleetInvariants
  import opened FleetRuns

  // ---------------------------------------------------------------------------------------
  // The shape of the programs
  // ---------------------------------------------------------------------------------------

  /** Along a chain that ends with `name`, posts and awaits alternate. */
  lemma {:induction false} StartProgramAt(chain: seq<Name>, name: Name)
    requires chain != [] && chain[|chain| - 1] == name
    requires forall i :: 0 <= i < |chain| - 1 ==> chain[i] != name
    ensures
      var p := StartProgram(chain, name);
      && |p| == 2 * |chain| - 1
      && (forall i :: 0 <= i < |chain| ==> p[2 * i] == Post(chain[i], Start))
      && (forall i :: 0 <= i < |chain| - 1 ==> p[2 * i + 1] == AwaitHealthy(chain[i]))
  {
    var p := StartProgram(chain, name);
    if |chain| == 1 {
      assert StartProgram(chain[1..], name) == [];
    } else {
      var q := StartProgram(chain[1..], name);
      StartProgramAt(chain[1..], name);
      assert p == [Post(chain[0], Start), AwaitHealthy(chain[0])] + q;
      forall i | 0 <= i < |chain| ensures p[2 * i] == Post(chain[i], Start) {
        if i > 0 {
          assert p[2 * i] == q[2 * (i - 1)];
        }
      }
      forall i | 0 <= i < |chain| - 1 ensures p[2 * i + 1] == AwaitHealthy(chain[i]) {
        if i > 0 {
          assert p[2 * i + 1] == q[2 * (i - 1) + 1];
        }
      }
    }
  }

  /** d is awaited before the o-th operation. */
  ghost predicate AwaitedBefore(p: seq<Op>, o: nat, d: Name) {
    exists k :: 0 <= k < o && k < |p| && p[k] == AwaitHealthy(d)
  }

  lemma {:induction false} ChainShape(g: Graph, name: Name, chain: seq<Name>)
    requires IsChain(g, name, chain)
    ensures chain != [] && chain[|chain| - 1] == name
    ensures forall i :: 0 <= i < |chain| - 1 ==> chain[i] != name
    ensures Ordered(g, chain)
  {
    hide Reaches, Ordered;
  }

  /** Every post of `start` is a Start, at an even place. */
  lemma {:induction false} StartProgramOp(g: Graph, chain: seq<Name>, name: Name, o: nat)
    requires IsChain(g, name, chain) && o < |StartProgram(chain, name)|
    ensures
      var p := StartProgram(chain, name);
      p[o].Post? ==> o == 2 * (o / 2) && o / 2 < |chain| && p[o] == Post(chain[o / 2], Start)
  {
    hide IsChain, StartProgram;
    ChainShape(g, name, chain);
    StartProgramAt(chain, name);
    var p, i := StartProgram(chain, name), o / 2;
    if o == 2 * i {
      assert p[2 * i] == Post(chain[i], Start);
    } else {
      assert p[2 * i + 1] == AwaitHealthy(chain[i]);
    }
  }

  lemma {:induction false} StartProgramGates(g: Graph, chain: seq<Name>, name: Name, o: nat, d: Name)
    requires IsChain(g, name, chain) && o < |StartProgram(chain, name)|
    requires StartProgram(chain, name)[o].Post? && Edge(g, StartProgram(chain, name)[o].target, d)
    ensures AwaitedBefore(StartProgram(chain, name), o, d)
  {
    var p, i := StartProgram(chain, name), o / 2;
    ChainShape(g, name, chain);
    StartProgramOp(g, chain, name, o);
    StartProgramAt(chain, name);
    hide IsChain, StartProgram;
    assert d in chain[..i];
    var k :| 0 <= k < i && chain[k] == d;
    assert p[2 * k + 1] == AwaitHealthy(d);
  }

  lemma {:induction false} WaiterProgramGates(f: Fleet, name: Name, o: nat, d: Name)
    requires ValidFleet(f) && name in f.handles && o < |WaiterProgram(f.handles[name])|
    requires WaiterProgram(f.handles[name])[o].Post? && Edge(HandleGraph(f.handles), WaiterProgram(f.handles[name])[o].target, d)
    ensures AwaitedBefore(WaiterProgram(f.handles[name]), o, d)
  {
    var cfg := f.handles[name];
    var p := WaiterProgram(cfg);
    assert o == |cfg.dependsOn|;
    var k :| 0 <= k < |cfg.dependsOn| && cfg.dependsOn[k] == d;
    assert p[k] == AwaitHealthy(d);
  }

  /** In every call a Start of n is posted only after each direct dependency of n was awaited. */
  lemma {:induction false} ProgramsGate(f: Fleet, p: seq<Op>, o: nat, n: Name, d: Name)
    requires ValidFleet(f) && IsProgram(f, p) && o < |p| && p[o] == Post(n, Start)
    requires Edge(HandleGraph(f.handles), n, d)
    ensures AwaitedBefore(p, o, d)
  {
    hide ValidFleet;
    if IsStart(f, p) {
      var name, chain :| name in f.handles && IsChain(HandleGraph(f.handles), name, chain) && p == StartProgram(chain, name);
      StartProgramGates(HandleGraph(f.handles), chain, name, o, d);
    } else {
      assert IsWaiter(f, p);
      var name :| name in f.handles && p == WaiterProgram(f.handles[name]);
      WaiterProgramGates(f, name, o, d);
    }
  }

  /** Only shutdown_all posts a Shutdown. */
  lemma {:induction false} OnlyShutdownAll(f: Fleet, p: seq<Op>, o: nat, n: Name)
    requires IsProgram(f, p) && o < |p| && p[o] == Post(n, Shutdown)
    ensures p == ShutdownProgram(f.order)
  {
    if IsStart(f, p) {
      var name, chain :| name in f.handles && IsChain(HandleGraph(f.handles), name, chain) && p == StartProgram(chain, name);
      StartProgramOp(HandleGraph(f.handles), chain, name, o);
    }
  }

  lemma {:induction false} DistinctIndex(s: seq<Name>, i: nat, j: nat)
    requires Distinct(s) && i < |s| && j < |s| && s[i] == s[j]
    ensures i == j
  {
  }

  /** shutdown_all posts to everything that depends on n before it posts to n. */
  lemma {:induction false} ShutdownProgramOrder(f: Fleet, o: nat, n: Name, m: Name)
    requires ValidFleet(f) && o < |f.order| && ShutdownProgram(f.order)[o] == Post(n, Shutdown)
    requires Reaches(HandleGraph(f.handles), m, n)
    ensures exists k :: 0 <= k < o && ShutdownProgram(f.order)[k] == Post(m, Shutdown)
  {
    var g, last := HandleGraph(f.handles), |f.order| - 1;
    var walk :| Walk(g, walk) && |walk| > 1 && walk[0] == m && walk[|walk| - 1] == n;
    WalkDescends(g, f.order, walk);
    var i, j := IndexOf(f.order, n), IndexOf(f.order, m);
    assert f.order[last - o] == n;
    DistinctIndex(f.order, i, last - o);
    assert ShutdownProgram(f.order)[last - j] == Post(m, Shutdown);
  }

  // ---------------------------------------------------------------------------------------
  // Reading the trace
  // ---------------------------------------------------------------------------------------

  lemma {:induction false} TracePrefix(trace: Trace, i: nat, n: Name)
    requires i <= |trace|
    ensures Prefix(HistoryIn(trace[..i], n), HistoryIn(trace, n))
  {
    if i < |trace| {
      var before, last := trace[..|trace| - 1], trace[|trace| - 1];
      assert trace == before + [last] && before[..i] == trace[..i];
      TracePrefix(before, i, n);
      TraceGrows(before, last, n);
    } else {
      assert trace[..i] == trace;
    }
  }

  lemma {:induction false} TraceEventAllowed(cfg: Config, trace: Trace, i: nat)
    requires i < |trace| && Discipline(cfg, HistoryIn(trace, trace[i].name))
    ensures
      var p := HistoryIn(trace[..i], trace[i].name);
      Discipline(cfg, p) && Allowed(cfg, ViewOf(cfg, p), trace[i].effect)
  {
    var n := trace[i].name;
    TracePrefix(trace, i + 1, n);
    assert trace[..i + 1] == trace[..i] + [trace[i]];
    TraceGrows(trace[..i], trace[i], n);
    hide HistoryIn, Allowed, ViewOf;
    DisciplineAt(cfg, HistoryIn(trace[..i + 1], n), HistoryIn(trace, n));
  }

  lemma {:induction false} EventName(f: Fleet, w: World, i: nat)
    requires Inv(f, w) && i < |w.trace|
    ensures w.trace[i].name in f.handles
  {
  }

  /** Each event was in order when it happened. */
  lemma {:induction false} EventAllowed(f: Fleet, w: World, i: nat)
    requires Inv(f, w) && i < |w.trace|
    ensures
      var n, e := w.trace[i].name, w.trace[i].effect;
      && n in f.handles
      && Discipline(f.handles[n], HistoryIn(w.trace[..i], n))
      && Allowed(f.handles[n], ViewOf(f.handles[n], HistoryIn(w.trace[..i], n)), e)
  {
    hide Inv, SupsOk, Discipline, ViewOf, Allowed;
    EventName(f, w, i);
    InvParts(f, w);
    DoneDisciplined(f, w, w.trace[i].name);
    TraceEventAllowed(f.handles[w.trace[i].name], w.trace, i);
  }

  ghost predicate Earlier(trace: Trace, i: nat, e: Event) {
    exists j :: 0 <= j < i && j < |trace| && trace[j] == e
  }

  /** A licence implies a consumed Start or Restart. */
  lemma {:induction false} LicenceWasConsumed(cfg: Config, trace: Trace, n: Name) returns (j: nat)
    requires ViewOf(cfg, HistoryIn(trace, n)).licensed
    ensures j < |trace| && trace[j].name == n && IsLicence(trace[j].effect)
  {
    var before, last := trace[..|trace| - 1], trace[|trace| - 1];
    assert trace == before + [last];
    TraceGrows(before, last, n);
    LicenceStep(cfg, ViewOf(cfg, HistoryIn(before, n)), last.effect);
    hide See;
    if last.name == n && IsLicence(last.effect) {
      j := |trace| - 1;
    } else {
      j := LicenceWasConsumed(cfg, before, n);
    }
  }

  /** A published Starting was emitted. */
  lemma {:induction false} StartingWasEmitted(cfg: Config, trace: Trace, n: Name) returns (j: nat)
    requires ViewOf(cfg, HistoryIn(trace, n)).published.Starting?
    ensures j < |trace| && trace[j] == Event(n, Emitted(Starting))
  {
    var before, last := trace[..|trace| - 1], trace[|trace| - 1];
    assert trace == before + [last];
    TraceGrows(before, last, n);
    PublishStep(cfg, ViewOf(cfg, HistoryIn(before, n)), last.effect);
    hide See, Allowed;
    if last == Event(n, Emitted(Starting)) {
      j := |trace| - 1;
    } else {
      j := StartingWasEmitted(cfg, before, n);
    }
  }

  // ---------------------------------------------------------------------------------------
  // Commands arrive in the order they are sent
  // ---------------------------------------------------------------------------------------

  /** What an action puts in the queue of n. */
  ghost function DeliveredBy(f: Fleet, w: World, a: Action, n: Name): seq<Command>
    requires Registered(f, w) && Enabled(f, w, a)
  {
    if a.Deliver? && CurrentOp(w, a.id).target == n && !HasReturned(w, n) then [CurrentCommand(w, a.id)] else []
  }

  /** Everything a run puts in the queue of n, in order. */
  ghost function Delivered(f: Fleet, w: World, acts: seq<Action>, n: Name): seq<Command>
    requires Legal(f, w, acts)
    decreases |acts|
  {
    if acts == [] then []
    else DeliveredBy(f, w, acts[0], n) + Delivered(f, Apply(f, w, acts[0]), acts[1..], n)
  }

  /** The commands n has consumed, followed by those in its queue. */
  function Received(w: World, n: Name): seq<Command>
    requires n in w.sups && n in w.queues
  {
    ConsumedIn(w.sups[n].done) + w.queues[n]
  }

  lemma {:induction false} PerformReceives(f: Fleet, w: World, m: Name, n: Name)
    requires Registered(f, w) && n in f.handles && Enabled(f, w, Perform(m))
    requires Inv(f, w)
    ensures Registered(f, Apply(f, w, Perform(m))) && Received(Apply(f, w, Perform(m)), n) == Received(w, n)
  {
    PerformFields(f, w, m);
    hide Inv, SupsOk, TaskInv, Apply, Prefix, NextEffect, Quietly;
    InvParts(f, w);
    SupAt(f, w, m);
    QuietNext(w.sups[m].done, w.sups[m].task.hist);
  }

  lemma {:induction false} ReactReceives(f: Fleet, w: World, m: Name, i: Input, image: Option<string>, n: Name)
    requires Registered(f, w) && n in f.handles && MayReact(f, w, m, i)
    ensures Registered(f, Reacted(f, w, m, i, image)) && Received(Reacted(f, w, m, i, image), n) == Received(w, n)
  {
    var e := ReactFields(f, w, m, i, image);
    assert m == n && i.Cmd? ==> w.queues[n] != [] && w.queues[n][0] == i.cmd && e == Consumed(i.cmd);
    assert m == n && !i.Cmd? ==> !e.Consumed?;
    hide Feed, Reacted, StartsWith, MayReact, Affect;
    if m == n && i.Cmd? {
      var before := ConsumedIn(w.sups[n].done);
      assert before + [i.cmd] + w.queues[n][1..] == before + w.queues[n];
    }
  }

  lemma {:induction false} StepReceives(f: Fleet, w: World, a: Action, n: Name)
    requires Registered(f, w) && n in f.handles && Enabled(f, w, a)
    requires Inv(f, w)
    ensures Registered(f, Apply(f, w, a)) && Received(Apply(f, w, a), n) == Received(w, n) + DeliveredBy(f, w, a, n)
  {
    hide Inv, Reacted, PerformNext, ViewAt, Received, IsProgram;
    if a.React? {
      ReactReceives(f, w, a.name, a.input, a.image, n);
    } else if a.Perform? {
      PerformReceives(f, w, a.name, n);
    } else {
      CallerReceives(f, w, a, n);
    }
  }

  lemma {:induction false} CallerReceives(f: Fleet, w: World, a: Action, n: Name)
    requires Registered(f, w) && n in f.handles && Enabled(f, w, a) && !a.React? && !a.Perform?
    ensures Registered(f, Apply(f, w, a)) && Received(Apply(f, w, a), n) == Received(w, n) + DeliveredBy(f, w, a, n)
  {
    if a.Deliver? {
      DeliverReceives(f, w, a.id, n);
    } else {
      hide Reacted, PerformNext, ViewAt, IsProgram, HasReturned, MayReact, ConsumedIn;
    }
  }

  lemma {:induction false} DeliverReceives(f: Fleet, w: World, id: nat, n: Name)
    requires Registered(f, w) && n in f.handles && Enabled(f, w, Deliver(id))
    ensures
      var w', a := Apply(f, w, Deliver(id)), Deliver(id);
      Registered(f, w') && Received(w', n) == Received(w, n) + DeliveredBy(f, w, a, n)
  {
    hide Reacted, PerformNext, ViewAt, IsProgram, HasReturned, MayReact, ConsumedIn;
  }

  lemma {:induction false} RunReceives(f: Fleet, w: World, acts: seq<Action>, n: Name)
    requires Legal(f, w, acts) && Inv(f, w) && n in f.handles && n in w.sups && n in w.queues
    ensures var w' := Outcome(f, w, acts); n in w'.sups && n in w'.queues && Received(w', n) == Received(w, n) + Delivered(f, w, acts, n)
    decreases |acts|
  {
    hide Inv, Apply, Enabled, Received, DeliveredBy;
    if acts != [] {
      StepReceives(f, w, acts[0], n);
      StepKeeps(f, w, acts[0]);
      RunReceives(f, Apply(f, w, acts[0]), acts[1..], n);
    }
  }

  /** The commands sent to a sidecar are those it has consumed, in the same order, and then those in its queue. */
  lemma {:induction false} FirstInFirstOut(f: Fleet, acts: seq<Action>, n: Name)
    requires Legal(f, Boot(f), acts) && n in f.handles
    ensures
      var w := Reached(f, acts);
      Delivered(f, Boot(f), acts, n) == ConsumedIn(HistoryIn(w.trace, n)) + w.queues[n]
  {
    BootInv(f);
    ReachedInv(f, acts);
    BootReceived(f, n);
    hide Inv, Legal, Boot, Outcome, Delivered, Received, HistoryIn, ConsumedIn;
    RunReceives(f, Boot(f), acts, n);
    ReceivedInTrace(f, Reached(f, acts), n);
  }

  lemma {:induction false} BootReceived(f: Fleet, n: Name)
    requires n in f.handles
    ensures Received(Boot(f), n) == []
  {
  }

  lemma {:induction false} ReceivedInTrace(f: Fleet, w: World, n: Name)
    requires Inv(f, w) && Registered(f, w) && n in f.handles
    ensures Received(w, n) == ConsumedIn(HistoryIn(w.trace, n)) + w.queues[n]
  {
    InvParts(f, w);
    hide Inv, SupsOk, ConsumedIn, Discipline;
    DoneDisciplined(f, w, n);
  }

  /** No queue holds more than eight commands. */
  ghost predicate QueuesBounded(f: Fleet, w: World)
    requires Registered(f, w)
  {
    forall n :: n in f.handles ==> |w.queues[n]| <= 8
  }

  lemma {:induction false} StepBounded(f: Fleet, w: World, a: Action)
    requires Registered(f, w) && Enabled(f, w, a) && QueuesBounded(f, w)
    ensures Registered(f, Apply(f, w, a)) && QueuesBounded(f, Apply(f, w, a))
  {
    hide ViewAt, IsProgram, HasReturned, MayReact, Reacted, PerformNext, Affect, Prefix;
    if a.React? {
      ReactBounded(f, w, a.name, a.input, a.image);
    } else if a.Perform? {
      PerformFields(f, w, a.name);
      hide Apply;
    }
  }

  lemma {:induction false} ReactBounded(f: Fleet, w: World, n: Name, i: Input, image: Option<string>)
    requires Registered(f, w) && MayReact(f, w, n, i) && QueuesBounded(f, w)
    ensures Registered(f, Reacted(f, w, n, i, image)) && QueuesBounded(f, Reacted(f, w, n, i, image))
  {
    hide Feed, Reacted, StartsWith, Accepts, NoSenders, Affect;
    var e := ReactFields(f, w, n, i, image);
  }

  lemma {:induction false} RunBounded(f: Fleet, w: World, acts: seq<Action>)
    requires Legal(f, w, acts) && Registered(f, w) && QueuesBounded(f, w)
    ensures Registered(f, Outcome(f, w, acts)) && QueuesBounded(f, Outcome(f, w, acts))
    decreases |acts|
  {
    hide Apply, Enabled, QueuesBounded;
    if acts != [] {
      StepBounded(f, w, acts[0]);
      RunBounded(f, Apply(f, w, acts[0]), acts[1..]);
    }
  }

  /** A queue has eight places: a ninth command waits with its sender until one is taken, or the task is gone. */
  lemma {:induction false} EightPlaces(f: Fleet, acts: seq<Action>, n: Name, id: nat)
    requires Legal(f, Boot(f), acts) && n in f.handles
    ensures |Reached(f, acts).queues[n]| <= 8
    ensures
      var w := Reached(f, acts);
      Posting(f, w, id) && CurrentOp(w, id).target == n && !w.callers[id].sent ==>
        (Enabled(f, w, Deliver(id)) <==> |w.queues[n]| < 8 || HasReturned(w, n))
  {
    hide Legal, Outcome, HasReturned;
    RunBounded(f, Boot(f), acts);
  }

  // ---------------------------------------------------------------------------------------
  // Gated startup
  // ---------------------------------------------------------------------------------------

  predicate IsConsumed(e: Event, n: Name, kind: Kind) {
    e.name == n && e.effect.Consumed? && e.effect.cmd.kind == kind
  }

  /** A Start of n is consumed before the i-th event. */
  ghost predicate StartedBefore(trace: Trace, i: nat, n: Name) {
    exists j :: 0 <= j < i && j < |trace| && IsConsumed(trace[j], n, Start)
  }

  /** Every Restart of n that is consumed before the i-th event comes after a Start of n. */
  ghost predicate RestartsFollowStart(trace: Trace, i: nat, n: Name) {
    forall j :: 0 <= j < i && j < |trace| && IsConsumed(trace[j], n, Restart) ==> StartedBefore(trace, j, n)
  }

  /** What lets n start is a consumed Start, or a Restart that comes after one. */
  lemma {:induction false} StartWasConsumed(f: Fleet, w: World, i: nat, n: Name) returns (j: nat)
    requires Inv(f, w) && i < |w.trace| && w.trace[i] == Event(n, Emitted(Starting))
    requires RestartsFollowStart(w.trace, i, n)
    ensures j < i && IsConsumed(w.trace[j], n, Start)
  {
    EventAllowed(f, w, i);
    hide Inv, Discipline;
    j := LicenceWasConsumed(f.handles[n], w.trace[..i], n);
    if IsConsumed(w.trace[j], n, Restart) {
      assert StartedBefore(w.trace, j, n);
      j :| 0 <= j < i && IsConsumed(w.trace[j], n, Start);
    }
  }

  /** A caller that posts a Start of n has seen each direct dependency of n healthy. */
  lemma {:induction false} SenderSawHealthy(f: Fleet, w: World, j: nat, n: Name, d: Name) returns (m: nat)
    requires ValidFleet(f) && Inv(f, w) && j < |w.trace|
    requires IsConsumed(w.trace[j], n, Start)
    requires Edge(HandleGraph(f.handles), n, d)
    ensures m < j && w.trace[m] == Event(d, Emitted(Healthy))
  {
    hide Inv, ValidFleet, IsProgram;
    ConsumedGrounded(f, w, j);
    var c := w.trace[j].effect.cmd;
    var p := w.callers[c.caller].prog;
    ProgramsGate(f, p, c.op, n, d);
    var k :| 0 <= k < c.op && p[k] == AwaitHealthy(d);
    assert OpDone(f, w.trace[..j], p[k]);
    m :| 0 <= m < j && w.trace[..j][m] == Event(d, Emitted(Healthy));
  }

  lemma {:induction false} DirectGate(f: Fleet, w: World, i: nat, n: Name, d: Name) returns (m: nat)
    requires ValidFleet(f) && Inv(f, w) && i < |w.trace| && w.trace[i] == Event(n, Emitted(Starting))
    requires Edge(HandleGraph(f.handles), n, d) && RestartsFollowStart(w.trace, i, n)
    ensures m < i && w.trace[m] == Event(d, Emitted(Healthy))
  {
    hide Inv, ValidFleet;
    var j := StartWasConsumed(f, w, i, n);
    m := SenderSawHealthy(f, w, j, n, d);
  }

  lemma {:induction false} ConsumedGrounded(f: Fleet, w: World, j: nat)
    requires Inv(f, w) && j < |w.trace| && w.trace[j].effect.Consumed?
    ensures Grounded(f, w.trace[..j], w.callers, w.trace[j].effect.cmd, w.trace[j].name)
    ensures IsProgram(f, w.callers[w.trace[j].effect.cmd.caller].prog)
  {
    hide Ready, SupsOk, SharedOk, IsProgram;
    var c := w.trace[j].effect.cmd;
    assert Grounded(f, w.trace[..j], w.callers, c, w.trace[j].name);
    CallerAt(f, w, c.caller);
  }

  /** A Healthy is preceded by a Starting of the same sidecar. */
  lemma {:induction false} HealthyAfterStarting(f: Fleet, w: World, m: nat, d: Name) returns (i: nat)
    requires Inv(f, w) && m < |w.trace| && w.trace[m] == Event(d, Emitted(Healthy))
    ensures i < m && w.trace[i] == Event(d, Emitted(Starting))
  {
    EventAllowed(f, w, m);
    i := StartingWasEmitted(f.handles[d], w.trace[..m], d);
  }

  lemma {:induction false} GateAlong(f: Fleet, w: World, i: nat, path: seq<Name>) returns (m: nat)
    requires ValidFleet(f) && Inv(f, w) && i < |w.trace|
    requires Walk(HandleGraph(f.handles), path) && |path| > 1
    requires w.trace[i] == Event(path[0], Emitted(Starting))
    requires forall x :: x in path[..|path| - 1] ==> RestartsFollowStart(w.trace, i, x)
    ensures m < i && w.trace[m] == Event(path[|path| - 1], Emitted(Healthy))
    decreases |path|
  {
    hide Inv, ValidFleet;
    assert Edge(HandleGraph(f.handles), path[0], path[1]);
    assert path[0] in path[..|path| - 1];
    m := DirectGate(f, w, i, path[0], path[1]);
    if |path| > 2 {
      var s := HealthyAfterStarting(f, w, m, path[1]);
      WalkSlice(HandleGraph(f.handles), path, 1, |path|);
      var rest := path[1..|path|];
      forall x | x in rest[..|rest| - 1] ensures RestartsFollowStart(w.trace, s, x) {
        assert x in path[..|path| - 1];
        assert RestartsFollowStart(w.trace, i, x);
      }
      m := GateAlong(f, w, s, rest);
    }
  }

  /**
   Gated startup. In every interleaving of calls, supervisors, crashes and stops: every Starting of
   a sidecar is preceded by a Healthy of each of its transitive dependencies, the exception being a
   dependency that is reached only through a sidecar that was restarted before it was ever started.
   */
  lemma {:induction false} GatedStartup(f: Fleet, acts: seq<Action>, i: nat, path: seq<Name>)
    requires ValidFleet(f) && Legal(f, Boot(f), acts)
    requires i < |Reached(f, acts).trace|
    requires Walk(HandleGraph(f.handles), path) && |path| > 1
    requires Reached(f, acts).trace[i] == Event(path[0], Emitted(Starting))
    requires forall x :: x in path[..|path| - 1] ==> RestartsFollowStart(Reached(f, acts).trace, i, x)
    ensures Earlier(Reached(f, acts).trace, i, Event(path[|path| - 1], Emitted(Healthy)))
  {
    ReachedInv(f, acts);
    var m := GateAlong(f, Reached(f, acts), i, path);
  }

  // ---------------------------------------------------------------------------------------
  // Shutdown in reverse order
  // ---------------------------------------------------------------------------------------

  /** Once shut, a supervisor consumes, spawns and starts nothing. */
  lemma {:induction false} ShutIsFinal(f: Fleet, w: World, i: nat, k: nat)
    requires Inv(f, w) && i <= k < |w.trace| && ShutIn(f, w.trace[..i], w.trace[k].name)
    ensures !w.trace[k].effect.Consumed? && !w.trace[k].effect.Spawned? && w.trace[k].effect != Emitted(Starting)
  {
    var n, before := w.trace[k].name, w.trace[..k];
    EventAllowed(f, w, k);
    assert before[..i] == w.trace[..i];
    hide *;
    ShutStays(f, before, i, n);
    ShutFacts(f, before, n);
    ClosingForbids(f.handles[n], ViewOf(f.handles[n], HistoryIn(before, n)), w.trace[k].effect);
  }

  lemma {:induction false} ClosingForbids(cfg: Config, v: View, e: Effect)
    requires Allowed(cfg, v, e) && v.closing
    ensures !e.Consumed? && !e.Spawned? && e != Emitted(Starting)
  {
  }

  lemma {:induction false} ShutStays(f: Fleet, trace: Trace, i: nat, n: Name)
    requires i <= |trace| && ShutIn(f, trace[..i], n)
    ensures ShutIn(f, trace, n)
  {
    if i < |trace| {
      var before, last := trace[..|trace| - 1], trace[|trace| - 1];
      assert trace == before + [last] && before[..i] == trace[..i];
      ShutStays(f, before, i, n);
      TraceGrows(before, last, n);
      LicenceStep(f.handles[n], ViewOf(f.handles[n], HistoryIn(before, n)), last.effect);
      hide See;
    } else {
      assert trace[..i] == trace;
    }
  }

  /** A shut supervisor has no direct child and no entry. */
  lemma {:induction false} ShutFacts(f: Fleet, trace: Trace, n: Name)
    requires ShutIn(f, trace, n) && Discipline(f.handles[n], HistoryIn(trace, n))
    ensures
      var v := ViewOf(f.handles[n], HistoryIn(trace, n));
      v.closing && v.running.None? && v.entry.None? && !v.dirty
  {
    OwnershipHolds(f.handles[n], HistoryIn(trace, n));
  }

  /** No child of n is alive. */
  ghost predicate NoLiveChild(w: World, n: Name) {
    forall pid :: pid in w.live ==> w.live[pid].owner != n
  }

  /**
   Reverse-ordered shutdown. When a supervisor consumes a Shutdown of `shutdown_all`, the
   supervisor of every sidecar that depends on it, directly or through others, has been shut, owns
   no direct child and no pid entry, and never consumes, spawns or starts anything again.
   */
  lemma {:induction false} ReverseShutdown(f: Fleet, acts: seq<Action>, i: nat, m: Name)
    requires ValidFleet(f) && Legal(f, Boot(f), acts) && i < |Reached(f, acts).trace|
    requires Reached(f, acts).trace[i].effect.Consumed? && Reached(f, acts).trace[i].effect.cmd.kind.Shutdown?
    requires Reaches(HandleGraph(f.handles), m, Reached(f, acts).trace[i].name)
    ensures
      var trace := Reached(f, acts).trace;
      && m in f.handles
      && (var v := ViewOf(f.handles[m], HistoryIn(trace[..i], m)); v.shut && v.running.None? && v.entry.None?)
      && forall k :: i <= k < |trace| && trace[k].name == m ==>
           !trace[k].effect.Consumed? && !trace[k].effect.Spawned? && trace[k].effect != Emitted(Starting)
  {
    ReachedInv(f, acts);
    var w := Reached(f, acts);
    hide Reached, Inv, ValidFleet;
    DependentsShut(f, w, i, m);
    forall k | i <= k < |w.trace| && w.trace[k].name == m
      ensures !w.trace[k].effect.Consumed? && !w.trace[k].effect.Spawned? && w.trace[k].effect != Emitted(Starting)
    {
      ShutIsFinal(f, w, i, k);
    }
    PastDisciplined(f, w, i, m);
    ShutFacts(f, w.trace[..i], m);
  }

  lemma {:induction false} DependentsShut(f: Fleet, w: World, i: nat, m: Name)
    requires ValidFleet(f) && Inv(f, w) && i < |w.trace|
    requires w.trace[i].effect.Consumed? && w.trace[i].effect.cmd.kind.Shutdown?
    requires Reaches(HandleGraph(f.handles), m, w.trace[i].name)
    ensures ShutIn(f, w.trace[..i], m)
  {
    hide Inv, ValidFleet, IsProgram, ShutIn, Reaches;
    var n, c := w.trace[i].name, w.trace[i].effect.cmd;
    ConsumedGrounded(f, w, i);
    var p := w.callers[c.caller].prog;
    OnlyShutdownAll(f, p, c.op, n);
    ShutdownProgramOrder(f, c.op, n, m);
    var k :| 0 <= k < c.op && p[k] == Post(m, Shutdown);
    assert OpDone(f, w.trace[..i], p[k]);
  }

  lemma {:induction false} PastDisciplined(f: Fleet, w: World, i: nat, n: Name)
    requires Inv(f, w) && i <= |w.trace| && n in f.handles
    ensures Discipline(f.handles[n], HistoryIn(w.trace[..i], n))
  {
    InvParts(f, w);
    hide Inv, SupsOk, Discipline;
    DoneDisciplined(f, w, n);
    TracePrefix(w.trace, i, n);
    DisciplineAt(f.handles[n], HistoryIn(w.trace[..i], n), HistoryIn(w.trace, n));
  }

  /** What a shut sidecar leaves behind: nothing alive, nothing in memory, nothing on disk. */
  lemma {:induction false} ShutLeavesNothing(f: Fleet, w: World, n: Name)
    requires Inv(f, w) && ShutIn(f, w.trace, n)
    ensures NoLiveChild(w, n) && n !in w.store && n !in w.file
  {
    InvParts(f, w);
    DoneDisciplined(f, w, n);
    ShutFacts(f, w.trace, n);
    hide SupsOk, CallersOk, CommandsOk, ViewOf;
    assert EntryOk(f, w.store, n, ViewAt(f, w, n));
    assert MirrorOk(w.file, w.store, n, ViewAt(f, w, n));
  }

  /**
   When `shutdown_all` returns, no supervisor owns a live child, the pid store is empty in memory
   and on disk, and however the run goes on, nothing is ever spawned again.
   */
  lemma {:induction false} ShutdownCompletes(f: Fleet, acts: seq<Action>, more: seq<Action>, id: nat)
    requires ValidFleet(f) && Legal(f, Boot(f), more) && acts <= more
    requires Legal(f, Boot(f), acts)
    requires id in Reached(f, acts).callers
    requires
      var c := Reached(f, acts).callers[id];
      c.prog == ShutdownProgram(f.order) && c.pc == |c.prog|
    ensures
      var w, w' := Reached(f, acts), Reached(f, more);
      && w.live == map[] && w.store == map[] && w.file == map[]
      && forall k :: |w.trace| <= k < |w'.trace| ==> !w'.trace[k].effect.Spawned?
  {
    ReachedInv(f, acts);
    ReachedInv(f, more);
    LaterTraceGrows(f, Boot(f), acts, more);
    hide Inv, Legal, ValidFleet;
    CompletedShutdown(f, Reached(f, acts), Reached(f, more), id);
  }

  lemma {:induction false} CompletedShutdown(f: Fleet, w: World, w': World, id: nat)
    requires ValidFleet(f) && Inv(f, w) && Inv(f, w') && w.trace <= w'.trace && id in w.callers
    requires w.callers[id].prog == ShutdownProgram(f.order) && w.callers[id].pc == |w.callers[id].prog|
    ensures w.live == map[] && w.store == map[] && w.file == map[]
    ensures forall k :: |w.trace| <= k < |w'.trace| ==> !w'.trace[k].effect.Spawned?
  {
    hide Inv, ValidFleet, ShutIn;
    forall n | n in f.handles ensures ShutIn(f, w.trace, n) {
      AllShut(f, w, id, n);
    }
    NothingLeft(f, w);
    forall k | |w.trace| <= k < |w'.trace| ensures !w'.trace[k].effect.Spawned? {
      EventName(f, w', k);
      assert w'.trace[..|w.trace|] == w.trace;
      ShutIsFinal(f, w', |w.trace|, k);
    }
  }

  lemma {:induction false} PerformTraceGrows(f: Fleet, w: World, n: Name, image: Option<string>)
    requires n in f.handles && n in w.sups && Prefix(w.sups[n].done, w.sups[n].task.hist)
    ensures w.trace <= PerformNext(f, w, n, image).trace
  {
    hide NextEffect, Prefix, Affect;
    if !AtRest(w, n) {
      AffectLocal(f, w, n, NextEffect(w.sups[n].done, w.sups[n].task.hist), image);
    }
  }

  lemma {:induction false} StepTraceGrows(f: Fleet, w: World, a: Action)
    requires Registered(f, w) && Enabled(f, w, a)
    ensures w.trace <= Apply(f, w, a).trace
  {
    hide Feed, PerformNext, Accepts, ViewAt, HasReturned, IsProgram, Prefix;
    if a.Perform? {
      PerformTraceGrows(f, w, a.name, None);
    } else if a.React? {
      var w' := Plan(f, w, a.name, a.input);
      if Prefix(w'.sups[a.name].done, w'.sups[a.name].task.hist) {
        PerformTraceGrows(f, w', a.name, a.image);
      }
    }
  }

  lemma {:induction false} RunTraceGrows(f: Fleet, w: World, acts: seq<Action>)
    requires Legal(f, w, acts)
    ensures w.trace <= Outcome(f, w, acts).trace
    decreases |acts|
  {
    hide Apply, Enabled;
    if acts != [] {
      StepTraceGrows(f, w, acts[0]);
      RunTraceGrows(f, Apply(f, w, acts[0]), acts[1..]);
    }
  }

  /** A run that goes on only adds to the trace. */
  lemma {:induction false} LaterTraceGrows(f: Fleet, w: World, acts: seq<Action>, more: seq<Action>)
    requires Legal(f, w, acts) && Legal(f, w, more) && acts <= more
    ensures Outcome(f, w, acts).trace <= Outcome(f, w, more).trace
    decreases |acts|
  {
    hide Apply, Enabled;
    if acts == [] {
      RunTraceGrows(f, w, more);
    } else {
      LaterTraceGrows(f, Apply(f, w, acts[0]), acts[1..], more[1..]);
    }
  }

  lemma {:induction false} AllShut(f: Fleet, w: World, id: nat, n: Name)
    requires ValidFleet(f) && Inv(f, w) && n in f.handles && id in w.callers
    requires w.callers[id].prog == ShutdownProgram(f.order) && w.callers[id].pc == |w.callers[id].prog|
    ensures ShutIn(f, w.trace, n)
  {
    hide Inv, SupsOk, CallersOk, CommandsOk, SharedOk, NamesOk, ShutIn, IsProgram, Ready;
    InvParts(f, w);
    CallerAt(f, w, id);
    var k := ShutdownPlace(f, n);
    hide ValidFleet, ShutdownProgram;
    ReadyAt(f, w.trace, w.callers[id].prog, w.callers[id].pc, k);
  }

  lemma {:induction false} ReadyAt(f: Fleet, trace: Trace, p: seq<Op>, k: nat, j: nat)
    requires Ready(f, trace, p, k) && j < k
    ensures OpDone(f, trace, p[j])
  {
    hide OpDone;
  }

  /** Where shutdown_all posts to n. */
  lemma {:induction false} ShutdownPlace(f: Fleet, n: Name) returns (k: nat)
    requires ValidFleet(f) && n in f.handles
    ensures k < |ShutdownProgram(f.order)| && ShutdownProgram(f.order)[k] == Post(n, Shutdown)
  {
    assert n in f.order;
    k := |f.order| - 1 - IndexOf(f.order, n);
  }

  lemma {:induction false} NothingLeft(f: Fleet, w: World)
    requires Inv(f, w) && forall n :: n in f.handles ==> ShutIn(f, w.trace, n)
    ensures w.live == map[] && w.store == map[] && w.file == map[]
  {
    forall n | n in f.handles ensures NoLiveChild(w, n) && n !in w.store && n !in w.file {
      hide Inv, ShutIn;
      ShutLeavesNothing(f, w, n);
    }
    hide SupsOk, CallersOk, CommandsOk, ViewOf, EntryOk, MirrorOk, ShutIn;
    assert w.store.Keys == {} && w.file.Keys == {};
    NobodyAlive(f, w);
  }

  lemma {:induction false} NobodyAlive(f: Fleet, w: World)
    requires Registered(f, w) && LiveOk(f, w) && forall n :: n in f.handles ==> NoLiveChild(w, n)
    ensures w.live == map[]
  {
    assert forall pid :: pid in w.live ==> w.live[pid].owner in f.handles;
  }
}
