/**
 The manager and its supervisors as one interleaved system. A manager call is a short program of
 operations; calls, supervisors and the operating system take turns, one effect at a time.
 */
module Fleet {
  import opened Domain
  import opened Lifecycle
  import opened Graph
  import opened Closure
  import opened PidStore

  // ---------------------------------------------------------------------------------------
  // Manager calls
  // ---------------------------------------------------------------------------------------

  /** `Post`: send a command and wait for its acknowledgement. */
  datatype Op = Post(target: Name, kind: Kind) | AwaitHealthy(dep: Name)

  /** `start`: along the chain, post a Start and await health, except for the name itself. */
  function StartProgram(chain: seq<Name>, name: Name): seq<Op> {
    if chain == [] then []
    else
      [Post(chain[0], Start)]
      + (if chain[0] != name then [AwaitHealthy(chain[0])] else [])
      + StartProgram(chain[1..], name)
  }

  /** One waiter of `start_all`: await every direct dependency, then post a Start. */
  function WaiterProgram(cfg: Config): seq<Op> {
    seq(|cfg.dependsOn|, i requires 0 <= i < |cfg.dependsOn| => AwaitHealthy(cfg.dependsOn[i])) + [Post(cfg.name, Start)]
  }

  /** `shutdown_all`: against the start order. */
  function ShutdownProgram(order: seq<Name>): seq<Op> {
    seq(|order|, i requires 0 <= i < |order| => Post(order[|order| - 1 - i], Shutdown))
  }

  /** What `launch` built. */
  datatype Fleet = Fleet(handles: Handles, order: seq<Name>)

  ghost predicate ValidFleet(f: Fleet) {
    && Topological(HandleGraph(f.handles), f.order)
    && SelfContained(HandleGraph(f.handles))
    && forall n :: n in f.handles ==> f.handles[n].name == n
  }

  ghost predicate IsStart(f: Fleet, p: seq<Op>) {
    exists name, chain :: name in f.handles && IsChain(HandleGraph(f.handles), name, chain) && p == StartProgram(chain, name)
  }

  ghost predicate IsWaiter(f: Fleet, p: seq<Op>) {
    exists name :: name in f.handles && p == WaiterProgram(f.handles[name])
  }

  ghost predicate IsSingle(f: Fleet, p: seq<Op>, kind: Kind) {
    exists name :: name in f.handles && p == [Post(name, kind)]
  }

  /** The program of some call of the manager interface. */
  ghost predicate IsProgram(f: Fleet, p: seq<Op>) {
    || IsStart(f, p) || IsWaiter(f, p)
    || IsSingle(f, p, Stop) || IsSingle(f, p, Restart)
    || p == ShutdownProgram(f.order)
  }

  // ---------------------------------------------------------------------------------------
  // The world
  // ---------------------------------------------------------------------------------------

  /** A call in progress; `sent`: its current command is in the queue or beyond. */
  datatype Caller = Caller(prog: seq<Op>, pc: nat, sent: bool, gone: bool)

  /** A supervisor in the middle of its plan: `done` of `task.hist` is performed. */
  datatype Sup = Sup(task: Task, done: History)

  datatype Event = Event(name: Name, effect: Effect)

  type Trace = seq<Event>

  datatype Child = Child(owner: Name, image: Option<string>)

  datatype World = World(
    sups: map<Name, Sup>,
    queues: map<Name, seq<Command>>,
    store: Entries,
    file: Entries,
    live: map<nat, Child>,
    callers: map<nat, Caller>,
    dropped: bool,           // the manager is gone, and its command senders with it
    trace: Trace)

  /** Right after launch: everything Idle, the store emptied by the cleanup. */
  function Boot(f: Fleet): World {
    World(
      map n | n in f.handles :: Sup(FRESH, Empty),
      map n | n in f.handles :: [],
      map[], map[], map[], map[], false, [])
  }

  const QUEUE_CAPACITY: nat := 8

  datatype Action =
    | Call(id: nat, prog: seq<Op>)
    | Deliver(id: nat)             // the command enters the queue, or its send fails
    | Resume(id: nat)              // acknowledged, or the acknowledgement channel dropped
    | Observe(id: nat)             // the awaited dependency reads Healthy
    | Abandon(id: nat)             // it reads Failed, or its supervisor is gone
    | Cancel(id: nat)              // the future of the call is dropped half-way
    | DropManager                  // the manager is dropped
    | React(name: Name, input: Input, image: Option<string>)
    | Perform(name: Name)
    | Die(pid: nat)                // a child exits by itself

  predicate AtRest(w: World, n: Name)
    requires n in w.sups
  {
    w.sups[n].done == w.sups[n].task.hist
  }

  /** The task has returned; its receiver and watch sender are dropped. */
  predicate HasReturned(w: World, n: Name)
    requires n in w.sups
  {
    w.sups[n].task.loc.Ended? && AtRest(w, n)
  }

  function ViewAt(f: Fleet, w: World, n: Name): View
    requires n in f.handles && n in w.sups
  {
    ViewOf(f.handles[n], w.sups[n].done)
  }

  predicate Active(w: World, id: nat) {
    id in w.callers && !w.callers[id].gone && w.callers[id].pc < |w.callers[id].prog|
  }

  function CurrentOp(w: World, id: nat): Op
    requires Active(w, id)
  {
    w.callers[id].prog[w.callers[id].pc]
  }

  function CurrentCommand(w: World, id: nat): Command
    requires Active(w, id) && CurrentOp(w, id).Post?
  {
    Command(CurrentOp(w, id).kind, id, w.callers[id].pc)
  }

  predicate Posting(f: Fleet, w: World, id: nat) {
    Active(w, id) && CurrentOp(w, id).Post? && CurrentOp(w, id).target in f.handles
  }

  predicate Awaiting(f: Fleet, w: World, id: nat) {
    Active(w, id) && CurrentOp(w, id).AwaitHealthy? && CurrentOp(w, id).dep in f.handles
  }

  predicate Registered(f: Fleet, w: World) {
    w.sups.Keys == w.queues.Keys == f.handles.Keys
  }

  /** Nobody holds a sender for n any more: the manager is gone, and no waiter is still to post to n. */
  predicate NoSenders(w: World, n: Name) {
    && w.dropped
    && forall id, k :: id in w.callers && !w.callers[id].gone && w.callers[id].pc <= k < |w.callers[id].prog| ==>
         var op := w.callers[id].prog[k];
         op.Post? && op.target == n ==> k == w.callers[id].pc && w.callers[id].sent
  }

  predicate MayReact(f: Fleet, w: World, n: Name, i: Input)
    requires Registered(f, w)
  {
    && n in f.handles && AtRest(w, n)
    && Accepts(f.handles[n], w.sups[n].task.loc, i)
    && (i.Closed? ==> w.queues[n] == [] && NoSenders(w, n))
    && (i.Cmd? ==> w.queues[n] != [] && w.queues[n][0] == i.cmd)
    && (i.Exit? ==>
         var pid := w.sups[n].task.loc.pid;
         !(pid in w.live && w.live[pid].owner == n))
    && (i.SpawnDone? ==> i.pid !in w.live)
  }

  ghost predicate Enabled(f: Fleet, w: World, a: Action)
    requires Registered(f, w)
  {
    match a
    case Call(id, prog) => !w.dropped && id !in w.callers && IsProgram(f, prog)
    case Deliver(id) =>
      && Posting(f, w, id) && !w.callers[id].sent
      && var n := CurrentOp(w, id).target; HasReturned(w, n) || |w.queues[n]| < QUEUE_CAPACITY
    case Resume(id) =>
      && Posting(f, w, id) && w.callers[id].sent
      && var n := CurrentOp(w, id).target; HasReturned(w, n) || Event(n, Acked(CurrentCommand(w, id))) in w.trace
    case Observe(id) =>
      Awaiting(f, w, id) && ViewAt(f, w, CurrentOp(w, id).dep).seen.Healthy?
    case Abandon(id) =>
      && Awaiting(f, w, id)
      && var d := CurrentOp(w, id).dep;
         ViewAt(f, w, d).seen.Failed? || (HasReturned(w, d) && !ViewAt(f, w, d).seen.Healthy?)
    case Cancel(id) => Active(w, id)
    case DropManager =>
      // every call but the waiters of start_all, which are tasks of their own, borrows the manager
      !w.dropped && forall id :: Active(w, id) ==> IsWaiter(f, w.callers[id].prog)
    case React(n, i, _) => MayReact(f, w, n, i)
    case Perform(n) =>
      n in f.handles && !AtRest(w, n) && Prefix(w.sups[n].done, w.sups[n].task.hist)
    case Die(pid) => pid in w.live
  }

  /** The pid store map after the effect `e` of supervisor n. */
  function StoreAfter(f: Fleet, store: Entries, n: Name, e: Effect): Entries
    requires n in f.handles
  {
    if e.Inserted? then store[n := Entry(e.pid, f.handles[n].exe)]
    else if e.Removed? then store - {n}
    else store
  }

  function LiveAfter(live: map<nat, Child>, n: Name, e: Effect, image: Option<string>): map<nat, Child> {
    if e.Spawned? then live[e.pid := Child(n, image)]
    else if e.Killed? then live - {e.pid}
    else live
  }

  /** The effect `e` of supervisor n on the shared state and on the trace. */
  function Affect(f: Fleet, w: World, n: Name, e: Effect, image: Option<string>): World
    requires n in f.handles && n in w.sups
  {
    w.(sups := w.sups[n := w.sups[n].(done := After(w.sups[n].done, e))],
       store := StoreAfter(f, w.store, n, e),
       file := if e.Flushed? then w.store else w.file,
       live := LiveAfter(w.live, n, e, image),
       trace := w.trace + [Event(n, e)])
  }

  /** Performs the next effect of n's plan. */
  function PerformNext(f: Fleet, w: World, n: Name, image: Option<string>): World
    requires n in f.handles && n in w.sups
    requires Prefix(w.sups[n].done, w.sups[n].task.hist)
  {
    if AtRest(w, n) then w
    else Affect(f, w, n, NextEffect(w.sups[n].done, w.sups[n].task.hist), image)
  }

  /** The supervisor takes an input and plans its reaction. */
  function Plan(f: Fleet, w: World, n: Name, i: Input): (p: World)
    requires Registered(f, w) && MayReact(f, w, n, i)
    ensures Registered(f, p) && n in p.sups
  {
    w.(sups := w.sups[n := Sup(Feed(f.handles[n], w.sups[n].task, i), w.sups[n].done)],
       queues := if i.Cmd? then w.queues[n := w.queues[n][1..]] else w.queues)
  }

  /** The reaction to an input, up to and including its first effect. */
  function Reacted(f: Fleet, w: World, n: Name, i: Input, image: Option<string>): World
    requires Registered(f, w) && MayReact(f, w, n, i)
  {
    var w' := Plan(f, w, n, i);
    if Prefix(w'.sups[n].done, w'.sups[n].task.hist) then PerformNext(f, w', n, image) else w'
  }

  function StepCaller(w: World, id: nat, c: Caller): World {
    w.(callers := w.callers[id := c])
  }

  ghost function Apply(f: Fleet, w: World, a: Action): World
    requires Registered(f, w) && Enabled(f, w, a)
  {
    match a
    case Call(id, prog) => StepCaller(w, id, Caller(prog, 0, false, false))
    case Deliver(id) =>
      var n := CurrentOp(w, id).target;
      var w' := StepCaller(w, id, w.callers[id].(sent := true));
      if HasReturned(w, n) then w' else w'.(queues := w.queues[n := w.queues[n] + [CurrentCommand(w, id)]])
    case Resume(id) => StepCaller(w, id, w.callers[id].(pc := w.callers[id].pc + 1, sent := false))
    case Observe(id) => StepCaller(w, id, w.callers[id].(pc := w.callers[id].pc + 1))
    case Abandon(id) => StepCaller(w, id, w.callers[id].(gone := true))
    case Cancel(id) => StepCaller(w, id, w.callers[id].(gone := true))
    case DropManager => w.(dropped := true)
    case React(n, i, image) => Reacted(f, w, n, i, image)
    case Perform(n) => PerformNext(f, w, n, None)
    case Die(pid) => w.(live := w.live - {pid})
  }

  /** Runs the actions from w, as long as they are enabled. */
  ghost predicate Legal(f: Fleet, w: World, acts: seq<Action>)
    decreases |acts|
  {
    acts == [] ||
    (Registered(f, w) && Enabled(f, w, acts[0]) && Legal(f, Apply(f, w, acts[0]), acts[1..]))
  }

  ghost function Outcome(f: Fleet, w: World, acts: seq<Action>): World
    requires Legal(f, w, acts)
    decreases |acts|
  {
    if acts == [] then w else Outcome(f, Apply(f, w, acts[0]), acts[1..])
  }
}
