/**
 The supervisor task as a step machine.

 A supervisor alternates between waiting for the outside world (a command, the outcome of a
 spawn, a probe, an exit, a timer) and performing a straight line of externally visible
 effects. `Feed` maps a waiting task and one `Input` to the next waiting task; the effects
 performed in between are appended to the task's history, in program order.
 */
module Lifecycle {
  import opened Domain

  datatype Kind = Start | Stop | Restart | Shutdown

  /** A command and the acknowledgement channel it carries, named by the call that made it. */
  datatype Command = Command(kind: Kind, caller: nat, op: nat)

  /** Everything a supervisor does that another task, the OS or the disk can notice. */
  datatype Effect =
    | Consumed(cmd: Command)                    // taken from the command queue
    | Acked(cmd: Command)
    | Emitted(state: State)                     // handed to the event sink
    | Sent(state: State)                        // written to the watch channel
    | PortSet(port: Option<nat>)                // shared port cell overwritten
    | Spawned(pid: nat, port: Option<nat>)      // child running, port injected in its environment
    | Reaped(pid: nat, elapsed: nat)            // exit noticed, `elapsed` seconds after Healthy
    | Hooked(sent: bool)                        // grace wait over; `sent`: a signal or a request preceded it
    | Killed(pid: nat)                          // kill_tree on the child
    | Inserted(pid: nat)                        // pid store map updated
    | Removed
    | Flushed                                   // pid store file rewritten
    | Slept(secs: nat)                          // a backoff delay waited out
    | Returned                                  // the task ended; its channels are dropped

  /** The effects a supervisor has performed, the latest outermost. */
  datatype History = Empty | After(before: History, effect: Effect)

  // ---------------------------------------------------------------------------------------
  // What a history amounts to
  // ---------------------------------------------------------------------------------------

  /** The count of starts and of what paid for them. */
  datatype Ledger = Ledger(
    owed: bool,              // a charge was consumed and its Starting is still to come
    starts: nat,             // Starting states published
    charges: nat,            // Start and Restart commands consumed outside a no-op
    longRuns: nat,           // exits after a healthy run long enough to reset the schedule
    backoffs: nat,           // Backoff states published since the last reset
    waited: nat)             // seconds of backoff waited out since the last reset

  /** The observable situation after a history. */
  datatype View = View(
    published: State,        // last state given to the sink
    seen: State,             // value of the watch channel
    open: Option<Command>,   // consumed, not yet acknowledged
    running: Option<nat>,    // direct child spawned and neither killed nor reaped
    injected: Option<nat>,   // port injected in the latest child
    port: Option<nat>,       // shared port cell
    chosen: bool,            // the port cell was set since the last spawn
    hooked: Option<bool>,    // the graceful step taken since the last spawn
    entry: Option<nat>,      // pid recorded in the store
    dirty: bool,             // store changed but not yet flushed
    licensed: bool,          // a Start or Restart was consumed since the last Stop
    closing: bool,           // a Shutdown was consumed, or the task returned
    shut: bool,              // a Shutdown was acknowledged, or the task returned
    ledger: Ledger)

  const BLANK := View(Idle, Idle, None, None, None, None, false, None, None, false, false, false, false,
                      Ledger(false, 0, 0, 0, 0, 0))

  /** A Start consumed while Healthy changes nothing. */
  predicate IsNoOp(v: View, c: Command) {
    c.kind.Start? && v.published.Healthy?
  }

  predicate IsCharge(v: View, c: Command) {
    (c.kind.Start? || c.kind.Restart?) && !IsNoOp(v, c)
  }

  predicate IsLongRun(cfg: Config, v: View, elapsed: nat) {
    v.published.Healthy? && cfg.restart.OnCrash? && elapsed >= cfg.restart.resetAfterSecs
  }

  /** The ledger after an effect. */
  function Booked(cfg: Config, v: View, e: Effect): Ledger {
    var b := v.ledger;
    match e
    case Consumed(c) =>
      if IsCharge(v, c) then b.(charges := b.charges + 1, owed := true, backoffs := 0, waited := 0) else b
    case Emitted(st) =>
      if st.Starting? then b.(starts := b.starts + 1, owed := false)
      else if st.Backoff? then b.(backoffs := b.backoffs + 1)
      else b
    case Reaped(_, elapsed) =>
      if IsLongRun(cfg, v, elapsed) then b.(longRuns := b.longRuns + 1, backoffs := 0, waited := 0) else b
    case Slept(d) => b.(waited := b.waited + d)
    case _ => b
  }

  function See(cfg: Config, v: View, e: Effect): View {
    var w := v.(ledger := Booked(cfg, v, e));
    match e
    case Consumed(c) =>
      w.(open := Some(c),
         licensed := (v.licensed && !c.kind.Stop?) || c.kind.Start? || c.kind.Restart?,
         closing := v.closing || c.kind.Shutdown?)
    case Acked(c) => w.(open := None, shut := v.shut || c.kind.Shutdown?)
    case Emitted(st) => w.(published := st)
    case Sent(st) => w.(seen := st)
    case PortSet(p) => w.(port := p, chosen := true)
    case Spawned(pid, p) => w.(running := Some(pid), injected := p, chosen := false, hooked := None)
    case Reaped(_, _) => w.(running := None)
    case Hooked(sent) => w.(hooked := Some(sent))
    case Killed(_) => w.(running := None)
    case Inserted(pid) => w.(entry := Some(pid), dirty := true)
    case Removed => w.(entry := None, dirty := true)
    case Flushed => w.(dirty := false)
    case Slept(_) => w
    case Returned => w.(closing := true, shut := true)
  }

  function ViewOf(cfg: Config, h: History): View {
    match h
    case Empty => BLANK
    case After(before, e) => See(cfg, ViewOf(cfg, before), e)
  }

  /** The first k entries of a schedule, added up. */
  function SumTo(s: seq<nat>, k: nat): nat
    requires k <= |s|
  {
    if k == 0 then 0 else SumTo(s, k - 1) + s[k - 1]
  }

  // ---------------------------------------------------------------------------------------
  // The discipline: what a supervisor may do in which situation
  // ---------------------------------------------------------------------------------------

  /** The lifecycle graph. */
  predicate LifecycleEdge(a: State, b: State) {
    match b
    case Starting => a.Idle? || a.Stopped? || a.Failed? || a.Backoff? || a.Stopping?
    case Healthy => a.Starting?
    case Backoff(_, _) => a.Starting? || a.Healthy?
    case Failed(_) => a.Starting? || a.Healthy?
    case Stopping => a.Healthy?
    case Stopped => a.Stopping? || a.Backoff?
    case _ => false
  }

  /** The port a sidecar may be given under a strategy. */
  predicate PortFits(strategy: PortStrategy, p: Option<nat>) {
    match strategy
    case NoPort => p.None?
    case Fixed(port) => p == Some(port)
    case Dynamic => p.Some?
  }

  /** No direct child and no pid entry. */
  predicate Clean(v: View) {
    v.running.None? && v.entry.None?
  }

  predicate MayEmit(cfg: Config, v: View, st: State) {
    var schedule := Schedule(cfg);
    && LifecycleEdge(v.published, st)
    && v.seen == v.published
    && !v.dirty
    && v.ledger.backoffs <= |schedule|
    && match st
       case Starting =>
         && Clean(v) && v.licensed && !v.closing
         && (v.ledger.owed || v.published.Backoff?)
         && (v.published.Stopping? ==> v.ledger.owed)
         && v.ledger.waited == SumTo(schedule, v.ledger.backoffs)
       case Healthy => v.running.Some? && v.entry == v.running && v.port == v.injected && ProbeCanPass(cfg, v.port)
       case Backoff(k, d) => Clean(v) && k == v.ledger.backoffs + 1 <= |schedule| && d == schedule[k - 1]
       case Failed(why) => Clean(v) && v.ledger.backoffs == |schedule| && (why.Exited? <==> v.published.Healthy?)
       case Stopping => v.running.Some? && v.entry == v.running
       case Stopped => Clean(v) && v.open.None?
       case _ => false
  }

  /** The next effect `e` is in order in situation `v`. */
  predicate Allowed(cfg: Config, v: View, e: Effect) {
    match e
    case Consumed(c) =>
      && v.open.None? && !v.closing && !v.dirty && v.seen == v.published
      && !v.published.Starting? && !v.published.Stopping?
    case Acked(c) =>
      && v.open == Some(c) && !v.dirty
      && if IsNoOp(v, c) then v.running.Some? && v.entry == v.running else Clean(v)
    case Emitted(st) => MayEmit(cfg, v, st)
    case Sent(st) => v.published == st
    case PortSet(p) => Clean(v) && v.published.Starting? && PortFits(cfg.port, p)
    case Spawned(_, p) =>
      && Clean(v) && v.published.Starting? && v.licensed && !v.closing
      && v.chosen && p == v.port && PortFits(cfg.port, p)
    case Reaped(pid, _) =>
      && v.running == Some(pid) && v.entry == Some(pid)
      && (v.published.Starting? || v.published.Healthy?)
    case Hooked(sent) =>
      v.published.Stopping? && v.running.Some? && !cfg.graceful.NoGrace? && (sent <==> HookSent(cfg, v.port))
    case Killed(pid) =>
      && v.entry == Some(pid) && (v.running.Some? ==> v.running == Some(pid))
      && (v.published.Stopping? && !cfg.graceful.NoGrace? ==> v.hooked == Some(HookSent(cfg, v.port)))
    case Inserted(pid) => v.running == Some(pid) && v.entry.None? && v.published.Starting? && !v.closing
    case Removed => v.running.None? && v.entry.Some?
    case Flushed => v.dirty
    case Slept(d) => v.published == Backoff(v.ledger.backoffs, d)
    case Returned => Clean(v) && !v.dirty && v.open.None? && v.seen == v.published
  }

  /** Every effect of the history was in order when it was performed. */
  predicate Discipline(cfg: Config, h: History) {
    match h
    case Empty => true
    case After(before, e) => Discipline(cfg, before) && Allowed(cfg, ViewOf(cfg, before), e)
  }

  /** Appends one effect; what that does to the view and to the discipline. */
  function Then(cfg: Config, h: History, e: Effect): (r: History)
    ensures ViewOf(cfg, r) == See(cfg, ViewOf(cfg, h), e)
    ensures Discipline(cfg, r) <==> Discipline(cfg, h) && Allowed(cfg, ViewOf(cfg, h), e)
  {
    After(h, e)
  }

  // ---------------------------------------------------------------------------------------
  // Reading a history
  // ---------------------------------------------------------------------------------------

  /** The effects in the order they were performed. */
  function Log(h: History): seq<Effect> {
    match h
    case Empty => []
    case After(before, e) => Log(before) + [e]
  }

  /** The states handed to the sink, in order. */
  function Published(h: History): seq<State> {
    match h
    case Empty => []
    case After(before, e) => if e.Emitted? then Published(before) + [e.state] else Published(before)
  }

  /** Effects that happen because the outside world answered: only a new input produces one. */
  predicate IsHeard(e: Effect) {
    e.Consumed? || e.Spawned? || e.Reaped?
  }

  function Heard(h: History): seq<Effect> {
    match h
    case Empty => []
    case After(before, e) => if IsHeard(e) then Heard(before) + [e] else Heard(before)
  }

  function ConsumedIn(h: History): seq<Command> {
    match h
    case Empty => []
    case After(before, e) => if e.Consumed? then ConsumedIn(before) + [e.cmd] else ConsumedIn(before)
  }

  function AckedIn(h: History): seq<Command> {
    match h
    case Empty => []
    case After(before, e) => if e.Acked? then AckedIn(before) + [e.cmd] else AckedIn(before)
  }

  /** `p` is an earlier moment of `h`, or `h` itself. */
  predicate Prefix(p: History, h: History) {
    p == h || (h.After? && Prefix(p, h.before))
  }

  /** The effect that follows the moment `p` of `h`. */
  function NextEffect(p: History, h: History): Effect
    requires Prefix(p, h) && p != h
  {
    if h.before == p then h.effect else NextEffect(p, h.before)
  }

  // ---------------------------------------------------------------------------------------
  // The machine
  // ---------------------------------------------------------------------------------------

  /** Where a waiting supervisor waits. */
  datatype Loc =
    | Outer                    // run: for a first command
    | Spawning                 // spawn_once: for a port
    | Launching                // spawn_once: for the OS
    | Health(pid: nat)         // wait_healthy
    | Monitor(pid: nat)        // the inner loop of active_loop
    | Waiting(delay: nat)      // backoff_or_fail
    | Ended

  /** What the outside world answers. `Closed`: every command sender is gone. */
  datatype Input =
    | Cmd(cmd: Command)
    | Closed
    | PortDenied
    | PortGiven(free: nat)
    | SpawnDenied
    | SpawnDone(pid: nat)
    | ProbePassed
    | ProbeFailed
    | Exit(code: Option<int>, elapsed: nat)
    | Timer

  datatype Task = Task(loc: Loc, attempt: nat, port: Option<nat>, hist: History)

  const FRESH := Task(Outer, 0, None, Empty)

  predicate Accepts(cfg: Config, loc: Loc, i: Input) {
    match loc
    case Outer => i.Cmd? || i.Closed?
    case Spawning => i.PortGiven? || (i.PortDenied? && !cfg.port.NoPort?)
    case Launching => i.SpawnDenied? || i.SpawnDone?
    case Health(_) => i.ProbePassed? || i.ProbeFailed? || i.Exit?
    case Monitor(_) => i.Exit? || i.Cmd? || i.Closed?
    case Waiting(_) => i.Timer? || i.Cmd? || i.Closed?
    case Ended => false
  }

  /** The port a spawn uses, when the OS offers `free`. */
  function ChosenPort(cfg: Config, free: nat): Option<nat> {
    match cfg.port
    case NoPort => None
    case Fixed(p) => Some(p)
    case Dynamic => Some(free)
  }

  /** A TCP or HTTP probe of a sidecar without a port fails whatever happens. */
  predicate ProbeCanPass(cfg: Config, port: Option<nat>) {
    (cfg.health.Tcp? || cfg.health.Http?) ==> port.Some?
  }

  /** set_state: the sink first, then the watch channel. */
  function Say(cfg: Config, h: History, st: State): History {
    Then(cfg, Then(cfg, h, Emitted(st)), Sent(st))
  }

  /** PidStore::clear: mutate, then flush. */
  function ClearEntry(cfg: Config, h: History): History {
    Then(cfg, Then(cfg, h, Removed), Flushed)
  }

  /** The graceful step asks the child to leave: a signal always, a request only at a known port. */
  predicate HookSent(cfg: Config, port: Option<nat>) {
    cfg.graceful.Signal? || (cfg.graceful.HttpPost? && port.Some?)
  }

  function Grace(cfg: Config, port: Option<nat>, h: History): History {
    if cfg.graceful.NoGrace? then h else Then(cfg, h, Hooked(HookSent(cfg, port)))
  }

  /** stop_process. */
  function StopChild(cfg: Config, port: Option<nat>, h: History, pid: nat): History {
    var stopping := Say(cfg, h, Stopping);
    ClearEntry(cfg, Then(cfg, Grace(cfg, port, stopping), Killed(pid)))
  }

  /** The part of backoff_or_fail before its wait. */
  function Fail(cfg: Config, attempt: nat, port: Option<nat>, h: History, why: Reason): Task {
    var schedule := Schedule(cfg);
    if attempt < |schedule| then
      Task(Waiting(schedule[attempt]), attempt + 1, port, Say(cfg, h, Backoff(attempt + 1, schedule[attempt])))
    else
      Task(Outer, attempt, port, Say(cfg, h, Failed(why)))
  }

  /** The head of the spawn loop. */
  function Go(cfg: Config, attempt: nat, port: Option<nat>, h: History): Task {
    Task(Spawning, attempt, port, Say(cfg, h, Starting))
  }

  function Take(cfg: Config, h: History, c: Command): History {
    Then(cfg, Then(cfg, h, Consumed(c)), Acked(c))
  }

  function End(cfg: Config, t: Task, h: History): Task {
    Task(Ended, t.attempt, t.port, Then(cfg, h, Returned))
  }

  function FeedOuter(cfg: Config, t: Task, i: Input): Task
    requires t.loc.Outer? && Accepts(cfg, t.loc, i)
  {
    if i.Closed? then End(cfg, t, t.hist)
    else match i.cmd.kind
      case Start => Go(cfg, 0, t.port, Take(cfg, t.hist, i.cmd))
      case Restart => Go(cfg, 0, t.port, Take(cfg, t.hist, i.cmd))
      case Stop => t.(hist := Take(cfg, t.hist, i.cmd))
      case Shutdown => End(cfg, t, Take(cfg, t.hist, i.cmd))
  }

  function FeedSpawn(cfg: Config, t: Task, i: Input): Task
    requires (t.loc.Spawning? || t.loc.Launching?) && Accepts(cfg, t.loc, i)
  {
    match i
    case PortDenied => Fail(cfg, t.attempt, t.port, t.hist, PortUnavailable)
    case PortGiven(free) =>
      var p := ChosenPort(cfg, free);
      Task(Launching, t.attempt, p, Then(cfg, t.hist, PortSet(p)))
    case SpawnDenied => Fail(cfg, t.attempt, t.port, t.hist, SpawnError)
    case SpawnDone(pid) =>
      var spawned := Then(cfg, t.hist, Spawned(pid, t.port));
      t.(loc := Health(pid), hist := Then(cfg, Then(cfg, spawned, Inserted(pid)), Flushed))
  }

  function FeedHealth(cfg: Config, t: Task, i: Input): Task
    requires t.loc.Health? && Accepts(cfg, t.loc, i)
  {
    var pid := t.loc.pid;
    if i.ProbePassed? && ProbeCanPass(cfg, t.port) then
      t.(loc := Monitor(pid), hist := Say(cfg, t.hist, Healthy))
    else if i.Exit? then
      var reaped := Then(cfg, t.hist, Reaped(pid, i.elapsed));
      Fail(cfg, t.attempt, t.port, ClearEntry(cfg, Then(cfg, reaped, Killed(pid))), DiedInHealthCheck(i.code))
    else
      Fail(cfg, t.attempt, t.port, ClearEntry(cfg, Then(cfg, t.hist, Killed(pid))), ProbeError)
  }

  predicate Resets(cfg: Config, elapsed: nat) {
    cfg.restart.OnCrash? && elapsed >= cfg.restart.resetAfterSecs
  }

  function FeedMonitor(cfg: Config, t: Task, i: Input): Task
    requires t.loc.Monitor? && Accepts(cfg, t.loc, i)
  {
    var pid := t.loc.pid;
    match i
    case Exit(code, elapsed) =>
      var attempt := if Resets(cfg, elapsed) then 0 else t.attempt;
      Fail(cfg, attempt, t.port, ClearEntry(cfg, Then(cfg, t.hist, Reaped(pid, elapsed))), Exited(code))
    case Closed => End(cfg, t, StopChild(cfg, t.port, t.hist, pid))
    case Cmd(c) =>
      if c.kind.Start? then t.(hist := Take(cfg, t.hist, c))
      else
        var stopped := Then(cfg, StopChild(cfg, t.port, Then(cfg, t.hist, Consumed(c)), pid), Acked(c));
        match c.kind
        case Restart => Go(cfg, 0, t.port, stopped)
        case Stop => t.(loc := Outer, hist := Say(cfg, stopped, Stopped))
        case _ => End(cfg, t, Say(cfg, stopped, Stopped))
  }

  function FeedWaiting(cfg: Config, t: Task, i: Input): Task
    requires t.loc.Waiting? && Accepts(cfg, t.loc, i)
  {
    match i
    case Timer => Go(cfg, t.attempt, t.port, Then(cfg, t.hist, Slept(t.loc.delay)))
    case Closed => End(cfg, t, t.hist)
    case Cmd(c) =>
      var taken := Take(cfg, t.hist, c);
      match c.kind
      case Stop => t.(loc := Outer, hist := Say(cfg, taken, Stopped))
      case Shutdown => End(cfg, t, taken)
      case _ => Go(cfg, 0, t.port, taken)
  }

  function Feed(cfg: Config, t: Task, i: Input): Task
    requires Accepts(cfg, t.loc, i)
  {
    match t.loc
    case Outer => FeedOuter(cfg, t, i)
    case Spawning => FeedSpawn(cfg, t, i)
    case Launching => FeedSpawn(cfg, t, i)
    case Health(_) => FeedHealth(cfg, t, i)
    case Monitor(_) => FeedMonitor(cfg, t, i)
    case Waiting(_) => FeedWaiting(cfg, t, i)
  }

  /** Every input arrives at a location that waits for it. */
  predicate Fits(cfg: Config, t: Task, ins: seq<Input>)
    decreases |ins|
  {
    ins == [] || (Accepts(cfg, t.loc, ins[0]) && Fits(cfg, Feed(cfg, t, ins[0]), ins[1..]))
  }

  /** What an input lets the supervisor hear. */
  function HeardFrom(t: Task, i: Input): seq<Effect> {
    match i
    case Cmd(c) => [Consumed(c)]
    case SpawnDone(pid) => [Spawned(pid, t.port)]
    case Exit(_, elapsed) =>
      if t.loc.Health? || t.loc.Monitor? then [Reaped(t.loc.pid, elapsed)] else []
    case _ => []
  }

  function RunFrom(cfg: Config, t: Task, ins: seq<Input>): Task
    requires Fits(cfg, t, ins)
    decreases |ins|
  {
    if ins == [] then t else RunFrom(cfg, Feed(cfg, t, ins[0]), ins[1..])
  }
}
