/** The vocabulary shared by every module: configuration, lifecycle states and errors. */
module Domain {

  type Name = string

  datatype Option<+T> = None | Some(value: T)

  datatype Result<+T, +E> = Ok(value: T) | Err(error: E)

  datatype PortStrategy = NoPort | Fixed(port: nat) | Dynamic

  datatype HealthCheck = Immediate | Tcp | Http | StdoutMarker

  datatype RestartPolicy = Never | OnCrash(backoffSecs: seq<nat>, resetAfterSecs: nat)

  datatype GracefulShutdown = Signal | HttpPost | NoGrace

  /** One sidecar. `exe` is the file name of the resolved binary. */
  datatype Config = Config(
    name: Name,
    exe: string,
    port: PortStrategy,
    health: HealthCheck,
    restart: RestartPolicy,
    graceful: GracefulShutdown,
    dependsOn: seq<Name>)

  /** Why a sidecar failed; the text carried by `Failed`. */
  datatype Reason =
    | PortUnavailable
    | SpawnError
    | ProbeError
    | DiedInHealthCheck(code: Option<int>)
    | Exited(code: Option<int>)

  datatype State =
    | Idle
    | WaitingForDeps
    | Starting
    | Healthy
    | Backoff(attempt: nat, delaySecs: nat)
    | Stopping
    | Stopped
    | Failed(reason: Reason)

  datatype Error =
    | NoAsyncRuntime
    | UnknownSidecar(name: Name)
    | UnknownDependency(dependent: Name, dep: Name)
    | DependencyCycle(name: Name)
    | DependencyFailed(dependent: Name, dep: Name)

  /** The backoff schedule; `Never` behaves like an empty one. */
  function Schedule(cfg: Config): seq<nat> {
    match cfg.restart
    case Never => []
    case OnCrash(backoffSecs, _) => backoffSecs
  }
}
