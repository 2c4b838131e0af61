/** The module-level connection state of a client: the `config` object and the
    `gelf` transport handle, as `init` leaves them. */
module Connection {
  import opened Values
  import opened Validation

  /** What `new Gelf({...})` is bound to: the collector's host and port (the
      connection profile is always 'wan'). */
  datatype Endpoint = Endpoint(hostname: string, port: int)

  /** A snapshot of the state: `config.projectName`, `config.projectEnv` (None
      while undefined) and the transport (None while `gelf` is still the
      placeholder `{}`, which has no `emit`). */
  datatype Config = Config(projectName: Option<string>, projectEnv: Option<string>, transport: Option<Endpoint>)

  /** The state when the module is loaded. */
  const UNSET: Config := Config(None, None, None)

  /** The state after `init(args)` from state `c`: unchanged when a check fails
      (the process exits before any assignment), otherwise the project name and
      environment are the arguments and a new transport is bound to the host
      and port. */
  function InitConfig(c: Config, args: InitArgs): (r: Config)
    ensures CheckInit(args).Fail? ==> r == c
    ensures CheckInit(args).Pass? ==> r.transport.Some? && r.projectName.Some? && r.projectEnv.Some?
    ensures CheckInit(args).Pass? ==> Str(r.projectName.value) == args.projectName && Str(r.projectEnv.value) == args.projectEnv
    ensures CheckInit(args).Pass? ==> Str(r.transport.value.hostname) == args.hostname && Num(r.transport.value.port) == args.port
  {
    if CheckInit(args).Pass? then
      Config(Some(args.projectName.s), Some(args.projectEnv.s), Some(Endpoint(args.hostname.s, args.port.n)))
    else c
  }

  /** Last write wins: after a successful `init`, the state does not depend on
      anything that came before it. */
  lemma LastInitWins(c: Config, d: Config, earlier: InitArgs, args: InitArgs)
    requires CheckInit(args).Pass?
    ensures InitConfig(InitConfig(c, earlier), args) == InitConfig(d, args)
  {
  }

  /** A successful `init` stores non-empty project fields and a transport. */
  lemma InitEstablishes(c: Config, args: InitArgs)
    requires CheckInit(args).Pass?
    ensures InitConfig(c, args).projectName.Some? && InitConfig(c, args).projectName.value != ""
    ensures InitConfig(c, args).projectEnv.Some? && InitConfig(c, args).projectEnv.value != ""
    ensures InitConfig(c, args).transport.Some?
  {
    assert InitArgValid(args, ProjectName) && InitArgValid(args, ProjectEnv);
  }
}
