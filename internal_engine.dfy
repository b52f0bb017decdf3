/**
 * The internal engine: the same `running` state machine as the process
 * engine, with no services to start or stop, and with only the repository
 * service wired (the runtime, task and history services stay nil).
 */
module InternalEngine {
  import opened Common
  import opened CommandContexts
  import opened Interceptors
  import Definitions
  import InternalRepository
  import Runtime
  import Tasks
  import History
  import ProcessEngine

  class Engine {
    const config: ProcessEngine.Configuration
    /** The engine's own address, the handle its command contexts carry. */
    const handle: nat
    const commandExecutor: CommandExecutor
    const repositoryService: InternalRepository.Service
    var running: bool

    /** The engine's executor is the default one of this package. */
    predicate Valid()
    {
      commandExecutor == ProcessEngine.DefaultExecutor(Object(handle), true)
    }

    /** The executor of NewEngine, then initializeServices: the repository service alone. */
    constructor (config: ProcessEngine.Configuration, handle: nat, decode: Definitions.Decoder)
      ensures this.config == config && this.handle == handle && !running && Valid()
      ensures fresh(repositoryService)
      ensures repositoryService.databaseDriver == config.databaseDriver
      ensures repositoryService.databaseUrl == config.databaseUrl
      ensures repositoryService.deployments == map[] && repositoryService.definitions == map[]
    {
      this.config := config;
      this.handle := handle;
      running := false;
      var builder := new ExecutorBuilder(Object(handle), true);
      builder := builder.WithLogging(true);
      builder := builder.WithTransaction(true);
      var built := builder.Build();
      commandExecutor := built.executor;
      repositoryService := new InternalRepository.Service(config.databaseDriver, config.databaseUrl, decode);
    }

    function GetName(): (name: string)
      ensures name == config.engineName
    {
      config.engineName
    }

    function IsRunning(): (b: bool)
      reads this
      ensures b == running
    {
      running
    }

    /** initializeServices wires no runtime service. */
    function GetRuntimeService(): (s: Option<Runtime.RuntimeService>)
      ensures s.None?
    {
      None
    }

    /** initializeServices wires no task service. */
    function GetTaskService(): (s: Option<Tasks.TaskService>)
      ensures s.None?
    {
      None
    }

    /** initializeServices wires no history service. */
    function GetHistoryService(): (s: Option<History.HistoryService>)
      ensures s.None?
    {
      None
    }

    /** Start: refused while running; otherwise the engine is running. */
    method Start() returns (r: Outcome)
      modifies this
      ensures old(running) ==> r == Fail(Failure("engine '" + config.engineName + "' is already running"))
      ensures !old(running) ==> r == Pass
      ensures running
    {
      if running {
        return Fail(Failure("engine '" + config.engineName + "' is already running"));
      }
      running := true;
      r := Pass;
    }

    /** Stop: refused while stopped; otherwise the engine is stopped. */
    method Stop() returns (r: Outcome)
      modifies this
      ensures !old(running) ==> r == Fail(Failure("engine '" + config.engineName + "' is not running"))
      ensures old(running) ==> r == Pass
      ensures !running
    {
      if !running {
        return Fail(Failure("engine '" + config.engineName + "' is not running"));
      }
      running := false;
      r := Pass;
    }

    /**
     * Execute: refused unless running; otherwise one pass through the
     * executor, in which the command runs once, inside the context
     * interceptor, and the invoker is never entered.
     */
    method Execute(ctx: Context, command: Option<Command>) returns (x: Ending, entered: seq<nat>)
      requires Valid()
      ensures !running ==>
        x == Returns(Reply(Nil, Some(Failure("engine '" + config.engineName + "' is not running")))) && entered == []
      ensures running && command.None? ==> x == Returns(Reply(Nil, Some(Failure("command cannot be nil")))) && entered == []
      ensures running && command.Some? ==>
        && x == Run(commandExecutor.chain, 0, ctx, command.value)
        && x == Returns(Settle(Reply(command.value.result, command.value.err)))
        && entered == [0, 1, 2] && commandExecutor.chain[3].kind == Invoker
    {
      if !running {
        return Returns(Reply(Nil, Some(Failure("engine '" + config.engineName + "' is not running")))), [];
      }
      x, entered := Interceptors.Execute(commandExecutor, ctx, command);
      if command.Some? {
        BuiltChainBypassesInvoker(Object(handle), true, [], true, true, false, 3, ctx, command.value);
        LayoutOrder(Object(handle), true, [], true, true, false, 3);
      }
    }
  }

  /** NewEngine: a nil configuration is refused; otherwise a stopped engine. */
  method NewEngine(config: Option<ProcessEngine.Configuration>, handle: nat, decode: Definitions.Decoder)
    returns (r: Result<Engine>)
    ensures config.None? <==> r.Err?
    ensures r.Err? ==> r.error == Failure("configuration cannot be nil")
    ensures r.Ok? ==> fresh(r.value) && r.value.config == config.value && !r.value.running && r.value.Valid()
  {
    if config.None? {
      return Err(Failure("configuration cannot be nil"));
    }
    var engine := new Engine(config.value, handle, decode);
    r := Ok(engine);
  }
}
