/**
 * The process engine: its configuration, the services it wires together,
 * the one command executor all commands go through, and the `running`
 * flag that Start and Stop move. The services' own Initialize and Shutdown
 * are stubs; their outcomes are parameters of Start and Stop.
 */
module ProcessEngine {
  import opened Common
  import opened CommandContexts
  import opened Interceptors
  import Definitions
  import Repository
  import Runtime
  import Tasks
  import History

  datatype Configuration = Configuration(
    engineName: string, databaseDriver: string, databaseUrl: string, enableHistory: bool,
    enableAsync: bool, maxPoolSize: int, idleTimeout: int)

  /** The history service an engine holds: the store, or the one that records nothing. */
  datatype HistoryBackend = RealHistory(service: History.HistoryService) | NoOpHistory(noOp: History.NoOpHistoryService)

  datatype ServiceName = RepositoryName | RuntimeName | TaskName | HistoryName

  function Label(s: ServiceName): string
  {
    match s
    case RepositoryName => "repository"
    case RuntimeName => "runtime"
    case TaskName => "task"
    case HistoryName => "history"
  }

  /** The order Start initializes the services in. */
  function StartOrder(enableHistory: bool): seq<ServiceName>
  {
    [RepositoryName, RuntimeName, TaskName] + (if enableHistory then [HistoryName] else [])
  }

  /** The order Stop shuts the services down in. */
  function StopOrder(enableHistory: bool): seq<ServiceName>
  {
    (if enableHistory then [HistoryName] else []) + [TaskName, RuntimeName, RepositoryName]
  }

  function Reversed<T>(s: seq<T>): (r: seq<T>)
    ensures |r| == |s| && forall k :: 0 <= k < |s| ==> r[k] == s[|s| - 1 - k]
  {
    if s == [] then [] else Reversed(s[1..]) + [s[0]]
  }

  /** Stop takes the services down in the reverse of the order Start brought them up. */
  lemma StopReversesStart(enableHistory: bool)
    ensures StopOrder(enableHistory) == Reversed(StartOrder(enableHistory))
  {
  }

  /**
   * The services a pass over `order` calls: each in turn, up to and
   * including the first whose outcome is a failure.
   */
  function CalledUpTo(order: seq<ServiceName>, outcome: ServiceName -> Outcome): (called: seq<ServiceName>)
    ensures |called| <= |order| && called == order[..|called|]
    ensures |order| > 0 ==> |called| > 0
    ensures forall k :: 0 <= k < |called| - 1 ==> outcome(called[k]) == Pass
    ensures |called| < |order| ==> outcome(called[|called| - 1]).Fail?
    ensures (forall k :: 0 <= k < |order| ==> outcome(order[k]) == Pass) ==> called == order
    decreases |order|
  {
    if |order| == 0 then []
    else if outcome(order[0]).Fail? then [order[0]]
    else [order[0]] + CalledUpTo(order[1..], outcome)
  }

  /** The outcome of a pass over `order`: the first failure, wrapped with the service's name, or success. */
  predicate PassOutcome(order: seq<ServiceName>, outcome: ServiceName -> Outcome, called: seq<ServiceName>,
                        verb: string, r: Outcome)
  {
    && called == CalledUpTo(order, outcome)
    && (r == Pass <==> forall k :: 0 <= k < |order| ==> outcome(order[k]) == Pass)
    && (r.Fail? ==> |called| > 0 && outcome(called[|called| - 1]).Fail?
                    && r.error == Wrapped(FailedTo(verb, called[|called| - 1]), outcome(called[|called| - 1]).error))
  }

  /** The message a failed service is wrapped with: "failed to <verb> <service> service". */
  function FailedTo(verb: string, s: ServiceName): string
  {
    "failed to " + verb + " " + Label(s) + " service"
  }

  /** A pass that meets its first failure at position `k` has called exactly the services up to `k`. */
  lemma {:induction false} CalledUpToFirstFailure(order: seq<ServiceName>, outcome: ServiceName -> Outcome, k: nat)
    requires k < |order| && outcome(order[k]).Fail?
    requires forall j :: 0 <= j < k ==> outcome(order[j]) == Pass
    ensures CalledUpTo(order, outcome) == order[..k + 1]
    decreases k
  {
    if k > 0 {
      CalledUpToFirstFailure(order[1..], outcome, k - 1);
      assert order == [order[0]] + order[1..];
    }
  }

  /** The outcome of a pass whose first failure is at position `k`. */
  lemma FailsAt(order: seq<ServiceName>, outcome: ServiceName -> Outcome, k: nat, verb: string)
    requires k < |order| && outcome(order[k]).Fail?
    requires forall j :: 0 <= j < k ==> outcome(order[j]) == Pass
    ensures PassOutcome(order, outcome, order[..k + 1], verb, Fail(Wrapped(FailedTo(verb, order[k]), outcome(order[k]).error)))
  {
    CalledUpToFirstFailure(order, outcome, k);
  }

  /** The outcome of a pass in which every service succeeds. */
  lemma AllPass(order: seq<ServiceName>, outcome: ServiceName -> Outcome, verb: string)
    requires forall j :: 0 <= j < |order| ==> outcome(order[j]) == Pass
    ensures PassOutcome(order, outcome, order, verb, Pass)
  {
  }

  /** The executor every engine of this package builds: logging and transaction on, retry off. */
  function DefaultExecutor(engine: Value, internal: bool): CommandExecutor
  {
    CommandExecutor(Wire(Layout(engine, internal, [], true, true, false, 3)), 0, 3)
  }

  /**
   * The executor NewTaskService builds: NewCommandExecutor called with no
   * interceptors, which panics, so the source never returns a task service.
   */
  method TaskServiceExecutor() returns (r: Construction)
    ensures r == Panicked("at least one interceptor is required")
  {
    r := NewCommandExecutor([]);
  }

  /**
   * initializeServices: the repository store, the runtime store over it, the
   * task store over the runtime store, and the history store when history is
   * enabled (the no-op service otherwise). It returns no error; the task
   * store is built here without the executor NewTaskService builds, whose
   * construction panics (TaskServiceExecutor).
   */
  method InitializeServices(config: Configuration, decode: Definitions.Decoder)
    returns (repository: Repository.RepositoryService, runtime: Runtime.RuntimeService,
             tasks: Tasks.TaskService, history: HistoryBackend)
    ensures fresh(repository) && fresh(runtime) && fresh(tasks)
    ensures repository.databaseDriver == config.databaseDriver && repository.databaseUrl == config.databaseUrl
    ensures repository.deployments == map[] && repository.definitions == map[]
    ensures runtime.repository == repository && runtime.enableAsync == config.enableAsync && runtime.Valid()
    ensures runtime.processInstances == map[] && runtime.executions == map[]
    ensures tasks.runtime == runtime && tasks.tasks == map[]
    ensures history.RealHistory? <==> config.enableHistory
    ensures history.RealHistory? ==>
      && fresh(history.service)
      && history.service.databaseDriver == config.databaseDriver && history.service.databaseUrl == config.databaseUrl
  {
    repository := new Repository.RepositoryService(config.databaseDriver, config.databaseUrl, decode);
    runtime := new Runtime.RuntimeService(repository, config.enableAsync);
    tasks := new Tasks.TaskService(runtime);
    if config.enableHistory {
      var service := new History.HistoryService(config.databaseDriver, config.databaseUrl);
      history := RealHistory(service);
    } else {
      var noOp := new History.NoOpHistoryService();
      history := NoOpHistory(noOp);
    }
  }

  class ProcessEngineImpl {
    const config: Configuration
    /** The engine's own address, the handle its command contexts carry. */
    const handle: nat
    const commandExecutor: CommandExecutor
    const repositoryService: Repository.RepositoryService
    const runtimeService: Runtime.RuntimeService
    const taskService: Tasks.TaskService
    const historyService: HistoryBackend
    var running: bool

    /** The engine's executor is the default one, handing this engine to each command context. */
    predicate Valid()
    {
      commandExecutor == DefaultExecutor(Object(handle), false)
    }

    constructor (config: Configuration, handle: nat, decode: Definitions.Decoder)
      ensures this.config == config && this.handle == handle && !running && Valid()
      ensures fresh(repositoryService) && fresh(runtimeService) && fresh(taskService)
      ensures repositoryService.deployments == map[] && repositoryService.definitions == map[]
      ensures runtimeService.repository == repositoryService && taskService.runtime == runtimeService
      ensures runtimeService.Valid()
      ensures historyService.RealHistory? <==> config.enableHistory
    {
      this.config := config;
      this.handle := handle;
      running := false;
      var builder := new ExecutorBuilder(Object(handle), false);
      builder := builder.WithLogging(true);
      builder := builder.WithTransaction(true);
      var built := builder.Build();
      commandExecutor := built.executor;
      var repository, runtime, tasks, history := InitializeServices(config, decode);
      repositoryService, runtimeService, taskService, historyService := repository, runtime, tasks, history;
    }

    function GetName(): (name: string)
      ensures name == config.engineName
    {
      config.engineName
    }

    function IsRunning(): (b: bool)
      reads this
      ensures b == running
    {
      running
    }

    /**
     * Start: refused while running; otherwise initializes the services in
     * order (history only when enabled) and stops at the first failure,
     * leaving the engine stopped; running once every service started.
     */
    method Start(initialize: ServiceName -> Outcome) returns (r: Outcome, called: seq<ServiceName>)
      modifies this
      ensures old(running) ==>
        r == Fail(Failure("engine '" + config.engineName + "' is already running")) && called == [] && running
      ensures !old(running) ==>
        PassOutcome(StartOrder(config.enableHistory), initialize, called, "start", r) && running == r.Pass?
    {
      if running {
        return Fail(Failure("engine '" + config.engineName + "' is already running")), [];
      }
      r, called := StartServices(initialize);
      if r.Pass? {
        running := true;
      }
    }

    /** The service calls of Start: repository, runtime, task, then history when enabled. */
    method StartServices(initialize: ServiceName -> Outcome) returns (r: Outcome, called: seq<ServiceName>)
      ensures PassOutcome(StartOrder(config.enableHistory), initialize, called, "start", r)
    {
      ghost var order := StartOrder(config.enableHistory);
      called := [RepositoryName];
      var outcome := initialize(RepositoryName);
      if outcome.Fail? {
        FailsAt(order, initialize, 0, "start");
        return Fail(Wrapped(FailedTo("start", RepositoryName), outcome.error)), called;
      }
      called := called + [RuntimeName];
      outcome := initialize(RuntimeName);
      if outcome.Fail? {
        FailsAt(order, initialize, 1, "start");
        return Fail(Wrapped(FailedTo("start", RuntimeName), outcome.error)), called;
      }
      called := called + [TaskName];
      outcome := initialize(TaskName);
      if outcome.Fail? {
        FailsAt(order, initialize, 2, "start");
        return Fail(Wrapped(FailedTo("start", TaskName), outcome.error)), called;
      }
      if config.enableHistory {
        called := called + [HistoryName];
        outcome := initialize(HistoryName);
        if outcome.Fail? {
          FailsAt(order, initialize, 3, "start");
          return Fail(Wrapped(FailedTo("start", HistoryName), outcome.error)), called;
        }
      }
      AllPass(order, initialize, "start");
      r := Pass;
    }

    /**
     * Stop: refused while stopped; otherwise shuts the services down in the
     * reverse order (history only when enabled) and stops at the first
     * failure, leaving the engine running; stopped once every service shut down.
     */
    method Stop(shutdown: ServiceName -> Outcome) returns (r: Outcome, called: seq<ServiceName>)
      modifies this
      ensures !old(running) ==>
        r == Fail(Failure("engine '" + config.engineName + "' is not running")) && called == [] && !running
      ensures old(running) ==>
        PassOutcome(StopOrder(config.enableHistory), shutdown, called, "stop", r) && running == !r.Pass?
    {
      if !running {
        return Fail(Failure("engine '" + config.engineName + "' is not running")), [];
      }
      r, called := StopServices(shutdown);
      if r.Pass? {
        running := false;
      }
    }

    /** The service calls of Stop: history when enabled, then task, runtime, repository. */
    method StopServices(shutdown: ServiceName -> Outcome) returns (r: Outcome, called: seq<ServiceName>)
      ensures PassOutcome(StopOrder(config.enableHistory), shutdown, called, "stop", r)
    {
      ghost var order := StopOrder(config.enableHistory);
      ghost var h := if config.enableHistory then 1 else 0;
      called := [];
      var outcome;
      if config.enableHistory {
        called := [HistoryName];
        outcome := shutdown(HistoryName);
        if outcome.Fail? {
          FailsAt(order, shutdown, 0, "stop");
          return Fail(Wrapped(FailedTo("stop", HistoryName), outcome.error)), called;
        }
      }
      called := called + [TaskName];
      outcome := shutdown(TaskName);
      if outcome.Fail? {
        FailsAt(order, shutdown, h, "stop");
        return Fail(Wrapped(FailedTo("stop", TaskName), outcome.error)), called;
      }
      called := called + [RuntimeName];
      outcome := shutdown(RuntimeName);
      if outcome.Fail? {
        FailsAt(order, shutdown, h + 1, "stop");
        return Fail(Wrapped(FailedTo("stop", RuntimeName), outcome.error)), called;
      }
      called := called + [RepositoryName];
      outcome := shutdown(RepositoryName);
      if outcome.Fail? {
        FailsAt(order, shutdown, h + 2, "stop");
        return Fail(Wrapped(FailedTo("stop", RepositoryName), outcome.error)), called;
      }
      AllPass(order, shutdown, "stop");
      r := Pass;
    }

    /**
     * ExecuteCommand: refused unless running; otherwise one pass through the
     * executor. With the default chain the command runs once, inside the
     * context interceptor, and the invoker behind it is never entered.
     */
    method ExecuteCommand(ctx: Context, command: Option<Command>) returns (x: Ending, entered: seq<nat>)
      requires Valid()
      ensures !running ==>
        x == Returns(Reply(Nil, Some(Failure("engine '" + config.engineName + "' is not running")))) && entered == []
      ensures running && command.None? ==> x == Returns(Reply(Nil, Some(Failure("command cannot be nil")))) && entered == []
      ensures running && command.Some? ==>
        && x == Run(commandExecutor.chain, 0, ctx, command.value)
        && x == Returns(Settle(Reply(command.value.result, command.value.err)))
        && entered == [0, 1, 2] && commandExecutor.chain[3].kind == Invoker
    {
      if !running {
        return Returns(Reply(Nil, Some(Failure("engine '" + config.engineName + "' is not running")))), [];
      }
      x, entered := Execute(commandExecutor, ctx, command);
      if command.Some? {
        BuiltChainBypassesInvoker(Object(handle), false, [], true, true, false, 3, ctx, command.value);
        LayoutOrder(Object(handle), false, [], true, true, false, 3);
      }
    }
  }

  /** newProcessEngineImpl: a nil configuration is refused; otherwise a stopped engine. */
  method NewProcessEngine(config: Option<Configuration>, handle: nat, decode: Definitions.Decoder)
    returns (r: Result<ProcessEngineImpl>)
    ensures config.None? <==> r.Err?
    ensures r.Err? ==> r.error == Failure("configuration cannot be nil")
    ensures r.Ok? ==>
      && fresh(r.value) && r.value.config == config.value && !r.value.running && r.value.Valid()
      && (r.value.historyService.RealHistory? <==> config.value.enableHistory)
  {
    if config.None? {
      return Err(Failure("configuration cannot be nil"));
    }
    var engine := new ProcessEngineImpl(config.value, handle, decode);
    r := Ok(engine);
  }
}
