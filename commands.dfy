/**
 * The commands a client hands to the executor: claim and complete a task,
 * start a process instance, deploy a definition. Each checks its input,
 * then delegates to the stores. The services a command reads off its
 * engine are passed in directly: the runtime service is the one the task
 * service completes through, and the repository service is the one the
 * runtime service starts from, as the process engine wires them.
 */
module Commands {
  import opened Common
  import opened Definitions
  import opened Deploy
  import Repository
  import Runtime
  import Tasks

  // ------------------------------------------------------------------
  // Task lookup
  // ------------------------------------------------------------------

  /** The task with the id, as the store holds it. */
  function LookupTask(tasks: map<string, Tasks.Task>, taskId: string): (r: Result<Tasks.Task>)
    ensures r.Ok? <==> taskId in tasks
    ensures r.Ok? ==> r.value == tasks[taskId]
    ensures r.Err? ==> r.error == NotFound("task", taskId)
  {
    if taskId in tasks then Ok(tasks[taskId]) else Err(NotFound("task", taskId))
  }

  // ------------------------------------------------------------------
  // ClaimTaskCommand
  // ------------------------------------------------------------------

  /**
   * The checks ClaimTaskCommand makes before it claims, in their order: the
   * ids, the lookup, the holder, the candidates. `Pass` means Claim is called.
   */
  function ClaimCheck(tasks: map<string, Tasks.Task>, taskId: string, userId: string): (r: Outcome)
    ensures taskId == "" ==> r == Fail(Failure("task ID cannot be empty"))
    ensures taskId != "" && userId == "" ==> r == Fail(Failure("user ID cannot be empty"))
    ensures taskId != "" && userId != "" && taskId !in tasks ==> r == Fail(Wrapped("task not found", NotFound("task", taskId)))
    ensures r.Pass? <==>
      && taskId != "" && userId != "" && taskId in tasks
      && (tasks[taskId].assignee == "" || tasks[taskId].assignee == userId)
      && (|tasks[taskId].candidateUsers| == 0 || userId in tasks[taskId].candidateUsers)
  {
    if taskId == "" then Fail(Failure("task ID cannot be empty"))
    else if userId == "" then Fail(Failure("user ID cannot be empty"))
    else
      var found := LookupTask(tasks, taskId);
      if found.Err? then Fail(Wrapped("task not found", found.error))
      else
        var task := found.value;
        if task.assignee != "" && task.assignee != userId then
          Fail(Failure("task '" + taskId + "' is already claimed by user '" + task.assignee + "'"))
        else if |task.candidateUsers| > 0 && userId !in task.candidateUsers then
          Fail(Failure("user '" + userId + "' is not a candidate for task '" + taskId + "'"))
        else Pass
  }

  /**
   * The command's checks admit only claims the store accepts: the store's
   * own conflict check never fires after them, and the claimed task is held
   * by the user with a claim time.
   */
  lemma ClaimCheckAdmitsStoreClaim(tasks: map<string, Tasks.Task>, taskId: string, userId: string, now: Time)
    requires ClaimCheck(tasks, taskId, userId).Pass?
    ensures Tasks.ClaimTask(tasks[taskId], userId, now) == Ok(tasks[taskId].(assignee := userId, claimTime := Some(now)))
    ensures Tasks.ClaimPaired(Tasks.ClaimTask(tasks[taskId], userId, now).value)
  {
    Tasks.ClaimAndUnclaimPair(tasks[taskId], userId, now);
  }

  /**
   * ClaimTaskCommand.Execute: a failed check returns its error and leaves
   * the store as it was; otherwise the user holds the task from `now`.
   */
  method ClaimTaskCommand(taskService: Tasks.TaskService, taskId: string, userId: string, now: Time)
    returns (r: Outcome)
    modifies taskService
    ensures var check := ClaimCheck(old(taskService.tasks), taskId, userId);
      && (check.Fail? ==> r == check && unchanged(taskService))
      && (check.Pass? ==>
            && r == Pass
            && taskService.tasks == old(taskService.tasks)[taskId := old(taskService.tasks)[taskId].(assignee := userId, claimTime := Some(now))]
            && taskService.comments == old(taskService.comments)
            && taskService.attachments == old(taskService.attachments)
            && taskService.variables == old(taskService.variables))
  {
    if taskId == "" {
      return Fail(Failure("task ID cannot be empty"));
    }
    if userId == "" {
      return Fail(Failure("user ID cannot be empty"));
    }
    var found := LookupTask(taskService.tasks, taskId);
    if found.Err? {
      return Fail(Wrapped("task not found", found.error));
    }
    var task := found.value;
    if task.assignee != "" && task.assignee != userId {
      return Fail(Failure("task '" + taskId + "' is already claimed by user '" + task.assignee + "'"));
    }
    if |task.candidateUsers| > 0 {
      var isCandidate := Contains(task.candidateUsers, userId);
      if !isCandidate {
        return Fail(Failure("user '" + userId + "' is not a candidate for task '" + taskId + "'"));
      }
    }
    ClaimCheckAdmitsStoreClaim(taskService.tasks, taskId, userId, now);
    var claimed := taskService.Claim(taskId, userId, now);
    if claimed.Fail? {
      assert false;
    }
    r := Pass;
  }

  // ------------------------------------------------------------------
  // CompleteTaskCommand
  // ------------------------------------------------------------------

  /** The checks CompleteTaskCommand makes before it writes anything. */
  function CompleteCheck(tasks: map<string, Tasks.Task>, taskId: string): (r: Outcome)
    ensures taskId == "" ==> r == Fail(Failure("task ID cannot be empty"))
    ensures taskId != "" && taskId !in tasks ==> r == Fail(Wrapped("task not found", NotFound("task", taskId)))
    ensures r.Pass? <==> taskId != "" && taskId in tasks && !tasks[taskId].suspended
  {
    if taskId == "" then Fail(Failure("task ID cannot be empty"))
    else
      var found := LookupTask(tasks, taskId);
      if found.Err? then Fail(Wrapped("task not found", found.error))
      else if found.value.suspended then Fail(Failure("cannot complete suspended task '" + taskId + "'"))
      else Pass
  }

  /** A completed task is gone: completing it again fails the lookup. */
  lemma CompleteIsNotRepeatable(tasks: map<string, Tasks.Task>, taskId: string)
    requires CompleteCheck(tasks, taskId).Pass?
    ensures CompleteCheck(tasks - {taskId}, taskId) == Fail(Wrapped("task not found", NotFound("task", taskId)))
  {
  }

  /**
   * CompleteTaskCommand.Execute: a failed check changes nothing; otherwise
   * a non-empty variable map goes to the task's execution (when it has one)
   * before the task is completed, and a failure of either step returns
   * before the task is removed.
   */
  method CompleteTaskCommand(taskService: Tasks.TaskService, taskId: string, vars: Variables) returns (r: Outcome)
    requires taskService.runtime.Valid()
    modifies taskService, taskService.runtime
    ensures taskService.runtime.Valid()
    ensures var check := CompleteCheck(old(taskService.tasks), taskId);
      check.Fail? ==> r == check && unchanged(taskService) && unchanged(taskService.runtime)
    ensures CompleteCheck(old(taskService.tasks), taskId).Pass? ==>
      var executionId := old(taskService.tasks)[taskId].executionId;
      var setsVariables := |vars| > 0 && executionId != "";
      var runtime := taskService.runtime;
      && (executionId != "" && executionId !in old(runtime.executions) ==>
            && r == Fail(if setsVariables then Wrapped("failed to set variables", NotFound("execution", executionId))
                         else Wrapped("failed to complete task", Wrapped("failed to signal execution", NotFound("execution", executionId))))
            && unchanged(taskService) && unchanged(runtime))
      && (executionId == "" || executionId in old(runtime.executions) ==>
            && r == Pass
            && taskService.tasks == old(taskService.tasks) - {taskId}
            && taskService.comments == old(taskService.comments)
            && taskService.attachments == old(taskService.attachments)
            && taskService.variables == old(taskService.variables)
            && runtime.processInstances == old(runtime.processInstances)
            && runtime.executions == old(runtime.executions)
            && (setsVariables ==>
                  && runtime.variables.Keys == old(runtime.variables).Keys + {executionId}
                  && (forall e :: e in old(runtime.variables) && e != executionId ==>
                        runtime.variables[e] == old(runtime.variables)[e])
                  && Merged(ScopeOf(old(runtime.variables), executionId), vars, runtime.variables[executionId]))
            && (!setsVariables ==> runtime.variables == old(runtime.variables)))
  {
    if taskId == "" {
      return Fail(Failure("task ID cannot be empty"));
    }
    var runtime := taskService.runtime;
    var found := LookupTask(taskService.tasks, taskId);
    if found.Err? {
      return Fail(Wrapped("task not found", found.error));
    }
    var task := found.value;
    if task.suspended {
      return Fail(Failure("cannot complete suspended task '" + taskId + "'"));
    }
    if |vars| > 0 && task.executionId != "" {
      var written := runtime.SetVariables(task.executionId, vars);
      if written.Fail? {
        return Fail(Wrapped("failed to set variables", written.error));
      }
    }
    var completed := taskService.Complete(taskId);
    if completed.Fail? {
      return Fail(Wrapped("failed to complete task", completed.error));
    }
    r := Pass;
  }

  // ------------------------------------------------------------------
  // StartProcessInstanceCommand
  // ------------------------------------------------------------------

  /** How far the start command got: refused by its own checks, or the runtime's answer. */
  datatype Launch = Refused(error: Error) | Launched(started: Result<Runtime.ProcessInstance>)

  /**
   * What a start by key promises: success is an instance of the latest
   * active version of the key under the business key; failure means that
   * latest version is suspended.
   */
  ghost predicate StartedLatest(defs: Definitions, key: string, businessKey: string, instanceId: string, now: Time,
                                started: Result<Runtime.ProcessInstance>)
  {
    && (started.Ok? ==>
          exists def :: Runtime.LatestOfKey(defs, key, def) && !def.suspended
            && started.value == Runtime.NewInstance(def, businessKey, instanceId, now))
    && (started.Err? ==>
          exists def :: Runtime.LatestOfKey(defs, key, def) && def.suspended
            && started.error == Failure("process definition '" + def.id + "' is suspended"))
  }

  /** The runtime store after a start: the new instance is stored, and a failed start changes nothing. */
  twostate predicate Recorded(runtime: Runtime.RuntimeService, instanceId: string, vars: Option<Variables>,
                              started: Result<Runtime.ProcessInstance>)
    reads runtime
  {
    && (started.Ok? ==>
          && runtime.processInstances == old(runtime.processInstances)[instanceId := started.value]
          && instanceId in runtime.executions
          && runtime.variables == (if vars.Some? then old(runtime.variables)[instanceId := vars.value] else old(runtime.variables)))
    && (started.Err? ==> unchanged(runtime))
  }

  /**
   * Everything StartProcessInstanceCommand.Execute does up to its final
   * error check: the definition ID wins over the key; a failed lookup or a
   * suspended definition refuses before the runtime store is touched; with
   * a business key the ID branch starts the latest version of the found
   * definition's key rather than the given ID.
   */
  method LaunchInstance(runtime: Runtime.RuntimeService, definitionId: string, definitionKey: string,
                        businessKey: string, vars: Option<Variables>, instanceId: string, now: Time)
    returns (r: Launch)
    requires runtime.Valid()
    requires instanceId !in runtime.processInstances && instanceId !in runtime.executions
    modifies runtime
    ensures runtime.Valid()
    ensures r.Refused? ==> unchanged(runtime)
    ensures r.Launched? ==> Recorded(runtime, instanceId, vars, r.started)
    ensures definitionId == "" && definitionKey == "" ==>
      r == Refused(Failure("either process definition ID or key must be provided"))
    ensures definitionId != "" ==> LaunchedById(old(runtime.repository.definitions), definitionId, businessKey, instanceId, now, r)
    ensures definitionId == "" && definitionKey != "" ==>
      LaunchedByKey(old(runtime.repository.definitions), definitionKey, businessKey, instanceId, now, r)
  {
    if definitionId != "" {
      r := LaunchById(runtime, definitionId, businessKey, vars, instanceId, now);
    } else if definitionKey != "" {
      r := LaunchByKey(runtime, definitionKey, businessKey, vars, instanceId, now);
    } else {
      r := Refused(Failure("either process definition ID or key must be provided"));
    }
  }

  /**
   * The ID branch: a missing or suspended definition is refused; without a
   * business key the definition itself is started, with one the latest
   * version of its key.
   */
  ghost predicate LaunchedById(defs: Definitions, definitionId: string, businessKey: string, instanceId: string,
                               now: Time, r: Launch)
  {
    && (definitionId !in defs ==>
          r == Refused(Wrapped("process definition not found", NotFound("process definition", definitionId))))
    && (definitionId in defs && defs[definitionId].suspended ==>
          r == Refused(Failure("cannot start process instance: process definition '" + definitionId + "' is suspended")))
    && (definitionId in defs && !defs[definitionId].suspended && businessKey == "" ==>
          r == Launched(Ok(Runtime.NewInstance(defs[definitionId], "", instanceId, now))))
    && (definitionId in defs && !defs[definitionId].suspended && businessKey != "" ==>
          r.Launched? && StartedLatest(defs, defs[definitionId].key, businessKey, instanceId, now, r.started))
  }

  /** Some definition carries the key. */
  ghost predicate KeyKnown(defs: Definitions, key: string)
  {
    exists id :: id in defs && defs[id].key == key
  }

  /** Every latest version of the key is suspended. */
  ghost predicate LatestAllSuspended(defs: Definitions, key: string)
  {
    forall def :: Runtime.LatestOfKey(defs, key, def) ==> def.suspended
  }

  /** No latest version of the key is suspended. */
  ghost predicate LatestNoneSuspended(defs: Definitions, key: string)
  {
    forall def :: Runtime.LatestOfKey(defs, key, def) ==> !def.suspended
  }

  /**
   * The key branch: an unknown key is refused, and so is a suspended latest
   * version, before the runtime is called; when no latest version is
   * suspended, an instance of the latest version is started. Only when two
   * definitions share the top version, one active and one suspended, may
   * the command's lookup and the runtime's own lookup pick differently, so
   * then either the refusal or the runtime's answer is possible.
   */
  ghost predicate LaunchedByKey(defs: Definitions, key: string, businessKey: string, instanceId: string,
                                now: Time, r: Launch)
  {
    && (!KeyKnown(defs, key) ==>
          r == Refused(Wrapped("process definition not found with key '" + key + "'",
                               Failure("process definition not found with key: " + key))))
    && (KeyKnown(defs, key) && LatestAllSuspended(defs, key) ==>
          r == Refused(Failure("cannot start process instance: process definition '" + key + "' is suspended")))
    && (KeyKnown(defs, key) && LatestNoneSuspended(defs, key) ==>
          r.Launched? && r.started.Ok? && StartedLatest(defs, key, businessKey, instanceId, now, r.started))
    && (KeyKnown(defs, key) ==>
          || (exists def :: Runtime.LatestOfKey(defs, key, def) && def.suspended
                && r == Refused(Failure("cannot start process instance: process definition '" + key + "' is suspended")))
          || (r.Launched? && StartedLatest(defs, key, businessKey, instanceId, now, r.started)))
  }

  /** The command refuses a suspended latest version it looked up. */
  lemma RefusedSuspendedLatest(defs: Definitions, key: string, businessKey: string, instanceId: string, now: Time,
                               def: ProcessDefinition)
    requires Runtime.LatestOfKey(defs, key, def) && def.suspended
    ensures LaunchedByKey(defs, key, businessKey, instanceId, now,
                          Refused(Failure("cannot start process instance: process definition '" + key + "' is suspended")))
  {
    var id :| id in defs && defs[id] == def;
    assert KeyKnown(defs, key);
    assert !LatestNoneSuspended(defs, key);
  }

  /** The command passes an active latest version it looked up on to the runtime. */
  lemma LaunchedActiveLatest(defs: Definitions, key: string, businessKey: string, instanceId: string, now: Time,
                             def: ProcessDefinition, started: Result<Runtime.ProcessInstance>)
    requires Runtime.LatestOfKey(defs, key, def) && !def.suspended
    requires StartedLatest(defs, key, businessKey, instanceId, now, started)
    ensures LaunchedByKey(defs, key, businessKey, instanceId, now, Launched(started))
  {
    var id :| id in defs && defs[id] == def;
    assert KeyKnown(defs, key);
    assert !LatestAllSuspended(defs, key);
  }

  method LaunchById(runtime: Runtime.RuntimeService, definitionId: string, businessKey: string,
                    vars: Option<Variables>, instanceId: string, now: Time) returns (r: Launch)
    requires runtime.Valid()
    requires instanceId !in runtime.processInstances && instanceId !in runtime.executions
    modifies runtime
    ensures runtime.Valid()
    ensures r.Refused? ==> unchanged(runtime)
    ensures r.Launched? ==> Recorded(runtime, instanceId, vars, r.started)
    ensures LaunchedById(old(runtime.repository.definitions), definitionId, businessKey, instanceId, now, r)
  {
    var repository := runtime.repository;
    var found := repository.GetProcessDefinition(definitionId);
    if found.Err? {
      return Refused(Wrapped("process definition not found", found.error));
    }
    var def := found.value;
    if def.suspended {
      return Refused(Failure("cannot start process instance: process definition '" + definitionId + "' is suspended"));
    }
    var started;
    if businessKey != "" {
      started := runtime.StartProcessInstanceByKeyWithBusinessKey(def.key, businessKey, vars, instanceId, now);
      assert definitionId in repository.definitions && repository.definitions[definitionId].key == def.key;
    } else {
      started := runtime.StartProcessInstanceById(definitionId, vars, instanceId, now);
    }
    r := Launched(started);
  }

  method LaunchByKey(runtime: Runtime.RuntimeService, key: string, businessKey: string,
                     vars: Option<Variables>, instanceId: string, now: Time) returns (r: Launch)
    requires runtime.Valid()
    requires instanceId !in runtime.processInstances && instanceId !in runtime.executions
    modifies runtime
    ensures runtime.Valid()
    ensures r.Refused? ==> unchanged(runtime)
    ensures r.Launched? ==> Recorded(runtime, instanceId, vars, r.started)
    ensures LaunchedByKey(old(runtime.repository.definitions), key, businessKey, instanceId, now, r)
  {
    var repository := runtime.repository;
    var found := repository.GetProcessDefinitionByKey(key);
    if found.Err? {
      return Refused(Wrapped("process definition not found with key '" + key + "'", found.error));
    }
    var def := found.value;
    ghost var defs := repository.definitions;
    assert Runtime.LatestOfKey(defs, key, def);
    if def.suspended {
      RefusedSuspendedLatest(defs, key, businessKey, instanceId, now, def);
      return Refused(Failure("cannot start process instance: process definition '" + key + "' is suspended"));
    }
    var started;
    if businessKey != "" {
      started := runtime.StartProcessInstanceByKeyWithBusinessKey(key, businessKey, vars, instanceId, now);
    } else {
      started := runtime.StartProcessInstanceByKey(key, vars, instanceId, now);
    }
    assert StartedLatest(defs, key, businessKey, instanceId, now, started);
    LaunchedActiveLatest(defs, key, businessKey, instanceId, now, def, started);
    r := Launched(started);
  }

  /**
   * The command's reply as written: the runtime's error is assigned to an
   * `err` declared inside the branch, so the check after the branches reads
   * the outer, never-assigned `err`, and a failed start is reported as a
   * success with no instance.
   */
  function StartReplyAsWritten(launch: Launch): (r: Result<Option<Runtime.ProcessInstance>>)
    ensures r.Err? <==> launch.Refused?
    ensures launch.Launched? && launch.started.Ok? ==> r == Ok(Some(launch.started.value))
    ensures launch.Launched? && launch.started.Err? ==> r == Ok(None)
  {
    match launch
    case Refused(error) => Err(error)
    case Launched(started) => if started.Ok? then Ok(Some(started.value)) else Ok(None)
  }

  /** The command's reply as intended: a failed start is an error that still matches the runtime's. */
  function StartReply(launch: Launch): (r: Result<Runtime.ProcessInstance>)
    ensures r.Ok? <==> launch.Launched? && launch.started.Ok?
    ensures r.Ok? ==> r.value == launch.started.value
    ensures launch.Refused? ==> r == Err(launch.error)
    ensures launch.Launched? && launch.started.Err? ==>
      r.Err? && r.error == Wrapped("failed to start process instance", launch.started.error)
      && Is(r.error, launch.started.error)
  {
    match launch
    case Refused(error) => Err(error)
    case Launched(started) =>
      if started.Ok? then Ok(started.value) else Err(Wrapped("failed to start process instance", started.error))
  }

  /** StartProcessInstanceCommand.Execute as written. */
  method StartProcessInstanceCommandAsWritten(runtime: Runtime.RuntimeService, definitionId: string, definitionKey: string,
                                              businessKey: string, vars: Option<Variables>, instanceId: string, now: Time)
    returns (r: Result<Option<Runtime.ProcessInstance>>, ghost launch: Launch)
    requires runtime.Valid()
    requires instanceId !in runtime.processInstances && instanceId !in runtime.executions
    modifies runtime
    ensures runtime.Valid()
    ensures r == StartReplyAsWritten(launch)
    ensures launch.Refused? ==> unchanged(runtime)
    ensures launch.Launched? ==> Recorded(runtime, instanceId, vars, launch.started)
    ensures definitionId == "" && definitionKey == "" ==>
      launch == Refused(Failure("either process definition ID or key must be provided"))
    ensures definitionId != "" ==>
      LaunchedById(old(runtime.repository.definitions), definitionId, businessKey, instanceId, now, launch)
    ensures definitionId == "" && definitionKey != "" ==>
      LaunchedByKey(old(runtime.repository.definitions), definitionKey, businessKey, instanceId, now, launch)
  {
    var l := LaunchInstance(runtime, definitionId, definitionKey, businessKey, vars, instanceId, now);
    launch := l;
    match l
    case Refused(error) =>
      r := Err(error);
    case Launched(started) =>
      r := if started.Ok? then Ok(Some(started.value)) else Ok(None);
  }

  /** StartProcessInstanceCommand.Execute with the runtime's error reported. */
  method StartProcessInstanceCommand(runtime: Runtime.RuntimeService, definitionId: string, definitionKey: string,
                                     businessKey: string, vars: Option<Variables>, instanceId: string, now: Time)
    returns (r: Result<Runtime.ProcessInstance>, ghost launch: Launch)
    requires runtime.Valid()
    requires instanceId !in runtime.processInstances && instanceId !in runtime.executions
    modifies runtime
    ensures runtime.Valid()
    ensures r == StartReply(launch)
    ensures launch.Refused? ==> unchanged(runtime)
    ensures launch.Launched? ==> Recorded(runtime, instanceId, vars, launch.started)
    ensures r.Err? ==> unchanged(runtime)
    ensures definitionId == "" && definitionKey == "" ==>
      launch == Refused(Failure("either process definition ID or key must be provided"))
    ensures definitionId != "" ==>
      LaunchedById(old(runtime.repository.definitions), definitionId, businessKey, instanceId, now, launch)
    ensures definitionId == "" && definitionKey != "" ==>
      LaunchedByKey(old(runtime.repository.definitions), definitionKey, businessKey, instanceId, now, launch)
  {
    var l := LaunchInstance(runtime, definitionId, definitionKey, businessKey, vars, instanceId, now);
    launch := l;
    match l
    case Refused(error) =>
      r := Err(error);
    case Launched(started) =>
      r := if started.Ok? then Ok(started.value) else Err(Wrapped("failed to start process instance", started.error));
  }

  /** Version 1 of "order", active. */
  function OrderV1(): ProcessDefinition
  {
    ProcessDefinition("order:1", "order", "Order", "", 1, "", "d", "order.json", "", false, "", false, false)
  }

  /** Version 2 of "order", suspended. */
  function OrderV2(): ProcessDefinition
  {
    OrderV1().(id := "order:2", version := 2, suspended := true)
  }

  function TwoVersions(): Definitions
  {
    map["order:1" := OrderV1(), "order:2" := OrderV2()]
  }

  /** Among the two versions the latest of "order" is version 2. */
  lemma LatestOfTwoVersions(def: ProcessDefinition)
    requires Runtime.LatestOfKey(TwoVersions(), "order", def)
    ensures def == OrderV2()
  {
    var defs := TwoVersions();
    assert "order:2" in defs && defs["order:2"].key == "order";
    assert def.version >= 2;
    var id :| id in defs && defs[id] == def;
    assert id == "order:1" || id == "order:2";
  }

  /**
   * Starting "order:1" (active) with a business key goes to the latest
   * version of "order", which is suspended: whatever the start command
   * launches on these definitions, the runtime refuses, the command as
   * written replies with success and no instance, and the intended reply
   * is the runtime's error.
   */
  lemma SuspendedLatestIsReportedAsSuccess(launch: Launch, now: Time)
    requires LaunchedById(TwoVersions(), OrderV1().id, "b-1", "i-1", now, launch)
    ensures OrderV1().id in TwoVersions() && !TwoVersions()[OrderV1().id].suspended
    ensures launch == Launched(Err(Failure("process definition '" + OrderV2().id + "' is suspended")))
    ensures StartReplyAsWritten(launch) == Ok(None)
    ensures StartReply(launch).Err?
  {
    assert TwoVersions()[OrderV1().id] == OrderV1();
    assert launch.Launched? && StartedLatest(TwoVersions(), OrderV1().key, "b-1", "i-1", now, launch.started);
    var started := launch.started;
    if started.Ok? {
      var def :| Runtime.LatestOfKey(TwoVersions(), "order", def) && !def.suspended
        && started.value == Runtime.NewInstance(def, "b-1", "i-1", now);
      LatestOfTwoVersions(def);
      assert false;
    }
    var def :| Runtime.LatestOfKey(TwoVersions(), "order", def) && def.suspended
      && started.error == Failure("process definition '" + def.id + "' is suspended");
    LatestOfTwoVersions(def);
  }

  // ------------------------------------------------------------------
  // DeployCommand
  // ------------------------------------------------------------------

  /** The one resource a DeployCommand deploys, as AddProcessDefinition records it. */
  function CommandResource(resourceName: string, content: seq<byte>): (res: Resource)
    ensures res.name == resourceName && res.content == content && res.id == "" && res.deploymentId == ""
  {
    Resource("", resourceName, "", content, "")
  }

  /**
   * DeployCommand.Execute: empty content, then an empty name, are refused
   * before the store is touched; otherwise a deployment with the command's
   * name, category and tenant and exactly one resource goes through the
   * store, and its error comes back wrapped.
   */
  method DeployCommand(repository: Repository.RepositoryService, deploymentName: string, category: string,
                       tenantId: string, resourceName: string, content: seq<byte>,
                       deploymentId: string, resourceId: string, uuid: string, now: Time)
    returns (r: Result<Deployment>)
    modifies repository
    ensures |content| == 0 ==> r == Err(Failure("resource content cannot be empty")) && unchanged(repository)
    ensures |content| > 0 && resourceName == "" ==>
      r == Err(Failure("resource name cannot be empty")) && unchanged(repository)
    ensures |content| > 0 && resourceName != "" ==>
      var o := DeployOutcomeOf(repository.decode, old(repository.definitions), old(repository.deployments),
                               deploymentName, category, tenantId, [CommandResource(resourceName, content)],
                               deploymentId, [resourceId], [uuid], now);
      && repository.definitions == o.definitions && repository.deployments == o.deployments
      && r == (if o.result.Ok? then o.result else Err(Wrapped("failed to deploy process definition", o.result.error)))
  {
    if |content| == 0 {
      return Err(Failure("resource content cannot be empty"));
    }
    if resourceName == "" {
      return Err(Failure("resource name cannot be empty"));
    }
    var builder := repository.CreateDeployment();
    builder := builder.Name(deploymentName);
    builder := builder.Category(category);
    builder := builder.TenantId(tenantId);
    builder := builder.AddProcessDefinition(resourceName, content);
    assert builder.resources == [CommandResource(resourceName, content)];
    assert repository.definitions == old(repository.definitions) && repository.deployments == old(repository.deployments);
    var deployed := builder.Deploy(deploymentId, [resourceId], [uuid], now);
    if deployed.Err? {
      return Err(Wrapped("failed to deploy process definition", deployed.error));
    }
    r := deployed;
  }

  /**
   * A deploy command succeeds exactly when its one resource decodes and
   * validates; the deployment then holds that resource alone, stamped with
   * its ids, is stored, and adds one definition, of that resource; on
   * failure no deployment is stored and no definition is added.
   */
  lemma DeployCommandOutcome(decode: Decoder, definitions: Definitions, deployments: map<string, Deployment>,
                             deploymentName: string, category: string, tenantId: string, resourceName: string,
                             content: seq<byte>, deploymentId: string, resourceId: string, uuid: string, now: Time)
    requires FreshUuids(definitions, [uuid])
    ensures var res := CommandResource(resourceName, content);
      var stamped := res.(id := resourceId, deploymentId := deploymentId);
      var o := DeployOutcomeOf(decode, definitions, deployments, deploymentName, category, tenantId, [res],
                               deploymentId, [resourceId], [uuid], now);
      && (o.result.Ok? <==> ParseResource(decode, stamped).Ok?)
      && (o.result.Ok? ==>
            && o.result.value == Deployment(deploymentId, deploymentName, now, category, tenantId, [stamped])
            && o.deployments == deployments[deploymentId := o.result.value]
            && exists d: ProcessDefinition :: d.id !in definitions && d.resourceName == resourceName && d.deploymentId == deploymentId
                 && o.definitions == definitions[d.id := d])
      && (o.result.Err? ==>
            && o.deployments == deployments && o.definitions == definitions
            && o.result.error == ParseResource(decode, stamped).error)
  {
    var res := CommandResource(resourceName, content);
    var run := StoreRun(decode, deploymentId, category, tenantId, [res], [resourceId], [uuid]);
    DeployOutcomeOnStore(decode, definitions, deployments, deploymentName, category, tenantId, [res],
                         deploymentId, [resourceId], [uuid], now);
    var o := DeployOutcomeOf(decode, definitions, deployments, deploymentName, category, tenantId, [res],
                             deploymentId, [resourceId], [uuid], now);
    var created := DeployAll(run, definitions).created;
    assert run.Stamped(0) == res.(id := resourceId, deploymentId := deploymentId);
    if o.result.Ok? {
      assert o.resources == [run.Stamped(0)];
      var d := created[0];
      assert CreatedIds(created) == {d.id};
      assert o.definitions == definitions[d.id := d];
    } else {
      assert CreatedIds(created) == {};
      assert o.definitions == definitions;
    }
  }
}
