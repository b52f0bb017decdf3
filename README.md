# flowgo core, modelled in Dafny

flowgo is a workflow-engine skeleton written in Go. This project models its core and proves properties of the model:

- **Stores.** The in-memory stores the engine wires together:
  - the repository service, which holds deployments and process definitions and provides the fluent deployment builder;
  - its near-copy in `internal/repository`;
  - the runtime service, which holds process instances, executions and variable scopes;
  - the task service, which holds tasks, candidates, comments, attachments and task variables;
  - the history service, and its no-op stand-in.
- **Commands.** The four commands a client runs (claim, complete, start, deploy). Each checks its input before it calls the stores.
- **Command pipeline.** The chain of interceptors in `engine/`, and its near-copy in `internal/engine/`:
  - `NewCommandExecutor`, which wires each interceptor's `next`;
  - the logging, transaction, context, retry and base interceptors, and the command invoker;
  - the builder that lays the chain out;
  - the `CommandContext` that the context interceptor records a command's result or error into.
- **Engines.** The lifecycles of the process engine and of the internal engine: construction, service start and stop, and command execution.

## Modules and modelling choices

- **One file per module:** `common.dfy`, `definitions.dfy`, `deploy.dfy`, `repository.dfy`, `internal_repository.dfy`, `runtime.dfy`, `tasks.dfy`, `history.dfy`, `command_context.dfy`, `interceptors.dfy`, `process_engine.dfy`, `internal_engine.dfy` and `commands.dfy`.
- **Services are classes.** Each service is a `class` whose Go maps of record pointers become `map` fields of datatypes. An in-place update of a record replaces its map entry.
- **Loops stay loops.** Operations that loop in Go are `method`s with loops, proved against a specification function. Examples: the version scan, the latest-by-key scan, the cascade deletes, the candidate scan, the variable copy and merge, and the deployment loop.
- **Errors and nil.** A Go `error` is the `Error` datatype, and `errors.Is` through `%w` wrapping is the predicate `Is`. A function that returns only `error` returns an `Outcome`. A nil pointer is `None`.
- **Outside inputs are parameters.** `uuid.New()`, `time.Now()` and `json.Unmarshal` are passed in. Ids and UUIDs are explicit inputs; the models require the runtime's new instance id to be unused and the deployment's definition UUIDs to be fresh (`FreshUuids`).
- **The interceptor chain is a value.** The chain is a sequence of `Interceptor(kind, next)`. What a call into interceptor `i` does is the function `Interceptors.Run`, which ends in one of three ways: a reply, a panic, or no end. `ExecuteAt`, with the retry loop in `RetryExecute`, is the imperative pipeline, and it is proved equal to `Run`. `Path` lists the interceptors a call goes through.
- **The command context.** The Go `context.Context` that carries the `*CommandContext` is the `Context` datatype: a background context, or a value stored on top of a parent context.
- **Commands get their services directly.** Each command receives its services as arguments instead of reading them off `commandContext.Engine`:
  - the complete command uses the runtime service that the task service completes through;
  - the start command uses the repository service that the runtime service starts from.

  This matches how `ProcessEngine.InitializeServices` wires the services.

## Model

| member | source | states |
|---|---|---|
| Common.CopyVariables | runtime/runtime_service_impl.go:114-119 | the copied map equals the source map |
| Common.MergeVariables | runtime/runtime_service_impl.go:224-232 | the merged scope holds every given variable and keeps every other name it had |
| Common.RemoveWhere | repository/repository_service_impl.go:74-81 | the entries removed are exactly those that match; the kept and removed keys partition the map; kept values are unchanged |
| Common.Contains | task/task_service_impl.go:219-223 | the scan is true exactly when the element is in the list; it also models the candidate scan at commands/claim_task_command.go:39-50 |
| Common.FindFirst | task/task_service_impl.go:260-265 | returns the first index of the element, or the length when it is absent |
| Common.RemoveFirstOccurrence | task/task_service_impl.go:260-265 | the first occurrence alone is cut out, and the rest keep their order; the list is unchanged when the element is absent |
| Common.RemoveFirstRemovesOne | task/task_service_impl.go:260-265 | cutting out a present element removes exactly one copy of it from the multiset |
| Definitions.ValidateReportsFirstMissing | repository/repository_service_impl.go:181-210 | content that does not decode is "invalid JSON"; a document passes iff it has id, name, nodes and edges; otherwise the error names the first missing one in that order |
| Definitions.DefinitionIdEndsWithUuid | repository/repository_service_impl.go:258 | a definition id "key:version:uuid" ends with its UUID |
| Definitions.DefinitionIdsDistinct | repository/repository_service_impl.go:258 | ids built from distinct UUIDs of the same length are distinct, and neither ends with the other's UUID |
| Definitions.NextVersionCharacterized | repository/repository_service_impl.go:248-254 | the next version is the one value above every existing version of the key (1 for a new key) |
| Definitions.NextVersionAfterInsert | repository/repository_service_impl.go:248-271 | after a definition is inserted, the next version of its key rises past it; other keys are unaffected |
| Definitions.ComputeVersion | repository/repository_service_impl.go:248-254 | the loop returns the next version: at least 1, above every existing version of the key, and one more than an existing version unless it is 1 |
| Definitions.LatestByKey | repository/repository_service_impl.go:107-124 | fails with "process definition not found with key" iff no definition has the key; otherwise returns a stored definition of the key whose version no other one of the key exceeds |
| Definitions.FindResourceContent | repository/repository_service_impl.go:170-177 | returns the content of the first resource with the name, and none iff no resource has it |
| Definitions.OutsideDeployment | repository/repository_service_impl.go:74-81 | the kept definitions are exactly those of other deployments, with their values unchanged |
| Deploy.DefinitionIdSuffixedByUuid | repository/repository_service_impl.go:258 | the id format makes every id end with its UUID, so fresh UUIDs give fresh ids |
| Deploy.StampedPrefix | repository/repository_service_impl.go:228-231 | the first `count` resources carry their new id and the deployment id, and the rest are untouched |
| Deploy.RegisterResource | repository/repository_service_impl.go:232-271 | one resource: a decode or validation failure is wrapped with the resource name, and nothing is registered; otherwise one definition is registered, with the next version of its key |
| Deploy.RegisterResources | repository/repository_service_impl.go:228-272 | the resource loop computes the fold `DeployAll` and stamps the resources it reached |
| Deploy.DeployStopsAtError | repository/repository_service_impl.go:234-241 | once a resource has failed, later steps change nothing |
| Deploy.DeployStopsAtFirstFailure | repository/repository_service_impl.go:234-241 | every resource before the stop parses; a stop is at the first resource that does not, with that resource's error |
| Deploy.DeployRegistersDefinitions | repository/repository_service_impl.go:228-271 | existing definitions stay; the new ids are exactly the created ones; each created definition belongs to its resource and the deployment, is active, and is versioned above its key's existing versions |
| Deploy.DeployConsecutiveVersions | repository/repository_service_impl.go:248-254 | two consecutive resources of the same key get consecutive versions |
| Deploy.CreatedPrefix | repository/repository_service_impl.go:228-272 | the definitions created so far only grow as the loop advances |
| Deploy.DeployOutcomeOnStore | repository/repository_service_impl.go:213-276 | the deployment is stored, holding every resource stamped, iff every resource parses; otherwise nothing is stored, the error is the first failing resource's, and the definitions of the earlier resources stay registered |
| Repository.RepositoryService.constructor | repository/repository_service_impl.go:23-30 | a new store has no deployments and no definitions |
| Repository.RepositoryService.CreateDeployment | repository/repository_service_impl.go:45-50 | returns a fresh, empty builder bound to this store |
| Repository.RepositoryService.GetDeployment | repository/repository_service_impl.go:53-62 | returns the stored deployment, or NotFound iff the id is absent |
| Repository.RepositoryService.DeleteDeployment | repository/repository_service_impl.go:65-85 | an unknown id is NotFound and changes nothing; otherwise the deployment goes, and with cascade so do exactly its definitions |
| Repository.RepositoryService.GetProcessDefinition | repository/repository_service_impl.go:95-104 | returns the stored definition, or NotFound iff the id is absent |
| Repository.RepositoryService.GetProcessDefinitionByKey | repository/repository_service_impl.go:107-124 | fails iff no definition has the key; otherwise returns one of maximal version |
| Repository.RepositoryService.SuspendProcessDefinition | repository/repository_service_impl.go:127-138 | sets the suspended flag of that definition alone; an unknown id is NotFound |
| Repository.RepositoryService.ActivateProcessDefinition | repository/repository_service_impl.go:141-152 | clears the suspended flag of that definition alone; an unknown id is NotFound |
| Repository.RepositoryService.GetProcessModel | repository/repository_service_impl.go:155-178 | errors for a missing definition, a missing deployment and a missing resource; otherwise the content of the first resource with the definition's resource name |
| Repository.RepositoryService.ValidateProcessDefinition | repository/repository_service_impl.go:181-210 | non-decoding content is invalid JSON; a document passes iff it has every required key |
| Repository.RepositoryService.DeployInternal | repository/repository_service_impl.go:213-276 | the store's definitions, deployments and the builder's resources end as `DeployOutcomeOf` computes |
| Repository.DeploymentBuilder.Name | repository/repository_service.go:99-102 | sets the name and returns the same builder; nothing else changes |
| Repository.DeploymentBuilder.Category | repository/repository_service.go:105-108 | sets the category and returns the same builder |
| Repository.DeploymentBuilder.TenantId | repository/repository_service.go:111-114 | sets the tenant and returns the same builder |
| Repository.DeploymentBuilder.AddResource | repository/repository_service.go:117-124 | appends one resource with the name and content |
| Repository.DeploymentBuilder.AddProcessDefinition | repository/repository_service.go:127-129 | the same as AddResource |
| Repository.DeploymentBuilder.Deploy | repository/repository_service.go:132-138 | an unsupported service is refused, changing nothing; the in-memory store deploys as DeployInternal does |
| InternalRepository.Service.constructor | internal/repository/service.go:24-31 | a new store is empty |
| InternalRepository.Service.CreateDeployment | internal/repository/service.go:46-49 | no builder (nil) |
| InternalRepository.Service.CreateProcessDefinitionQuery | internal/repository/service.go:85-88 | no query (nil) |
| InternalRepository.Service.GetDeployment | internal/repository/service.go:52-61 | the stored deployment, or NotFound iff the id is absent |
| InternalRepository.Service.DeleteDeployment | internal/repository/service.go:64-82 | as the in-memory store: cascade removes exactly that deployment's definitions |
| InternalRepository.Service.GetProcessDefinition | internal/repository/service.go:91-100 | the stored definition, or NotFound iff the id is absent |
| InternalRepository.Service.GetProcessDefinitionByKey | internal/repository/service.go:103-120 | fails iff the key is unknown; otherwise a definition of maximal version |
| InternalRepository.Service.SuspendProcessDefinition | internal/repository/service.go:123-134 | sets that definition's flag alone |
| InternalRepository.Service.ActivateProcessDefinition | internal/repository/service.go:137-148 | clears that definition's flag alone |
| InternalRepository.Service.GetProcessModel | internal/repository/service.go:151-173 | the content of the definition's resource, with the same three errors |
| InternalRepository.Service.ValidateProcessDefinition | internal/repository/service.go:176-197 | passes iff the content decodes and has every required key |
| InternalRepository.Service.DeployInternal | internal/repository/service.go:200-257 | the same resource loop, over the caller's resources; the store ends as `DeployOutcomeOf` computes |
| Runtime.InstanceExecutions | runtime/runtime_service_impl.go:141-146 | exactly the executions that belong to the instance |
| Runtime.RuntimeService.constructor | runtime/runtime_service_impl.go:24-32 | a new store is empty and satisfies its invariant |
| Runtime.RuntimeService.StartProcessInstance | runtime/runtime_service_impl.go:78-129 | a suspended definition is refused with nothing stored; otherwise the instance and its root execution are stored under the new id, and the scope is seeded with a copy of the variables |
| Runtime.RuntimeService.StartProcessInstanceById | runtime/runtime_service_impl.go:58-65 | an unknown id is a wrapped lookup error with nothing stored; otherwise it starts as StartProcessInstance does |
| Runtime.RuntimeService.StartProcessInstanceByKey | runtime/runtime_service_impl.go:47-55 | an unknown key is a wrapped error; otherwise the latest version of the key is started with no business key, or refused when it is suspended |
| Runtime.RuntimeService.StartProcessInstanceByKeyWithBusinessKey | runtime/runtime_service_impl.go:68-75 | the same as by key, recording the business key |
| Runtime.RuntimeService.DeleteProcessInstance | runtime/runtime_service_impl.go:132-150 | removes the instance, every execution of it and their scopes; an unknown id is NotFound |
| Runtime.RuntimeService.SuspendProcessInstance | runtime/runtime_service_impl.go:153-164 | sets the instance's flag alone |
| Runtime.RuntimeService.ActivateProcessInstance | runtime/runtime_service_impl.go:167-178 | clears the instance's flag alone |
| Runtime.RuntimeService.GetProcessInstance | runtime/runtime_service_impl.go:188-197 | the stored instance, or NotFound iff absent |
| Runtime.RuntimeService.GetVariable | runtime/runtime_service_impl.go:236-249 | NotFound for an unknown execution; nil for a name not in the scope |
| Runtime.RuntimeService.SetVariable | runtime/runtime_service_impl.go:200-214 | creates the scope on first write; the name reads back the value; other scopes stay |
| Runtime.RuntimeService.SetVariables | runtime/runtime_service_impl.go:217-233 | every given variable is written over the scope, and other names and scopes stay |
| Runtime.RuntimeService.GetVariables | runtime/runtime_service_impl.go:252-268 | a copy of the scope, empty when there is none |
| Runtime.RuntimeService.RemoveVariable | runtime/runtime_service_impl.go:271-283 | drops one name from the scope |
| Runtime.RuntimeService.SignalWithVariables | runtime/runtime_service_impl.go:291-315 | merges the variables, when given, into an existing execution's scope; an unknown execution is NotFound |
| Runtime.RuntimeService.Signal | runtime/runtime_service_impl.go:286-288 | signalling without variables changes nothing |
| Tasks.ClaimTask | task/task_service_impl.go:109-126 | refused iff another user holds the task; otherwise the user holds it from now |
| Tasks.UnclaimTask | task/task_service_impl.go:129-141 | no assignee and no claim time |
| Tasks.ClaimAndUnclaimPair | task/task_service_impl.go:109-141 | Claim by a named user and Unclaim keep "claim time iff assignee" |
| Tasks.UnclaimUndoesClaim | task/task_service_impl.go:109-141 | Unclaim after a successful Claim gives the same task as Unclaim alone |
| Tasks.AssignWithoutClaimUnpairs | task/task_service_impl.go:181-192 | SetAssignee and a claim by the empty user break "claim time iff assignee" |
| Tasks.AttachmentIds | task/task_service_impl.go:479-486 | the ids of the list, in order |
| Tasks.WithoutAttachment | task/task_service_impl.go:479-486 | cuts out exactly the first attachment with the id, keeping the rest in order |
| Tasks.TaskService.constructor | task/task_service_impl.go:27-37 | a new store is empty and bound to the runtime service |
| Tasks.TaskService.NewTask | task/task_service_impl.go:66-77 | an unclaimed task of priority 5 with no candidates; an empty id is replaced by a fresh one |
| Tasks.TaskService.SaveTask | task/task_service_impl.go:80-90 | stores the task under its id, or under the fresh id when it has none |
| Tasks.TaskService.DeleteTask | task/task_service_impl.go:93-106 | removes the task with its comments, attachments and variables; an unknown id is NotFound |
| Tasks.TaskService.Claim | task/task_service_impl.go:109-126 | the task becomes `ClaimTask` of it, or the conflict error with nothing changed |
| Tasks.TaskService.Unclaim | task/task_service_impl.go:129-141 | the task becomes `UnclaimTask` of it |
| Tasks.TaskService.CompleteWithVariables | task/task_service_impl.go:149-178 | the variables go to the task's execution, then it is signalled; either failure returns before the task is touched; on success only the task record is removed |
| Tasks.TaskService.Complete | task/task_service_impl.go:144-146 | as CompleteWithVariables with no variables: the runtime store is unchanged |
| Tasks.TaskService.SetAssignee | task/task_service_impl.go:181-192 | writes the assignee alone |
| Tasks.TaskService.SetOwner | task/task_service_impl.go:195-206 | writes the owner alone |
| Tasks.TaskService.SetPriority | task/task_service_impl.go:291-302 | writes the priority alone |
| Tasks.TaskService.SetDueDate | task/task_service_impl.go:305-316 | writes the due date alone |
| Tasks.TaskService.AddCandidateUser | task/task_service_impl.go:209-227 | appends the user once at the end; one already present is left alone |
| Tasks.TaskService.AddCandidateGroup | task/task_service_impl.go:230-248 | appends the group once at the end; one already present is left alone |
| Tasks.TaskService.DeleteCandidateUser | task/task_service_impl.go:251-268 | removes the first occurrence only; an absent user is no error |
| Tasks.TaskService.DeleteCandidateGroup | task/task_service_impl.go:271-288 | removes the first occurrence only; an absent group is no error |
| Tasks.TaskService.GetTaskVariables | task/task_service_impl.go:319-335 | a copy of the task's scope, empty when there is none |
| Tasks.TaskService.GetTaskVariable | task/task_service_impl.go:338-351 | NotFound iff the task is absent; nil for an unset name |
| Tasks.TaskService.SetTaskVariable | task/task_service_impl.go:354-368 | creates the scope on first write; the name reads back the value |
| Tasks.TaskService.SetTaskVariables | task/task_service_impl.go:371-387 | only the given names are overwritten |
| Tasks.TaskService.RemoveTaskVariable | task/task_service_impl.go:390-402 | one name goes from the task's scope |
| Tasks.TaskService.AddComment | task/task_service_impl.go:405-422 | the comment is appended after the task's earlier ones |
| Tasks.TaskService.GetTaskComments | task/task_service_impl.go:425-434 | the task's comments, or NotFound iff the task is absent |
| Tasks.TaskService.CreateAttachment | task/task_service_impl.go:437-459 | the attachment is appended, tagged with the task's instance |
| Tasks.TaskService.GetTaskAttachments | task/task_service_impl.go:462-471 | the task's attachments, or NotFound iff the task is absent |
| Tasks.TaskService.DeleteAttachment | task/task_service_impl.go:474-489 | cuts out the first attachment with the id from the list that holds it; NotFound when no task holds one |
| History.TasksOf | history/history_service_impl.go:84-88 | exactly the historic tasks of the instance |
| History.ActivitiesOf | history/history_service_impl.go:90-94 | exactly the historic activities of the instance |
| History.VariablesOf | history/history_service_impl.go:96-100 | exactly the historic variables of the instance |
| History.HistoryService.constructor | history/history_service_impl.go:21-30 | all four maps are empty |
| History.HistoryService.DeleteHistoricProcessInstance | history/history_service_impl.go:73-103 | removes the instance and exactly its tasks, activities and variables; an unknown id is NotFound with nothing changed |
| History.HistoryService.DeleteHistoricTaskInstance | history/history_service_impl.go:106-116 | removes that task alone |
| History.HistoryService.RecordProcessInstance | history/history_service_impl.go:119-125 | upserts by id |
| History.HistoryService.RecordTaskInstance | history/history_service_impl.go:128-134 | upserts by id |
| History.HistoryService.RecordActivityInstance | history/history_service_impl.go:137-143 | upserts by id |
| History.HistoryService.RecordVariableInstance | history/history_service_impl.go:146-152 | upserts by id |
| History.NoOpHistoryService.DeleteHistoricProcessInstance | history/history_service_impl.go:168 | always succeeds |
| History.NoOpHistoryService.DeleteHistoricTaskInstance | history/history_service_impl.go:169 | always succeeds |
| History.NoOpHistoryService.RecordProcessInstance | history/history_service_impl.go:170 | always succeeds |
| History.NoOpHistoryService.RecordTaskInstance | history/history_service_impl.go:171 | always succeeds |
| History.NoOpHistoryService.RecordActivityInstance | history/history_service_impl.go:172 | always succeeds |
| History.NoOpHistoryService.RecordVariableInstance | history/history_service_impl.go:173 | always succeeds |
| CommandContexts.Lookup | engine/interceptor.go:197-202 | the innermost value stored under the key; none in the background context |
| CommandContexts.GetCommandContext | engine/interceptor.go:197-202 | returns a command context iff the innermost value under the package key is one, and then it is that value; it also models internal/engine/command.go:91-96 |
| CommandContexts.StoredContextIsFound | engine/interceptor.go:127-134 | a command context stored under the key is the one read back |
| CommandContexts.OtherKeysAreTransparent | engine/interceptor.go:197-202 | values under other keys neither hide nor replace the command context |
| CommandContexts.CommandContext.constructor | engine/command.go:42-48 | no attributes, no session, no exception, no result; it also models internal/engine/command.go:33-39 |
| CommandContexts.CommandContext.GetAttribute | engine/command.go:51-53 | the stored value, or nil for a key never set |
| CommandContexts.CommandContext.SetAttribute | engine/command.go:56-58 | the key reads back the value; every other key reads as before; nothing else changes; it also models internal/engine/command.go:42-49 |
| CommandContexts.CommandContext.HasException | engine/command.go:61-63 | true iff an exception is recorded |
| CommandContexts.CommandContext.GetException | engine/command.go:66-68 | the recorded exception; present iff HasException |
| CommandContexts.CommandContext.SetException | engine/command.go:71-73 | the exception reads back; HasException iff it is non-nil; the result stays; it also models internal/engine/command.go:52-64 |
| CommandContexts.CommandContext.GetResult | engine/command.go:76-78 | the recorded result |
| CommandContexts.CommandContext.SetResult | engine/command.go:81-83 | the result reads back; the exception stays; it also models internal/engine/command.go:67-74 |
| CommandContexts.CommandContext.Close | engine/command.go:86-92 | always nil; it also models internal/engine/command.go:77-83 |
| Interceptors.SetNext | engine/interceptor.go:29-36 | sets the one interceptor's next, and GetNext reads it back; the others stay; it also models internal/engine/interceptor.go:28-35 |
| Interceptors.Wire | engine/command_executor.go:24-31 | each interceptor points at the following one and the last has none; the kinds are kept |
| Interceptors.NewCommandExecutor | engine/command_executor.go:18-32 | panics "at least one interceptor is required" iff the list is empty; otherwise the wired chain, first = 0, last = n-1; it also models internal/engine/executor.go:15-28 |
| Interceptors.Settle | engine/interceptor.go:65-74 | on failure (nil, the same err); on success (result, nil); it also models engine/interceptor.go:95-108 |
| Interceptors.RetryRun | engine/interceptor.go:164-181 | a success is returned unwrapped; a failure becomes "failed after N retries" carrying the last error |
| Interceptors.Path | engine/interceptor.go:39-44 | a call from `i` enters consecutive interceptors `i, i+1, ...`, at least one and never past the end |
| Interceptors.ExecuteInContext | engine/interceptor.go:125-142 | a fresh command context, stored in the context the command receives; the command runs directly; its error or its result is recorded, and the reply is (nil, err) or (result, nil); it also models internal/engine/interceptor.go:114-131 |
| Interceptors.ExecuteAt | engine/interceptor.go:39-142 | executing interceptor `i` ends as `Run` says and enters exactly `Path`; it also models internal/engine/interceptor.go:38-131 and the invoker at engine/command_executor.go:55-64 |
| Interceptors.RetryExecute | engine/interceptor.go:160-189 | the retry loop ends as `Run` says; since no error is retryable, next is called once when maxRetries ≥ 0 and never otherwise; it also models internal/engine/interceptor.go:147-175 |
| Interceptors.Execute | engine/command_executor.go:35-42 | a nil command is refused without entering the chain; otherwise the chain is entered once, at its first interceptor; it also models internal/engine/executor.go:31-38 |
| Interceptors.ForwardingReachesContext | engine/interceptor.go:60-182 | through forwarding interceptors a call reaches the context interceptor and returns; the error is present iff the command's is, and it still matches the command's error (`errors.Is`); the result is kept on success |
| Interceptors.TransparentReachesContext | engine/interceptor.go:60-142 | through logging, transaction and base interceptors the reply is exactly the context interceptor's settled reply |
| Interceptors.AppendIf | engine/command_executor.go:117-130 | appends the interceptor iff it is enabled |
| Interceptors.LayoutOrder | engine/command_executor.go:114-142 | the built order is Logging?, Retry?, the custom interceptors in order, Transaction?, Context, Invoker, and the length is their count; it also models internal/engine/executor.go:88-116 |
| Interceptors.LayoutForwards | engine/command_executor.go:114-142 | every interceptor before the context interceptor forwards |
| Interceptors.BuiltChainBypassesInvoker | engine/interceptor.go:125-142 | in a built chain the call stops at the context interceptor and never enters the invoker; the reply is the command's, settled, and with retry a failure comes back wrapped |
| Interceptors.NegativeRetryNeverRunsCommand | engine/interceptor.go:160-182 | with a negative retry count the retry interceptor answers with an error without running the command |
| Interceptors.ExecutorBuilder.constructor | engine/command_executor.go:77-86 | defaults: logging and transaction on, retry off with 3 attempts, no custom interceptors; it also models internal/engine/executor.go:51-60 |
| Interceptors.ExecutorBuilder.WithLogging | engine/command_executor.go:89-92 | sets the logging flag alone and returns the same builder |
| Interceptors.ExecutorBuilder.WithTransaction | engine/command_executor.go:95-98 | sets the transaction flag alone |
| Interceptors.ExecutorBuilder.WithRetry | engine/command_executor.go:101-105 | sets the retry flag and attempt count alone |
| Interceptors.ExecutorBuilder.AddInterceptor | engine/command_executor.go:108-111 | appends one custom interceptor at the end |
| Interceptors.ExecutorBuilder.Build | engine/command_executor.go:114-142 | never panics; the executor is the wired `Layout` of the builder's settings; it also models internal/engine/executor.go:88-116 |
| ProcessEngine.Reversed | engine/engine_impl.go:139-168 | the reversal has the same length, with element `k` taken from the mirrored position |
| ProcessEngine.StopReversesStart | engine/engine_impl.go:107-168 | services stop in the reverse of the order they start |
| ProcessEngine.CalledUpTo | engine/engine_impl.go:107-136 | the services called are a prefix of the order; every one before the last passed; the sequence stops at a failure |
| ProcessEngine.CalledUpToFirstFailure | engine/engine_impl.go:107-136 | the services called end exactly at the first one that fails, or are all of them |
| ProcessEngine.FailsAt | engine/engine_impl.go:107-136 | when service `k` is the first to fail, exactly services `0..k` are called |
| ProcessEngine.AllPass | engine/engine_impl.go:107-136 | when no service fails, every service is called |
| ProcessEngine.InitializeServices | engine/engine_impl.go:52-70 | fresh, empty services, wired together (the runtime reads this repository, the tasks complete through this runtime); real history iff enabled; no error is returned (the task store is built without its panicking executor, see "Left out") |
| ProcessEngine.TaskServiceExecutor | task/task_service_impl.go:27-28 | the executor NewTaskService builds, from no interceptors, always panics "at least one interceptor is required" |
| ProcessEngine.NewProcessEngine | engine/engine_impl.go:27-49 | a nil configuration is "configuration cannot be nil"; otherwise a stopped engine with the default executor (where the source panics in NewTaskService, see "Left out") |
| ProcessEngine.ProcessEngineImpl.constructor | engine/engine_impl.go:27-49 | the builder with logging and transaction on, then the services (where the source panics in NewTaskService, see "Left out") |
| ProcessEngine.ProcessEngineImpl.GetName | engine/engine_impl.go:171-173 | the configured engine name |
| ProcessEngine.ProcessEngineImpl.IsRunning | engine/engine_impl.go:176-180 | the running flag |
| ProcessEngine.ProcessEngineImpl.Start | engine/engine_impl.go:107-136 | "already running" when running; otherwise the services start in order up to the first failure, whose error is "failed to start ... service"; the engine runs iff all started |
| ProcessEngine.ProcessEngineImpl.StartServices | engine/engine_impl.go:113-131 | the initialize calls, in order, stopping at the first failure |
| ProcessEngine.ProcessEngineImpl.Stop | engine/engine_impl.go:139-168 | "not running" when stopped; otherwise the services shut down in reverse order up to the first failure; the engine stops iff all shut down |
| ProcessEngine.ProcessEngineImpl.StopServices | engine/engine_impl.go:145-163 | the shutdown calls, in reverse order, stopping at the first failure |
| ProcessEngine.ProcessEngineImpl.ExecuteCommand | engine/engine_impl.go:99-104 | refused unless running; otherwise one pass through the default chain: logging, transaction, context; the invoker is never entered; the reply is the command's, settled |
| InternalEngine.NewEngine | internal/engine/engine.go:52-74 | a nil configuration is "configuration cannot be nil"; otherwise a stopped engine with the internal default executor |
| InternalEngine.Engine.constructor | internal/engine/engine.go:77-90 | only the repository service is created, empty |
| InternalEngine.Engine.GetRuntimeService | internal/engine/engine.go:98-100 | none is wired |
| InternalEngine.Engine.GetTaskService | internal/engine/engine.go:103-105 | none is wired |
| InternalEngine.Engine.GetHistoryService | internal/engine/engine.go:108-110 | none is wired |
| InternalEngine.Engine.Execute | internal/engine/engine.go:113-118 | "engine '...' is not running" unless running; otherwise the command runs once in the context interceptor and the invoker is never entered |
| InternalEngine.Engine.Start | internal/engine/engine.go:121-133 | "already running" when running; otherwise the engine runs |
| InternalEngine.Engine.Stop | internal/engine/engine.go:136-147 | "not running" when stopped; otherwise the engine stops |
| InternalEngine.Engine.GetName | internal/engine/engine.go:150-152 | the configured name |
| InternalEngine.Engine.IsRunning | internal/engine/engine.go:155-159 | the running flag |
| Commands.LookupTask | commands/claim_task_command.go:28-31 | the stored task, or NotFound iff absent |
| Commands.ClaimCheck | commands/claim_task_command.go:18-50 | empty ids are refused first; Claim is reached iff the task exists, nobody else holds it, and the user is a candidate or the list is empty |
| Commands.ClaimCheckAdmitsStoreClaim | commands/claim_task_command.go:34-55 | after the command's checks the store's own conflict check never fires, and the claimed task has a claim time iff it has an assignee |
| Commands.ClaimTaskCommand | commands/claim_task_command.go:17-63 | a failed check returns its error with the store unchanged; otherwise the user holds the task from now |
| Commands.CompleteCheck | commands/complete_task_command.go:18-34 | an empty id and a missing task are refused; the task is completed iff it exists and is not suspended |
| Commands.CompleteIsNotRepeatable | commands/complete_task_command.go:26-29 | a completed task is gone, so completing it again fails the lookup |
| Commands.CompleteTaskCommand | commands/complete_task_command.go:17-60 | failed checks change nothing; non-empty variables go to the task's execution before completion; either failure returns before the task is removed; on success only the task record goes |
| Commands.LaunchInstance | commands/start_process_instance_command.go:20-60 | the ID wins over the key; neither is "either process definition ID or key must be provided"; lookup failures and suspended definitions refuse with the runtime untouched; a launch stores exactly what the runtime started |
| Commands.LaunchById | commands/start_process_instance_command.go:28-42 | with a business key the latest version of the definition's key is started, not the given ID; without one the definition itself is |
| Commands.LaunchByKey | commands/start_process_instance_command.go:43-57 | an unknown key is refused wrapped; when every latest version of the key is suspended the command refuses before the runtime is called; when none is, an instance of the latest version is started and the start succeeds |
| Commands.RefusedSuspendedLatest | commands/start_process_instance_command.go:45-51 | a suspended latest version found by the lookup gives the refusal the key branch promises |
| Commands.LaunchedActiveLatest | commands/start_process_instance_command.go:45-57 | an active latest version found by the lookup, passed to the runtime, gives a launch the key branch promises |
| Commands.StartReplyAsWritten | commands/start_process_instance_command.go:62-71 | a failed runtime start is reported as success with no instance |
| Commands.StartReply | commands/start_process_instance_command.go:62-64 | a failed runtime start is an error that still matches the runtime's error |
| Commands.StartProcessInstanceCommandAsWritten | commands/start_process_instance_command.go:20-72 | the command as written: the launch follows the ID, then the key, then refuses; the reply is `StartReplyAsWritten` of the launch, so a failed runtime start answers success with no instance; the runtime store records exactly the launch |
| Commands.StartProcessInstanceCommand | commands/start_process_instance_command.go:20-72 | the command with the runtime error reported: the same launch by ID, key or refusal; the reply is `StartReply` of it; the store records the started instance, its root execution and its variables, and an error changes nothing |
| Commands.SuspendedLatestIsReportedAsSuccess | commands/start_process_instance_command.go:38-64 | for any launch the start command may make on ID "order:1" (active, version 1) with a business key while version 2 is suspended: the runtime refuses, the command as written answers (nil, nil), and the intended reply is an error |
| Commands.CommandResource | commands/deploy_command.go:38 | the one resource carries the command's name and content |
| Commands.DeployCommand | commands/deploy_command.go:21-46 | empty content, then an empty name, are refused with the store untouched; otherwise the store ends as one deployment of one resource computes, and the error comes back wrapped |
| Commands.DeployCommandOutcome | commands/deploy_command.go:34-45 | the command succeeds iff its resource decodes and validates; the deployment then holds that resource alone, stamped, and adds exactly one definition; on failure nothing is added |

## Left out

- Mutexes and concurrency: every operation is modelled as atomic.
- Record aliasing: Go keeps pointers to records in maps and slices. The model keeps values:
  - a record reached through two paths (a deployment's resources and the builder's resources, say) is two copies;
  - an update through one path is written back where the source writes it.
- Query builders (`Create*Query` and their filters) are left out: they only collect criteria and return empty results.
- Service `Initialize` and `Shutdown` of the stores are not modelled as members. They return nil. The engine's Start and Stop take each service's outcome as a parameter, so every order of failures is covered.
- Logging output (`log.Printf`) and the retry delay (`time.Sleep`) are left out: they produce no state.
- Tasks.TaskService.constructor: does not model `NewTaskService` building a command executor with no interceptors, which panics in `NewCommandExecutor`. The store's maps alone are built, so an engine here constructs where the source panics.
- `GetTask` (task/task_service_impl.go:57-63) runs an unrelated command and is not modelled. The commands look a task up by id with `Commands.LookupTask`.
- Interceptors.Run: a custom interceptor added with `AddInterceptor` is modelled as one that keeps the base `Execute`, forwarding to its next. Arbitrary user code is not modelled.
- Interceptors.NewCommandExecutor: the interceptors are fresh values. Reusing one interceptor object in two chains, where the second `SetNext` overwrites the first, is not modelled.
- A command's own `Execute` inside the pipeline is an oracle: the `Command` value carries the result and error it returns.
- Commands.ClaimTaskCommand: the wrapping of Claim's error ("failed to claim task") is not modelled. After the command's own checks, the store's Claim cannot fail, so that branch is dead (`ClaimCheckAdmitsStoreClaim`).
- The commands' `EnableHistory` blocks are empty in the source and have no effect.
- The services reach a command through its `*CommandContext`. Here they are arguments, wired as `ProcessEngine.InitializeServices` wires them.
- The internal engine's runtime, task and history services are nil. A command that used them would panic, and that panic is not modelled.
- The internal engine's configuration is a separate struct with the same fields. It is modelled by `ProcessEngine.Configuration`.
- ProcessEngine.NewProcessEngine: returns an engine where the source panics. `initializeServices` returns no error, but it calls `task.NewTaskService`, which calls `engine.NewCommandExecutor()` with no interceptors and so panics with "at least one interceptor is required" (`ProcessEngine.TaskServiceExecutor`). `newProcessEngineImpl` therefore never returns an engine in the source.
- ProcessEngine.InitializeServices: builds the task store without the executor `NewTaskService` builds, so it returns services where the source panics.
- ProcessEngine.ProcessEngineImpl.constructor: constructs an engine where the source panics in `NewTaskService`; everything the model proves about a running engine is about this repaired construction.
- The source has an import cycle between the `engine` package (engine/engine_impl.go imports `task`) and the `task` package (task/task_service_impl.go imports `engine`). The modules here have no cycle, because the task store does not hold an executor.
- Commands.LaunchByKey: when two definitions of the key share the top version, one active and one suspended, the command's lookup and the runtime's second lookup may each pick either one, because Go's map order decides. The model then allows either the refusal or the runtime's answer.
- Integers are unbounded. Versions and retry counts never approach Go's `int` limits in these stores.
- The JSON decoder is a parameter of the store, `decode`. A document is a map from keys to JSON values. Every decode failure, bad syntax or a document that is not an object, is the one error `DecodeError`.
- Definitions.LatestByKey: Go's map iteration order decides between two definitions of the key that share the top version. The model promises only one of maximal version.

## Findings

| source | as written | input that shows it | evidently intended | confidence | as-written member | corrected member |
|---|---|---|---|---|---|---|
| commands/start_process_instance_command.go:30-64 | `err` is redeclared by `processDef, err :=` inside each branch, so the runtime's error is assigned to the inner `err`; the check at line 62 reads the outer `err`, which is always nil, and a failed start returns (nil, nil) | definition "order:1" (version 1, active) and "order:2" (version 2, suspended); the command is given ProcessDefinitionID "order:1" and BusinessKey "b-1". The runtime starts the latest version, "order:2", and refuses, and the command answers (nil, nil) | the runtime's error is returned wrapped as "failed to start process instance" | high; not executed | Commands.StartProcessInstanceCommandAsWritten, Commands.SuspendedLatestIsReportedAsSuccess | Commands.StartProcessInstanceCommand, Commands.StartReply |
