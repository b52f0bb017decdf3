/**
 * The runtime store: process instances, their executions, and the variable
 * scope of each execution, over the repository store that resolves the
 * definitions instances are started from.
 */
module Runtime {
  import opened Common
  import opened Definitions
  import Repository

  datatype ProcessInstance = ProcessInstance(
    id: string, processDefinitionId: string, processDefinitionKey: string, processDefinitionName: string,
    businessKey: string, startTime: Time, endTime: Option<Time>, startUserId: string, suspended: bool,
    tenantId: string, rootProcessInstanceId: string, parentProcessInstanceId: string)

  /** A thread of control within a process instance. */
  datatype Execution = Execution(
    id: string, processInstanceId: string, parentId: string, activityId: string, isActive: bool,
    isConcurrent: bool, isScope: bool, isEventScope: bool, suspended: bool, tenantId: string)

  /** The instance startProcessInstance creates for `def` under the new id. */
  function NewInstance(def: ProcessDefinition, businessKey: string, id: string, now: Time): ProcessInstance
  {
    ProcessInstance(id, def.id, def.key, def.name, businessKey, now, None, "", false, def.tenantId, id, "")
  }

  /** The root execution of a new instance: it shares the instance's id. */
  function RootExecution(def: ProcessDefinition, id: string): Execution
  {
    Execution(id, id, "", "", true, false, true, false, false, def.tenantId)
  }

  /** The ids of the executions that belong to the instance. */
  function InstanceExecutions(executions: map<string, Execution>, instanceId: string): (ids: set<string>)
    ensures forall e :: e in ids <==> e in executions && executions[e].processInstanceId == instanceId
  {
    set e | e in executions && executions[e].processInstanceId == instanceId
  }

  class RuntimeService {
    /** The store definitions are looked up in. */
    const repository: Repository.RepositoryService
    const enableAsync: bool
    var processInstances: map<string, ProcessInstance>
    var executions: map<string, Execution>
    /** Execution id to its variable scope; an execution without an entry has no scope yet. */
    var variables: map<string, Variables>

    /**
     * What every operation keeps: records sit under their own ids, every
     * execution belongs to a stored instance, and only stored executions
     * have a scope.
     */
    predicate Valid()
      reads this
    {
      && (forall id :: id in processInstances ==> processInstances[id].id == id)
      && (forall id :: id in executions ==> executions[id].id == id && executions[id].processInstanceId in processInstances)
      && variables.Keys <= executions.Keys
    }

    /** NewRuntimeService: all three maps empty. */
    constructor (repository: Repository.RepositoryService, enableAsync: bool)
      ensures this.repository == repository && this.enableAsync == enableAsync
      ensures processInstances == map[] && executions == map[] && variables == map[]
      ensures Valid()
    {
      this.repository := repository;
      this.enableAsync := enableAsync;
      processInstances, executions, variables := map[], map[], map[];
    }

    /**
     * startProcessInstance: a suspended definition is refused before any map
     * is touched; otherwise one instance and its root execution are stored
     * under the fresh id, and the execution's scope is seeded with a copy of
     * the variables when a map is given.
     */
    method StartProcessInstance(def: ProcessDefinition, businessKey: string, vars: Option<Variables>,
                                instanceId: string, now: Time) returns (r: Result<ProcessInstance>)
      requires Valid()
      requires instanceId !in processInstances && instanceId !in executions
      modifies this
      ensures Valid()
      ensures def.suspended ==> r == Err(Failure("process definition '" + def.id + "' is suspended")) && unchanged(this)
      ensures !def.suspended ==>
        && r == Ok(NewInstance(def, businessKey, instanceId, now))
        && processInstances == old(processInstances)[instanceId := NewInstance(def, businessKey, instanceId, now)]
        && executions == old(executions)[instanceId := RootExecution(def, instanceId)]
        && variables == (if vars.Some? then old(variables)[instanceId := vars.value] else old(variables))
    {
      if def.suspended {
        return Err(Failure("process definition '" + def.id + "' is suspended"));
      }
      var instance := NewInstance(def, businessKey, instanceId, now);
      var execution := RootExecution(def, instanceId);
      processInstances := processInstances[instance.id := instance];
      executions := executions[execution.id := execution];
      if vars.Some? {
        var scope := CopyVariables(vars.value);
        variables := variables[execution.id := scope];
      }
      r := Ok(instance);
    }

    /** StartProcessInstanceByID: a failed lookup is wrapped and nothing is created. */
    method StartProcessInstanceById(definitionId: string, vars: Option<Variables>, instanceId: string, now: Time)
      returns (r: Result<ProcessInstance>)
      requires Valid()
      requires instanceId !in processInstances && instanceId !in executions
      modifies this
      ensures Valid()
      ensures definitionId !in repository.definitions ==>
        r == Err(Wrapped("failed to get process definition", NotFound("process definition", definitionId)))
        && unchanged(this)
      ensures definitionId in repository.definitions ==>
        var def := repository.definitions[definitionId];
        && (def.suspended ==> r == Err(Failure("process definition '" + def.id + "' is suspended")) && unchanged(this))
        && (!def.suspended ==>
              && r == Ok(NewInstance(def, "", instanceId, now))
              && processInstances == old(processInstances)[instanceId := NewInstance(def, "", instanceId, now)]
              && executions == old(executions)[instanceId := RootExecution(def, instanceId)]
              && variables == (if vars.Some? then old(variables)[instanceId := vars.value] else old(variables)))
    {
      var found := repository.GetProcessDefinition(definitionId);
      if found.Err? {
        return Err(Wrapped("failed to get process definition", found.error));
      }
      r := StartProcessInstance(found.value, "", vars, instanceId, now);
    }

    /** StartProcessInstanceByKey: the latest version of the key, with no business key. */
    method StartProcessInstanceByKey(key: string, vars: Option<Variables>, instanceId: string, now: Time)
      returns (r: Result<ProcessInstance>)
      requires Valid()
      requires instanceId !in processInstances && instanceId !in executions
      modifies this
      ensures Valid()
      ensures (forall id :: id in repository.definitions ==> repository.definitions[id].key != key) ==>
        r == Err(Wrapped("failed to get process definition", Failure("process definition not found with key: " + key)))
        && unchanged(this)
      ensures r.Ok? ==>
        exists def :: LatestOfKey(repository.definitions, key, def) && !def.suspended
          && r == Ok(NewInstance(def, "", instanceId, now))
          && processInstances == old(processInstances)[instanceId := NewInstance(def, "", instanceId, now)]
          && executions == old(executions)[instanceId := RootExecution(def, instanceId)]
          && variables == (if vars.Some? then old(variables)[instanceId := vars.value] else old(variables))
      ensures r.Err? ==> unchanged(this)
      ensures r.Err? && (exists id :: id in repository.definitions && repository.definitions[id].key == key) ==>
        exists def :: LatestOfKey(repository.definitions, key, def) && def.suspended
          && r == Err(Failure("process definition '" + def.id + "' is suspended"))
    {
      r := StartByKey(key, "", vars, instanceId, now);
    }

    /** StartProcessInstanceByKeyWithBusinessKey: as by key, recording the business key. */
    method StartProcessInstanceByKeyWithBusinessKey(key: string, businessKey: string, vars: Option<Variables>,
                                                    instanceId: string, now: Time) returns (r: Result<ProcessInstance>)
      requires Valid()
      requires instanceId !in processInstances && instanceId !in executions
      modifies this
      ensures Valid()
      ensures (forall id :: id in repository.definitions ==> repository.definitions[id].key != key) ==>
        r == Err(Wrapped("failed to get process definition", Failure("process definition not found with key: " + key)))
        && unchanged(this)
      ensures r.Ok? ==>
        exists def :: LatestOfKey(repository.definitions, key, def) && !def.suspended
          && r == Ok(NewInstance(def, businessKey, instanceId, now))
          && processInstances == old(processInstances)[instanceId := NewInstance(def, businessKey, instanceId, now)]
          && executions == old(executions)[instanceId := RootExecution(def, instanceId)]
          && variables == (if vars.Some? then old(variables)[instanceId := vars.value] else old(variables))
      ensures r.Err? ==> unchanged(this)
      ensures r.Err? && (exists id :: id in repository.definitions && repository.definitions[id].key == key) ==>
        exists def :: LatestOfKey(repository.definitions, key, def) && def.suspended
          && r == Err(Failure("process definition '" + def.id + "' is suspended"))
    {
      r := StartByKey(key, businessKey, vars, instanceId, now);
    }

    /** The lookup by key both key-based starts share. */
    method StartByKey(key: string, businessKey: string, vars: Option<Variables>, instanceId: string, now: Time)
      returns (r: Result<ProcessInstance>)
      requires Valid()
      requires instanceId !in processInstances && instanceId !in executions
      modifies this
      ensures Valid()
      ensures (forall id :: id in repository.definitions ==> repository.definitions[id].key != key) ==>
        r == Err(Wrapped("failed to get process definition", Failure("process definition not found with key: " + key)))
        && unchanged(this)
      ensures r.Ok? ==>
        exists def :: LatestOfKey(repository.definitions, key, def) && !def.suspended
          && r == Ok(NewInstance(def, businessKey, instanceId, now))
          && processInstances == old(processInstances)[instanceId := NewInstance(def, businessKey, instanceId, now)]
          && executions == old(executions)[instanceId := RootExecution(def, instanceId)]
          && variables == (if vars.Some? then old(variables)[instanceId := vars.value] else old(variables))
      ensures r.Err? ==> unchanged(this)
      ensures r.Err? && (exists id :: id in repository.definitions && repository.definitions[id].key == key) ==>
        exists def :: LatestOfKey(repository.definitions, key, def) && def.suspended
          && r == Err(Failure("process definition '" + def.id + "' is suspended"))
    {
      var found := repository.GetProcessDefinitionByKey(key);
      if found.Err? {
        return Err(Wrapped("failed to get process definition", found.error));
      }
      var def := found.value;
      r := StartProcessInstance(def, businessKey, vars, instanceId, now);
      assert LatestOfKey(repository.definitions, key, def);
    }

    /** DeleteProcessInstance: the instance, every execution of it, and those executions' scopes. */
    method DeleteProcessInstance(instanceId: string, deleteReason: string) returns (r: Outcome)
      requires Valid()
      modifies this
      ensures Valid()
      ensures instanceId !in old(processInstances) ==>
        r == Fail(NotFound("process instance", instanceId)) && unchanged(this)
      ensures instanceId in old(processInstances) ==>
        var doomed := InstanceExecutions(old(executions), instanceId);
        && r == Pass
        && processInstances == old(processInstances) - {instanceId}
        && executions == old(executions) - doomed
        && variables == old(variables) - doomed
    {
      if instanceId !in processInstances {
        return Fail(NotFound("process instance", instanceId));
      }
      var kept, removed := RemoveWhere(executions, (e: Execution) => e.processInstanceId == instanceId);
      assert removed == InstanceExecutions(executions, instanceId);
      executions := kept;
      variables := variables - removed;
      processInstances := processInstances - {instanceId};
      r := Pass;
    }

    /** SuspendProcessInstance: sets the flag; suspending a suspended instance changes nothing. */
    method SuspendProcessInstance(instanceId: string) returns (r: Outcome)
      requires Valid()
      modifies this
      ensures Valid()
      ensures instanceId !in old(processInstances) ==>
        r == Fail(NotFound("process instance", instanceId)) && unchanged(this)
      ensures instanceId in old(processInstances) ==>
        && r == Pass
        && processInstances == old(processInstances)[instanceId := old(processInstances)[instanceId].(suspended := true)]
        && processInstances[instanceId].suspended
        && executions == old(executions) && variables == old(variables)
      ensures instanceId in old(processInstances) && old(processInstances)[instanceId].suspended ==>
        processInstances == old(processInstances)
    {
      if instanceId !in processInstances {
        return Fail(NotFound("process instance", instanceId));
      }
      processInstances := processInstances[instanceId := processInstances[instanceId].(suspended := true)];
      r := Pass;
    }

    /** ActivateProcessInstance: clears the flag; activating an active instance changes nothing. */
    method ActivateProcessInstance(instanceId: string) returns (r: Outcome)
      requires Valid()
      modifies this
      ensures Valid()
      ensures instanceId !in old(processInstances) ==>
        r == Fail(NotFound("process instance", instanceId)) && unchanged(this)
      ensures instanceId in old(processInstances) ==>
        && r == Pass
        && processInstances == old(processInstances)[instanceId := old(processInstances)[instanceId].(suspended := false)]
        && !processInstances[instanceId].suspended
        && executions == old(executions) && variables == old(variables)
      ensures instanceId in old(processInstances) && !old(processInstances)[instanceId].suspended ==>
        processInstances == old(processInstances)
    {
      if instanceId !in processInstances {
        return Fail(NotFound("process instance", instanceId));
      }
      processInstances := processInstances[instanceId := processInstances[instanceId].(suspended := false)];
      r := Pass;
    }

    function GetProcessInstance(instanceId: string): (r: Result<ProcessInstance>)
      reads this
      ensures r.Ok? <==> instanceId in processInstances
      ensures r.Ok? ==> r.value == processInstances[instanceId]
      ensures r.Err? ==> r.error == NotFound("process instance", instanceId)
    {
      if instanceId in processInstances then Ok(processInstances[instanceId])
      else Err(NotFound("process instance", instanceId))
    }

    /** GetVariable: nil when the execution has no scope or the scope lacks the name. */
    function GetVariable(executionId: string, name: string): (r: Result<Value>)
      reads this
      ensures r.Err? <==> executionId !in executions
      ensures r.Err? ==> r.error == NotFound("execution", executionId)
      ensures r.Ok? && executionId in variables && name in variables[executionId] ==> r.value == variables[executionId][name]
      ensures r.Ok? && (executionId !in variables || name !in variables[executionId]) ==> r.value == Nil
    {
      if executionId !in executions then Err(NotFound("execution", executionId))
      else if executionId !in variables then Ok(Nil)
      else if name in variables[executionId] then Ok(variables[executionId][name])
      else Ok(Nil)
    }

    /** SetVariable: the scope is created on first write; reading the name back gives the value. */
    method SetVariable(executionId: string, name: string, value: Value) returns (r: Outcome)
      requires Valid()
      modifies this
      ensures Valid()
      ensures executionId !in old(executions) ==> r == Fail(NotFound("execution", executionId)) && unchanged(this)
      ensures executionId in old(executions) ==>
        && r == Pass
        && variables == old(variables)[executionId := ScopeOf(old(variables), executionId)[name := value]]
        && processInstances == old(processInstances) && executions == old(executions)
        && GetVariable(executionId, name) == Ok(value)
    {
      if executionId !in executions {
        return Fail(NotFound("execution", executionId));
      }
      var scope := ScopeOf(variables, executionId);
      variables := variables[executionId := scope[name := value]];
      r := Pass;
    }

    /** SetVariables: every given variable is written over the scope; the other names stay. */
    method SetVariables(executionId: string, vars: Variables) returns (r: Outcome)
      requires Valid()
      modifies this
      ensures Valid()
      ensures executionId !in old(executions) ==> r == Fail(NotFound("execution", executionId)) && unchanged(this)
      ensures executionId in old(executions) ==>
        && r == Pass
        && variables.Keys == old(variables).Keys + {executionId}
        && (forall e :: e in old(variables) && e != executionId ==> variables[e] == old(variables)[e])
        && Merged(ScopeOf(old(variables), executionId), vars, variables[executionId])
        && processInstances == old(processInstances) && executions == old(executions)
    {
      if executionId !in executions {
        return Fail(NotFound("execution", executionId));
      }
      var merged := MergeVariables(ScopeOf(variables, executionId), vars);
      variables := variables[executionId := merged];
      r := Pass;
    }

    /** GetVariables: a copy of the scope, empty when there is none. */
    method GetVariables(executionId: string) returns (r: Result<Variables>)
      ensures executionId !in executions ==> r == Err(NotFound("execution", executionId))
      ensures executionId in executions ==> r == Ok(ScopeOf(variables, executionId))
    {
      if executionId !in executions {
        return Err(NotFound("execution", executionId));
      }
      var result: Variables := map[];
      if executionId in variables {
        result := CopyVariables(variables[executionId]);
      }
      r := Ok(result);
    }

    /** RemoveVariable: drops one name; an execution without a scope keeps none. */
    method RemoveVariable(executionId: string, name: string) returns (r: Outcome)
      requires Valid()
      modifies this
      ensures Valid()
      ensures executionId !in old(executions) ==> r == Fail(NotFound("execution", executionId)) && unchanged(this)
      ensures executionId in old(executions) ==>
        && r == Pass
        && variables == (if executionId in old(variables)
                         then old(variables)[executionId := old(variables)[executionId] - {name}]
                         else old(variables))
        && processInstances == old(processInstances) && executions == old(executions)
        && GetVariable(executionId, name) == Ok(Nil)
    {
      if executionId !in executions {
        return Fail(NotFound("execution", executionId));
      }
      if executionId in variables {
        variables := variables[executionId := variables[executionId] - {name}];
      }
      r := Pass;
    }

    /** SignalWithVariables: merges the variables, when a map is given, into the execution's scope. */
    method SignalWithVariables(executionId: string, vars: Option<Variables>) returns (r: Outcome)
      requires Valid()
      modifies this
      ensures Valid()
      ensures executionId !in old(executions) ==> r == Fail(NotFound("execution", executionId)) && unchanged(this)
      ensures executionId in old(executions) && vars.None? ==> r == Pass && unchanged(this)
      ensures executionId in old(executions) && vars.Some? ==>
        && r == Pass
        && variables.Keys == old(variables).Keys + {executionId}
        && (forall e :: e in old(variables) && e != executionId ==> variables[e] == old(variables)[e])
        && Merged(ScopeOf(old(variables), executionId), vars.value, variables[executionId])
        && processInstances == old(processInstances) && executions == old(executions)
    {
      if executionId !in executions {
        return Fail(NotFound("execution", executionId));
      }
      if vars.Some? {
        var merged := MergeVariables(ScopeOf(variables, executionId), vars.value);
        variables := variables[executionId := merged];
      }
      r := Pass;
    }

    /** Signal: SignalWithVariables with no variables, so it changes nothing. */
    method Signal(executionId: string) returns (r: Outcome)
      requires Valid()
      modifies this
      ensures Valid()
      ensures r == (if executionId in old(executions) then Pass else Fail(NotFound("execution", executionId)))
      ensures unchanged(this)
    {
      r := SignalWithVariables(executionId, None);
    }
  }

  /** `def` is a definition of `key` whose version no other definition of the key exceeds. */
  ghost predicate LatestOfKey(defs: Definitions, key: string, def: ProcessDefinition)
  {
    && def in defs.Values && def.key == key
    && forall id :: id in defs && defs[id].key == key ==> defs[id].version <= def.version
  }
}
