/**
 * The history store: records of process instances, tasks, activities and
 * variables, kept by id, and the service that stands in for it when history
 * is disabled.
 */
module History {
  import opened Common

  datatype HistoricProcessInstance = HistoricProcessInstance(
    id: string, businessKey: string, processDefinitionId: string, processDefinitionKey: string,
    processDefinitionName: string, processDefinitionVersion: int, deploymentId: string, startTime: Time,
    endTime: Option<Time>, durationInMillis: Option<int>, startUserId: string, startActivityId: string,
    endActivityId: string, deleteReason: string, superProcessInstanceId: string, tenantId: string)

  datatype HistoricTaskInstance = HistoricTaskInstance(
    id: string, processDefinitionId: string, processDefinitionKey: string, processInstanceId: string,
    executionId: string, name: string, description: string, taskDefinitionKey: string, owner: string,
    assignee: string, startTime: Time, endTime: Option<Time>, durationInMillis: Option<int>,
    deleteReason: string, priority: int, dueDate: Option<Time>, formKey: string, category: string, tenantId: string)

  datatype HistoricActivityInstance = HistoricActivityInstance(
    id: string, activityId: string, activityName: string, activityType: string, processDefinitionId: string,
    processInstanceId: string, executionId: string, taskId: string, assignee: string, startTime: Time,
    endTime: Option<Time>, durationInMillis: Option<int>, deleteReason: string, tenantId: string)

  datatype HistoricVariableInstance = HistoricVariableInstance(
    id: string, name: string, typeName: string, value: Value, processInstanceId: string, taskId: string,
    createTime: Time, lastUpdatedTime: Option<Time>)

  /** The historic tasks of an instance. */
  function TasksOf(tasks: map<string, HistoricTaskInstance>, instanceId: string): (ids: set<string>)
    ensures forall id :: id in ids <==> id in tasks && tasks[id].processInstanceId == instanceId
  {
    set id | id in tasks && tasks[id].processInstanceId == instanceId
  }

  /** The historic activities of an instance. */
  function ActivitiesOf(activities: map<string, HistoricActivityInstance>, instanceId: string): (ids: set<string>)
    ensures forall id :: id in ids <==> id in activities && activities[id].processInstanceId == instanceId
  {
    set id | id in activities && activities[id].processInstanceId == instanceId
  }

  /** The historic variables of an instance. */
  function VariablesOf(variables: map<string, HistoricVariableInstance>, instanceId: string): (ids: set<string>)
    ensures forall id :: id in ids <==> id in variables && variables[id].processInstanceId == instanceId
  {
    set id | id in variables && variables[id].processInstanceId == instanceId
  }

  class HistoryService {
    const databaseDriver: string
    const databaseUrl: string
    var processInstances: map<string, HistoricProcessInstance>
    var tasks: map<string, HistoricTaskInstance>
    var activities: map<string, HistoricActivityInstance>
    var variables: map<string, HistoricVariableInstance>

    /** NewHistoryService: all four maps empty. */
    constructor (databaseDriver: string, databaseUrl: string)
      ensures this.databaseDriver == databaseDriver && this.databaseUrl == databaseUrl
      ensures processInstances == map[] && tasks == map[] && activities == map[] && variables == map[]
    {
      this.databaseDriver := databaseDriver;
      this.databaseUrl := databaseUrl;
      processInstances, tasks, activities, variables := map[], map[], map[], map[];
    }

    /**
     * DeleteHistoricProcessInstance: the instance and every historic task,
     * activity and variable of it; the records of other instances stay.
     */
    method DeleteHistoricProcessInstance(instanceId: string) returns (r: Outcome)
      modifies this
      ensures instanceId !in old(processInstances) ==>
        r == Fail(NotFound("historic process instance", instanceId)) && unchanged(this)
      ensures instanceId in old(processInstances) ==>
        && r == Pass
        && processInstances == old(processInstances) - {instanceId}
        && tasks == old(tasks) - TasksOf(old(tasks), instanceId)
        && activities == old(activities) - ActivitiesOf(old(activities), instanceId)
        && variables == old(variables) - VariablesOf(old(variables), instanceId)
    {
      if instanceId !in processInstances {
        return Fail(NotFound("historic process instance", instanceId));
      }
      processInstances := processInstances - {instanceId};
      var keptTasks, removedTasks := RemoveWhere(tasks, (t: HistoricTaskInstance) => t.processInstanceId == instanceId);
      assert removedTasks == TasksOf(tasks, instanceId);
      tasks := keptTasks;
      var keptActivities, removedActivities :=
        RemoveWhere(activities, (a: HistoricActivityInstance) => a.processInstanceId == instanceId);
      assert removedActivities == ActivitiesOf(activities, instanceId);
      activities := keptActivities;
      var keptVariables, removedVariables :=
        RemoveWhere(variables, (v: HistoricVariableInstance) => v.processInstanceId == instanceId);
      assert removedVariables == VariablesOf(variables, instanceId);
      variables := keptVariables;
      r := Pass;
    }

    /** DeleteHistoricTaskInstance: that task alone. */
    method DeleteHistoricTaskInstance(taskId: string) returns (r: Outcome)
      modifies this
      ensures taskId !in old(tasks) ==> r == Fail(NotFound("historic task instance", taskId)) && unchanged(this)
      ensures taskId in old(tasks) ==>
        && r == Pass && tasks == old(tasks) - {taskId}
        && processInstances == old(processInstances) && activities == old(activities) && variables == old(variables)
    {
      if taskId !in tasks {
        return Fail(NotFound("historic task instance", taskId));
      }
      tasks := tasks - {taskId};
      r := Pass;
    }

    /** RecordProcessInstance: upsert by id. */
    method RecordProcessInstance(instance: HistoricProcessInstance) returns (r: Outcome)
      modifies this
      ensures r == Pass && processInstances == old(processInstances)[instance.id := instance]
      ensures tasks == old(tasks) && activities == old(activities) && variables == old(variables)
    {
      processInstances := processInstances[instance.id := instance];
      r := Pass;
    }

    /** RecordTaskInstance: upsert by id. */
    method RecordTaskInstance(task: HistoricTaskInstance) returns (r: Outcome)
      modifies this
      ensures r == Pass && tasks == old(tasks)[task.id := task]
      ensures processInstances == old(processInstances) && activities == old(activities) && variables == old(variables)
    {
      tasks := tasks[task.id := task];
      r := Pass;
    }

    /** RecordActivityInstance: upsert by id. */
    method RecordActivityInstance(activity: HistoricActivityInstance) returns (r: Outcome)
      modifies this
      ensures r == Pass && activities == old(activities)[activity.id := activity]
      ensures processInstances == old(processInstances) && tasks == old(tasks) && variables == old(variables)
    {
      activities := activities[activity.id := activity];
      r := Pass;
    }

    /** RecordVariableInstance: upsert by id. */
    method RecordVariableInstance(variable: HistoricVariableInstance) returns (r: Outcome)
      modifies this
      ensures r == Pass && variables == old(variables)[variable.id := variable]
      ensures processInstances == old(processInstances) && tasks == old(tasks) && activities == old(activities)
    {
      variables := variables[variable.id := variable];
      r := Pass;
    }
  }

  /** The history service of an engine with history disabled: no state, and every call succeeds. */
  class NoOpHistoryService {
    constructor ()
    {
    }

    function DeleteHistoricProcessInstance(instanceId: string): (r: Outcome)
      ensures r == Pass
    {
      Pass
    }

    function DeleteHistoricTaskInstance(taskId: string): (r: Outcome)
      ensures r == Pass
    {
      Pass
    }

    function RecordProcessInstance(instance: HistoricProcessInstance): (r: Outcome)
      ensures r == Pass
    {
      Pass
    }

    function RecordTaskInstance(task: HistoricTaskInstance): (r: Outcome)
      ensures r == Pass
    {
      Pass
    }

    function RecordActivityInstance(activity: HistoricActivityInstance): (r: Outcome)
      ensures r == Pass
    {
      Pass
    }

    function RecordVariableInstance(variable: HistoricVariableInstance): (r: Outcome)
      ensures r == Pass
    {
      Pass
    }
  }
}
