/**
 * The task store: standalone and process tasks with their claim state and
 * candidates, and per task its comments, attachments and variable scope.
 * Completion goes through the runtime store of the task's execution.
 */
module Tasks {
  import opened Common
  import Runtime

  datatype Task = Task(
    id: string, name: string, description: string, priority: int, owner: string, assignee: string,
    dueDate: Option<Time>, category: string, formKey: string, parentTaskId: string, processInstanceId: string,
    processDefinitionId: string, executionId: string, taskDefinitionKey: string, createTime: Time,
    claimTime: Option<Time>, tenantId: string, suspended: bool,
    candidateUsers: seq<string>, candidateGroups: seq<string>)

  datatype Comment = Comment(id: string, taskId: string, userId: string, message: string, time: Time)

  datatype Attachment = Attachment(
    id: string, name: string, description: string, attachmentType: string, taskId: string,
    processInstanceId: string, url: string, content: seq<byte>, time: Time)

  // ------------------------------------------------------------------
  // The claim state of one task
  // ------------------------------------------------------------------

  /** A task has a claim time exactly when it has an assignee. */
  predicate ClaimPaired(t: Task)
  {
    t.claimTime.Some? <==> t.assignee != ""
  }

  /** Claim on one task: refused when another user holds it; otherwise the user holds it from `now`. */
  function ClaimTask(t: Task, userId: string, now: Time): (r: Result<Task>)
    ensures r.Err? <==> t.assignee != "" && t.assignee != userId
    ensures r.Err? ==> r.error == Failure("task is already claimed by another user: " + t.assignee)
    ensures r.Ok? ==> r.value.assignee == userId && r.value.claimTime == Some(now)
    ensures r.Ok? ==> r.value == t.(assignee := userId, claimTime := Some(now))
  {
    if t.assignee != "" && t.assignee != userId then Err(Failure("task is already claimed by another user: " + t.assignee))
    else Ok(t.(assignee := userId, claimTime := Some(now)))
  }

  /** Unclaim on one task: no assignee and no claim time. */
  function UnclaimTask(t: Task): (u: Task)
    ensures u.assignee == "" && u.claimTime.None?
    ensures u == t.(assignee := "", claimTime := None)
  {
    t.(assignee := "", claimTime := None)
  }

  /**
   * Claim by a named user and Unclaim leave a task paired, whatever its
   * state before; a claim by the holder itself only refreshes the time.
   */
  lemma ClaimAndUnclaimPair(t: Task, userId: string, now: Time)
    requires userId != ""
    ensures ClaimTask(t, userId, now).Ok? ==> ClaimPaired(ClaimTask(t, userId, now).value)
    ensures ClaimPaired(UnclaimTask(t))
    ensures t.assignee == userId ==> ClaimTask(t, userId, now) == Ok(t.(claimTime := Some(now)))
  {
  }

  /** Claim then Unclaim returns a claimable task to the unassigned state of Unclaim alone. */
  lemma UnclaimUndoesClaim(t: Task, userId: string, now: Time)
    requires ClaimTask(t, userId, now).Ok?
    ensures UnclaimTask(ClaimTask(t, userId, now).value) == UnclaimTask(t)
  {
  }

  /**
   * SetAssignee writes the assignee alone: a paired unassigned task given an
   * assignee has no claim time, and a claim by the empty user id records a
   * claim time with no assignee.
   */
  lemma AssignWithoutClaimUnpairs(t: Task, userId: string, now: Time)
    requires t.assignee == "" && t.claimTime.None?
    ensures userId != "" ==> !ClaimPaired(t.(assignee := userId))
    ensures !ClaimPaired(ClaimTask(t, "", now).value)
  {
  }

  // ------------------------------------------------------------------
  // Attachments
  // ------------------------------------------------------------------

  /** The ids of a task's attachments, in order. */
  function AttachmentIds(list: seq<Attachment>): (ids: seq<string>)
    ensures |ids| == |list| && forall i :: 0 <= i < |list| ==> ids[i] == list[i].id
  {
    seq(|list|, i requires 0 <= i < |list| => list[i].id)
  }

  /** The list with its first attachment of that id cut out. */
  function WithoutAttachment(list: seq<Attachment>, attachmentId: string): (r: seq<Attachment>)
    requires attachmentId in AttachmentIds(list)
    ensures |r| == |list| - 1
    ensures var k := FirstIndex(AttachmentIds(list), attachmentId);
      && (forall i :: 0 <= i < k ==> r[i] == list[i])
      && (forall i :: k <= i < |r| ==> r[i] == list[i + 1])
  {
    var k := FirstIndex(AttachmentIds(list), attachmentId);
    list[..k] + list[k + 1..]
  }

  /** Some task holds an attachment of that id. */
  ghost predicate Attached(attachments: map<string, seq<Attachment>>, attachmentId: string)
  {
    exists taskId :: taskId in attachments && attachmentId in AttachmentIds(attachments[taskId])
  }

  /** The comments, or attachments, of a task: a nil slice when it has none. */
  function ListOf<T>(lists: map<string, seq<T>>, taskId: string): seq<T>
  {
    if taskId in lists then lists[taskId] else []
  }

  class TaskService {
    /** The runtime store whose executions completion signals. */
    const runtime: Runtime.RuntimeService
    var tasks: map<string, Task>
    var comments: map<string, seq<Comment>>
    var attachments: map<string, seq<Attachment>>
    var variables: map<string, Variables>

    /** The maps of an empty store; the command executor the source builds here is not part of this model. */
    constructor (runtime: Runtime.RuntimeService)
      ensures this.runtime == runtime
      ensures tasks == map[] && comments == map[] && attachments == map[] && variables == map[]
    {
      this.runtime := runtime;
      tasks, comments, attachments, variables := map[], map[], map[], map[];
    }

    /** NewTask: an unsaved, unclaimed task of priority 5; an empty id is replaced by a fresh one. */
    function NewTask(taskId: string, freshId: string, now: Time): (r: Result<Task>)
      ensures r.Ok?
      ensures r.value.id == (if taskId == "" then freshId else taskId)
      ensures r.value.priority == 5 && r.value.createTime == now
      ensures r.value.assignee == "" && ClaimPaired(r.value)
      ensures r.value.candidateUsers == [] && r.value.candidateGroups == []
    {
      Ok(Task(if taskId == "" then freshId else taskId, "", "", 5, "", "", None, "", "", "", "", "", "", "", now,
              None, "", false, [], []))
    }

    /** SaveTask: stores the task under its id, giving it the fresh id when it has none. */
    method SaveTask(task: Task, freshId: string) returns (r: Outcome)
      modifies this
      ensures r == Pass
      ensures var id := if task.id == "" then freshId else task.id;
        tasks == old(tasks)[id := task.(id := id)]
      ensures comments == old(comments) && attachments == old(attachments) && variables == old(variables)
    {
      var t := task;
      if t.id == "" {
        t := t.(id := freshId);
      }
      tasks := tasks[t.id := t];
      r := Pass;
    }

    /** DeleteTask: the task with its comments, attachments and variables. */
    method DeleteTask(taskId: string) returns (r: Outcome)
      modifies this
      ensures taskId !in old(tasks) ==> r == Fail(NotFound("task", taskId)) && unchanged(this)
      ensures taskId in old(tasks) ==>
        && r == Pass
        && tasks == old(tasks) - {taskId} && comments == old(comments) - {taskId}
        && attachments == old(attachments) - {taskId} && variables == old(variables) - {taskId}
    {
      if taskId !in tasks {
        return Fail(NotFound("task", taskId));
      }
      tasks := tasks - {taskId};
      comments := comments - {taskId};
      attachments := attachments - {taskId};
      variables := variables - {taskId};
      r := Pass;
    }

    method Claim(taskId: string, userId: string, now: Time) returns (r: Outcome)
      modifies this
      ensures taskId !in old(tasks) ==> r == Fail(NotFound("task", taskId)) && unchanged(this)
      ensures taskId in old(tasks) ==>
        var claimed := ClaimTask(old(tasks)[taskId], userId, now);
        && (claimed.Err? ==> r == Fail(claimed.error) && unchanged(this))
        && (claimed.Ok? ==> r == Pass && tasks == old(tasks)[taskId := claimed.value])
      ensures comments == old(comments) && attachments == old(attachments) && variables == old(variables)
    {
      if taskId !in tasks {
        return Fail(NotFound("task", taskId));
      }
      var claimed := ClaimTask(tasks[taskId], userId, now);
      if claimed.Err? {
        return Fail(claimed.error);
      }
      tasks := tasks[taskId := claimed.value];
      r := Pass;
    }

    method Unclaim(taskId: string) returns (r: Outcome)
      modifies this
      ensures taskId !in old(tasks) ==> r == Fail(NotFound("task", taskId)) && unchanged(this)
      ensures taskId in old(tasks) ==> r == Pass && tasks == old(tasks)[taskId := UnclaimTask(old(tasks)[taskId])]
      ensures comments == old(comments) && attachments == old(attachments) && variables == old(variables)
    {
      if taskId !in tasks {
        return Fail(NotFound("task", taskId));
      }
      tasks := tasks[taskId := UnclaimTask(tasks[taskId])];
      r := Pass;
    }

    /**
     * CompleteWithVariables: the variables go to the task's execution when a
     * map is given and the task has one, then the execution is signalled;
     * either failure returns before the task is touched. On success only the
     * task record goes: its comments, attachments and variables stay.
     */
    method CompleteWithVariables(taskId: string, vars: Option<Variables>) returns (r: Outcome)
      requires runtime.Valid()
      modifies this, runtime
      ensures runtime.Valid()
      ensures taskId !in old(tasks) ==> r == Fail(NotFound("task", taskId)) && unchanged(this) && unchanged(runtime)
      ensures taskId in old(tasks) ==>
        var executionId := old(tasks)[taskId].executionId;
        && (executionId != "" && executionId !in old(runtime.executions) ==>
              && r == Fail(Wrapped(if vars.Some? then "failed to set variables" else "failed to signal execution",
                                   NotFound("execution", executionId)))
              && unchanged(this) && unchanged(runtime))
        && (executionId == "" || executionId in old(runtime.executions) ==>
              && r == Pass
              && tasks == old(tasks) - {taskId}
              && comments == old(comments) && attachments == old(attachments) && variables == old(variables)
              && runtime.processInstances == old(runtime.processInstances)
              && runtime.executions == old(runtime.executions))
      ensures taskId in old(tasks) && r.Pass? ==>
        var executionId := old(tasks)[taskId].executionId;
        if executionId != "" && vars.Some? then
          && runtime.variables.Keys == old(runtime.variables).Keys + {executionId}
          && (forall e :: e in old(runtime.variables) && e != executionId ==> runtime.variables[e] == old(runtime.variables)[e])
          && Merged(ScopeOf(old(runtime.variables), executionId), vars.value, runtime.variables[executionId])
        else runtime.variables == old(runtime.variables)
      ensures vars.None? ==> unchanged(runtime)
    {
      if taskId !in tasks {
        return Fail(NotFound("task", taskId));
      }
      var task := tasks[taskId];
      if vars.Some? && task.executionId != "" {
        var written := runtime.SetVariables(task.executionId, vars.value);
        if written.Fail? {
          return Fail(Wrapped("failed to set variables", written.error));
        }
      }
      if task.executionId != "" {
        var signalled := runtime.Signal(task.executionId);
        if signalled.Fail? {
          return Fail(Wrapped("failed to signal execution", signalled.error));
        }
      }
      tasks := tasks - {taskId};
      r := Pass;
    }

    /** Complete: CompleteWithVariables with no variables. */
    method Complete(taskId: string) returns (r: Outcome)
      requires runtime.Valid()
      modifies this, runtime
      ensures runtime.Valid()
      ensures unchanged(runtime)
      ensures taskId !in old(tasks) ==> r == Fail(NotFound("task", taskId)) && unchanged(this)
      ensures taskId in old(tasks) ==>
        var executionId := old(tasks)[taskId].executionId;
        && (executionId != "" && executionId !in old(runtime.executions) ==>
              r == Fail(Wrapped("failed to signal execution", NotFound("execution", executionId))) && unchanged(this))
        && (executionId == "" || executionId in old(runtime.executions) ==>
              && r == Pass && tasks == old(tasks) - {taskId}
              && comments == old(comments) && attachments == old(attachments) && variables == old(variables))
    {
      r := CompleteWithVariables(taskId, None);
    }

    /** SetAssignee: the assignee alone; the claim time is left as it was. */
    method SetAssignee(taskId: string, userId: string) returns (r: Outcome)
      modifies this
      ensures taskId !in old(tasks) ==> r == Fail(NotFound("task", taskId)) && unchanged(this)
      ensures taskId in old(tasks) ==> r == Pass && tasks == old(tasks)[taskId := old(tasks)[taskId].(assignee := userId)]
      ensures comments == old(comments) && attachments == old(attachments) && variables == old(variables)
    {
      if taskId !in tasks {
        return Fail(NotFound("task", taskId));
      }
      tasks := tasks[taskId := tasks[taskId].(assignee := userId)];
      r := Pass;
    }

    method SetOwner(taskId: string, userId: string) returns (r: Outcome)
      modifies this
      ensures taskId !in old(tasks) ==> r == Fail(NotFound("task", taskId)) && unchanged(this)
      ensures taskId in old(tasks) ==> r == Pass && tasks == old(tasks)[taskId := old(tasks)[taskId].(owner := userId)]
      ensures comments == old(comments) && attachments == old(attachments) && variables == old(variables)
    {
      if taskId !in tasks {
        return Fail(NotFound("task", taskId));
      }
      tasks := tasks[taskId := tasks[taskId].(owner := userId)];
      r := Pass;
    }

    method SetPriority(taskId: string, priority: int) returns (r: Outcome)
      modifies this
      ensures taskId !in old(tasks) ==> r == Fail(NotFound("task", taskId)) && unchanged(this)
      ensures taskId in old(tasks) ==> r == Pass && tasks == old(tasks)[taskId := old(tasks)[taskId].(priority := priority)]
      ensures comments == old(comments) && attachments == old(attachments) && variables == old(variables)
    {
      if taskId !in tasks {
        return Fail(NotFound("task", taskId));
      }
      tasks := tasks[taskId := tasks[taskId].(priority := priority)];
      r := Pass;
    }

    method SetDueDate(taskId: string, dueDate: Time) returns (r: Outcome)
      modifies this
      ensures taskId !in old(tasks) ==> r == Fail(NotFound("task", taskId)) && unchanged(this)
      ensures taskId in old(tasks) ==> r == Pass && tasks == old(tasks)[taskId := old(tasks)[taskId].(dueDate := Some(dueDate))]
      ensures comments == old(comments) && attachments == old(attachments) && variables == old(variables)
    {
      if taskId !in tasks {
        return Fail(NotFound("task", taskId));
      }
      tasks := tasks[taskId := tasks[taskId].(dueDate := Some(dueDate))];
      r := Pass;
    }

    /** AddCandidateUser: appended once at the end; a user already there is left alone. */
    method AddCandidateUser(taskId: string, userId: string) returns (r: Outcome)
      modifies this
      ensures taskId !in old(tasks) ==> r == Fail(NotFound("task", taskId)) && unchanged(this)
      ensures taskId in old(tasks) ==>
        var t := old(tasks)[taskId];
        && r == Pass
        && tasks == old(tasks)[taskId := t.(candidateUsers := if userId in t.candidateUsers then t.candidateUsers
                                                               else t.candidateUsers + [userId])]
        && userId in tasks[taskId].candidateUsers
      ensures comments == old(comments) && attachments == old(attachments) && variables == old(variables)
    {
      if taskId !in tasks {
        return Fail(NotFound("task", taskId));
      }
      var t := tasks[taskId];
      var present := Contains(t.candidateUsers, userId);
      if present {
        return Pass;
      }
      tasks := tasks[taskId := t.(candidateUsers := t.candidateUsers + [userId])];
      r := Pass;
    }

    /** AddCandidateGroup: appended once at the end; a group already there is left alone. */
    method AddCandidateGroup(taskId: string, groupId: string) returns (r: Outcome)
      modifies this
      ensures taskId !in old(tasks) ==> r == Fail(NotFound("task", taskId)) && unchanged(this)
      ensures taskId in old(tasks) ==>
        var t := old(tasks)[taskId];
        && r == Pass
        && tasks == old(tasks)[taskId := t.(candidateGroups := if groupId in t.candidateGroups then t.candidateGroups
                                                                else t.candidateGroups + [groupId])]
        && groupId in tasks[taskId].candidateGroups
      ensures comments == old(comments) && attachments == old(attachments) && variables == old(variables)
    {
      if taskId !in tasks {
        return Fail(NotFound("task", taskId));
      }
      var t := tasks[taskId];
      var present := Contains(t.candidateGroups, groupId);
      if present {
        return Pass;
      }
      tasks := tasks[taskId := t.(candidateGroups := t.candidateGroups + [groupId])];
      r := Pass;
    }

    /** DeleteCandidateUser: the first occurrence only, the rest in order; an absent user is no error. */
    method DeleteCandidateUser(taskId: string, userId: string) returns (r: Outcome)
      modifies this
      ensures taskId !in old(tasks) ==> r == Fail(NotFound("task", taskId)) && unchanged(this)
      ensures taskId in old(tasks) ==>
        var t := old(tasks)[taskId];
        && r == Pass
        && tasks == old(tasks)[taskId := t.(candidateUsers := RemoveFirst(t.candidateUsers, userId))]
      ensures comments == old(comments) && attachments == old(attachments) && variables == old(variables)
    {
      if taskId !in tasks {
        return Fail(NotFound("task", taskId));
      }
      var t := tasks[taskId];
      var rest := RemoveFirstOccurrence(t.candidateUsers, userId);
      tasks := tasks[taskId := t.(candidateUsers := rest)];
      r := Pass;
    }

    /** DeleteCandidateGroup: the first occurrence only, the rest in order; an absent group is no error. */
    method DeleteCandidateGroup(taskId: string, groupId: string) returns (r: Outcome)
      modifies this
      ensures taskId !in old(tasks) ==> r == Fail(NotFound("task", taskId)) && unchanged(this)
      ensures taskId in old(tasks) ==>
        var t := old(tasks)[taskId];
        && r == Pass
        && tasks == old(tasks)[taskId := t.(candidateGroups := RemoveFirst(t.candidateGroups, groupId))]
      ensures comments == old(comments) && attachments == old(attachments) && variables == old(variables)
    {
      if taskId !in tasks {
        return Fail(NotFound("task", taskId));
      }
      var t := tasks[taskId];
      var rest := RemoveFirstOccurrence(t.candidateGroups, groupId);
      tasks := tasks[taskId := t.(candidateGroups := rest)];
      r := Pass;
    }

    /** GetTaskVariables: a copy of the task's scope, empty when there is none. */
    method GetTaskVariables(taskId: string) returns (r: Result<Variables>)
      ensures taskId !in tasks ==> r == Err(NotFound("task", taskId))
      ensures taskId in tasks ==> r == Ok(ScopeOf(variables, taskId))
    {
      if taskId !in tasks {
        return Err(NotFound("task", taskId));
      }
      var result: Variables := map[];
      if taskId in variables {
        result := CopyVariables(variables[taskId]);
      }
      r := Ok(result);
    }

    /** GetTaskVariable: nil when the task has no scope or the scope lacks the name. */
    function GetTaskVariable(taskId: string, name: string): (r: Result<Value>)
      reads this
      ensures r.Err? <==> taskId !in tasks
      ensures r.Err? ==> r.error == NotFound("task", taskId)
      ensures r.Ok? && taskId in variables && name in variables[taskId] ==> r.value == variables[taskId][name]
      ensures r.Ok? && (taskId !in variables || name !in variables[taskId]) ==> r.value == Nil
    {
      if taskId !in tasks then Err(NotFound("task", taskId))
      else if taskId !in variables then Ok(Nil)
      else if name in variables[taskId] then Ok(variables[taskId][name])
      else Ok(Nil)
    }

    /** SetTaskVariable: the scope is created on first write; reading the name back gives the value. */
    method SetTaskVariable(taskId: string, name: string, value: Value) returns (r: Outcome)
      modifies this
      ensures taskId !in old(tasks) ==> r == Fail(NotFound("task", taskId)) && unchanged(this)
      ensures taskId in old(tasks) ==>
        && r == Pass
        && variables == old(variables)[taskId := ScopeOf(old(variables), taskId)[name := value]]
        && tasks == old(tasks) && comments == old(comments) && attachments == old(attachments)
        && GetTaskVariable(taskId, name) == Ok(value)
    {
      if taskId !in tasks {
        return Fail(NotFound("task", taskId));
      }
      var scope := ScopeOf(variables, taskId);
      variables := variables[taskId := scope[name := value]];
      r := Pass;
    }

    /** SetTaskVariables: only the given names are overwritten; the scope is created if missing. */
    method SetTaskVariables(taskId: string, vars: Variables) returns (r: Outcome)
      modifies this
      ensures taskId !in old(tasks) ==> r == Fail(NotFound("task", taskId)) && unchanged(this)
      ensures taskId in old(tasks) ==>
        && r == Pass
        && variables.Keys == old(variables).Keys + {taskId}
        && (forall id :: id in old(variables) && id != taskId ==> variables[id] == old(variables)[id])
        && Merged(ScopeOf(old(variables), taskId), vars, variables[taskId])
        && tasks == old(tasks) && comments == old(comments) && attachments == old(attachments)
    {
      if taskId !in tasks {
        return Fail(NotFound("task", taskId));
      }
      var merged := MergeVariables(ScopeOf(variables, taskId), vars);
      variables := variables[taskId := merged];
      r := Pass;
    }

    /** RemoveTaskVariable: one name goes; a task without a scope keeps none. */
    method RemoveTaskVariable(taskId: string, name: string) returns (r: Outcome)
      modifies this
      ensures taskId !in old(tasks) ==> r == Fail(NotFound("task", taskId)) && unchanged(this)
      ensures taskId in old(tasks) ==>
        && r == Pass
        && variables == (if taskId in old(variables) then old(variables)[taskId := old(variables)[taskId] - {name}]
                         else old(variables))
        && tasks == old(tasks) && comments == old(comments) && attachments == old(attachments)
        && GetTaskVariable(taskId, name) == Ok(Nil)
    {
      if taskId !in tasks {
        return Fail(NotFound("task", taskId));
      }
      if taskId in variables {
        variables := variables[taskId := variables[taskId] - {name}];
      }
      r := Pass;
    }

    /** AddComment: appended after the task's earlier comments. */
    method AddComment(taskId: string, message: string, commentId: string, now: Time) returns (r: Result<Comment>)
      modifies this
      ensures taskId !in old(tasks) ==> r == Err(NotFound("task", taskId)) && unchanged(this)
      ensures taskId in old(tasks) ==>
        && r == Ok(Comment(commentId, taskId, "", message, now))
        && comments == old(comments)[taskId := ListOf(old(comments), taskId) + [r.value]]
        && tasks == old(tasks) && attachments == old(attachments) && variables == old(variables)
    {
      if taskId !in tasks {
        return Err(NotFound("task", taskId));
      }
      var comment := Comment(commentId, taskId, "", message, now);
      comments := comments[taskId := ListOf(comments, taskId) + [comment]];
      r := Ok(comment);
    }

    function GetTaskComments(taskId: string): (r: Result<seq<Comment>>)
      reads this
      ensures r.Err? <==> taskId !in tasks
      ensures r.Err? ==> r.error == NotFound("task", taskId)
      ensures r.Ok? ==> r.value == ListOf(comments, taskId)
    {
      if taskId !in tasks then Err(NotFound("task", taskId)) else Ok(ListOf(comments, taskId))
    }

    /** CreateAttachment: appended after the task's earlier attachments, tagged with the task's instance. */
    method CreateAttachment(taskId: string, attachmentType: string, name: string, description: string,
                            content: seq<byte>, attachmentId: string, now: Time) returns (r: Result<Attachment>)
      modifies this
      ensures taskId !in old(tasks) ==> r == Err(NotFound("task", taskId)) && unchanged(this)
      ensures taskId in old(tasks) ==>
        && r == Ok(Attachment(attachmentId, name, description, attachmentType, taskId,
                              old(tasks)[taskId].processInstanceId, "", content, now))
        && attachments == old(attachments)[taskId := ListOf(old(attachments), taskId) + [r.value]]
        && tasks == old(tasks) && comments == old(comments) && variables == old(variables)
    {
      if taskId !in tasks {
        return Err(NotFound("task", taskId));
      }
      var attachment := Attachment(attachmentId, name, description, attachmentType, taskId,
                                   tasks[taskId].processInstanceId, "", content, now);
      attachments := attachments[taskId := ListOf(attachments, taskId) + [attachment]];
      r := Ok(attachment);
    }

    function GetTaskAttachments(taskId: string): (r: Result<seq<Attachment>>)
      reads this
      ensures r.Err? <==> taskId !in tasks
      ensures r.Err? ==> r.error == NotFound("task", taskId)
      ensures r.Ok? ==> r.value == ListOf(attachments, taskId)
    {
      if taskId !in tasks then Err(NotFound("task", taskId)) else Ok(ListOf(attachments, taskId))
    }

    /**
     * DeleteAttachment: the first attachment of that id in the first list
     * that holds one is cut out; an error when no task holds it.
     */
    method DeleteAttachment(attachmentId: string) returns (r: Outcome)
      modifies this
      ensures !Attached(old(attachments), attachmentId) ==>
        r == Fail(NotFound("attachment", attachmentId)) && unchanged(this)
      ensures Attached(old(attachments), attachmentId) ==>
        && r == Pass
        && exists taskId :: taskId in old(attachments) && attachmentId in AttachmentIds(old(attachments)[taskId])
             && attachments == old(attachments)[taskId := WithoutAttachment(old(attachments)[taskId], attachmentId)]
      ensures tasks == old(tasks) && comments == old(comments) && variables == old(variables)
    {
      var pending := attachments.Keys;
      while pending != {}
        invariant pending <= attachments.Keys
        invariant unchanged(this)
        invariant forall taskId :: taskId in attachments.Keys - pending ==> attachmentId !in AttachmentIds(attachments[taskId])
        decreases pending
      {
        var taskId :| taskId in pending;
        var list := attachments[taskId];
        var i := FindFirst(AttachmentIds(list), attachmentId);
        if i < |list| {
          assert list[..i] + list[i + 1..] == WithoutAttachment(list, attachmentId);
          attachments := attachments[taskId := list[..i] + list[i + 1..]];
          return Pass;
        }
        pending := pending - {taskId};
      }
      assert !Attached(attachments, attachmentId);
      r := Fail(NotFound("attachment", attachmentId));
    }
  }
}
