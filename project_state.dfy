/**
 * The execution state of one project: three maps keyed by task id (the task
 * snapshot, a quick-lookup status and a retry count) and an overall status
 * that is recomputed from the task snapshots after each task mutation.
 *
 * `StateMaps` is the value of the three maps; the pure queries and updates on it
 * specify the `ProjectState` class, whose methods update the maps in place.
 */
module States {
  import opened Wrappers
  import opened Tasks

  datatype ProjectStatus = NotStarted | InProgress | AllCompleted | SomeFailed

  /** The three per-task maps of a project state. */
  datatype StateMaps = StateMaps(tasks: map<string, Task>, statuses: map<string, TaskStatus>, retries: map<string, int>)
  {
    function GetTask(id: string): Option<Task>
    {
      if id in tasks then Some(tasks[id]) else None
    }

    /** The quick-lookup status; an id never recorded reads as Pending. */
    function StatusOf(id: string): TaskStatus
    {
      if id in statuses then statuses[id] else Pending
    }

    /** The recorded retry count; an id never recorded reads as 0. */
    function RetryOf(id: string): int
    {
      if id in retries then retries[id] else 0
    }

    predicate IsTaskCompleted(id: string)
    {
      StatusOf(id) == Completed
    }

    /** Whether some quick-lookup status is Failed (task snapshots are not consulted). */
    predicate HasFailed(): (b: bool)
      ensures b <==> exists id :: id in statuses && statuses[id] == Failed
    {
      Failed in statuses.Values
    }

    /** Whether every dependency in deps is either unknown as a task or Completed, checked one by one. */
    predicate DependenciesMet(deps: seq<string>): (b: bool)
      ensures b <==> forall d :: d in deps ==> d !in tasks || IsTaskCompleted(d)
    {
      if deps == [] then true
      else
        (deps[0] !in tasks || IsTaskCompleted(deps[0])) && DependenciesMet(deps[1..])
    }

    /**
     * The dependency gate: the task must be known, and each of its
     * dependencies must be unknown as a task or have quick-lookup status Completed.
     */
    predicate CanExecute(id: string): (b: bool)
      ensures b <==> id in tasks && forall d :: d in tasks[id].dependencies ==> d !in tasks || StatusOf(d) == Completed
    {
      match GetTask(id)
      case None => false
      case Some(t) => DependenciesMet(t.dependencies)
    }

    /** Storing a task snapshot, as adding or updating a task does. */
    function Put(t: Task): StateMaps
    {
      StateMaps(tasks[t.id := t], statuses[t.id := t.status], retries[t.id := t.retryCount])
    }

    /** Overwriting only the quick-lookup status. */
    function SetStatus(id: string, s: TaskStatus): StateMaps
    {
      this.(statuses := statuses[id := s])
    }

    /** Raising only the recorded retry count, from its default of 0 when absent. */
    function IncrementRetry(id: string): StateMaps
    {
      this.(retries := retries[id := RetryOf(id) + 1])
    }
  }

  /**
   * Reading back after storing a snapshot: the id of the stored task reads
   * that task, its status and its retry count; every other id reads as before.
   */
  lemma PutThenRead(m: StateMaps, t: Task, id: string)
    ensures m.Put(t).GetTask(id) == (if id == t.id then Some(t) else m.GetTask(id))
    ensures m.Put(t).StatusOf(id) == (if id == t.id then t.status else m.StatusOf(id))
    ensures m.Put(t).RetryOf(id) == (if id == t.id then t.retryCount else m.RetryOf(id))
  {
  }

  /**
   * Reading back after overwriting a status: only that id's status changes;
   * snapshots and retry counts read as before.
   */
  lemma SetStatusThenRead(m: StateMaps, target: string, s: TaskStatus, id: string)
    ensures m.SetStatus(target, s).StatusOf(id) == (if id == target then s else m.StatusOf(id))
    ensures m.SetStatus(target, s).GetTask(id) == m.GetTask(id)
    ensures m.SetStatus(target, s).RetryOf(id) == m.RetryOf(id)
  {
  }

  /**
   * Reading back after raising a retry count: that id reads one more than
   * before (so 1 for an id never recorded); everything else reads as before.
   */
  lemma IncrementRetryThenRead(m: StateMaps, target: string, id: string)
    ensures m.IncrementRetry(target).RetryOf(id) == (if id == target then m.RetryOf(id) + 1 else m.RetryOf(id))
    ensures target !in m.retries ==> m.IncrementRetry(target).RetryOf(target) == 1
    ensures m.IncrementRetry(target).StatusOf(id) == m.StatusOf(id)
    ensures m.IncrementRetry(target).GetTask(id) == m.GetTask(id)
  {
  }

  /** An id that was never recorded reads as a Pending task with no retries, and is not known as a task. */
  lemma UnknownIdDefaults(m: StateMaps, id: string)
    requires id !in m.tasks && id !in m.statuses && id !in m.retries
    ensures m.GetTask(id) == None && m.StatusOf(id) == Pending && m.RetryOf(id) == 0
    ensures !m.IsTaskCompleted(id) && !m.CanExecute(id)
  {
  }

  /** Every task snapshot is stored under its own id. */
  predicate KeyedById(tasks: map<string, Task>)
  {
    forall id :: id in tasks ==> tasks[id].id == id
  }

  /** The three maps agree: same keys, and status and retry count are those of the snapshot. */
  predicate Synced(m: StateMaps)
  {
    && m.statuses.Keys == m.tasks.Keys
    && m.retries.Keys == m.tasks.Keys
    && forall id :: id in m.tasks ==> m.statuses[id] == m.tasks[id].status && m.retries[id] == m.tasks[id].retryCount
  }

  /**
   * The overall status as a function of the task snapshots: no tasks is
   * not started, all completed is completed, otherwise any failed is failed,
   * otherwise in progress.
   */
  function OverallOf(tasks: map<string, Task>): ProjectStatus
  {
    if tasks == map[] then NotStarted
    else if forall id :: id in tasks ==> tasks[id].status == Completed then AllCompleted
    else if exists id :: id in tasks && tasks[id].status == Failed then SomeFailed
    else InProgress
  }

  /** The same rule read off the quick-lookup statuses instead of the snapshots. */
  function OverallOfStatuses(statuses: map<string, TaskStatus>): ProjectStatus
  {
    if statuses == map[] then NotStarted
    else if forall id :: id in statuses ==> statuses[id] == Completed then AllCompleted
    else if exists id :: id in statuses && statuses[id] == Failed then SomeFailed
    else InProgress
  }

  /**
   * The overall status is read from the snapshots only, yet while the maps
   * agree it is the status the quick-lookup map would give.
   */
  lemma OverallAgreesWhenSynced(m: StateMaps)
    requires Synced(m)
    ensures OverallOf(m.tasks) == OverallOfStatuses(m.statuses)
  {
    if m.tasks == map[] {
      assert m.statuses.Keys == {};
    } else {
      var id :| id in m.tasks;
      assert id in m.statuses;
    }
  }

  /**
   * Computes the overall status of the snapshots the way the state does:
   * one pass for "all completed", one for "any failed", over the snapshots in
   * no particular order.
   */
  method DeriveOverallStatus(tasks: map<string, Task>) returns (s: ProjectStatus)
    ensures s == OverallOf(tasks)
  {
    if tasks == map[] {
      return NotStarted;
    }
    var allCompleted := true;
    var rest := tasks.Keys;
    while rest != {}
      invariant rest <= tasks.Keys
      invariant allCompleted <==> forall id :: id in tasks && id !in rest ==> tasks[id].status == Completed
      decreases rest
    {
      var id :| id in rest;
      if tasks[id].status != Completed {
        allCompleted := false;
      }
      rest := rest - {id};
    }
    var anyFailed := false;
    rest := tasks.Keys;
    while rest != {}
      invariant rest <= tasks.Keys
      invariant anyFailed <==> exists id :: id in tasks && id !in rest && tasks[id].status == Failed
      decreases rest
    {
      var id :| id in rest;
      if tasks[id].status == Failed {
        anyFailed := true;
      }
      rest := rest - {id};
    }
    if allCompleted {
      s := AllCompleted;
    } else if anyFailed {
      s := SomeFailed;
    } else {
      s := InProgress;
    }
  }

  class ProjectState {
    const projectId: string
    var taskMap: map<string, Task>
    var statusMap: map<string, TaskStatus>
    var retryCountMap: map<string, int>
    var lastUpdated: Time
    var overallStatus: ProjectStatus
    /** How many times the state has been written to the database. */
    ghost var saves: nat

    /** The overall status is never stale, and each snapshot is stored under its own id. */
    ghost predicate Valid()
      reads this
    {
      overallStatus == OverallOf(taskMap) && KeyedById(taskMap)
    }

    function Maps(): StateMaps
      reads this
    {
      StateMaps(taskMap, statusMap, retryCountMap)
    }

    /** A state with no tasks, not started, last updated now. */
    constructor (projectId: string, now: Time)
      ensures Valid()
      ensures this.projectId == projectId
      ensures taskMap == map[] && statusMap == map[] && retryCountMap == map[]
      ensures overallStatus == NotStarted && lastUpdated == now && saves == 0
    {
      this.projectId := projectId;
      taskMap, statusMap, retryCountMap := map[], map[], map[];
      lastUpdated := now;
      overallStatus := NotStarted;
      saves := 0;
    }

    /** Records a task's snapshot, status and retry count under its id; the update time is kept. */
    method AddTask(task: Task)
      requires Valid()
      modifies this
      ensures Valid()
      ensures taskMap == old(taskMap)[task.id := task]
      ensures statusMap == old(statusMap)[task.id := task.status]
      ensures retryCountMap == old(retryCountMap)[task.id := task.retryCount]
      ensures Maps() == old(Maps()).Put(task)
      ensures lastUpdated == old(lastUpdated) && saves == old(saves)
    {
      taskMap := taskMap[task.id := task];
      statusMap := statusMap[task.id := task.status];
      retryCountMap := retryCountMap[task.id := task.retryCount];
      overallStatus := DeriveOverallStatus(taskMap);
    }

    /** Records a task's snapshot, status and retry count under its id, and refreshes the update time. */
    method UpdateTask(task: Task, now: Time)
      requires Valid()
      modifies this
      ensures Valid()
      ensures taskMap == old(taskMap)[task.id := task]
      ensures statusMap == old(statusMap)[task.id := task.status]
      ensures retryCountMap == old(retryCountMap)[task.id := task.retryCount]
      ensures Maps() == old(Maps()).Put(task)
      ensures lastUpdated == now && saves == old(saves)
    {
      taskMap := taskMap[task.id := task];
      statusMap := statusMap[task.id := task.status];
      retryCountMap := retryCountMap[task.id := task.retryCount];
      overallStatus := DeriveOverallStatus(taskMap);
      lastUpdated := now;
    }

    function GetTask(id: string): Option<Task>
      reads this
    {
      Maps().GetTask(id)
    }

    predicate HasTask(id: string)
      reads this
    {
      id in taskMap
    }

    /**
     * Overwrites only the quick-lookup status. The overall status is
     * recomputed from the snapshots, which did not change, so it stays put.
     */
    method UpdateTaskStatus(id: string, status: TaskStatus)
      requires Valid()
      modifies this
      ensures Valid()
      ensures statusMap == old(statusMap)[id := status]
      ensures taskMap == old(taskMap) && retryCountMap == old(retryCountMap)
      ensures Maps() == old(Maps()).SetStatus(id, status)
      ensures overallStatus == old(overallStatus)
      ensures lastUpdated == old(lastUpdated) && saves == old(saves)
    {
      statusMap := statusMap[id := status];
      overallStatus := DeriveOverallStatus(taskMap);
    }

    function GetTaskStatus(id: string): TaskStatus
      reads this
    {
      Maps().StatusOf(id)
    }

    /** Raises only the recorded retry count by one, counting from 0 for an unknown id. */
    method IncrementRetryCount(id: string)
      requires Valid()
      modifies this
      ensures Valid()
      ensures retryCountMap == old(retryCountMap)[id := old(Maps().RetryOf(id)) + 1]
      ensures taskMap == old(taskMap) && statusMap == old(statusMap)
      ensures Maps() == old(Maps()).IncrementRetry(id)
      ensures overallStatus == old(overallStatus)
      ensures lastUpdated == old(lastUpdated) && saves == old(saves)
    {
      var current := GetRetryCount(id);
      retryCountMap := retryCountMap[id := current + 1];
    }

    function GetRetryCount(id: string): int
      reads this
    {
      Maps().RetryOf(id)
    }

    predicate IsTaskCompleted(id: string)
      reads this
    {
      Maps().IsTaskCompleted(id)
    }

    /** Reads the overall status, which means: there are tasks and every snapshot is Completed. */
    predicate IsProjectCompleted(): (b: bool)
      requires Valid()
      reads this
      ensures b <==> taskMap != map[] && forall id :: id in taskMap ==> taskMap[id].status == Completed
    {
      overallStatus == AllCompleted
    }

    predicate HasFailedTasks()
      reads this
    {
      Maps().HasFailed()
    }

    predicate CanExecuteTask(id: string)
      reads this
    {
      Maps().CanExecute(id)
    }

    /** Persists the state; all that is observable here is the refreshed update time. */
    method SaveToDatabase(now: Time)
      requires Valid()
      modifies this
      ensures Valid()
      ensures Maps() == old(Maps()) && overallStatus == old(overallStatus)
      ensures lastUpdated == now && saves == old(saves) + 1
    {
      lastUpdated := now;
      saves := saves + 1;
    }
  }
}
