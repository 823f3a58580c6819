/**
 * The task value of the orchestrator: an immutable record whose lifecycle
 * transitions (start, complete, fail, retry) each build a new record.
 * Values in Dafny are never updated in place, so "a transition leaves its
 * receiver unchanged" holds by construction.
 */
module Tasks {
  import opened Wrappers

  /** A reading of the wall clock; only ever copied, never inspected. */
  type Time = nat

  datatype TaskStatus = Pending | Running | Completed | Failed | Retrying

  datatype Task = Task(
    id: string,
    role: string,
    dependencies: seq<string>,
    status: TaskStatus,
    retryCount: int,
    createdAt: Time,
    updatedAt: Time,
    description: string)
  {
    /** Marks the task as being executed. */
    function Start(now: Time): (r: Task)
      ensures r.status == Running && r.retryCount == retryCount
      ensures SameIdentity(this, r) && r.updatedAt == now
    {
      this.(status := Running, updatedAt := now)
    }

    /** Marks the task as finished successfully. */
    function Complete(now: Time): (r: Task)
      ensures r.status == Completed && r.retryCount == retryCount
      ensures SameIdentity(this, r) && r.updatedAt == now
    {
      this.(status := Completed, updatedAt := now)
    }

    /** Marks the task as failed for good. */
    function Fail(now: Time): (r: Task)
      ensures r.status == Failed && r.retryCount == retryCount
      ensures SameIdentity(this, r) && r.updatedAt == now
    {
      this.(status := Failed, updatedAt := now)
    }

    /** Marks the task for another attempt, consuming one unit of retry budget. */
    function Retry(now: Time): (r: Task)
      ensures r.status == Retrying && r.retryCount == retryCount + 1
      ensures SameIdentity(this, r) && r.updatedAt == now
    {
      this.(status := Retrying, retryCount := retryCount + 1, updatedAt := now)
    }
  }

  /** The fields a transition never changes: everything but status, retry count and update time. */
  predicate SameIdentity(a: Task, b: Task)
  {
    && a.id == b.id
    && a.role == b.role
    && a.dependencies == b.dependencies
    && a.createdAt == b.createdAt
    && a.description == b.description
  }

  /**
   * The all-fields constructor. A missing (null) dependency list is stored
   * as the empty list; every other argument is stored as given.
   */
  function NewTask(id: string, role: string, dependencies: Option<seq<string>>, status: TaskStatus,
                   retryCount: int, createdAt: Time, updatedAt: Time, description: string): (t: Task)
    ensures dependencies.None? ==> t.dependencies == []
    ensures dependencies.Some? ==> t.dependencies == dependencies.value
    ensures t.id == id && t.role == role && t.status == status && t.retryCount == retryCount
    ensures t.createdAt == createdAt && t.updatedAt == updatedAt && t.description == description
  {
    var deps := match dependencies
      case None => []
      case Some(ds) => ds;
    Task(id, role, deps, status, retryCount, createdAt, updatedAt, description)
  }

  /** A brand-new task: waiting to run, no retries used, both timestamps the creation time. */
  function Create(id: string, role: string, dependencies: Option<seq<string>>, description: string,
                  now: Time): (t: Task)
    ensures t.status == Pending && t.retryCount == 0
    ensures t.id == id && t.role == role && t.description == description
    ensures t.dependencies == (if dependencies.Some? then dependencies.value else [])
    ensures t.createdAt == now && t.updatedAt == now
  {
    NewTask(id, role, dependencies, Pending, 0, now, now, description)
  }

  /** The four transitions, as data, so that histories of them can be reasoned about. */
  datatype Transition = ToRunning | ToCompleted | ToFailed | ToRetrying

  /** One transition taken at a given time. */
  datatype Step = Step(kind: Transition, at: Time)

  function Apply(t: Task, s: Step): Task
  {
    match s.kind
    case ToRunning => t.Start(s.at)
    case ToCompleted => t.Complete(s.at)
    case ToFailed => t.Fail(s.at)
    case ToRetrying => t.Retry(s.at)
  }

  /** The status each transition leads to. */
  function Target(k: Transition): TaskStatus
  {
    match k
    case ToRunning => Running
    case ToCompleted => Completed
    case ToFailed => Failed
    case ToRetrying => Retrying
  }

  /** Applies the steps in order, first to last. */
  function ApplyAll(t: Task, steps: seq<Step>): Task
    decreases |steps|
  {
    if steps == [] then t else ApplyAll(Apply(t, steps[0]), steps[1..])
  }

  /** How many of the steps are retries. */
  function RetriesIn(steps: seq<Step>): nat
  {
    if steps == [] then 0
    else (if steps[0].kind == ToRetrying then 1 else 0) + RetriesIn(steps[1..])
  }

  /**
   * Any history of transitions keeps the task's identity, ends in the status
   * of its last step with that step's time, and raises the retry count by
   * exactly the number of retries taken.
   */
  lemma {:induction false} HistoryOfTransitions(t: Task, steps: seq<Step>)
    ensures var r := ApplyAll(t, steps);
      && SameIdentity(t, r)
      && r.retryCount == t.retryCount + RetriesIn(steps)
      && (steps == [] ==> r == t)
      && (steps != [] ==> r.status == Target(steps[|steps| - 1].kind)
                          && r.updatedAt == steps[|steps| - 1].at)
    decreases |steps|
  {
    if steps != [] {
      var u := Apply(t, steps[0]);
      HistoryOfTransitions(u, steps[1..]);
      if |steps| > 1 {
        assert steps[1..][|steps[1..]| - 1] == steps[|steps| - 1];
      }
    }
  }
}
