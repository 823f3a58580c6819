# Task-scheduling core of the agent orchestrator, in Dafny

This project models the engine that runs a project plan. The engine is a
list of tasks with role names and dependency lists, and it runs the plan by
handing tasks to role agents. The model has five parts:

- **Tasks** (`task.dfy`): the immutable task record, its status enum and
  its four transitions (start, complete, fail, retry). Each transition
  builds a new record.
- **Plans** (`project_plan.dfy`): the plan record and its queries: tasks by
  role, the id→dependencies map and the inverse dependency→dependents map.
- **Agents** (`agent_repository.dfy`): the fixed catalogue of four agents,
  with first-match lookup by role name and by id.
- **States** (`project_state.dfy`): the execution state of one project, a
  class that updates three maps in place. The maps are `taskMap`,
  `statusMap` and `retryCountMap`, all keyed by task id. The class also has
  an `overallStatus`, recomputed from the task snapshots, and the dependency
  gate `CanExecute`. The value `StateMaps` and its pure updates (`Put`,
  `SetStatus`, `IncrementRetry`) specify what each class method does.
- **Orchestration** (`agent_orchestrator.dfy`): the orchestrator class. It
  holds the role→agent registry and the scheduler loop (`ExecuteTasks`),
  which dispatches the ready Pending tasks of a round. It also has the
  dispatch of one task and the failure handler with a retry budget of 3.
  Other parts are the retry sweep over Failed tasks, seeding a state from a
  plan, and resuming from a stored state. Each method is proved against a
  pure function of the maps (`AfterTask`, `AfterFailure`, `AfterRound`,
  `AfterSweep`, `RunTasks`, `Seed`). The scheduling guarantees are lemmas
  about those functions.

An agent's work is an oracle `execute: (RoleAgent, Task) -> bool`. A wall
clock reading is a `now: Time` parameter. Each orchestrator call takes one
`now`, used for every timestamp written during that call.

Naming: the project-level status enum of `ProjectState.java`
(`PENDING`, `RUNNING`, `COMPLETED`, `FAILED`) is
`States.ProjectStatus` with the constructors `NotStarted`, `InProgress`,
`AllCompleted` and `SomeFailed`. The renaming keeps those constructors
apart from the task statuses.

### Behaviour of the code kept as it is

These are properties of the model, each stated by the member named:

- A dependency id that is not a task of the state counts as satisfied
  (`States.StateMaps.CanExecute`). A plan is never validated for unknown
  dependencies or cycles.
- `UpdateTaskStatus` changes only the status map. The overall status is
  computed from the task snapshots, so it does not change
  (`States.ProjectState.UpdateTaskStatus`).
- The scheduler loop runs at most one round. After a round either some
  status is Failed, which stops the loop, or the change flag is
  overwritten by the retry sweep. The sweep finds no Failed task and
  reports no change (`NoFailureNoSweep`, and `rounds <= 1` on
  `ExecuteTasks`). So a plan in which b depends on a ends with a
  completed and b still Pending, even when every agent succeeds
  (`ChainStopsAfterOneRound`).
- The retry sweep is gated on there being no Failed status. Whenever it
  runs, it therefore has nothing to re-run.
- In the failure handler, the raised retry count is overwritten by the
  snapshot of `task.retry()`. The recorded count after a retry is the
  dispatched task's own count plus one (`AfterFailure`, `RoundOutcome`).
- A role with no registered agent is treated exactly like an agent
  reporting failure. It consumes retry budget like any failure.
- On resume, a task found Running is not reset to Pending. It is never
  dispatched again (`SettledTaskUntouched`).
- A task left Retrying by a round is not Pending, so it is never
  dispatched again either: the retry status only records that budget was
  spent (`SettledTaskUntouched`).
- Tasks are dispatched one after another, in plan order.
- Retry budget: for a plan whose ids are unique and whose counts are
  within 0..3, every recorded count stays within 0..3 after a run
  (`ProjectRunKeepsRetryBudget`). With two plan tasks sharing an id this
  fails: the retry decision reads the count recorded for the id, but the
  new count is the dispatched value's own count plus one, so a count of 4
  can be recorded (`DuplicateIdsBreakBudget`).

The code has no fixpoint loop, no `Blocked` project status, no
non-retryable failure for unknown roles and no reset of Running tasks on
resume; the model follows the code.

## Model

| member | source | states |
|---|---|---|
| Tasks.NewTask | src/main/java/com/aiteam/orchestrator/Task.java:20-30 | a null dependency list is stored as the empty list; every other field is stored as given |
| Tasks.Create | src/main/java/com/aiteam/orchestrator/Task.java:53-64 | a new task is Pending with retry count 0, carries the given id, role, dependencies and description, and has both timestamps equal to the creation time |
| Tasks.Task.Start | src/main/java/com/aiteam/orchestrator/Task.java:69-74 | status becomes Running, retry count unchanged, identity fields kept, update time refreshed |
| Tasks.Task.Complete | src/main/java/com/aiteam/orchestrator/Task.java:79-84 | status becomes Completed, retry count unchanged, identity fields kept, update time refreshed |
| Tasks.Task.Fail | src/main/java/com/aiteam/orchestrator/Task.java:89-94 | status becomes Failed, retry count unchanged, identity fields kept, update time refreshed |
| Tasks.Task.Retry | src/main/java/com/aiteam/orchestrator/Task.java:99-104 | status becomes Retrying and the retry count is the old one plus 1; identity fields kept, update time refreshed |
| Tasks.HistoryOfTransitions | src/main/java/com/aiteam/orchestrator/Task.java:69-104 | any sequence of transitions keeps id, role, dependencies, creation time and description; it ends in the last step's status and time, and raises the retry count by exactly the number of retries |
| Plans.Plan.Update | src/main/java/com/aiteam/orchestrator/ProjectPlan.java:88-93 | only the task list and update time change; project id, title, description and creation time are kept |
| Plans.Create | src/main/java/com/aiteam/orchestrator/ProjectPlan.java:74-83 | the plan stores the given id, title, description and tasks unchanged, created and updated now |
| Plans.TasksByRole | src/main/java/com/aiteam/orchestrator/ProjectPlan.java:41-45 | a task is in the result iff it is in the plan and has the role |
| Plans.TasksByRoleKeepsOrder | src/main/java/com/aiteam/orchestrator/ProjectPlan.java:41-45 | filtering commutes with concatenation, so the result keeps plan order |
| Plans.CollectDependencies | src/main/java/com/aiteam/orchestrator/ProjectPlan.java:50-56 | inserting tasks one by one succeeds iff no id repeats or clashes with an existing key; the result maps each id to its task's dependency list, and a failure names the first task id that is already a key or repeats an earlier task's id |
| Plans.Dependencies | src/main/java/com/aiteam/orchestrator/ProjectPlan.java:50-56 | defined iff the ids are unique (a duplicate key is an error, naming an id that two tasks share); the keys are exactly the plan's ids, and each maps to its task's dependency list |
| Plans.EdgesOf | src/main/java/com/aiteam/orchestrator/ProjectPlan.java:63-64 | the pairs of one task are exactly (dependency, task id) for each of its dependencies |
| Plans.Edges | src/main/java/com/aiteam/orchestrator/ProjectPlan.java:62-64 | a pair is listed iff some plan task has that id and lists that dependency |
| Plans.Group | src/main/java/com/aiteam/orchestrator/ProjectPlan.java:65-67 | the group of d holds exactly the second components of the pairs whose first component is d |
| Plans.Dependents | src/main/java/com/aiteam/orchestrator/ProjectPlan.java:61-69 | the keys are exactly the ids listed as some task's dependency, including ids that are not tasks; each key maps to its dependents in plan order |
| Plans.DependentsInvert | src/main/java/com/aiteam/orchestrator/ProjectPlan.java:61-69 | x is listed under d iff some task with id x depends on d |
| Plans.GroupAppend | src/main/java/com/aiteam/orchestrator/ProjectPlan.java:65-67 | grouping commutes with concatenation |
| Plans.EdgesAppend | src/main/java/com/aiteam/orchestrator/ProjectPlan.java:62-64 | the pairs of a + b are those of a followed by those of b |
| Plans.DependentsKeepOrder | src/main/java/com/aiteam/orchestrator/ProjectPlan.java:61-69 | the dependents of d in a + b are those in a followed by those in b, so each list follows plan order |
| Agents.FindAll | src/main/java/com/aiteam/orchestrator/AgentRepository.java:51-59 | four active agents with ids "1" to "4" and pairwise distinct role names and ids |
| Agents.FirstMatch | src/main/java/com/aiteam/orchestrator/AgentRepository.java:62-75 | none iff no element satisfies the filter; otherwise the element at the first index that does |
| Agents.FindByRoleName | src/main/java/com/aiteam/orchestrator/AgentRepository.java:62-67 | found iff some catalogue agent has the role name, and what is found is such an agent |
| Agents.FindById | src/main/java/com/aiteam/orchestrator/AgentRepository.java:70-75 | found iff some catalogue agent has the id, and what is found is such an agent |
| Agents.Exists | src/main/java/com/aiteam/orchestrator/AgentRepository.java:90-92 | holds iff the lookup by id finds an agent, that is iff the id is one of "1" to "4" |
| States.StateMaps.HasFailed | src/main/java/com/aiteam/orchestrator/ProjectState.java:89-92 | holds iff some quick-lookup status is Failed |
| States.StateMaps.DependenciesMet | src/main/java/com/aiteam/orchestrator/ProjectState.java:98-104 | holds iff every dependency is absent from the task map or has status Completed |
| States.StateMaps.CanExecute | src/main/java/com/aiteam/orchestrator/ProjectState.java:95-105 | holds iff the id is a known task and each of its dependencies is unknown as a task or has quick-lookup status Completed |
| States.PutThenRead | src/main/java/com/aiteam/orchestrator/ProjectState.java:37-58 | after storing a task, its id reads that task, status and retry count; every other id reads as before |
| States.SetStatusThenRead | src/main/java/com/aiteam/orchestrator/ProjectState.java:61-68 | overwriting a status changes only that id's status; snapshots and retry counts are untouched |
| States.IncrementRetryThenRead | src/main/java/com/aiteam/orchestrator/ProjectState.java:71-78 | raising a retry count adds exactly one to that id's count (giving 1 for an id never recorded) and changes nothing else |
| States.UnknownIdDefaults | src/main/java/com/aiteam/orchestrator/ProjectState.java:52-83 | an unknown id has no task, reads as Pending with retry count 0, is not completed and cannot execute |
| States.OverallAgreesWhenSynced | src/main/java/com/aiteam/orchestrator/ProjectState.java:119-138 | while the maps agree, the overall status from the snapshots equals the one the quick-lookup statuses would give |
| States.DeriveOverallStatus | src/main/java/com/aiteam/orchestrator/ProjectState.java:119-138 | the two passes over the snapshots yield: no tasks → not started, all completed → completed, otherwise any failed → failed, otherwise in progress |
| States.ProjectState.constructor | src/main/java/com/aiteam/orchestrator/ProjectState.java:19-26 | a new state has empty maps, is not started, and is updated now |
| States.ProjectState.AddTask | src/main/java/com/aiteam/orchestrator/ProjectState.java:37-42 | the task, its status and its retry count are stored under its id, other ids are unchanged, the overall status is recomputed, and the update time is kept |
| States.ProjectState.UpdateTask | src/main/java/com/aiteam/orchestrator/ProjectState.java:44-50 | like adding, and the update time becomes now |
| States.ProjectState.UpdateTaskStatus | src/main/java/com/aiteam/orchestrator/ProjectState.java:61-64 | only the status map changes, at that id; the overall status stays what it was |
| States.ProjectState.IncrementRetryCount | src/main/java/com/aiteam/orchestrator/ProjectState.java:71-74 | only the retry map changes, to the previous count (default 0) plus one |
| States.ProjectState.IsProjectCompleted | src/main/java/com/aiteam/orchestrator/ProjectState.java:85-87 | holds iff there are tasks and every snapshot is Completed |
| States.ProjectState.SaveToDatabase | src/main/java/com/aiteam/orchestrator/ProjectState.java:108-112 | the maps and overall status are unchanged; the update time becomes now and one more save is counted |
| Orchestration.InitialAgents | src/main/java/com/aiteam/orchestrator/AgentOrchestrator.java:28-33 | the registry holds exactly the four role names, each mapped to the agent of that role |
| Orchestration.RegistryMatchesCatalogue | src/main/java/com/aiteam/orchestrator/AgentOrchestrator.java:28-33 | a role has a registered agent iff the agent catalogue has an agent with that role name |
| Orchestration.AfterFailure | src/main/java/com/aiteam/orchestrator/AgentOrchestrator.java:122-138 | under budget (count < 3) the task is stored as retried, and its recorded count becomes the task's count plus one; otherwise it is stored as failed with status Failed in both maps |
| Orchestration.AfterTask | src/main/java/com/aiteam/orchestrator/AgentOrchestrator.java:89-117 | a dispatched task ends Completed iff it succeeded, otherwise Retrying or Failed by the budget; no other id is touched |
| Orchestration.ReadyTasks | src/main/java/com/aiteam/orchestrator/AgentOrchestrator.java:62-65 | a plan task is selected iff it passes the dependency gate and its status is Pending |
| Orchestration.FailedTasks | src/main/java/com/aiteam/orchestrator/AgentOrchestrator.java:146-148 | a plan task is selected iff its status is Failed |
| Orchestration.RoundLeavesOthersAlone | src/main/java/com/aiteam/orchestrator/AgentOrchestrator.java:68-72 | a round leaves every id it does not dispatch unchanged in all three maps |
| Orchestration.RoundKeepsSynced | src/main/java/com/aiteam/orchestrator/AgentOrchestrator.java:68-72 | a round keeps the three maps in agreement |
| Orchestration.RoundOutcome | src/main/java/com/aiteam/orchestrator/AgentOrchestrator.java:68-72 | with unique ids, each dispatched task ends completed on success; otherwise it is retried if its pre-round count was under 3 and failed if not |
| Orchestration.RoundKeepsRetryBudget | src/main/java/com/aiteam/orchestrator/AgentOrchestrator.java:122-138 | when each dispatched task is the stored snapshot, every recorded retry count stays within 0..3 |
| Orchestration.RetryWithinBudgetAt | src/main/java/com/aiteam/orchestrator/AgentOrchestrator.java:122-138 | under the same conditions, the recorded count of any one id after the round is within 0..3 |
| Orchestration.ReadyTasksUnique | src/main/java/com/aiteam/orchestrator/AgentOrchestrator.java:62-65 | the ready list of a plan with unique ids has unique ids |
| Orchestration.ProjectRunKeepsRetryBudget | src/main/java/com/aiteam/orchestrator/AgentOrchestrator.java:38-84 | for a plan with unique ids and counts within 0..3, the state a project run ends in has every recorded count within 0..3 |
| Orchestration.DuplicateIdsBreakBudget | src/main/java/com/aiteam/orchestrator/AgentOrchestrator.java:122-138 | with two failing Pending plan tasks sharing an id, counts 0 and then 3, the seeded counts are within budget but the run records count 4 |
| Orchestration.SettledTaskUntouched | src/main/java/com/aiteam/orchestrator/AgentOrchestrator.java:58-72 | a task whose status is not Pending is never dispatched; a Running task left by a previous run is not reset |
| Orchestration.NoFailureNoSweep | src/main/java/com/aiteam/orchestrator/AgentOrchestrator.java:75-77 | when no status is Failed, the retry sweep finds no tasks, changes nothing and reports no change |
| Orchestration.SweepLeavesOthersAlone | src/main/java/com/aiteam/orchestrator/AgentOrchestrator.java:143-159 | the retry sweep leaves every id outside the listed tasks unchanged in all three maps |
| Orchestration.SweepOutcome | src/main/java/com/aiteam/orchestrator/AgentOrchestrator.java:143-159 | with unique ids, a listed task whose recorded count is under 3 is re-run and ends completed, retried or failed by that count; one whose recorded count is 3 or more is skipped and its entries are unchanged |
| Orchestration.ChainStopsAfterOneRound | src/main/java/com/aiteam/orchestrator/AgentOrchestrator.java:55-84 | for any plan [a, b] in which b depends only on a and a succeeds, the loop ends with a completed, b still Pending and the project in progress |
| Orchestration.SeedSynced | src/main/java/com/aiteam/orchestrator/AgentOrchestrator.java:39-40 | seeding from a plan keeps the maps in agreement and keyed by id, and the keys are exactly the plan's ids |
| Orchestration.SeedStoresPlan | src/main/java/com/aiteam/orchestrator/AgentOrchestrator.java:39-40 | with unique ids, each plan task is stored unchanged under its id |
| Orchestration.SeedStoresEach | src/main/java/com/aiteam/orchestrator/AgentOrchestrator.java:39-40 | with unique ids, the i-th plan task is stored under its id and no later task overwrites it |
| Orchestration.ValuesInSomeOrder | src/main/java/com/aiteam/orchestrator/AgentOrchestrator.java:174 | lists every stored task exactly once, in some order |
| Orchestration.AgentOrchestrator.constructor | src/main/java/com/aiteam/orchestrator/AgentOrchestrator.java:19-23 | the registry is the four built-in agents |
| Orchestration.AgentOrchestrator.ExecuteProject | src/main/java/com/aiteam/orchestrator/AgentOrchestrator.java:38-50 | a fresh state is seeded with every plan task before any runs and saved once; the final maps are those of the scheduler loop run on the seeded state |
| Orchestration.AgentOrchestrator.ExecuteTasks | src/main/java/com/aiteam/orchestrator/AgentOrchestrator.java:55-84 | at most one round runs, and it runs iff the project is not completed and no status is Failed; the maps end as that round leaves them, and the state is saved after it iff some status is then Failed and some dispatch succeeded |
| Orchestration.AgentOrchestrator.ExecuteRound | src/main/java/com/aiteam/orchestrator/AgentOrchestrator.java:68-72 | dispatches the tasks in order and reports whether any succeeded |
| Orchestration.AgentOrchestrator.ExecuteTask | src/main/java/com/aiteam/orchestrator/AgentOrchestrator.java:89-117 | the result is true iff the role has an agent that reports success; the maps end as in the one-task function |
| Orchestration.AgentOrchestrator.HandleTaskFailure | src/main/java/com/aiteam/orchestrator/AgentOrchestrator.java:122-138 | the maps end as in the failure function |
| Orchestration.AgentOrchestrator.TryRetryFailedTasks | src/main/java/com/aiteam/orchestrator/AgentOrchestrator.java:143-159 | re-runs in plan order each Failed task whose recorded count is under 3, and reports whether any re-run succeeded |
| Orchestration.AgentOrchestrator.ResumeExecution | src/main/java/com/aiteam/orchestrator/AgentOrchestrator.java:164-180 | fails with state-not-found when nothing is stored; otherwise it rebuilds a plan holding each stored task once, with the fixed title and description, and runs the scheduler loop on the stored state, which saves and refreshes the update time exactly as in the loop |

## Left out

- Timestamps: every `LocalDateTime.now()` within one orchestrator call is the same `now` parameter.
- Agent work: the concrete agents sleep, print and return true, or false when the sleep is interrupted. Here an agent is an oracle `execute`, deterministic for a given agent and task value. The oracle may also return false.
- Logging: every `System.out` line is left out.
- Concurrency: `ConcurrentHashMap` thread safety is irrelevant to this sequential model.
- Null values: null ids, roles, strings and map values are not modelled. The null dependency list is the one null that is modelled (`Tasks.NewTask`).
- Tasks.Task.Retry: the retry count is an unbounded integer, so the 32-bit wrap-around of `retryCount + 1` is not modelled. It can occur: the retry decision reads the recorded count, while the new count is the dispatched value's own count plus one, so a plan task whose count is the largest int, sharing its id with a task whose stored count is under 3, wraps.
- The copying getters of `ProjectState` (`getTaskMap`, `getStatusMap`, `getRetryCountMap`): maps in this model are values, so a returned map cannot alias the state. No separate members model them.
- `getProjectId`, `getLastUpdated` and `getOverallStatus` are the class's fields read directly. `GetTask`, `HasTask`, `GetTaskStatus`, `GetRetryCount`, `IsTaskCompleted`, `HasFailedTasks` and `CanExecuteTask` on the class only delegate to the `StateMaps` queries, which carry the contracts.
- Persistence: `saveToDatabase` is modelled as refreshing the update time plus a ghost count of saves. `loadFromDatabase` only prints. The state repository (`ProjectStateRepository.java`) is not part of this model. Its load is the `loaded` parameter of `ResumeExecution`, null when nothing is stored. `getProjectState` only forwards to that repository.
- Agents: `save` and `delete` only log. The catalogue is a constant, so they cannot change what `FindAll` returns, and they are not modelled as members.
- Orchestration.AgentOrchestrator.ExecuteProject: the wrapping of exceptions in an orchestrator exception is left out. Inside the model the loop raises none, because a missing agent is handled like a failure. The method returns the state it built so that its end can be stated.
- Orchestration.AgentOrchestrator.ResumeExecution: the exception for a missing state is the `Fail(StateNotFound(projectId))` result. The order of the rebuilt task list is left unspecified, because it is the hash map's iteration order.
- The HTTP and WebSocket layers, the plan-generating dispatcher, the DTOs and the framework configuration are not part of this model.
