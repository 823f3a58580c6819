/**
 * The scheduler: seeds a project state from a plan, dispatches the tasks
 * whose dependencies are met to the agent registered for their role, and
 * applies a retry budget of three to failures.
 *
 * Each method of `AgentOrchestrator` is proved against a pure function of
 * the state's maps (`AfterTask`, `AfterRound`, `RunTasks`, ...), and the
 * scheduling guarantees are lemmas about those functions.
 */
module Orchestration {
  import opened Wrappers
  import opened Tasks
  import opened Plans
  import opened States
  import Agents

  /** The retry budget of a task. */
  const MaxRetries: int := 3

  /** The four built-in agents. */
  datatype RoleAgent = BackendAgent | FrontendAgent | TestingAgent | ArchitectureAgent

  /** The role name each agent reports for itself. */
  function RoleName(a: RoleAgent): string
  {
    match a
    case BackendAgent => Agents.BackendRole
    case FrontendAgent => Agents.FrontendRole
    case TestingAgent => Agents.TestingRole
    case ArchitectureAgent => Agents.ArchitectureRole
  }

  /** The role -> agent registry filled when the orchestrator is built. */
  function InitialAgents(): (m: map<string, RoleAgent>)
    ensures m.Keys == {Agents.BackendRole, Agents.FrontendRole, Agents.TestingRole, Agents.ArchitectureRole}
    ensures forall role :: role in m ==> RoleName(m[role]) == role
  {
    map[Agents.BackendRole := BackendAgent, Agents.FrontendRole := FrontendAgent,
        Agents.TestingRole := TestingAgent, Agents.ArchitectureRole := ArchitectureAgent]
  }

  /** The roles the orchestrator can dispatch are exactly the role names of the agent catalogue. */
  lemma RegistryMatchesCatalogue(role: string)
    ensures role in InitialAgents() <==> Agents.FindByRoleName(role).Some?
  {
    var all := Agents.FindAll();
    if role in InitialAgents() {
      assert all[0].roleName == Agents.BackendRole && all[1].roleName == Agents.FrontendRole;
      assert all[2].roleName == Agents.TestingRole && all[3].roleName == Agents.ArchitectureRole;
      assert exists a :: a in all && a.roleName == role by {
        if role == Agents.BackendRole { assert all[0] in all; }
        else if role == Agents.FrontendRole { assert all[1] in all; }
        else if role == Agents.TestingRole { assert all[2] in all; }
        else { assert all[3] in all; }
      }
    }
  }

  /** What an agent reports for a task: true for success. Agent work itself is not modelled. */
  type Executor = (RoleAgent, Task) -> bool

  /** A registry together with the agents' behaviour. */
  datatype Dispatch = Dispatch(agents: map<string, RoleAgent>, execute: Executor)
  {
    /** A task succeeds when its role has an agent and that agent reports success. */
    predicate Succeeds(t: Task)
    {
      t.role in agents && execute(agents[t.role], t)
    }
  }

  function Lookup<V>(m: map<string, V>, k: string): Option<V>
  {
    if k in m then Some(m[k]) else None
  }

  /** The two states agree on the entries of id in all three maps. */
  predicate SameAt(a: StateMaps, b: StateMaps, id: string)
  {
    && Lookup(a.tasks, id) == Lookup(b.tasks, id)
    && Lookup(a.statuses, id) == Lookup(b.statuses, id)
    && Lookup(a.retries, id) == Lookup(b.retries, id)
  }

  /** Every recorded retry count is within the budget. */
  predicate RetriesWithinBudget(m: StateMaps)
  {
    forall id :: id in m.retries ==> 0 <= m.retries[id] <= MaxRetries
  }

  /**
   * The snapshot a dispatched task ends with: completed on success;
   * otherwise retried while the recorded count is under the budget, failed
   * once it is not. The retry is built from the dispatched value, so its
   * count is that value's count plus one.
   */
  function Settled(recorded: int, t: Task, success: bool, now: Time): Task
  {
    if success then t.Complete(now)
    else if recorded < MaxRetries then t.Retry(now)
    else t.Fail(now)
  }

  // ---------------------------------------------------------------------
  // One task
  // ---------------------------------------------------------------------

  /**
   * The failure handler's effect. Under budget, the recorded count is first
   * raised by one and then overwritten by the count of the retried value.
   */
  function AfterFailure(m: StateMaps, t: Task, now: Time): (r: StateMaps)
    ensures r.tasks == m.tasks[t.id := Settled(m.RetryOf(t.id), t, false, now)]
    ensures r.statuses == m.statuses[t.id := Settled(m.RetryOf(t.id), t, false, now).status]
    ensures r.retries == m.retries[t.id := Settled(m.RetryOf(t.id), t, false, now).retryCount]
    ensures m.RetryOf(t.id) < MaxRetries ==> r.RetryOf(t.id) == t.retryCount + 1 && r.StatusOf(t.id) == Retrying
    ensures m.RetryOf(t.id) >= MaxRetries ==> r.RetryOf(t.id) == t.retryCount && r.StatusOf(t.id) == Failed
  {
    if m.RetryOf(t.id) < MaxRetries then m.IncrementRetry(t.id).Put(t.Retry(now))
    else m.Put(t.Fail(now)).SetStatus(t.id, Failed)
  }

  /**
   * The effect of dispatching one task: its status is first set to Running,
   * then the task is settled. Afterwards the three maps agree on the task's
   * id, and no other id is touched.
   */
  function AfterTask(m: StateMaps, t: Task, success: bool, now: Time): (r: StateMaps)
    ensures r.tasks == m.tasks[t.id := Settled(m.RetryOf(t.id), t, success, now)]
    ensures r.statuses == m.statuses[t.id := Settled(m.RetryOf(t.id), t, success, now).status]
    ensures r.retries == m.retries[t.id := Settled(m.RetryOf(t.id), t, success, now).retryCount]
    ensures r.StatusOf(t.id) in {Completed, Retrying, Failed}
    ensures r.StatusOf(t.id) == Completed <==> success
    ensures forall id :: id != t.id ==> SameAt(r, m, id)
  {
    var running := m.SetStatus(t.id, Running);
    if success then running.Put(t.Complete(now)) else AfterFailure(running, t, now)
  }

  // ---------------------------------------------------------------------
  // One round, and the scheduler loop
  // ---------------------------------------------------------------------

  /** The plan tasks the round dispatches: those past the dependency gate whose status is Pending, in plan order. */
  function ReadyTasks(ts: seq<Task>, m: StateMaps): (r: seq<Task>)
    ensures forall t :: t in r <==> t in ts && m.CanExecute(t.id) && m.StatusOf(t.id) == Pending
    ensures |r| <= |ts|
  {
    if ts == [] then []
    else
      var keep := m.CanExecute(ts[0].id) && m.StatusOf(ts[0].id) == Pending;
      (if keep then [ts[0]] else []) + ReadyTasks(ts[1..], m)
  }

  /** Dispatches the tasks one after another, first to last. */
  function AfterRound(m: StateMaps, ts: seq<Task>, d: Dispatch, now: Time): StateMaps
    decreases |ts|
  {
    if ts == [] then m
    else
      var last := ts[|ts| - 1];
      AfterTask(AfterRound(m, ts[..|ts| - 1], d, now), last, d.Succeeds(last), now)
  }

  predicate AnySucceeds(ts: seq<Task>, d: Dispatch)
  {
    exists t :: t in ts && d.Succeeds(t)
  }

  /** Extending a prefix by one task adds that task's outcome to the flag. */
  lemma AnySucceedsExtend(ts: seq<Task>, i: nat, d: Dispatch)
    requires i < |ts|
    ensures AnySucceeds(ts[..i + 1], d) <==> AnySucceeds(ts[..i], d) || d.Succeeds(ts[i])
  {
    assert forall t :: t in ts[..i + 1] <==> t in ts[..i] || t == ts[i];
  }

  /** The plan tasks whose status is Failed, in plan order. */
  function FailedTasks(ts: seq<Task>, m: StateMaps): (r: seq<Task>)
    ensures forall t :: t in r <==> t in ts && m.StatusOf(t.id) == Failed
  {
    if ts == [] then []
    else (if m.StatusOf(ts[0].id) == Failed then [ts[0]] else []) + FailedTasks(ts[1..], m)
  }

  /** The retry sweep's final maps, whether any re-run succeeded, and whether any task was re-run. */
  datatype Sweep = Sweep(maps: StateMaps, changed: bool, dispatched: bool)

  /** One step of the retry sweep: re-runs t when its recorded count is still under the budget. */
  function SweepStep(prev: Sweep, t: Task, d: Dispatch, now: Time): Sweep
  {
    if prev.maps.RetryOf(t.id) < MaxRetries then
      var ok := d.Succeeds(t);
      Sweep(AfterTask(prev.maps, t, ok, now), prev.changed || ok, true)
    else prev
  }

  /** Re-runs, first to last, each listed task whose recorded count is still under the budget. */
  function AfterSweep(m: StateMaps, ts: seq<Task>, d: Dispatch, now: Time): Sweep
    decreases |ts|
  {
    if ts == [] then Sweep(m, false, false)
    else SweepStep(AfterSweep(m, ts[..|ts| - 1], d, now), ts[|ts| - 1], d, now)
  }

  /** Extending the swept prefix by one task is one more sweep step. */
  lemma SweepExtend(m: StateMaps, ts: seq<Task>, i: nat, d: Dispatch, now: Time)
    requires i < |ts|
    ensures AfterSweep(m, ts[..i + 1], d, now) == SweepStep(AfterSweep(m, ts[..i], d, now), ts[i], d, now)
  {
    assert ts[..i + 1][..i] == ts[..i];
  }

  /** The sweep touches no id other than those of the listed tasks. */
  lemma {:induction false} SweepLeavesOthersAlone(m: StateMaps, ts: seq<Task>, d: Dispatch, now: Time, id: string)
    requires forall t :: t in ts ==> t.id != id
    ensures SameAt(AfterSweep(m, ts, d, now).maps, m, id)
    decreases |ts|
  {
    if ts != [] {
      var pre := ts[..|ts| - 1];
      assert forall t :: t in pre ==> t in ts;
      SweepLeavesOthersAlone(m, pre, d, now, id);
      assert ts[|ts| - 1] in ts;
    }
  }

  /**
   * With unique ids, a listed task whose recorded count is under the budget
   * is re-run and settled from that count; one whose recorded count has
   * reached the budget is skipped and its entries stay as they were.
   */
  lemma {:induction false} SweepOutcome(m: StateMaps, ts: seq<Task>, d: Dispatch, now: Time, t: Task)
    requires UniqueIds(ts) && t in ts
    ensures m.RetryOf(t.id) < MaxRetries ==>
              Holds(AfterSweep(m, ts, d, now).maps, Settled(m.RetryOf(t.id), t, d.Succeeds(t), now))
    ensures m.RetryOf(t.id) >= MaxRetries ==> SameAt(AfterSweep(m, ts, d, now).maps, m, t.id)
    decreases |ts|
  {
    var pre := ts[..|ts| - 1];
    var last := ts[|ts| - 1];
    UniqueIdsDropLast(ts);
    if t == last {
      LastSweepOutcome(m, ts, d, now);
    } else {
      assert t in pre by { assert ts == pre + [last]; }
      SweepOutcome(m, pre, d, now, t);
      assert t.id != last.id;
    }
  }

  /** The last listed task, whose id no earlier task shares, is swept against the count recorded before the sweep. */
  lemma LastSweepOutcome(m: StateMaps, ts: seq<Task>, d: Dispatch, now: Time)
    requires ts != []
    requires forall u :: u in ts[..|ts| - 1] ==> u.id != ts[|ts| - 1].id
    ensures var last := ts[|ts| - 1];
      && (m.RetryOf(last.id) < MaxRetries ==>
            Holds(AfterSweep(m, ts, d, now).maps, Settled(m.RetryOf(last.id), last, d.Succeeds(last), now)))
      && (m.RetryOf(last.id) >= MaxRetries ==> SameAt(AfterSweep(m, ts, d, now).maps, m, last.id))
  {
    var pre := ts[..|ts| - 1];
    var last := ts[|ts| - 1];
    SweepLeavesOthersAlone(m, pre, d, now, last.id);
    assert AfterSweep(m, pre, d, now).maps.RetryOf(last.id) == m.RetryOf(last.id);
  }

  /** The loop runs a round while the project is not completed and no status is Failed. */
  predicate Continues(m: StateMaps)
  {
    OverallOf(m.tasks) != AllCompleted && !m.HasFailed()
  }

  /**
   * The whole effect of the scheduler loop on the maps: at most one round,
   * because after a round either some status is Failed or the change flag
   * has been overwritten by the (empty) retry sweep.
   */
  function RunTasks(ts: seq<Task>, m: StateMaps, d: Dispatch, now: Time): StateMaps
  {
    if Continues(m) then AfterRound(m, ReadyTasks(ts, m), d, now) else m
  }

  /** The loop saves the state after its round iff some status is then Failed and some dispatched task succeeded. */
  predicate RoundSaves(ts: seq<Task>, m: StateMaps, d: Dispatch, now: Time)
  {
    && Continues(m)
    && AfterRound(m, ReadyTasks(ts, m), d, now).HasFailed()
    && AnySucceeds(ReadyTasks(ts, m), d)
  }

  /** The maps after adding the tasks one after another to an empty state. */
  function Seed(ts: seq<Task>): StateMaps
    decreases |ts|
  {
    if ts == [] then StateMaps(map[], map[], map[])
    else Seed(ts[..|ts| - 1]).Put(ts[|ts| - 1])
  }

  datatype OrchestratorError = StateNotFound(projectId: string)

  // ---------------------------------------------------------------------
  // Properties of the specification
  // ---------------------------------------------------------------------

  /** A round touches no id other than those of the tasks it dispatches. */
  lemma {:induction false} RoundLeavesOthersAlone(m: StateMaps, ts: seq<Task>, d: Dispatch, now: Time, id: string)
    requires forall t :: t in ts ==> t.id != id
    ensures SameAt(AfterRound(m, ts, d, now), m, id)
    decreases |ts|
  {
    if ts != [] {
      var pre := ts[..|ts| - 1];
      assert forall t :: t in pre ==> t in ts;
      RoundLeavesOthersAlone(m, pre, d, now, id);
      assert ts[|ts| - 1] in ts;
    }
  }

  /** Dispatching keeps the three maps in agreement. */
  lemma {:induction false} RoundKeepsSynced(m: StateMaps, ts: seq<Task>, d: Dispatch, now: Time)
    requires Synced(m)
    ensures Synced(AfterRound(m, ts, d, now))
    decreases |ts|
  {
    if ts != [] {
      RoundKeepsSynced(m, ts[..|ts| - 1], d, now);
    }
  }

  /** The maps hold the task x under its id, with its status and retry count. */
  predicate Holds(r: StateMaps, x: Task)
  {
    r.GetTask(x.id) == Some(x) && r.StatusOf(x.id) == x.status && r.RetryOf(x.id) == x.retryCount
  }

  /**
   * With unique ids, each dispatched task ends completed when it succeeds,
   * otherwise retried when its count recorded before the round was under
   * the budget, otherwise failed.
   */
  lemma {:induction false} RoundOutcome(m: StateMaps, ts: seq<Task>, d: Dispatch, now: Time, t: Task)
    requires UniqueIds(ts) && t in ts
    ensures Holds(AfterRound(m, ts, d, now), Settled(m.RetryOf(t.id), t, d.Succeeds(t), now))
    decreases |ts|
  {
    var pre := ts[..|ts| - 1];
    var last := ts[|ts| - 1];
    UniqueIdsDropLast(ts);
    if t == last {
      LastOutcome(m, ts, d, now);
    } else {
      assert t in pre by { assert ts == pre + [last]; }
      RoundOutcome(m, pre, d, now, t);
      assert t.id != last.id;
    }
  }

  /** The last task of a round, whose id no earlier task shares, is settled from the count recorded before the round. */
  lemma LastOutcome(m: StateMaps, ts: seq<Task>, d: Dispatch, now: Time)
    requires ts != []
    requires forall u :: u in ts[..|ts| - 1] ==> u.id != ts[|ts| - 1].id
    ensures Holds(AfterRound(m, ts, d, now), Settled(m.RetryOf(ts[|ts| - 1].id), ts[|ts| - 1], d.Succeeds(ts[|ts| - 1]), now))
  {
    var pre := ts[..|ts| - 1];
    var last := ts[|ts| - 1];
    RoundLeavesOthersAlone(m, pre, d, now, last.id);
    assert AfterRound(m, pre, d, now).RetryOf(last.id) == m.RetryOf(last.id);
  }

  /**
   * When the state is consistent, its counts are within the budget, and each
   * dispatched task is the snapshot the state holds for its id, no count
   * leaves the budget: a retry only happens from a count under three.
   */
  lemma RoundKeepsRetryBudget(m: StateMaps, ts: seq<Task>, d: Dispatch, now: Time)
    requires Synced(m) && RetriesWithinBudget(m) && UniqueIds(ts)
    requires forall t :: t in ts ==> t.id in m.tasks && m.tasks[t.id] == t
    ensures RetriesWithinBudget(AfterRound(m, ts, d, now))
  {
    forall id | id in AfterRound(m, ts, d, now).retries {
      RetryWithinBudgetAt(m, ts, d, now, id);
    }
  }

  /** The per-id step of the budget argument: the recorded count of id after the round is within 0..3. */
  lemma RetryWithinBudgetAt(m: StateMaps, ts: seq<Task>, d: Dispatch, now: Time, id: string)
    requires Synced(m) && RetriesWithinBudget(m) && UniqueIds(ts)
    requires forall t :: t in ts ==> t.id in m.tasks && m.tasks[t.id] == t
    ensures 0 <= AfterRound(m, ts, d, now).RetryOf(id) <= MaxRetries
  {
    var r := AfterRound(m, ts, d, now);
    if t :| t in ts && t.id == id {
      RoundOutcome(m, ts, d, now, t);
      assert m.RetryOf(id) == t.retryCount;
      SettledWithinBudget(t, d.Succeeds(t), now);
    } else {
      RoundLeavesOthersAlone(m, ts, d, now, id);
      assert Lookup(r.retries, id) == Lookup(m.retries, id);
    }
  }

  /** Settling a task whose own count is within the budget keeps the count within the budget. */
  lemma SettledWithinBudget(t: Task, success: bool, now: Time)
    requires 0 <= t.retryCount <= MaxRetries
    ensures 0 <= Settled(t.retryCount, t, success, now).retryCount <= MaxRetries
  {
  }

  /**
   * A task whose recorded status is not Pending is never dispatched: a
   * completed task is not run again, and a task left Running is not reset.
   */
  lemma SettledTaskUntouched(ts: seq<Task>, m: StateMaps, d: Dispatch, now: Time, id: string)
    requires m.StatusOf(id) != Pending
    ensures SameAt(RunTasks(ts, m, d, now), m, id)
  {
    if Continues(m) {
      RoundLeavesOthersAlone(m, ReadyTasks(ts, m), d, now, id);
    }
  }

  /** Without a Failed status the retry sweep has nothing to do: it changes nothing and reports no change. */
  lemma {:induction false} NoFailureNoSweep(ts: seq<Task>, m: StateMaps, d: Dispatch, now: Time)
    requires !m.HasFailed()
    ensures FailedTasks(ts, m) == []
    ensures AfterSweep(m, FailedTasks(ts, m), d, now) == Sweep(m, false, false)
  {
    if ts != [] {
      assert m.StatusOf(ts[0].id) != Failed;
      NoFailureNoSweep(ts[1..], m, d, now);
    }
  }

  /**
   * The loop stops after one round even when every agent succeeds: in a plan
   * [a, b] where b depends on a, a is completed and b is never dispatched,
   * so the project is left in progress.
   */
  lemma ChainStopsAfterOneRound(a: Task, b: Task, d: Dispatch, now: Time)
    requires a.id != b.id && a.status == Pending && b.status == Pending
    requires a.dependencies == [] && b.dependencies == [a.id]
    requires d.Succeeds(a)
    ensures RunTasks([a, b], Seed([a, b]), d, now).StatusOf(a.id) == Completed
    ensures RunTasks([a, b], Seed([a, b]), d, now).StatusOf(b.id) == Pending
    ensures OverallOf(RunTasks([a, b], Seed([a, b]), d, now).tasks) == InProgress
  {
    var m := Seed([a, b]);
    ChainReady(a, b);
    SeedTwo(a, b);
    var r := AfterTask(m, a, true, now);
    assert [a][..0] == [];
    assert AfterRound(m, [a], d, now) == r;
    assert r.tasks == m.tasks[a.id := a.Complete(now)];
    assert r.tasks[b.id].status == Pending;
    assert forall id | id in r.tasks :: r.tasks[id].status != Failed;
  }

  /** In that plan only a is ready, and the seeded project neither is completed nor has a failure. */
  lemma ChainReady(a: Task, b: Task)
    requires a.id != b.id && a.status == Pending && b.status == Pending
    requires a.dependencies == [] && b.dependencies == [a.id]
    ensures ReadyTasks([a, b], Seed([a, b])) == [a]
    ensures Continues(Seed([a, b]))
  {
    var m := Seed([a, b]);
    SeedTwo(a, b);
    assert !m.CanExecute(b.id);
    assert m.CanExecute(a.id);
    assert m.tasks[b.id].status == Pending;
    assert !m.HasFailed();
  }

  /** Seeding with two tasks of distinct ids stores both, with their statuses and counts. */
  lemma SeedTwo(a: Task, b: Task)
    requires a.id != b.id
    ensures Seed([a, b]) == StateMaps(map[a.id := a, b.id := b], map[a.id := a.status, b.id := b.status],
                                      map[a.id := a.retryCount, b.id := b.retryCount])
  {
    assert [a, b][..1] == [a] && [a][..0] == [];
    assert Seed([a]) == StateMaps(map[], map[], map[]).Put(a);
    assert Seed([a, b]) == Seed([a]).Put(b);
  }

  /** Storing a snapshot keeps the maps in agreement and keyed by id. */
  lemma PutKeepsSynced(m: StateMaps, t: Task)
    requires Synced(m) && KeyedById(m.tasks)
    ensures Synced(m.Put(t)) && KeyedById(m.Put(t).tasks)
    ensures m.Put(t).tasks.Keys == m.tasks.Keys + {t.id}
  {
  }

  /** Seeding keeps the maps in agreement, and its keys are the plan's ids. */
  lemma {:induction false} SeedSynced(ts: seq<Task>)
    ensures Synced(Seed(ts)) && KeyedById(Seed(ts).tasks)
    ensures Seed(ts).tasks.Keys == Ids(ts)
    decreases |ts|
  {
    if ts != [] {
      var pre := ts[..|ts| - 1];
      var last := ts[|ts| - 1];
      SeedSynced(pre);
      PutKeepsSynced(Seed(pre), last);
      assert Ids(ts) == Ids(pre) + {last.id} by {
        assert ts == pre + [last];
        assert forall t :: t in ts <==> t in pre || t == last;
      }
    }
  }

  /** Seeding a state with tasks of unique ids stores each task, in agreement, under its id. */
  lemma SeedStoresPlan(ts: seq<Task>)
    requires UniqueIds(ts)
    ensures Synced(Seed(ts)) && KeyedById(Seed(ts).tasks)
    ensures Seed(ts).tasks.Keys == Ids(ts)
    ensures forall t :: t in ts ==> Seed(ts).tasks[t.id] == t
  {
    SeedSynced(ts);
    forall t | t in ts ensures Seed(ts).tasks[t.id] == t {
      var i :| 0 <= i < |ts| && ts[i] == t;
      SeedStoresEach(ts, i);
    }
  }

  /** The i-th plan task is stored under its id: no later task of the plan overwrites it. */
  lemma {:induction false} SeedStoresEach(ts: seq<Task>, i: nat)
    requires UniqueIds(ts) && i < |ts|
    ensures ts[i].id in Seed(ts).tasks && Seed(ts).tasks[ts[i].id] == ts[i]
    decreases |ts|
  {
    var pre := ts[..|ts| - 1];
    if i < |ts| - 1 {
      UniqueIdsDropLast(ts);
      assert pre[i] == ts[i];
      SeedStoresEach(pre, i);
    }
  }

  /** The ready list keeps the plan's ids unique: it is a subsequence of the plan. */
  lemma {:induction false} ReadyTasksUnique(ts: seq<Task>, m: StateMaps)
    requires UniqueIds(ts)
    ensures UniqueIds(ReadyTasks(ts, m))
    decreases |ts|
  {
    if ts != [] {
      UniqueIdsCons(ts);
      ReadyTasksUnique(ts[1..], m);
      var rest := ReadyTasks(ts[1..], m);
      if m.CanExecute(ts[0].id) && m.StatusOf(ts[0].id) == Pending {
        var r := [ts[0]] + rest;
        assert r[1..] == rest;
        assert ts[0].id !in Ids(rest) by {
          assert forall t :: t in rest ==> t in ts[1..] && t.id in Ids(ts[1..]);
        }
        UniqueIdsCons(r);
      } else {
        assert ReadyTasks(ts, m) == rest;
      }
    }
  }

  /** A run of a plan with unique ids, each count within the budget, ends with every recorded count within the budget. */
  lemma ProjectRunKeepsRetryBudget(ts: seq<Task>, d: Dispatch, now: Time)
    requires UniqueIds(ts)
    requires forall t :: t in ts ==> 0 <= t.retryCount <= MaxRetries
    ensures RetriesWithinBudget(RunTasks(ts, Seed(ts), d, now))
  {
    var m := Seed(ts);
    SeedStoresPlan(ts);
    forall id | id in m.retries ensures 0 <= m.retries[id] <= MaxRetries {
      assert id in Ids(ts);
      var t :| t in ts && t.id == id;
      assert m.retries[id] == m.tasks[id].retryCount;
    }
    if Continues(m) {
      ReadyTasksUnique(ts, m);
      RoundKeepsRetryBudget(m, ReadyTasks(ts, m), d, now);
    }
  }

  /**
   * With two plan tasks sharing an id, the count can leave the budget: the
   * stored snapshot b has count 3, so a is failed and its count 0 recorded;
   * b is then retried from that count and ends with count 4.
   */
  lemma DuplicateIdsBreakBudget(a: Task, b: Task, d: Dispatch, now: Time)
    requires a.id == b.id && a.status == Pending && b.status == Pending
    requires b.dependencies == []
    requires a.retryCount == 0 && b.retryCount == MaxRetries
    requires !d.Succeeds(a) && !d.Succeeds(b)
    ensures RetriesWithinBudget(Seed([a, b]))
    ensures RunTasks([a, b], Seed([a, b]), d, now).RetryOf(a.id) == MaxRetries + 1
  {
    var id := a.id;
    var m := Seed([a, b]);
    assert [a, b][..1] == [a] && [a][..0] == [];
    assert Seed([a]) == StateMaps(map[], map[], map[]).Put(a);
    assert m == Seed([a]).Put(b);
    assert m.tasks == map[id := b] && m.retries == map[id := MaxRetries] && m.statuses == map[id := Pending];
    assert m.CanExecute(id);
    assert !m.HasFailed();
    assert OverallOf(m.tasks) != AllCompleted by { assert m.tasks[id].status != Completed; }
    assert ReadyTasks([a, b], m) == [a, b] by {
      assert [a, b][1..] == [b] && [b][1..] == [];
    }
    var r1 := AfterTask(m, a, false, now);
    assert r1.RetryOf(id) == 0;
    assert [a, b][..1] == [a];
    assert AfterRound(m, [a], d, now) == r1;
    assert AfterRound(m, [a, b], d, now) == AfterTask(r1, b, false, now);
  }

  // ---------------------------------------------------------------------
  // The enumeration of a resumed state's snapshots
  // ---------------------------------------------------------------------

  /**
   * Lists the values of the map in no particular order, each exactly once:
   * `keys` records which key each listed value came from.
   */
  method ValuesInSomeOrder(taskMap: map<string, Task>) returns (ts: seq<Task>, ghost keys: seq<string>)
    ensures |keys| == |ts|
    ensures forall k :: 0 <= k < |ts| ==> keys[k] in taskMap && ts[k] == taskMap[keys[k]]
    ensures forall id :: id in taskMap ==> id in keys
    ensures forall i, j :: 0 <= i < j < |keys| ==> keys[i] != keys[j]
  {
    ts, keys := [], [];
    var rest := taskMap.Keys;
    while rest != {}
      invariant rest <= taskMap.Keys
      invariant |keys| == |ts|
      invariant forall k :: 0 <= k < |ts| ==> keys[k] in taskMap && ts[k] == taskMap[keys[k]]
      invariant forall id :: id in taskMap ==> id in keys || id in rest
      invariant forall k :: 0 <= k < |keys| ==> keys[k] !in rest
      invariant forall i, j :: 0 <= i < j < |keys| ==> keys[i] != keys[j]
      decreases rest
    {
      var id :| id in rest;
      ts, keys := ts + [taskMap[id]], keys + [id];
      rest := rest - {id};
    }
  }

  // ---------------------------------------------------------------------
  // The orchestrator
  // ---------------------------------------------------------------------

  class AgentOrchestrator {
    var agents: map<string, RoleAgent>

    /** Registers the four built-in agents under their role names. */
    constructor ()
      ensures agents == InitialAgents()
    {
      agents := InitialAgents();
    }

    /**
     * Seeds a fresh state with every plan task, saves it, and runs the
     * scheduler loop. The state is returned so that its end is observable.
     */
    method ExecuteProject(plan: Plan, execute: Executor, now: Time) returns (state: ProjectState)
      ensures fresh(state) && state.Valid()
      ensures state.projectId == plan.projectId
      ensures state.Maps() == RunTasks(plan.tasks, Seed(plan.tasks), Dispatch(agents, execute), now)
      ensures state.saves == 1 + (if RoundSaves(plan.tasks, Seed(plan.tasks), Dispatch(agents, execute), now) then 1 else 0)
      ensures state.lastUpdated == now
    {
      state := new ProjectState(plan.projectId, now);
      for i := 0 to |plan.tasks|
        invariant state.Valid() && state.projectId == plan.projectId
        invariant state.Maps() == Seed(plan.tasks[..i])
        invariant state.saves == 0 && state.lastUpdated == now
      {
        assert plan.tasks[..i + 1][..i] == plan.tasks[..i];
        state.AddTask(plan.tasks[i]);
      }
      assert plan.tasks[..|plan.tasks|] == plan.tasks;
      state.SaveToDatabase(now);
      ghost var rounds := ExecuteTasks(plan, state, execute, now);
    }

    /**
     * The scheduler loop. It runs at most one round: `rounds` counts them.
     * The state is saved after a round only when the change flag is still set.
     */
    method ExecuteTasks(plan: Plan, state: ProjectState, execute: Executor, now: Time) returns (ghost rounds: nat)
      requires state.Valid()
      modifies state
      ensures state.Valid()
      ensures rounds <= 1
      ensures rounds == 1 <==> Continues(old(state.Maps()))
      ensures state.Maps() == RunTasks(plan.tasks, old(state.Maps()), Dispatch(agents, execute), now)
      ensures state.saves == old(state.saves)
                             + (if RoundSaves(plan.tasks, old(state.Maps()), Dispatch(agents, execute), now) then 1 else 0)
      ensures state.lastUpdated ==
                (if Continues(old(state.Maps())) && ReadyTasks(plan.tasks, old(state.Maps())) != []
                 then now else old(state.lastUpdated))
    {
      ghost var m0 := state.Maps();
      ghost var d := Dispatch(agents, execute);
      ghost var ready := ReadyTasks(plan.tasks, m0);
      var hasChanges := true;
      rounds := 0;
      while hasChanges && !state.IsProjectCompleted() && !state.HasFailedTasks()
        invariant state.Valid()
        invariant rounds <= 1
        invariant rounds == 0 ==> hasChanges && state.Maps() == m0
        invariant rounds == 0 ==> state.saves == old(state.saves) && state.lastUpdated == old(state.lastUpdated)
        invariant rounds == 1 ==> Continues(m0) && !(hasChanges && !state.HasFailedTasks())
        invariant rounds == 1 ==> state.Maps() == AfterRound(m0, ready, d, now)
        invariant rounds == 1 ==> state.saves == old(state.saves) + (if RoundSaves(plan.tasks, m0, d, now) then 1 else 0)
        invariant rounds == 1 ==> state.lastUpdated == (if ready != [] then now else old(state.lastUpdated))
        decreases 1 - rounds
      {
        hasChanges := false;
        var executable := ReadyTasks(plan.tasks, state.Maps());
        hasChanges := ExecuteRound(executable, state, execute, now);
        if !state.HasFailedTasks() {
          NoFailureNoSweep(plan.tasks, state.Maps(), d, now);
          hasChanges := TryRetryFailedTasks(plan, state, execute, now);
        }
        if hasChanges {
          state.SaveToDatabase(now);
        }
        rounds := rounds + 1;
      }
    }

    /** Dispatches the tasks in order; reports whether any of them succeeded. */
    method ExecuteRound(executable: seq<Task>, state: ProjectState, execute: Executor, now: Time) returns (hasChanges: bool)
      requires state.Valid()
      modifies state
      ensures state.Valid()
      ensures state.Maps() == AfterRound(old(state.Maps()), executable, Dispatch(agents, execute), now)
      ensures hasChanges == AnySucceeds(executable, Dispatch(agents, execute))
      ensures state.saves == old(state.saves)
      ensures state.lastUpdated == (if executable == [] then old(state.lastUpdated) else now)
    {
      ghost var m0 := state.Maps();
      ghost var d := Dispatch(agents, execute);
      hasChanges := false;
      for i := 0 to |executable|
        invariant state.Valid()
        invariant state.Maps() == AfterRound(m0, executable[..i], d, now)
        invariant hasChanges == AnySucceeds(executable[..i], d)
        invariant state.saves == old(state.saves)
        invariant state.lastUpdated == (if i == 0 then old(state.lastUpdated) else now)
      {
        assert executable[..i + 1][..i] == executable[..i];
        AnySucceedsExtend(executable, i, d);
        var ok := ExecuteTask(executable[i], state, execute, now);
        if ok {
          hasChanges := true;
        }
      }
      assert executable[..|executable|] == executable;
    }

    /**
     * Dispatches one task: marks it Running, then asks the agent registered
     * for its role. A missing agent and an agent reporting failure are both
     * handed to the failure handler; success stores the completed task.
     */
    method ExecuteTask(task: Task, state: ProjectState, execute: Executor, now: Time) returns (ok: bool)
      requires state.Valid()
      modifies state
      ensures state.Valid()
      ensures ok == Dispatch(agents, execute).Succeeds(task)
      ensures state.Maps() == AfterTask(old(state.Maps()), task, ok, now)
      ensures state.lastUpdated == now && state.saves == old(state.saves)
    {
      state.UpdateTaskStatus(task.id, Running);
      if task.role !in agents {
        HandleTaskFailure(task, state, now);
        return false;
      }
      var success := execute(agents[task.role], task);
      if success {
        state.UpdateTask(task.Complete(now), now);
        ok := true;
      } else {
        HandleTaskFailure(task, state, now);
        ok := false;
      }
    }

    /** Retries the task while its recorded count is under the budget; otherwise fails it for good. */
    method HandleTaskFailure(task: Task, state: ProjectState, now: Time)
      requires state.Valid()
      modifies state
      ensures state.Valid()
      ensures state.Maps() == AfterFailure(old(state.Maps()), task, now)
      ensures state.lastUpdated == now && state.saves == old(state.saves)
    {
      var currentRetryCount := state.GetRetryCount(task.id);
      if currentRetryCount < MaxRetries {
        state.IncrementRetryCount(task.id);
        state.UpdateTask(task.Retry(now), now);
      } else {
        state.UpdateTask(task.Fail(now), now);
        state.UpdateTaskStatus(task.id, Failed);
      }
    }

    /** Re-runs the plan's Failed tasks whose recorded count is under the budget; reports whether one succeeded. */
    method TryRetryFailedTasks(plan: Plan, state: ProjectState, execute: Executor, now: Time) returns (hasChanges: bool)
      requires state.Valid()
      modifies state
      ensures state.Valid()
      ensures var s := AfterSweep(old(state.Maps()), FailedTasks(plan.tasks, old(state.Maps())), Dispatch(agents, execute), now);
        && state.Maps() == s.maps
        && hasChanges == s.changed
        && state.lastUpdated == (if s.dispatched then now else old(state.lastUpdated))
      ensures state.saves == old(state.saves)
    {
      ghost var m0 := state.Maps();
      ghost var d := Dispatch(agents, execute);
      hasChanges := false;
      var failedTasks := FailedTasks(plan.tasks, state.Maps());
      for i := 0 to |failedTasks|
        invariant state.Valid()
        invariant var s := AfterSweep(m0, failedTasks[..i], d, now);
          && state.Maps() == s.maps
          && hasChanges == s.changed
          && state.lastUpdated == (if s.dispatched then now else old(state.lastUpdated))
        invariant state.saves == old(state.saves)
      {
        SweepExtend(m0, failedTasks, i, d, now);
        if state.GetRetryCount(failedTasks[i].id) < MaxRetries {
          var ok := ExecuteTask(failedTasks[i], state, execute, now);
          if ok {
            hasChanges := true;
          }
        }
      }
      assert failedTasks[..|failedTasks|] == failedTasks;
    }

    /**
     * Resumes from a stored state (`loaded`; null when the store has none):
     * rebuilds a plan from the stored snapshots, in no particular order, and
     * re-enters the scheduler loop. Tasks found Running are not reset.
     */
    method ResumeExecution(projectId: string, loaded: ProjectState?, execute: Executor, now: Time)
      returns (r: Outcome<OrchestratorError>, ghost resumed: Plan)
      requires loaded != null ==> loaded.Valid()
      modifies loaded
      ensures loaded == null ==> r == Fail(StateNotFound(projectId))
      ensures loaded != null ==> r == Pass && loaded.Valid()
      ensures loaded != null ==>
        && resumed.projectId == loaded.projectId
        && resumed.title == "Resumed Project" && resumed.description == "Resumed execution"
        && resumed.createdAt == now && resumed.updatedAt == now
        && UniqueIds(resumed.tasks)
        && Ids(resumed.tasks) == old(loaded.taskMap).Keys
        && (forall t :: t in resumed.tasks ==> old(loaded.taskMap)[t.id] == t)
        && loaded.Maps() == RunTasks(resumed.tasks, old(loaded.Maps()), Dispatch(agents, execute), now)
      ensures loaded != null ==>
        loaded.saves == old(loaded.saves)
                        + (if RoundSaves(resumed.tasks, old(loaded.Maps()), Dispatch(agents, execute), now) then 1 else 0)
      ensures loaded != null ==>
        loaded.lastUpdated ==
          (if Continues(old(loaded.Maps())) && ReadyTasks(resumed.tasks, old(loaded.Maps())) != []
           then now else old(loaded.lastUpdated))
    {
      if loaded == null {
        return Fail(StateNotFound(projectId)), Plan("", "", "", [], 0, 0);
      }
      var ts;
      ghost var keys;
      ts, keys := ValuesInSomeOrder(loaded.taskMap);
      var projectPlan := Plan(loaded.projectId, "Resumed Project", "Resumed execution", ts, now, now);
      resumed := projectPlan;
      assert forall k :: 0 <= k < |ts| ==> ts[k].id == keys[k];
      assert forall t :: t in ts ==> loaded.taskMap[t.id] == t by {
        forall t | t in ts ensures loaded.taskMap[t.id] == t {
          var k :| 0 <= k < |ts| && ts[k] == t;
        }
      }
      assert Ids(ts) == loaded.taskMap.Keys by {
        forall id | id in loaded.taskMap ensures id in Ids(ts) {
          var k :| 0 <= k < |keys| && keys[k] == id;
          assert ts[k] in ts;
        }
      }
      ghost var rounds := ExecuteTasks(projectPlan, loaded, execute, now);
      r := Pass;
    }
  }
}
