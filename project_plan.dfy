/**
 * The project plan: project metadata and an ordered list of tasks, with the
 * queries the orchestrator and its clients run over that list.
 */
module Plans {
  import opened Wrappers
  import opened Tasks

  datatype Plan = Plan(
    projectId: string,
    title: string,
    description: string,
    tasks: seq<Task>,
    createdAt: Time,
    updatedAt: Time)
  {
    /** A copy of the plan with a new task list; metadata and creation time are kept. */
    function Update(updatedTasks: seq<Task>, now: Time): (r: Plan)
      ensures r.tasks == updatedTasks && r.updatedAt == now
      ensures r.projectId == projectId && r.title == title && r.description == description
      ensures r.createdAt == createdAt
    {
      this.(tasks := updatedTasks, updatedAt := now)
    }
  }

  /** A new plan over the given tasks, created and last updated now. */
  function Create(projectId: string, title: string, description: string, tasks: seq<Task>,
                  now: Time): (p: Plan)
    ensures p.projectId == projectId && p.title == title && p.description == description
    ensures p.tasks == tasks && p.createdAt == now && p.updatedAt == now
  {
    Plan(projectId, title, description, tasks, now, now)
  }

  /** No two tasks of the list share an id. */
  predicate UniqueIds(ts: seq<Task>)
  {
    forall i, j | 0 <= i < j < |ts| :: ts[i].id != ts[j].id
  }

  function Ids(ts: seq<Task>): set<string>
  {
    set t | t in ts :: t.id
  }

  /** Dropping the last task keeps ids unique, and no remaining task shares the last one's id. */
  lemma UniqueIdsDropLast(ts: seq<Task>)
    requires UniqueIds(ts) && ts != []
    ensures UniqueIds(ts[..|ts| - 1])
    ensures forall u :: u in ts[..|ts| - 1] ==> u.id != ts[|ts| - 1].id
  {
    var pre := ts[..|ts| - 1];
    forall i, j | 0 <= i < j < |pre| ensures pre[i].id != pre[j].id {
      assert pre[i] == ts[i] && pre[j] == ts[j];
    }
    forall u | u in pre ensures u.id != ts[|ts| - 1].id {
      var k :| 0 <= k < |pre| && pre[k] == u;
      assert ts[k] == u;
    }
  }

  // ---------------------------------------------------------------------
  // Tasks of one role
  // ---------------------------------------------------------------------

  /** The tasks whose role equals the given one, in plan order. */
  function TasksByRole(ts: seq<Task>, role: string): (r: seq<Task>)
    ensures forall t :: t in r <==> t in ts && t.role == role
    ensures |r| <= |ts|
  {
    if ts == [] then []
    else (if ts[0].role == role then [ts[0]] else []) + TasksByRole(ts[1..], role)
  }

  /** Filtering by role commutes with concatenation, so plan order is kept. */
  lemma {:induction false} TasksByRoleKeepsOrder(a: seq<Task>, b: seq<Task>, role: string)
    ensures TasksByRole(a + b, role) == TasksByRole(a, role) + TasksByRole(b, role)
  {
    if a == [] {
      assert a + b == b;
    } else {
      assert (a + b)[1..] == a[1..] + b;
      TasksByRoleKeepsOrder(a[1..], b, role);
    }
  }

  // ---------------------------------------------------------------------
  // The id -> dependencies map
  // ---------------------------------------------------------------------

  datatype PlanError = DuplicateKey(id: string)

  /**
   * The id of task k clashes: it is already a key of `acc`, or an earlier
   * task of the list has it.
   */
  predicate ClashAt(acc: map<string, seq<string>>, ts: seq<Task>, k: int)
  {
    0 <= k < |ts| && (ts[k].id in acc || exists j :: 0 <= j < k && ts[j].id == ts[k].id)
  }

  /** Task k is the first task whose id clashes. */
  predicate FirstClash(acc: map<string, seq<string>>, ts: seq<Task>, k: int)
  {
    ClashAt(acc, ts, k) && forall i :: 0 <= i < k ==> !ClashAt(acc, ts, i)
  }

  /**
   * Builds the map by inserting the tasks one after the other into `acc`,
   * failing on the first id that is already a key.
   */
  function CollectDependencies(acc: map<string, seq<string>>, ts: seq<Task>): (r: Result<map<string, seq<string>>, PlanError>)
    ensures r.Success? <==> UniqueIds(ts) && Ids(ts) !! acc.Keys
    ensures r.Success? ==> r.value.Keys == acc.Keys + Ids(ts)
    ensures r.Success? ==> forall k :: k in acc ==> r.value[k] == acc[k]
    ensures r.Success? ==> forall t :: t in ts ==> r.value[t.id] == t.dependencies
    ensures r.Failure? ==> exists k :: FirstClash(acc, ts, k) && ts[k].id == r.error.id
    decreases |ts|
  {
    if ts == [] then Success(acc)
    else if ts[0].id in acc then
      assert FirstClash(acc, ts, 0);
      Failure(DuplicateKey(ts[0].id))
    else
      var r := CollectDependencies(acc[ts[0].id := ts[0].dependencies], ts[1..]);
      IdsCons(ts);
      UniqueIdsCons(ts);
      if r.Failure? then
        var k :| FirstClash(acc[ts[0].id := ts[0].dependencies], ts[1..], k) && ts[1..][k].id == r.error.id;
        ClashCons(acc, ts, k);
        r
      else r
  }

  lemma IdsCons(ts: seq<Task>)
    requires ts != []
    ensures Ids(ts) == {ts[0].id} + Ids(ts[1..])
  {
    assert forall t :: t in ts <==> t == ts[0] || t in ts[1..];
  }

  lemma UniqueIdsCons(ts: seq<Task>)
    requires ts != []
    ensures UniqueIds(ts) <==> UniqueIds(ts[1..]) && ts[0].id !in Ids(ts[1..])
  {
    if UniqueIds(ts[1..]) && ts[0].id !in Ids(ts[1..]) {
      forall i, j | 0 <= i < j < |ts| ensures ts[i].id != ts[j].id {
        if i == 0 {
          assert ts[j] in ts[1..];
        } else {
          assert ts[i] == ts[1..][i - 1] && ts[j] == ts[1..][j - 1];
        }
      }
    }
    if UniqueIds(ts) {
      forall i, j | 0 <= i < j < |ts[1..]| ensures ts[1..][i].id != ts[1..][j].id {
        assert ts[1..][i] == ts[i + 1] && ts[1..][j] == ts[j + 1];
      }
      forall t | t in ts[1..] ensures t.id != ts[0].id {
        var k :| 0 <= k < |ts[1..]| && ts[1..][k] == t;
        assert ts[k + 1] == t;
      }
    }
  }

  /** The first clash in the tail, after inserting the head, is the first clash of the whole list one place later. */
  lemma ClashCons(acc: map<string, seq<string>>, ts: seq<Task>, k: int)
    requires ts != [] && ts[0].id !in acc
    requires FirstClash(acc[ts[0].id := ts[0].dependencies], ts[1..], k)
    ensures FirstClash(acc, ts, k + 1) && ts[k + 1].id == ts[1..][k].id
  {
    var acc' := acc[ts[0].id := ts[0].dependencies];
    var id := ts[1..][k].id;
    assert ts[k + 1].id == id;
    if id == ts[0].id {
      assert ts[0].id == ts[k + 1].id;
    } else if id !in acc {
      var j :| 0 <= j < k && ts[1..][j].id == id;
      assert ts[j + 1].id == ts[k + 1].id;
    }
    forall i | 0 <= i < k + 1 ensures !ClashAt(acc, ts, i) {
      if i > 0 {
        assert !ClashAt(acc', ts[1..], i - 1);
        assert ts[i] == ts[1..][i - 1];
        forall j | 0 <= j < i ensures ts[j].id != ts[i].id {
          if j > 0 {
            assert ts[j] == ts[1..][j - 1];
          }
        }
      }
    }
  }

  /**
   * Each task id mapped to that task's dependency list. Defined only for a
   * plan whose ids are unique: a repeated id is a duplicate-key error.
   */
  function Dependencies(ts: seq<Task>): (r: Result<map<string, seq<string>>, PlanError>)
    ensures r.Success? <==> UniqueIds(ts)
    ensures r.Success? ==> r.value.Keys == Ids(ts)
    ensures r.Success? ==> forall t :: t in ts ==> r.value[t.id] == t.dependencies
    ensures r.Failure? ==> exists i, j :: 0 <= i < j < |ts| && ts[i].id == r.error.id && ts[j].id == r.error.id
  {
    CollectDependencies(map[], ts)
  }

  // ---------------------------------------------------------------------
  // The inverse relation: dependency id -> dependent task ids
  // ---------------------------------------------------------------------

  /** One (dependency, dependent) pair per entry of the task's dependency list, in order. */
  function EdgesOf(t: Task): (es: seq<(string, string)>)
    ensures forall e :: e in es <==> e.0 in t.dependencies && e.1 == t.id
  {
    var es := seq(|t.dependencies|, i requires 0 <= i < |t.dependencies| => (t.dependencies[i], t.id));
    assert forall k | 0 <= k < |t.dependencies| :: es[k] == (t.dependencies[k], t.id);
    es
  }

  /** All pairs of the plan, task after task. */
  function Edges(ts: seq<Task>): (es: seq<(string, string)>)
    ensures forall e :: e in es <==> exists t :: t in ts && e.0 in t.dependencies && e.1 == t.id
  {
    if ts == [] then []
    else
      var es := EdgesOf(ts[0]) + Edges(ts[1..]);
      assert forall t :: t in ts <==> t == ts[0] || t in ts[1..];
      es
  }

  /** The second components of the pairs whose first component is d, in order. */
  function Group(es: seq<(string, string)>, d: string): (r: seq<string>)
    ensures forall x :: x in r <==> (d, x) in es
  {
    if es == [] then []
    else (if es[0].0 == d then [es[0].1] else []) + Group(es[1..], d)
  }

  /** The dependents of d, in the order of the plan's task list. */
  function DependentsOf(ts: seq<Task>, d: string): seq<string>
  {
    Group(Edges(ts), d)
  }

  /**
   * For every id that occurs as some task's dependency (whether or not a
   * task has that id), the ids of the tasks that list it.
   */
  function Dependents(ts: seq<Task>): (r: map<string, seq<string>>)
    ensures forall d :: d in r <==> exists t :: t in ts && d in t.dependencies
    ensures forall d :: d in r ==> r[d] == DependentsOf(ts, d)
  {
    var es := Edges(ts);
    var keys := set e | e in es :: e.0;
    assert forall d :: d in keys <==> exists t :: t in ts && d in t.dependencies by {
      forall d | exists t :: t in ts && d in t.dependencies ensures d in keys {
        var t :| t in ts && d in t.dependencies;
        assert (d, t.id) in es;
      }
    }
    map d | d in keys :: Group(es, d)
  }

  /** Dependents inverts the dependency relation: x is listed under d iff a task x depends on d. */
  lemma DependentsInvert(ts: seq<Task>, d: string, x: string)
    ensures d in Dependents(ts) && x in Dependents(ts)[d]
        <==> exists t :: t in ts && t.id == x && d in t.dependencies
  {
    if exists t :: t in ts && t.id == x && d in t.dependencies {
      var t :| t in ts && t.id == x && d in t.dependencies;
      assert (d, x) in Edges(ts);
    }
  }

  lemma {:induction false} GroupAppend(a: seq<(string, string)>, b: seq<(string, string)>, d: string)
    ensures Group(a + b, d) == Group(a, d) + Group(b, d)
  {
    if a == [] {
      assert a + b == b;
    } else {
      assert (a + b)[1..] == a[1..] + b;
      GroupAppend(a[1..], b, d);
    }
  }

  lemma {:induction false} EdgesAppend(a: seq<Task>, b: seq<Task>)
    ensures Edges(a + b) == Edges(a) + Edges(b)
  {
    if a == [] {
      assert a + b == b;
    } else {
      assert (a + b)[1..] == a[1..] + b;
      EdgesAppend(a[1..], b);
    }
  }

  /** The dependents of d among a + b are those among a followed by those among b: plan order. */
  lemma DependentsKeepOrder(a: seq<Task>, b: seq<Task>, d: string)
    ensures DependentsOf(a + b, d) == DependentsOf(a, d) + DependentsOf(b, d)
  {
    EdgesAppend(a, b);
    GroupAppend(Edges(a), Edges(b), d);
  }
}
