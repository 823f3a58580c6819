/**
 * The agent catalogue: a fixed list of four agent records, searched by role
 * name or by id with a first-match lookup.
 */
module Agents {
  import opened Wrappers

  datatype Agent = Agent(id: string, roleName: string, agentType: string, description: string, active: bool)

  /** The role names of the four built-in agents: backend, frontend, testing, architecture design. */
  const BackendRole: string := "后端"
  const FrontendRole: string := "前端"
  const TestingRole: string := "测试"
  const ArchitectureRole: string := "架构设计"

  /** The catalogue, in its fixed order. */
  function FindAll(): (r: seq<Agent>)
    ensures |r| == 4
    ensures forall a :: a in r ==> a.active
    ensures r[0].id == "1" && r[1].id == "2" && r[2].id == "3" && r[3].id == "4"
    ensures forall i, j | 0 <= i < j < |r| :: r[i].roleName != r[j].roleName && r[i].id != r[j].id
  {
    [ Agent("1", BackendRole, "BACKEND", "负责后端开发任务", true),
      Agent("2", FrontendRole, "FRONTEND", "负责前端开发任务", true),
      Agent("3", TestingRole, "TESTING", "负责测试任务", true),
      Agent("4", ArchitectureRole, "ARCHITECTURE", "负责架构设计任务", true) ]
  }

  /** The first agent of the list that satisfies p, or None when none does. */
  function FirstMatch(agents: seq<Agent>, p: Agent -> bool): (r: Option<Agent>)
    ensures r.None? <==> forall a :: a in agents ==> !p(a)
    ensures r.Some? ==> exists k :: 0 <= k < |agents| && agents[k] == r.value && p(r.value)
                                    && forall j :: 0 <= j < k ==> !p(agents[j])
  {
    if agents == [] then None
    else if p(agents[0]) then Some(agents[0])
    else
      var r := FirstMatch(agents[1..], p);
      assert forall a :: a in agents <==> a == agents[0] || a in agents[1..];
      if r.Some? then
        var k :| 0 <= k < |agents[1..]| && agents[1..][k] == r.value && p(r.value)
                 && forall j :: 0 <= j < k ==> !p(agents[1..][j]);
        assert agents[k + 1] == r.value;
        assert forall j :: 1 <= j < k + 1 ==> agents[j] == agents[1..][j - 1];
        r
      else r
  }

  /** The catalogue agent with the given role name, or None (null) when there is none. */
  function FindByRoleName(roleName: string): (r: Option<Agent>)
    ensures r.Some? <==> exists a :: a in FindAll() && a.roleName == roleName
    ensures r.Some? ==> r.value in FindAll() && r.value.roleName == roleName
  {
    FirstMatch(FindAll(), (a: Agent) => a.roleName == roleName)
  }

  /** The catalogue agent with the given id, or None (null) when there is none. */
  function FindById(id: string): (r: Option<Agent>)
    ensures r.Some? <==> exists a :: a in FindAll() && a.id == id
    ensures r.Some? ==> r.value in FindAll() && r.value.id == id
  {
    FirstMatch(FindAll(), (a: Agent) => a.id == id)
  }

  /** Whether some catalogue agent has the id: exactly "1" to "4". */
  function Exists(id: string): (b: bool)
    ensures b <==> FindById(id).Some?
    ensures b <==> id in {"1", "2", "3", "4"}
  {
    FindById(id).Some?
  }
}
