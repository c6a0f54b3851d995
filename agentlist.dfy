/** The agent list of src/pages/AgentList.tsx: the delete, which asks for no
    confirmation, and the summary cards. */
module AgentList {
  import opened Wrappers
  import opened Lists
  import opened Records

  function AgentRowKey(a: Agent): string { a.id }

  predicate AgentIsActive(a: Agent) { a.status == Active }

  /** The "Active Agents" card: how many agents have the status `active`. It is at most
      the number of agents, all of them exactly when every agent is active, and none
      exactly when no agent is. */
  function ActiveAgents(agents: seq<Agent>): (n: nat)
    ensures n == Count(agents, AgentIsActive)
    ensures n <= |agents|
    ensures n == |agents| <==> forall i :: 0 <= i < |agents| ==> agents[i].status == Active
    ensures n == 0 <==> forall i :: 0 <= i < |agents| ==> agents[i].status != Active
  {
    CountBounds(agents, AgentIsActive);
    |Filter(agents, AgentIsActive)|
  }

  predicate AgentIsInactive(a: Agent) { a.status != Active }

  /** The active agents and the others together make up the "Total Agents" card. */
  lemma ActivePlusInactive(agents: seq<Agent>)
    ensures ActiveAgents(agents) + Count(agents, AgentIsInactive) == |agents|
  {
    CountPartition(agents, AgentIsActive, AgentIsInactive);
  }

  /** A newly listed agent raises the card by one exactly when it is active. */
  lemma ActiveAgentsAppend(agents: seq<Agent>, a: Agent)
    ensures ActiveAgents(agents + [a]) == ActiveAgents(agents) + (if a.status == Active then 1 else 0)
  {
    CountAppend(agents, a, AgentIsActive);
  }

  /** With distinct ids, deleting an agent lowers the card by one exactly when that agent
      was active. */
  lemma DeleteLowersActive(agents: seq<Agent>, i: nat)
    requires i < |agents| && UniqueKeys(agents, AgentRowKey)
    ensures ActiveAgents(RemoveKey(agents, AgentRowKey, agents[i].id)) + (if agents[i].status == Active then 1 else 0)
         == ActiveAgents(agents)
  {
    RemoveKeyAt(agents, AgentRowKey, i);
    CountWithout(agents, i, AgentIsActive);
  }

  /** "Total Transactions" and "Total Business Value" are not computed yet: both are 0. */
  const TotalTransactions: nat := 0

  const TotalBusinessValue: real := 0.0

  class AgentListPage {
    var agents: seq<Agent>

    constructor ()
      ensures agents == []
    {
      agents := [];
    }

    method Load(fetched: Option<seq<Agent>>)
      modifies this
      ensures agents == if fetched.Some? then fetched.value else old(agents)
    {
      if fetched.Some? {
        agents := fetched.value;
      }
    }

    /** `handleEdit` only logs; the page is left as it was. */
    method HandleEdit(id: string)
      ensures agents == old(agents)
    {
    }

    /** `handleDelete`: when the store accepts, exactly that agent leaves the list and the
        others keep their order. */
    method Delete(id: string, storeOk: bool)
      modifies this
      ensures agents == if storeOk then RemoveKey(old(agents), AgentRowKey, id) else old(agents)
      ensures UniqueKeys(old(agents), AgentRowKey) ==>
                if storeOk then RemovedExactly(old(agents), agents, AgentRowKey, id)
                else agents == old(agents)
    {
      if UniqueKeys(agents, AgentRowKey) {
        RemoveUniqueKey(agents, AgentRowKey, id);
      }
      if storeOk {
        agents := RemoveKey(agents, AgentRowKey, id);
      }
    }
  }
}
