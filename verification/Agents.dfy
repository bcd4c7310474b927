/** Worker agents and their pool (internal/services/agent/agent_pool.go). */
module Agents {
  import opened Prelude
  import opened Transcripts

  const INPUT_CAPACITY := 100

  /** Whether the pool takes a new agent: room in the map, and an identifier the agents table has never seen. */
  predicate Admits(held: set<AgentId>, stored: set<AgentId>, maxAgents: int, a: AgentId) {
    |held| < maxAgents && a !in stored
  }

  /** A non-blocking send into an input queue: a full queue drops the input. */
  function Delivered<T>(inbox: seq<T>, x: T): (r: seq<T>) {
    if |inbox| < INPUT_CAPACITY then inbox + [x] else inbox
  }

  datatype AgentStatus = Idle | Removed

  datatype AgentState = Free | BlockingState

  datatype AgentInput =
    | TaskStart(content: string)
    | ToolResult(id: string, name: string, content: string)
    | Message(content: string)
    | OtherInput(kind: string)

  class WorkerAgent {
    const id: AgentId
    var status: AgentStatus
    var state: AgentState
    var inputQueue: seq<AgentInput>
    var outputHistory: seq<AgentMessage>
    var stopClosed: bool
    var currentTask: Option<InstanceId>
    /** Identifiers of the pending tool calls. */
    var pendingToolCalls: set<string>

    constructor (id: AgentId)
      ensures this.id == id && status == Idle && state == Free && currentTask == None
      ensures inputQueue == [] && outputHistory == [] && pendingToolCalls == {} && !stopClosed
    {
      this.id := id;
      status, state, inputQueue, outputHistory, stopClosed := Idle, Free, [], [], false;
      currentTask, pendingToolCalls := None, {};
    }

    /** The input queue survives the reset. */
    method ResetForNewTask()
      modifies this`state, this`outputHistory, this`currentTask, this`pendingToolCalls
      ensures state == Free && outputHistory == [] && currentTask == None && pendingToolCalls == {}
    {
      state, outputHistory, currentTask, pendingToolCalls := Free, [], None, {};
    }

    method SetBlocking(blocking: bool)
      modifies this`state
      ensures state == if blocking then BlockingState else Free
    {
      state := if blocking then BlockingState else Free;
    }

    method SendInput(input: AgentInput) returns (sent: bool)
      modifies this`inputQueue
      ensures sent <==> |old(inputQueue)| < INPUT_CAPACITY
      ensures inputQueue == Delivered(old(inputQueue), input)
      ensures inputQueue == if |old(inputQueue)| < 100 then old(inputQueue) + [input] else old(inputQueue)
    {
      if |inputQueue| < INPUT_CAPACITY {
        inputQueue := inputQueue + [input];
        return true;
      }
      return false;
    }
  }

  datatype SpawnError = AtMaximumCapacity | NotPersisted

  class AgentPool {
    const maxAgents: int
    var agents: map<AgentId, WorkerAgent>
    /** The primary keys of the agents table. Removal only marks a row, so this set never shrinks. */
    var stored: set<AgentId>

    constructor (maxAgents: int)
      ensures Valid() && agents == map[] && stored == {} && this.maxAgents == maxAgents
    {
      this.maxAgents := maxAgents;
      agents, stored := map[], {};
    }

    /** Live agents have rows, answer to their identifier, are told apart, and can still be stopped. */
    ghost predicate Valid()
      reads this, agents.Values
    {
      && agents.Keys <= stored
      && (|agents| <= maxAgents || |agents| == 0)
      && (forall a | a in agents :: agents[a].id == a && !agents[a].stopClosed)
    }

    method SpawnAgent(a: AgentId, storeFails: bool) returns (r: Result<WorkerAgent, SpawnError>)
      requires Valid()
      modifies this
      ensures Valid() && old(stored) <= stored
      ensures r.Ok? <==> Admits(old(agents).Keys, old(stored), maxAgents, a) && !storeFails
      ensures r.Ok? ==>
                && fresh(r.value) && r.value.id == a && r.value.inputQueue == [] && r.value.state == Free
                && r.value.outputHistory == [] && r.value.currentTask == None
                && agents == old(agents)[a := r.value] && stored == old(stored) + {a}
      ensures r.Ok? <==> |old(agents)| < maxAgents && a !in old(stored) && !storeFails
      ensures r == Err(AtMaximumCapacity) <==> |old(agents)| >= maxAgents
      ensures r.Err? ==> agents == old(agents) && stored == old(stored)
    {
      assert |agents| == |agents.Keys|;
      if |agents| >= maxAgents {
        return Err(AtMaximumCapacity);
      }
      var agent := new WorkerAgent(a);
      if storeFails || a in stored {
        return Err(NotPersisted);
      }
      stored := stored + {a};
      agents := agents[a := agent];
      return Ok(agent);
    }

    /** A known agent is stopped, once, and leaves the map; its identifier stays taken. */
    method RemoveAgent(a: AgentId) returns (found: bool)
      requires Valid()
      modifies this, agents.Values
      ensures Valid() && stored == old(stored)
      ensures found <==> a in old(agents)
      ensures agents == old(agents) - {a}
      ensures found ==> old(agents)[a].status == Removed && old(agents)[a].stopClosed
      ensures forall b | b in agents :: agents[b].status == old(agents[b].status)
    {
      if a !in agents {
        assert agents == agents - {a};
        return false;
      }
      var agent := agents[a];
      assert forall b | b in agents && b != a :: agents[b] != agent;
      agent.status := Removed;
      agent.stopClosed := true;
      SubsetSize((agents - {a}).Keys, agents.Keys);
      agents := agents - {a};
      return true;
    }

    method GetAgent(a: AgentId) returns (r: Option<WorkerAgent>)
      requires Valid()
      ensures r == if a in agents then Some(agents[a]) else None
      ensures r.Some? ==> r.value.id == a
    {
      if a in agents {
        return Some(agents[a]);
      }
      return None;
    }
  }
}
