/** The records of the agents application: agent configurations, the log of
    agent executions and the agent-to-agent (A2A) messages. */
module AgentModels {
  import opened Common
  import opened Calendar

  /** The six kinds of agent; the type of a configuration is one of them. */
  datatype AgentType = Research | PitchGenerator | Scorer | Refiner | Strategy | Orchestrator {
    function Code(): string {
      match this
      case Research => "research"
      case PitchGenerator => "pitch_generator"
      case Scorer => "scorer"
      case Refiner => "refiner"
      case Strategy => "strategy"
      case Orchestrator => "orchestrator"
    }
  }

  datatype AgentConfig = AgentConfig(
    id: nat, name: string, agentType: AgentType, systemPrompt: string, isActive: bool)

  datatype ExecutionStatus = Pending | Running | Completed | Failed

  datatype AgentExecution = AgentExecution(
    agent: nat, status: ExecutionStatus, createdOn: Day,
    startedAt: Option<real>, completedAt: Option<real>, tokensUsed: int, cost: real)

  /** `AgentExecution.duration`: the seconds from start to completion, known
      only once both timestamps are set (timestamps are seconds). */
  function Duration(e: AgentExecution): (r: Option<real>)
    ensures r.Some? <==> e.startedAt.Some? && e.completedAt.Some?
    ensures r.Some? ==> e.startedAt.value + r.value == e.completedAt.value
  {
    if e.startedAt.Some? && e.completedAt.Some? then Some(e.completedAt.value - e.startedAt.value)
    else None
  }

  datatype MessageType = Request | Response | Broadcast | Delegate {
    function Code(): string {
      match this
      case Request => "request"
      case Response => "response"
      case Broadcast => "broadcast"
      case Delegate => "delegate"
    }
  }

  datatype MessageStatus = Sent | Received | Processed | MessageFailed {
    function Code(): string {
      match this
      case Sent => "sent"
      case Received => "received"
      case Processed => "processed"
      case MessageFailed => "failed"
    }
  }

  /** An A2A message; `id` is its position in the message table and
      `correlation` the conversation it belongs to. */
  datatype A2AMessage = A2AMessage(
    id: nat, fromAgent: nat, toAgent: nat, messageType: MessageType, payload: Json,
    correlation: nat, status: MessageStatus, parent: Option<nat>)

  /** Configuration names are unique. */
  predicate NamesUnique(agents: seq<AgentConfig>) {
    forall i, j {:trigger agents[i].name, agents[j].name} :: 0 <= i < j < |agents| ==> agents[i].name != agents[j].name
  }

  /** The configurations of a type, in table order. */
  function OfType(agents: seq<AgentConfig>, t: AgentType, activeOnly: bool): (r: seq<nat>)
    ensures forall k :: 0 <= k < |r| ==>
              (r[k] < |agents| && agents[r[k]].agentType == t && (activeOnly ==> agents[r[k]].isActive))
    ensures forall i :: (0 <= i < |agents| && agents[i].agentType == t
                         && (activeOnly ==> agents[i].isActive)) ==> i in r
    ensures forall a, b :: 0 <= a < b < |r| ==> r[a] < r[b]
    decreases |agents|
  {
    if agents == [] then []
    else
      var rest := OfType(agents[..|agents| - 1], t, activeOnly);
      var last := agents[|agents| - 1];
      if last.agentType == t && (!activeOnly || last.isActive) then rest + [|agents| - 1] else rest
  }
}
