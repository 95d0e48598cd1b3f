/** The agent tasks: running one agent on request, and the two message
    tasks, which report failures as values instead of raising. */
module AgentTasks {
  import opened Common
  import opened AgentModels
  import opened AgentService
  import opened Store
  import opened A2A

  /** Where an execution request goes: an operation of the agent, or, for a
      type the Celery task does not route, the error dictionary it returns. */
  datatype Dispatched = Serve(call: AgentCall) | UnknownType(result: Json)

  /** `{'error': f'Unknown agent type: {agent_type}'}`. */
  function UnknownAgent(t: AgentType): Json {
    JObj([("error", JStr("Unknown agent type: " + t.Code()))])
  }

  /** The routing of `async_execute_agent`: every type but the orchestrator
      is served with its arguments read from the input dictionary. */
  function Dispatch(t: AgentType, input: Fields): (r: Dispatched)
    ensures r.UnknownType? <==> t == Orchestrator
    ensures r.UnknownType? ==> r.result == UnknownAgent(t)
    ensures r.Serve? ==> r.call.Agent() == t && Some(r.call) == Route(t, JObj(input)).value
  {
    match Route(t, JObj(input))
    case Ok(Some(call)) => Serve(call)
    case _ => UnknownType(UnknownAgent(t))
  }

  /** `async_execute_agent`: the configuration is looked up whether active or
      not (a missing one raises); the agent's operation runs through `run`,
      and its failure is the Celery task's failure. */
  function ExecuteAgent(agents: seq<AgentConfig>, id: nat, input: Fields, run: AgentCall -> Result<Json>)
    : (r: Result<Json>)
    ensures id >= |agents| ==> r == Err("AgentConfig matching query does not exist.")
    ensures id < |agents| && agents[id].agentType == Orchestrator ==>
      r == Ok(UnknownAgent(Orchestrator))
    ensures id < |agents| && agents[id].agentType != Orchestrator ==>
      r == run(Route(agents[id].agentType, JObj(input)).value.value)
  {
    if id >= |agents| then Err("AgentConfig matching query does not exist.")
    else match Dispatch(agents[id].agentType, input)
      case UnknownType(result) => Ok(result)
      case Serve(call) => run(call)
  }

  /** Running an agent directly and sending it a message agree on every
      type they both route; they part only on the orchestrator, which a
      message answers with `{}` and an execution with the error
      dictionary. */
  lemma ExecuteMatchesProcess(agents: seq<AgentConfig>, id: nat, input: Fields, run: AgentCall -> Result<Json>)
    requires id < |agents|
    ensures agents[id].agentType != Orchestrator ==>
      ExecuteAgent(agents, id, input, run) == ProcessResult(agents[id].agentType, JObj(input), run)
    ensures agents[id].agentType == Orchestrator ==>
      ProcessResult(agents[id].agentType, JObj(input), run) == Ok(JObj([]))
      && ExecuteAgent(agents, id, input, run) != ProcessResult(agents[id].agentType, JObj(input), run)
  {
    if agents[id].agentType == Orchestrator {
      assert ExecuteAgent(agents, id, input, run).value.fields != [];
    }
  }

  /** The error dictionary of the message tasks. */
  function TaskError(e: string): Json {
    JObj([("status", JStr("error")), ("error", JStr(e))])
  }

  /** `async_send_a2a_message`: both agents must exist; the message is sent
      and its id and conversation reported, and a failure is reported as
      an error dictionary, never raised. */
  method SendTask(db: Db, from: nat, to: nat, kind: MessageType, payload: Json, correlation: Option<nat>)
    returns (r: Json)
    requires db.Valid()
    modifies db`messages, db`nextUuid
    ensures db.Valid()
    ensures r.JObj? && |r.fields| > 0 && r.fields[0].0 == "status"
    ensures from >= |old(db.agents)| || to >= |old(db.agents)| ==>
      r == TaskError("AgentConfig matching query does not exist.")
      && db.messages == old(db.messages) && db.nextUuid == old(db.nextUuid)
    ensures from < |old(db.agents)| && to < |old(db.agents)| ==>
      var c := correlation.GetOr(old(db.nextUuid));
      db.messages == old(db.messages) + [A2AMessage(|old(db.messages)|, from, to, kind, payload, c, Sent, None)]
      && r == JObj([("status", JStr("sent")), ("message_id", JStr(IdText(|old(db.messages)|))),
                    ("correlation_id", JStr(IdText(c)))])
  {
    if from >= |db.agents| || to >= |db.agents| {
      return TaskError("AgentConfig matching query does not exist.");
    }
    var m := SendMessage(db, from, to, kind, payload, correlation, None);
    r := JObj([("status", JStr("sent")), ("message_id", JStr(IdText(m.id))),
               ("correlation_id", JStr(IdText(m.correlation)))]);
  }

  /** What processing a message returns or raises. */
  function Processing(ms: seq<A2AMessage>, agents: seq<AgentConfig>, id: nat, run: AgentCall -> Result<Json>)
    : (r: Result<Json>)
    requires forall i :: 0 <= i < |ms| ==> ms[i].toAgent < |agents|
    ensures id >= |ms| ==> r == Err("A2AMessage matching query does not exist.")
  {
    if id >= |ms| then Err("A2AMessage matching query does not exist.")
    else ProcessResult(agents[ms[id].toAgent].agentType, ms[id].payload, run)
  }

  /** The dictionary `async_process_a2a_message` returns for an outcome:
      processed with the result, or the error. */
  function ProcessedReport(outcome: Result<Json>): (r: Json)
    ensures r.JObj? && |r.fields| == 2
    ensures outcome.Ok? <==> r.fields[0] == ("status", JStr("processed"))
    ensures outcome.Ok? ==> r.fields[1] == ("result", outcome.value)
    ensures outcome.Err? ==> r == TaskError(outcome.error)
  {
    match outcome
    case Ok(v) => JObj([("status", JStr("processed")), ("result", v)])
    case Err(e) => TaskError(e)
  }

  /** `async_process_a2a_message`: the message is processed as
      `process_message` does, and the outcome, failure included, is
      reported as a value. */
  method ProcessTask(db: Db, id: nat, run: AgentCall -> Result<Json>) returns (r: Json)
    requires db.Valid()
    modifies db`messages, db`statusWrites
    ensures db.Valid()
    ensures r == ProcessedReport(Processing(old(db.messages), db.agents, id, run))
    ensures id >= |old(db.messages)| ==> db.messages == old(db.messages)
    ensures id < |old(db.messages)| ==>
      db.messages == old(db.messages)[id := old(db.messages)[id].(status :=
                       ProcessedStatus(Processing(old(db.messages), db.agents, id, run)))]
  {
    var outcome := ProcessMessage(db, id, run);
    r := ProcessedReport(outcome);
  }
}
