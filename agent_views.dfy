/** The agent endpoints: running one agent by configuration and starting the
    whole pipeline for a customer. Both only enqueue a task once their
    guards pass. */
module AgentViews {
  import opened Common
  import opened CustomerModels
  import opened AgentModels
  import Http

  /** The Celery task a view hands to the queue. */
  datatype AgentJob =
    | ExecuteJob(agent: nat, input: Fields)
    | OrchestrateJob(customer: nat, campaign: Option<nat>)

  /** The configuration exists and is active. */
  predicate ActiveAgent(agents: seq<AgentConfig>, id: nat) {
    id < |agents| && agents[id].isActive
  }

  /** `execute`: 400 when the input is not a dictionary or no configuration
      id is given (a missing or empty id), 404 when the configuration is
      missing or inactive; otherwise the execution is enqueued and the
      answer is 202 with the agent's name and type. */
  function ExecuteView(agents: seq<AgentConfig>, agent: Option<nat>, input: Json, taskId: string)
    : (r: (Http.Response, Option<AgentJob>))
    ensures r.1.Some? <==> r.0.code == Http.ACCEPTED
    ensures !input.JObj? || agent.None? ==> r.0.code == Http.BAD_REQUEST
    ensures input.JObj? && agent.Some? && !ActiveAgent(agents, agent.value) ==> r.0.code == Http.NOT_FOUND
    ensures input.JObj? && agent.Some? && ActiveAgent(agents, agent.value) ==>
      var a := agents[agent.value];
      r.1 == Some(ExecuteJob(a.id, input.fields))
      && r.0.body == JObj([("message", JStr("Agent " + a.name + " execution started")), ("task_id", JStr(taskId)),
                           ("agent", JStr(a.name)), ("agent_type", JStr(a.agentType.Code()))])
  {
    if !input.JObj? then (Http.Failure(Http.BAD_REQUEST, "input_data: Expected a dictionary of items."), None)
    else if agent.None? then (Http.Failure(Http.BAD_REQUEST, "agent_config_id is required"), None)
    else if !ActiveAgent(agents, agent.value) then
      (Http.Failure(Http.NOT_FOUND, "Agent configuration not found or inactive"), None)
    else
      var a := agents[agent.value];
      (Http.Response(Http.ACCEPTED,
         JObj([("message", JStr("Agent " + a.name + " execution started")), ("task_id", JStr(taskId)),
               ("agent", JStr(a.name)), ("agent_type", JStr(a.agentType.Code()))])),
       Some(ExecuteJob(a.id, input.fields)))
  }

  /** `orchestrate_pitch`: 404 for an unknown customer, before anything is
      enqueued; otherwise the pipeline is enqueued and the answer is 202
      pending, naming the customer and the campaign (null when none was
      given). */
  function OrchestrateView(customers: seq<Customer>, customer: nat, campaign: Option<nat>, taskId: string)
    : (r: (Http.Response, Option<AgentJob>))
    ensures customer >= |customers| ==> r.0.code == Http.NOT_FOUND && r.1.None?
    ensures customer < |customers| ==>
      r.0.code == Http.ACCEPTED && r.1 == Some(OrchestrateJob(customer, campaign))
      && r.0.body.JObj? && Lookup(r.0.body.fields, "status") == Some(JStr("pending"))
      && Lookup(r.0.body.fields, "campaign_id") ==
           Some(if campaign.Some? then JStr(IdText(campaign.value)) else JNull)
  {
    if customer >= |customers| then (Http.Failure(Http.NOT_FOUND, "Customer not found"), None)
    else
      var more := [("customer_id", JStr(IdText(customer))),
                   ("campaign_id", if campaign.Some? then JStr(IdText(campaign.value)) else JNull)];
      var rsp := Http.Pending("Orchestration pipeline started for " + customers[customer].name, taskId, more);
      LookupAppend([("message", JStr("Orchestration pipeline started for " + customers[customer].name)),
                    ("task_id", JStr(taskId))] + more, [("status", JStr("pending"))], "campaign_id");
      LookupAppend([("message", JStr("Orchestration pipeline started for " + customers[customer].name)),
                    ("task_id", JStr(taskId))], more, "campaign_id");
      (rsp, Some(OrchestrateJob(customer, campaign)))
  }
}
