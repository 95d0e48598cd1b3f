/** The agent-to-agent messaging half of `A2AService`: sending a message,
    processing one, and the get-or-create of agent configurations the
    pipeline starts with. */
module A2A {
  import opened Common
  import opened AgentModels
  import opened AgentService
  import opened Store

  /** `send_message`: a new message in status sent, in the given
      conversation or, without one, in a fresh one. */
  method SendMessage(db: Db, from: nat, to: nat, kind: MessageType, payload: Json,
                     correlation: Option<nat>, parent: Option<nat>) returns (m: A2AMessage)
    requires db.Valid() && from < |db.agents| && to < |db.agents|
    requires parent.Some? ==> parent.value < |db.messages|
    modifies db`messages, db`nextUuid
    ensures db.Valid() && db.ContextKept()
    ensures db.pitches == old(db.pitches) && db.pitchScores == old(db.pitchScores)
    ensures db.messages == old(db.messages) + [m]
    ensures m == A2AMessage(|old(db.messages)|, from, to, kind, payload,
                            correlation.GetOr(old(db.nextUuid)), Sent, parent)
    ensures db.nextUuid == old(db.nextUuid) + (if correlation.None? then 1 else 0)
  {
    var c: nat;
    if correlation.Some? {
      c := correlation.value;
    } else {
      c := db.nextUuid;
      db.nextUuid := db.nextUuid + 1;
    }
    m := A2AMessage(|db.messages|, from, to, kind, payload, c, Sent, parent);
    db.messages := db.messages + [m];
  }

  /** The status a processed message ends in. */
  function ProcessedStatus(r: Result<Json>): (s: MessageStatus)
    ensures s == Processed <==> r.Ok?
    ensures s == MessageFailed <==> r.Err?
  {
    if r.Ok? then Processed else MessageFailed
  }

  /** What processing a message computes: the call its receiver serves, run
      by `run`; a receiver that serves no call yields the empty object. */
  function ProcessResult(t: AgentType, payload: Json, run: AgentCall -> Result<Json>): (r: Result<Json>)
    ensures t == Orchestrator ==> r == Ok(JObj([]))
    ensures t != Orchestrator && !payload.JObj? ==> r.Err?
    ensures t != Orchestrator && payload.JObj? ==> r == run(Route(t, payload).value.value)
  {
    match Route(t, payload)
    case Err(e) => Err(e)
    case Ok(None) => Ok(JObj([]))
    case Ok(Some(call)) => run(call)
  }

  /** `process_message`: the message is saved as received, then as
      processed when its receiver's call returns and as failed when it
      raises (the error is passed on). A missing message raises before
      anything is saved. */
  method ProcessMessage(db: Db, id: nat, run: AgentCall -> Result<Json>) returns (r: Result<Json>)
    requires db.Valid()
    modifies db`messages, db`statusWrites
    ensures db.Valid()
    ensures id >= |old(db.messages)| ==>
      r == Err("A2AMessage matching query does not exist.") && db.messages == old(db.messages) && db.statusWrites == old(db.statusWrites)
    ensures id < |old(db.messages)| ==>
      var msg := old(db.messages)[id];
      r == ProcessResult(db.agents[msg.toAgent].agentType, msg.payload, run)
      && db.messages == old(db.messages)[id := msg.(status := ProcessedStatus(r))]
      && db.statusWrites == old(db.statusWrites) + [(id, Received), (id, ProcessedStatus(r))]
  {
    if id >= |db.messages| {
      return Err("A2AMessage matching query does not exist.");
    }
    var msg := db.messages[id];
    db.messages := db.messages[id := msg.(status := Received)];
    db.statusWrites := db.statusWrites + [(id, Received)];
    r := ProcessResult(db.agents[msg.toAgent].agentType, msg.payload, run);
    db.messages := db.messages[id := msg.(status := ProcessedStatus(r))];
    db.statusWrites := db.statusWrites + [(id, ProcessedStatus(r))];
  }

  /** Some configuration already carries the name. */
  predicate NameTaken(agents: seq<AgentConfig>, name: string) {
    exists i :: 0 <= i < |agents| && agents[i].name == name
  }

  /** `AgentConfig.objects.get_or_create(agent_type=t, defaults=...)`: the one
      configuration of the type, active or not; none creates an active one
      under `name`, which fails when the name is taken; several raise. */
  method GetOrCreateAgent(db: Db, t: AgentType, name: string) returns (r: Result<nat>)
    requires db.Valid()
    modifies db`agents
    ensures db.Valid()
    ensures var found := OfType(old(db.agents), t, false);
      (|found| == 1 ==> r == Ok(found[0]) && db.agents == old(db.agents))
      && (|found| > 1 ==> r.Err? && db.agents == old(db.agents))
      && (|found| == 0 && NameTaken(old(db.agents), name) ==> r.Err? && db.agents == old(db.agents))
      && (|found| == 0 && !NameTaken(old(db.agents), name) ==>
            r == Ok(|old(db.agents)|)
            && db.agents == old(db.agents) + [AgentConfig(|old(db.agents)|, name, t, "", true)])
    ensures r.Ok? ==> r.value < |db.agents| && db.agents[r.value].agentType == t
    ensures HiredInto(old(db.agents), db.agents, t, name)
  {
    var found := OfType(db.agents, t, false);
    if |found| == 1 {
      return Ok(found[0]);
    } else if |found| > 1 {
      return Err("MultipleObjectsReturned");
    }
    if exists i :: 0 <= i < |db.agents| && db.agents[i].name == name {
      return Err("IntegrityError");
    }
    var a := AgentConfig(|db.agents|, name, t, "", true);
    db.agents := db.agents + [a];
    r := Ok(a.id);
  }

  /** The get-or-create of type `t` under `name` succeeds: the type has
      exactly one configuration, or none and the name is free. */
  predicate Hireable(agents: seq<AgentConfig>, t: AgentType, name: string) {
    var found := OfType(agents, t, false);
    |found| == 1 || (|found| == 0 && !NameTaken(agents, name))
  }

  /** The type has exactly one configuration. */
  predicate Sole(agents: seq<AgentConfig>, t: AgentType) {
    |OfType(agents, t, false)| == 1
  }

  /** `after` is `before`, or `before` with a new active configuration of
      type `t` under `name`. */
  predicate HiredInto(before: seq<AgentConfig>, after: seq<AgentConfig>, t: AgentType, name: string) {
    after == before || after == before + [AgentConfig(|before|, name, t, "", true)]
  }

  /** A new configuration is found by the lookups of its own type only. */
  lemma OfTypeSnoc(agents: seq<AgentConfig>, a: AgentConfig, t: AgentType, activeOnly: bool)
    ensures OfType(agents + [a], t, activeOnly)
            == OfType(agents, t, activeOnly) + (if a.agentType == t && (!activeOnly || a.isActive) then [|agents|] else [])
  {
    assert (agents + [a])[..|agents|] == agents;
  }

  /** A new configuration takes its own name only. */
  lemma NameTakenSnoc(agents: seq<AgentConfig>, a: AgentConfig, name: string)
    ensures NameTaken(agents + [a], name) <==> NameTaken(agents, name) || a.name == name
  {
    var t := agents + [a];
    if NameTaken(agents, name) {
      var i :| 0 <= i < |agents| && agents[i].name == name;
      assert t[i].name == name;
    }
    if a.name == name {
      assert t[|agents|].name == name;
    }
  }

  /** A get-or-create never changes what the lookups of another type or
      of another name find. */
  lemma HireKeeps(before: seq<AgentConfig>, after: seq<AgentConfig>, t: AgentType, name: string)
    requires HiredInto(before, after, t, name)
    ensures forall u :: u != t ==> OfType(after, u, false) == OfType(before, u, false)
    ensures forall m :: m != name ==> (NameTaken(after, m) <==> NameTaken(before, m))
  {
    if after != before {
      var a := AgentConfig(|before|, name, t, "", true);
      forall u | u != t ensures OfType(after, u, false) == OfType(before, u, false) {
        OfTypeSnoc(before, a, u, false);
      }
      forall m | m != name ensures NameTaken(after, m) <==> NameTaken(before, m) {
        NameTakenSnoc(before, a, m);
      }
    }
  }

  /** A type has no more active configurations than configurations. */
  lemma {:induction false} ActiveAmong(agents: seq<AgentConfig>, t: AgentType)
    ensures |OfType(agents, t, true)| <= |OfType(agents, t, false)|
    decreases |agents|
  {
    if agents != [] {
      ActiveAmong(agents[..|agents| - 1], t);
    }
  }

  /** A type with one configuration has at most one active one, so the
      services' lookup of the active configuration does not raise. */
  lemma SoleActive(agents: seq<AgentConfig>, t: AgentType)
    requires Sole(agents, t)
    ensures ActiveConfig(agents, t).Ok?
  {
    ActiveAmong(agents, t);
  }
}
