/** The database the services work on, as one object whose tables are
    sequences. Rows that other rows point at are stored at the index equal
    to their id, so a foreign key is an index below the table's length and
    ids grow with creation time (the tables' newest-first ordering is
    descending id). */
module Store {
  import opened Common
  import opened Calendar
  import opened CustomerModels
  import opened PitchModels
  import opened AgentModels
  import opened CampaignModels
  import opened AnalyticsModels

  predicate CustomersValid(cs: seq<Customer>) {
    forall i :: 0 <= i < |cs| ==> cs[i].id == i
  }

  predicate InteractionsValid(xs: seq<Interaction>, nCustomers: nat) {
    forall i :: 0 <= i < |xs| ==> xs[i].customer < nCustomers
  }

  predicate PitchesValid(ps: seq<Pitch>, nCustomers: nat, nCampaigns: nat) {
    forall i :: 0 <= i < |ps| ==>
      ps[i].id == i && ps[i].customer < nCustomers
      && (ps[i].parent.Some? ==> ps[i].parent.value < i)
      && (ps[i].campaign.Some? ==> ps[i].campaign.value < nCampaigns)
  }

  predicate ScoresValid(rows: seq<PitchScore>, nPitches: nat) {
    KeysUnique(rows, ScoreKey) && forall i :: 0 <= i < |rows| ==> rows[i].pitch < nPitches
  }

  /** A new score row keeps the score table valid when its key is new. */
  lemma AddScore(rows: seq<PitchScore>, n: nat, row: PitchScore)
    requires ScoresValid(rows, n) && row.pitch < n
    requires FindKey(rows, ScoreKey, ScoreKey(row)).None?
    ensures ScoresValid(rows + [row], n)
  {
    var t := rows + [row];
    forall i, j | 0 <= i < j < |t| ensures ScoreKey(t[i]) != ScoreKey(t[j]) {
      if j < |rows| {
        assert t[i] == rows[i] && t[j] == rows[j];
      } else {
        assert t[i] == rows[i];
      }
    }
  }

  predicate TemplatesValid(ts: seq<PitchTemplate>) {
    forall i :: 0 <= i < |ts| ==> ts[i].id == i
  }

  predicate AgentsValid(agents: seq<AgentConfig>) {
    NamesUnique(agents) && forall i :: 0 <= i < |agents| ==> agents[i].id == i
  }

  predicate ExecutionsValid(xs: seq<AgentExecution>, nAgents: nat) {
    forall i :: 0 <= i < |xs| ==> xs[i].agent < nAgents
  }

  predicate MessagesValid(ms: seq<A2AMessage>, nAgents: nat) {
    forall i :: 0 <= i < |ms| ==>
      ms[i].id == i && ms[i].fromAgent < nAgents && ms[i].toAgent < nAgents
      && (ms[i].parent.Some? ==> ms[i].parent.value < |ms|)
  }

  predicate CampaignsValid(cs: seq<Campaign>) {
    forall i :: 0 <= i < |cs| ==> cs[i].id == i
  }

  predicate TargetsValid(ts: seq<CampaignTarget>, nCampaigns: nat, nCustomers: nat) {
    KeysUnique(ts, TargetKey)
    && forall i :: 0 <= i < |ts| ==>
         ts[i].id == i && ts[i].campaign < nCampaigns && ts[i].customer < nCustomers
  }

  predicate PerformanceValid(rows: seq<AgentPerformance>, nAgents: nat) {
    KeysUnique(rows, PerformanceKey) && forall i :: 0 <= i < |rows| ==> rows[i].agent < nAgents
  }

  class Db {
    var customers: seq<Customer>
    var interactions: seq<Interaction>
    var pitches: seq<Pitch>
    var pitchScores: seq<PitchScore>
    var templates: seq<PitchTemplate>
    var agents: seq<AgentConfig>
    var executions: seq<AgentExecution>
    var messages: seq<A2AMessage>
    var campaigns: seq<Campaign>
    var targets: seq<CampaignTarget>
    var dashboardMetrics: seq<DashboardMetric>
    var performance: seq<AgentPerformance>
    /** The next value `uuid.uuid4()` hands out for a correlation id. */
    var nextUuid: nat
    /** Every save of a message status, in order. */
    ghost var statusWrites: seq<(nat, MessageStatus)>

    /** The constraints the schema enforces. */
    ghost predicate Valid()
      reads this
    {
      CustomersValid(customers)
      && InteractionsValid(interactions, |customers|)
      && PitchesValid(pitches, |customers|, |campaigns|)
      && ScoresValid(pitchScores, |pitches|)
      && TemplatesValid(templates)
      && AgentsValid(agents)
      && ExecutionsValid(executions, |agents|)
      && MessagesValid(messages, |agents|)
      && CampaignsValid(campaigns)
      && TargetsValid(targets, |campaigns|, |customers|)
      && KeysUnique(dashboardMetrics, MetricKey)
      && PerformanceValid(performance, |agents|)
    }

    /** The tables a pipeline run reads but never writes are as before:
        the customers, the agent configurations and the campaigns. */
    twostate predicate ContextKept()
      reads this
    {
      customers == old(customers) && agents == old(agents) && campaigns == old(campaigns)
    }

    /** `customer.customer_360_data = doc; customer.save(...)`. */
    method SaveCustomer360(id: nat, doc: Fields)
      requires Valid() && id < |customers|
      modifies this`customers
      ensures Valid()
      ensures customers == old(customers)[id := old(customers)[id].(customer360 := doc)]
    {
      customers := customers[id := customers[id].(customer360 := doc)];
    }

    /** `DashboardMetric.objects.update_or_create(...)` for the row `m`. */
    method UpdateOrCreateMetric(m: DashboardMetric)
      requires Valid()
      modifies this`dashboardMetrics
      ensures Valid()
      ensures dashboardMetrics == Upsert(old(dashboardMetrics), MetricKey, m, MergeMetric)
    {
      dashboardMetrics := Upsert(dashboardMetrics, MetricKey, m, MergeMetric);
    }

    /** `AgentPerformance.objects.update_or_create(...)` for the row `p`. */
    method UpdateOrCreatePerformance(p: AgentPerformance)
      requires Valid() && p.agent < |agents|
      modifies this`performance
      ensures Valid()
      ensures performance == Upsert(old(performance), PerformanceKey, p, MergePerformance)
    {
      performance := Upsert(performance, PerformanceKey, p, MergePerformance);
    }

    /** An empty database. */
    constructor ()
      ensures Valid()
      ensures customers == [] && interactions == [] && pitches == [] && pitchScores == []
      ensures templates == [] && agents == [] && executions == [] && messages == []
      ensures campaigns == [] && targets == [] && dashboardMetrics == [] && performance == []
      ensures nextUuid == 0 && statusWrites == []
    {
      customers, interactions, pitches, pitchScores := [], [], [], [];
      templates, agents, executions, messages := [], [], [], [];
      campaigns, targets, dashboardMetrics, performance := [], [], [], [];
      nextUuid := 0;
      statusWrites := [];
    }
  }
}
