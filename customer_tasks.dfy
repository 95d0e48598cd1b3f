/** The customer task: building the enrichment document a customer's
    360-degree view shows, upgraded with the agent's research when that
    research returns something. */
module CustomerTasks {
  import opened Common
  import opened Calendar
  import opened CustomerModels
  import opened AgentModels
  import opened AgentService
  import opened Store

  /** `customer.interactions.order_by('-created_at').first()`: an interaction
      of the customer created no earlier than any other of theirs. Among
      interactions with the same timestamp the first in the table is taken;
      the database leaves that order open. */
  function NewestInteraction(xs: seq<Interaction>, customer: nat): (r: Option<nat>)
    ensures r.None? <==> forall i :: 0 <= i < |xs| ==> xs[i].customer != customer
    ensures r.Some? ==> r.value < |xs| && xs[r.value].customer == customer
    ensures r.Some? ==> forall i :: 0 <= i < |xs| && xs[i].customer == customer ==>
              Micros(xs[i].createdAt) <= Micros(xs[r.value].createdAt)
    decreases |xs|
  {
    if xs == [] then None
    else
      var last := |xs| - 1;
      var rest := NewestInteraction(xs[..last], customer);
      assert forall i :: 0 <= i < last ==> xs[i] == xs[..last][i];
      if xs[last].customer != customer then rest
      else if rest.None? || Micros(xs[rest.value].createdAt) < Micros(xs[last].createdAt) then Some(last)
      else rest
  }

  /** `customer.interactions.count()`. */
  function InteractionCount(xs: seq<Interaction>, customer: nat): (r: nat)
    ensures r == 0 <==> NewestInteraction(xs, customer).None?
  {
    Count(xs, (x: Interaction) => x.customer == customer)
  }

  /** The `last_interaction` entry: the newest interaction's `isoformat()`,
      or null when the customer has none. */
  function LastInteraction(xs: seq<Interaction>, customer: nat): (r: Json)
    ensures r.JNull? <==> InteractionCount(xs, customer) == 0
    ensures r.JStr? ==> r.s == IsoFormat(xs[NewestInteraction(xs, customer).value].createdAt)
  {
    match NewestInteraction(xs, customer)
    case None => JNull
    case Some(i) => JStr(IsoFormat(xs[i].createdAt))
  }

  /** The `engagement_summary` entry. */
  function Engagement(total: nat, last: Json): Json {
    JObj([("total_interactions", JNum(total as real)), ("last_interaction", last),
          ("sentiment_trend", JStr("neutral"))])
  }

  /** `summary['last_interaction'] = last` on an engagement summary. */
  function WithLast(summary: Json, last: Json): Json {
    if summary.JObj? && |summary.fields| > 1 then JObj(summary.fields[1 := ("last_interaction", last)])
    else summary
  }

  /** The enrichment document built from the customer's own columns, with
      `last` as its `last_interaction` entry. */
  function Profile(c: Customer, total: nat, last: Json): Fields {
    [("company_profile", JObj([("name", JStr(c.company)), ("industry", JStr(c.industry)),
                               ("size", JStr(c.companySize.Code())), ("website", JStr(c.website))])),
     ("contact_info", JObj([("primary_contact", JStr(c.name)), ("email", JStr(c.email)),
                            ("phone", JStr(c.phone))])),
     ("engagement_summary", Engagement(total, last)),
     ("enrichment_source", JStr("internal")),
     ("enrichment_complete", JBool(true))]
  }

  /** The basic enrichment of a customer, which the 360-degree view builds
      in one go and the Celery task in two steps. */
  function BasicEnrichment(c: Customer, xs: seq<Interaction>): (r: Fields)
    ensures r != []
  {
    Profile(c, InteractionCount(xs, c.id), LastInteraction(xs, c.id))
  }

  /** The keys of the basic enrichment, in order. */
  const EnrichmentKeys: seq<string> :=
    ["company_profile", "contact_info", "engagement_summary", "enrichment_source", "enrichment_complete"]

  /** The basic enrichment states its facts: the interaction count, the
      newest interaction or null exactly when there is none, the internal
      source and completeness. */
  lemma BasicEnrichmentFacts(c: Customer, xs: seq<Interaction>)
    ensures var r := BasicEnrichment(c, xs);
      Keys(r) == EnrichmentKeys && r[2].1.JObj? && |r[2].1.fields| == 3
      && r[2].1.fields[0] == ("total_interactions", JNum(Count(xs, (x: Interaction) => x.customer == c.id) as real))
      && r[2].1.fields[1].0 == "last_interaction"
      && (r[2].1.fields[1].1.JNull? <==> forall i :: 0 <= i < |xs| ==> xs[i].customer != c.id)
      && r[3].1 == JStr("internal") && r[4].1 == JBool(true)
  {
  }

  /** The document the Celery task saves: the basic enrichment, upgraded to the
      agent's research when that research returned a truthy value. */
  function TaskEnrichment(c: Customer, xs: seq<Interaction>, research: Result<Json>): (r: Fields)
    ensures r != []
  {
    var base := BasicEnrichment(c, xs);
    if research.Ok? && Truthy(research.value) then
      base[3 := ("enrichment_source", JStr("ai_agent"))] + [("ai_research", research.value)]
    else base
  }

  /** The research is recorded under `ai_research`, and the source is the
      agent, exactly when the research returned a truthy value; otherwise
      the document is the basic enrichment. Either way the document is
      complete and its profile entries are the basic ones. */
  lemma TaskEnrichmentSource(c: Customer, xs: seq<Interaction>, research: Result<Json>)
    ensures var r := TaskEnrichment(c, xs, research);
      var upgraded := research.Ok? && Truthy(research.value);
      Keys(r) == EnrichmentKeys + (if upgraded then ["ai_research"] else [])
      && (upgraded ==> r[5].1 == research.value)
      && r[3].1 == JStr(if upgraded then "ai_agent" else "internal")
      && r[4].1 == JBool(true)
      && r[..3] == BasicEnrichment(c, xs)[..3]
      && (!upgraded ==> r == BasicEnrichment(c, xs))
  {
  }

  /** The dictionary the Celery task returns on success. */
  function Success(customer: nat): Json {
    JObj([("status", JStr("success")), ("customer_id", JStr(IdText(customer)))])
  }

  /** `enrich_customer_data`: a missing customer raises (and the Celery task is
      retried); otherwise the basic enrichment is built, its
      `last_interaction` filled in from the newest interaction, and the
      agent's research (`research_customer` on the given oracles) added
      when it returns a truthy value. A failing research is not the Celery task's
      failure. The document replaces the customer's `customer_360_data`
      wholesale. */
  method EnrichCustomerData(db: Db, customer: nat, llmReady: bool, mcp: Result<Json>,
                            llm: Result<string>, model: string) returns (r: Result<Json>)
    requires db.Valid()
    modifies db`customers
    ensures db.Valid()
    ensures customer >= |old(db.customers)| ==>
      r == Err("Customer matching query does not exist.") && db.customers == old(db.customers)
    ensures customer < |old(db.customers)| ==>
      var c := old(db.customers)[customer];
      var research := ResearchCustomer(old(db.customers), db.agents, customer, llmReady, mcp, llm, model);
      r == Ok(Success(customer))
      && db.customers == old(db.customers)[customer := c.(customer360 := TaskEnrichment(c, db.interactions, research))]
  {
    if customer >= |db.customers| {
      return Err("Customer matching query does not exist.");
    }
    var c := db.customers[customer];
    var enrichment := Profile(c, InteractionCount(db.interactions, customer), JNull);
    var newest := NewestInteraction(db.interactions, customer);
    if newest.Some? {
      var last := JStr(IsoFormat(db.interactions[newest.value].createdAt));
      enrichment := enrichment[2 := ("engagement_summary", WithLast(enrichment[2].1, last))];
      LastFilled(c, InteractionCount(db.interactions, customer), last);
    }
    assert enrichment == BasicEnrichment(c, db.interactions);
    var research := ResearchCustomer(db.customers, db.agents, customer, llmReady, mcp, llm, model);
    if research.Ok? && Truthy(research.value) {
      enrichment := enrichment + [("ai_research", research.value)];
      enrichment := enrichment[3 := ("enrichment_source", JStr("ai_agent"))];
      UpgradeOrder(BasicEnrichment(c, db.interactions), ("ai_research", research.value),
                   ("enrichment_source", JStr("ai_agent")));
    }
    assert enrichment == TaskEnrichment(c, db.interactions, research);
    db.SaveCustomer360(customer, enrichment);
    r := Ok(Success(customer));
  }

  /** Filling in `last_interaction` afterwards gives the document built
      with it. */
  lemma LastFilled(c: Customer, total: nat, last: Json)
    ensures var p := Profile(c, total, JNull);
      p[2 := ("engagement_summary", WithLast(p[2].1, last))] == Profile(c, total, last)
  {
    assert WithLast(Engagement(total, JNull), last) == Engagement(total, last);
  }

  /** Adding a key and then updating an earlier one is updating, then adding. */
  lemma UpgradeOrder(base: Fields, added: (string, Json), updated: (string, Json))
    requires |base| > 3
    ensures (base + [added])[3 := updated] == base[3 := updated] + [added]
  {
  }
}
