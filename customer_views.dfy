/** The customer endpoints that compute something: the 360-degree view,
    which builds the basic enrichment on first use and summarises the
    customer's pitches, and the search guard and match. */
module CustomerViews {
  import opened Common
  import opened CustomerModels
  import opened PitchModels
  import opened Store
  import opened CustomerTasks
  import opened Calendar
  import opened Ranking
  import Http

  // ------------------------------------------------------------ customer_360

  /** The `pitch_summary` block of the 360-degree view. */
  datatype PitchSummary = PitchSummary(totalPitches: nat, approvedPitches: nat, averageScore: Option<real>)

  /** What the 360-degree view returns: the customer as saved, the pitch
      summary, and whether the enrichment task was enqueued. */
  datatype View360 = View360(customer: Customer, pitchSummary: PitchSummary, enrichQueued: bool)

  /** The pitches the view counts: the customer's active ones. */
  predicate Listed(p: Pitch, customer: nat) {
    p.customer == customer && p.isActive
  }

  /** `[p.average_score for p in pitches.exclude(scores={}) if p.average_score
      is not None]`: the averages of the scored pitches that have one. */
  function ScoredAverages(ps: seq<Pitch>): (r: seq<real>)
    ensures |r| <= |ps|
    ensures r == [] <==> forall i :: 0 <= i < |ps| ==> AverageScore(ps[i].scores).None?
  {
    if ps == [] then []
    else
      var rest := ScoredAverages(ps[1..]);
      assert forall i :: 1 <= i < |ps| ==> ps[i] == ps[1..][i - 1];
      if ps[0].scores != [] && AverageScore(ps[0].scores).Some? then [AverageScore(ps[0].scores).value] + rest
      else rest
  }

  /** Every average kept is the average of one of the pitches. */
  lemma {:induction false} ScoredAveragesFrom(ps: seq<Pitch>)
    ensures forall x :: x in ScoredAverages(ps) ==>
              exists i :: 0 <= i < |ps| && AverageScore(ps[i].scores) == Some(x)
  {
    if ps != [] {
      ScoredAveragesFrom(ps[1..]);
      assert forall i :: 1 <= i < |ps| ==> ps[i] == ps[1..][i - 1];
    }
  }

  /** The pitch summary of a customer: how many active pitches they have,
      how many of those are approved, and the mean of their averages
      rounded to two places, or none when no pitch has an average. */
  function SummaryOf(ps: seq<Pitch>, customer: nat): (r: PitchSummary)
    ensures r.totalPitches == Count(ps, (p: Pitch) => Listed(p, customer))
    ensures r.approvedPitches <= r.totalPitches
    ensures r.averageScore.None? <==>
      forall i :: 0 <= i < |ps| && Listed(ps[i], customer) ==> AverageScore(ps[i].scores).None?
  {
    var mine := Filter(ps, (p: Pitch) => Listed(p, customer));
    var averages := ScoredAverages(mine);
    if averages == [] then
      forall i | 0 <= i < |ps| && Listed(ps[i], customer)
        ensures AverageScore(ps[i].scores).None?
      {
        assert ps[i] in mine;
      }
      PitchSummary(|mine|, Count(mine, (p: Pitch) => p.status == Approved), None)
    else
      PitchSummary(|mine|, Count(mine, (p: Pitch) => p.status == Approved), Some(Round2(Mean(averages))))
  }

  /** When every active pitch's average lies in [lo, hi], the summary's
      average lies there too, up to the rounding to two places. */
  lemma SummaryWithin(ps: seq<Pitch>, customer: nat, lo: real, hi: real)
    requires forall i :: 0 <= i < |ps| && Listed(ps[i], customer) && AverageScore(ps[i].scores).Some? ==>
               lo <= AverageScore(ps[i].scores).value <= hi
    ensures SummaryOf(ps, customer).averageScore.Some? ==>
      lo - 0.005 <= SummaryOf(ps, customer).averageScore.value <= hi + 0.005
  {
    var mine := Filter(ps, (p: Pitch) => Listed(p, customer));
    var averages := ScoredAverages(mine);
    if averages != [] {
      ScoredAveragesFrom(mine);
      MeanWithin(averages);
      assert MinOf(averages) in averages && MaxOf(averages) in averages;
      assert lo <= MinOf(averages) && MaxOf(averages) <= hi;
    }
  }

  /** The customer as the view leaves it: the basic enrichment is built only
      when the cached document is empty; a document already there is kept. */
  function Enriched(c: Customer, xs: seq<Interaction>): (r: Customer)
    ensures c.customer360 != [] ==> r == c
    ensures c.customer360 == [] ==> r == c.(customer360 := BasicEnrichment(c, xs))
    ensures r.customer360 != []
  {
    if c.customer360 == [] then c.(customer360 := BasicEnrichment(c, xs)) else c
  }

  /** A second request finds the document the first one built and changes
      nothing. */
  lemma EnrichedOnce(c: Customer, xs: seq<Interaction>)
    ensures Enriched(Enriched(c, xs), xs) == Enriched(c, xs)
  {
  }

  /** `customer_360`: 404 for a customer that is missing or inactive;
      otherwise the enrichment is built and saved when the cached document
      is empty (and the enrichment task is then enqueued), and the saved
      customer is returned with the summary of their pitches. */
  method Customer360(db: Db, id: nat) returns (r: Http.Reply<View360>)
    requires db.Valid()
    modifies db`customers
    ensures db.Valid()
    ensures (id >= |old(db.customers)| || !old(db.customers)[id].isActive) ==>
      r == Http.Refusal(Http.NotFound) && db.customers == old(db.customers)
    ensures id < |old(db.customers)| && old(db.customers)[id].isActive ==>
      var c := old(db.customers)[id];
      db.customers == old(db.customers)[id := Enriched(c, db.interactions)]
      && r == Http.Answer(View360(Enriched(c, db.interactions), SummaryOf(db.pitches, id), c.customer360 == []))
  {
    if id >= |db.customers| || !db.customers[id].isActive {
      return Http.Refusal(Http.NotFound);
    }
    var c := db.customers[id];
    var queued := false;
    if c.customer360 == [] {
      db.SaveCustomer360(id, BasicEnrichment(c, db.interactions));
      queued := true;
    }
    r := Http.Answer(View360(db.customers[id], SummaryOf(db.pitches, id), queued));
  }

  // ------------------------------------------------------------------ search

  /** The message of the 400 response to a search without a query. */
  const QueryRequired: string := "Query parameter \"q\" is required."

  /** The match of `search`: the query occurs, ignoring case, in the name,
      the company, the industry, the description or the email. */
  predicate Matches(c: Customer, q: string) {
    var needle := Lower(q);
    Contains(Lower(c.name), needle) || Contains(Lower(c.company), needle)
    || Contains(Lower(c.industry), needle) || Contains(Lower(c.description), needle)
    || Contains(Lower(c.email), needle)
  }

  /** The ordering key of the customer table, `-created_at`: newer
      customers rank higher. */
  function CreatedKey(c: Customer): real {
    Micros(c.createdAt) as real
  }

  /** `search`: the `q` parameter (empty when absent) is stripped; an empty
      query is refused with 400, otherwise the active customers that match
      are listed newest first, the table's default ordering. */
  function Search(customers: seq<Customer>, q: Option<string>): (r: Result<seq<Customer>>)
    ensures r.Err? <==> Strip(q.GetOr("")) == ""
    ensures r.Err? ==> r.error == QueryRequired
    ensures r.Ok? ==> forall c :: c in r.value <==> c in customers && c.isActive && Matches(c, Strip(q.GetOr("")))
    ensures r.Ok? ==> |r.value| == Count(customers, (c: Customer) => c.isActive && Matches(c, Strip(q.GetOr(""))))
    ensures r.Ok? ==> forall i, j :: 0 <= i < j < |r.value| ==> Micros(r.value[i].createdAt) >= Micros(r.value[j].createdAt)
  {
    var query := Strip(q.GetOr(""));
    if query == "" then Err(QueryRequired)
    else
      var found := Filter(customers, (c: Customer) => c.isActive && Matches(c, query));
      var r := SortDesc(found, CreatedKey);
      NewestFirst(found, r);
      Ok(r)
  }

  /** A reordering of `found` by `-created_at` holds the same customers,
      newest first. */
  lemma NewestFirst(found: seq<Customer>, r: seq<Customer>)
    requires multiset(r) == multiset(found) && Descending(r, CreatedKey)
    ensures forall c :: c in r <==> c in found
    ensures forall i, j :: 0 <= i < j < |r| ==> Micros(r[i].createdAt) >= Micros(r[j].createdAt)
  {
    assert forall c :: c in r <==> c in multiset(found);
    forall i, j | 0 <= i < j < |r| ensures Micros(r[i].createdAt) >= Micros(r[j].createdAt) {
      assert CreatedKey(r[i]) >= CreatedKey(r[j]);
    }
  }

  /** White space around the query does not change the result. */
  lemma SearchIgnoresPadding(customers: seq<Customer>, w1: string, q: string, w2: string)
    requires AllSpace(w1) && AllSpace(w2) && IsStripped(q)
    ensures Search(customers, Some(w1 + q + w2)) == Search(customers, Some(q))
  {
    PaddedQuery(w1, q, w2);
    SameQuery(customers, w1 + q + w2, q);
  }

  lemma PaddedQuery(w1: string, q: string, w2: string)
    requires AllSpace(w1) && AllSpace(w2) && IsStripped(q)
    ensures Strip(w1 + q + w2) == Strip(q)
  {
    StripPadded(w1, q, w2);
    StrippedFixed(q);
  }

  /** `search` sees only the stripped query. */
  lemma SameQuery(customers: seq<Customer>, a: string, b: string)
    requires Strip(a) == Strip(b)
    ensures Search(customers, Some(a)) == Search(customers, Some(b))
  {
  }

  /** The case of the query does not change the match. */
  lemma MatchIgnoresCase(c: Customer, q: string)
    ensures Matches(c, q) <==> Matches(c, Lower(q))
  {
    LowerTwice(q);
  }
}
