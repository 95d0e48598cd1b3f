/** `A2AService.orchestrate_pipeline`: research, generation, scoring and a
    bounded refine-and-rescore loop, recorded as a lineage of pitch versions
    and a trail of messages in one conversation. */
module Pipeline {
  import opened Common
  import opened Calendar
  import opened AgentModels
  import opened PitchModels
  import opened CustomerModels
  import opened AgentService
  import opened Store
  import opened A2A
  import opened CampaignModels

  // ------------------------------------------------------------ score rows

  /** `data.get('score', 0.0)` for one dimension's entry. */
  function ScoreOf(data: Json): Json {
    if data.JObj? then Get(data.fields, "score", JNum(0.0)) else JNull
  }

  /** The `scores` column written after scoring: each dimension mapped to
      its score value. */
  function ScoreProjection(doc: Fields): (r: Fields)
    ensures |r| == |doc|
  {
    if doc == [] then [] else [(doc[0].0, ScoreOf(doc[0].1))] + ScoreProjection(doc[1..])
  }

  /** The float column's conversion: numbers and booleans convert, other
      values raise. */
  function ToFloat(v: Json): (r: Result<real>)
    ensures r.Ok? <==> NumericValue(v).Some?
    ensures r.Ok? ==> r.value == NumericValue(v).value
  {
    match v
    case JNum(n) => Ok(n)
    case JBool(b) => Ok(if b then 1.0 else 0.0)
    case _ => Err("TypeError")
  }

  /** `data.get('explanation', '')` for one dimension's entry. */
  function ExplanationOf(data: Json): Json {
    if data.JObj? then Get(data.fields, "explanation", JStr("")) else JNull
  }

  /** The text the NOT NULL `explanation` column stores for a value: a
      null violates the constraint, anything else is stored as `str()` of
      it. */
  function StoredText(v: Json): (r: Result<string>)
    ensures r.Err? <==> v.JNull?
    ensures v.JStr? ==> r == Ok(v.s)
    ensures r.Ok? ==> r.value == PyStr(v)
  {
    if v.JNull? then Err("IntegrityError") else Ok(PyStr(v))
  }

  /** The score row one entry of the scorer's document produces; reading an
      entry that is not an object raises, so does a score that does not
      convert to a float; a null explanation violates the column's NOT NULL
      constraint and a dimension longer than the column's 50 characters
      raises a DataError. */
  function ScoreRow(pitch: nat, entry: (string, Json), scoredBy: string): (r: Result<PitchScore>)
    ensures r.Ok? ==> r.value.pitch == pitch && r.value.dimension == entry.0 && r.value.scoredBy == scoredBy
    ensures r.Ok? <==> entry.1.JObj? && NumericValue(ScoreOf(entry.1)).Some? && !ExplanationOf(entry.1).JNull?
                       && |entry.0| <= DimensionMax
    ensures r.Ok? ==> r.value.score == NumericValue(ScoreOf(entry.1)).value
    ensures r.Ok? && ExplanationOf(entry.1).JStr? ==> r.value.explanation == ExplanationOf(entry.1).s
  {
    match entry.1
    case JObj(f) =>
      (match ToFloat(Get(f, "score", JNum(0.0)))
       case Err(e) => Err(e)
       case Ok(v) =>
         (match StoredText(Get(f, "explanation", JStr("")))
          case Err(e) => Err(e)
          case Ok(text) =>
            if |entry.0| > DimensionMax then Err("DataError")
            else Ok(PitchScore(pitch, entry.0, v, text, scoredBy))))
    case _ => Err("AttributeError")
  }

  /** The rows of a whole document, in order; the first failing entry's
      error otherwise. */
  function ScoreRows(pitch: nat, doc: Fields, scoredBy: string): (r: Result<seq<PitchScore>>)
    ensures r.Ok? ==> |r.value| == |doc|
    ensures r.Ok? ==> forall i :: 0 <= i < |doc| ==> ScoreRow(pitch, doc[i], scoredBy) == Ok(r.value[i])
    decreases |doc|
  {
    if doc == [] then Ok([])
    else
      match ScoreRows(pitch, doc[..|doc| - 1], scoredBy)
      case Err(e) => Err(e)
      case Ok(rows) =>
        match ScoreRow(pitch, doc[|doc| - 1], scoredBy)
        case Err(e) => Err(e)
        case Ok(row) => Ok(rows + [row])
  }

  /** The `PitchScore.objects.create` loop: one new row per dimension, in
      order; a second row with the same key violates the unique
      constraint, and the rows created before the failure stay. */
  method AddScoreRows(db: Db, pitch: nat, fields: Fields) returns (r: Result<()>)
    requires db.Valid() && pitch < |db.pitches|
    modifies db`pitchScores
    ensures db.ContextKept()
    ensures db.pitches == old(db.pitches) && db.messages == old(db.messages) && db.nextUuid == old(db.nextUuid)
    ensures db.Valid()
    ensures |db.pitchScores| >= |old(db.pitchScores)|
    ensures db.pitchScores[..|old(db.pitchScores)|] == old(db.pitchScores)
    ensures r.Ok? ==>
      ScoreRows(pitch, fields, "scorer_agent").Ok?
      && db.pitchScores == old(db.pitchScores) + ScoreRows(pitch, fields, "scorer_agent").value
    ensures (ScoreRows(pitch, fields, "scorer_agent").Ok?
             && KeysUnique(old(db.pitchScores) + ScoreRows(pitch, fields, "scorer_agent").value, ScoreKey)) ==> r.Ok?
  {
    var i := 0;
    while i < |fields|
      invariant 0 <= i <= |fields|
      invariant db.Valid()
      invariant ScoreRows(pitch, fields[..i], "scorer_agent").Ok?
      invariant db.pitchScores == old(db.pitchScores) + ScoreRows(pitch, fields[..i], "scorer_agent").value
    {
      assert fields[..i + 1][..i] == fields[..i];
      var row := ScoreRow(pitch, fields[i], "scorer_agent");
      if row.Err? {
        assert ScoreRows(pitch, fields[..i + 1], "scorer_agent").Err?;
        PrefixRowsFail(pitch, fields, i + 1);
        return Err(row.error);
      }
      if FindKey(db.pitchScores, ScoreKey, ScoreKey(row.value)).Some? {
        ghost var j := FindKey(db.pitchScores, ScoreKey, ScoreKey(row.value)).value;
        RowsCollide(pitch, fields, i, j, old(db.pitchScores));
        return Err("IntegrityError");
      }
      AddScore(db.pitchScores, |db.pitches|, row.value);
      db.pitchScores := db.pitchScores + [row.value];
      i := i + 1;
    }
    assert fields[..i] == fields;
    r := Ok(());
  }

  /** The pipeline's score saving: the score rows, then the pitch's
      `scores` column and status; the result is the pitch's average score,
      0.0 when it has none. Reading a document that is not an object
      raises. */
  method SaveScores(db: Db, pitch: nat, doc: Json) returns (r: Result<real>)
    requires db.Valid() && pitch < |db.pitches|
    modifies db`pitchScores, db`pitches
    ensures db.ContextKept() && db.messages == old(db.messages) && db.nextUuid == old(db.nextUuid)
    ensures db.Valid()
    ensures |db.pitches| == |old(db.pitches)|
    ensures |db.pitchScores| >= |old(db.pitchScores)|
    ensures db.pitchScores[..|old(db.pitchScores)|] == old(db.pitchScores)
    ensures r.Err? ==> db.pitches == old(db.pitches)
    ensures r.Ok? ==>
      doc.JObj? && ScoreRows(pitch, doc.fields, "scorer_agent").Ok?
      && db.pitchScores == old(db.pitchScores) + ScoreRows(pitch, doc.fields, "scorer_agent").value
      && db.pitches == old(db.pitches)[pitch := old(db.pitches)[pitch].(scores := ScoreProjection(doc.fields), status := Scored)]
      && r.value == AverageScore(ScoreProjection(doc.fields)).GetOr(0.0)
    ensures (doc.JObj? && ScoreRows(pitch, doc.fields, "scorer_agent").Ok?
             && KeysUnique(old(db.pitchScores) + ScoreRows(pitch, doc.fields, "scorer_agent").value, ScoreKey)) ==> r.Ok?
  {
    if !doc.JObj? {
      return Err("AttributeError");
    }
    var added := AddScoreRows(db, pitch, doc.fields);
    if added.Err? {
      return Err(added.error);
    }
    var p := db.pitches[pitch].(scores := ScoreProjection(doc.fields), status := Scored);
    assert p.id == db.pitches[pitch].id && p.customer == db.pitches[pitch].customer;
    assert p.parent == db.pitches[pitch].parent && p.campaign == db.pitches[pitch].campaign;
    db.pitches := db.pitches[pitch := p];
    r := Ok(AverageScore(ScoreProjection(doc.fields)).GetOr(0.0));
  }

  /** Once a prefix of the document fails, the whole document fails. */
  lemma {:induction false} PrefixRowsFail(pitch: nat, doc: Fields, n: nat)
    requires n <= |doc| && ScoreRows(pitch, doc[..n], "scorer_agent").Err?
    ensures ScoreRows(pitch, doc, "scorer_agent").Err?
    decreases |doc| - n
  {
    if n < |doc| {
      assert doc[..n + 1][..n] == doc[..n];
      PrefixRowsFail(pitch, doc, n + 1);
    } else {
      assert doc[..n] == doc;
    }
  }

  /** How many leading entries of a document read as score rows: the
      whole document, or the position of the first entry that fails. */
  function Readable(pitch: nat, doc: Fields, scoredBy: string): (n: nat)
    ensures n <= |doc|
    ensures ScoreRows(pitch, doc[..n], scoredBy).Ok?
    ensures n < |doc| ==> ScoreRow(pitch, doc[n], scoredBy).Err?
    decreases |doc|
  {
    if doc == [] then 0
    else
      var front := doc[..|doc| - 1];
      var n := Readable(pitch, front, scoredBy);
      assert front[..n] == doc[..n];
      if n < |doc| - 1 then
        assert front[n] == doc[n];
        n
      else if ScoreRow(pitch, doc[|doc| - 1], scoredBy).Ok? then
        assert doc[..|doc|] == doc;
        assert doc[..|doc|][..|doc| - 1] == front;
        |doc|
      else
        n
  }

  /** The rows of the entries before the first one that fails: the rows
      a loop of saves has written when it stops. */
  function RowsRead(pitch: nat, doc: Fields, scoredBy: string): (r: seq<PitchScore>)
    ensures |r| == Readable(pitch, doc, scoredBy)
    ensures forall i :: 0 <= i < |r| ==> ScoreRow(pitch, doc[i], scoredBy) == Ok(r[i])
  {
    var n := Readable(pitch, doc, scoredBy);
    var r := ScoreRows(pitch, doc[..n], scoredBy).value;
    assert forall i :: 0 <= i < n ==> doc[..n][i] == doc[i];
    r
  }

  /** The document reads as a whole exactly when every entry is readable. */
  lemma ReadableAll(pitch: nat, doc: Fields, scoredBy: string)
    ensures Readable(pitch, doc, scoredBy) == |doc| <==> ScoreRows(pitch, doc, scoredBy).Ok?
  {
    if Readable(pitch, doc, scoredBy) == |doc| {
      assert doc[..|doc|] == doc;
    }
  }

  /** An entry that fails after a readable prefix is the first failing
      one: the document's readable part ends exactly there. */
  lemma ReadableAt(pitch: nat, doc: Fields, i: nat, scoredBy: string)
    requires i < |doc| && ScoreRows(pitch, doc[..i], scoredBy).Ok?
    requires ScoreRow(pitch, doc[i], scoredBy).Err?
    ensures Readable(pitch, doc, scoredBy) == i
  {
    var n := Readable(pitch, doc, scoredBy);
    if n < i {
      ReadBefore(pitch, doc, i, n, scoredBy);
    } else if n > i {
      ReadBefore(pitch, doc, n, i, scoredBy);
    }
  }

  /** Every entry of a readable prefix is readable. */
  lemma ReadBefore(pitch: nat, doc: Fields, m: nat, k: nat, scoredBy: string)
    requires k < m <= |doc| && ScoreRows(pitch, doc[..m], scoredBy).Ok?
    ensures ScoreRow(pitch, doc[k], scoredBy).Ok?
  {
    assert doc[..m][k] == doc[k];
  }

  /** A new row whose key is already present makes the rows of the whole
      document collide with the table. */
  lemma RowsCollide(pitch: nat, doc: Fields, i: nat, j: nat, base: seq<PitchScore>)
    requires i < |doc| && ScoreRows(pitch, doc[..i], "scorer_agent").Ok?
    requires ScoreRow(pitch, doc[i], "scorer_agent").Ok?
    requires j < |base| + i
    requires ScoreKey((base + ScoreRows(pitch, doc[..i], "scorer_agent").value)[j])
             == ScoreKey(ScoreRow(pitch, doc[i], "scorer_agent").value)
    ensures !(ScoreRows(pitch, doc, "scorer_agent").Ok?
              && KeysUnique(base + ScoreRows(pitch, doc, "scorer_agent").value, ScoreKey))
  {
    if ScoreRows(pitch, doc, "scorer_agent").Ok? {
      var all := ScoreRows(pitch, doc, "scorer_agent").value;
      var pre := ScoreRows(pitch, doc[..i], "scorer_agent").value;
      assert forall k :: 0 <= k < i ==> ScoreRow(pitch, doc[..i][k], "scorer_agent") == Ok(pre[k]);
      assert forall k :: 0 <= k < i ==> doc[..i][k] == doc[k];
      assert forall k :: 0 <= k < i ==> all[k] == pre[k];
      var t := base + all;
      assert t[|base| + i] == all[i] == ScoreRow(pitch, doc[i], "scorer_agent").value;
      assert t[j] == (base + pre)[j];
      assert ScoreKey(t[j]) == ScoreKey(t[|base| + i]);
    }
  }

  /** No score row belongs to the pitch yet. */
  predicate Unscored(rows: seq<PitchScore>, pitch: nat) {
    forall i :: 0 <= i < |rows| ==> rows[i].pitch != pitch
  }

  /** No dimension appears twice in a scorer's document, as in any object
      Python's JSON decoder returns. */
  predicate DimensionsDistinct(doc: Fields) {
    forall i, j :: 0 <= i < j < |doc| ==> doc[i].0 != doc[j].0
  }

  /** A scorer's document the score table takes for a new version: every
      entry becomes a row, and no dimension appears twice. */
  predicate Storable(pitch: nat, doc: Fields) {
    ScoreRows(pitch, doc, "scorer_agent").Ok? && DimensionsDistinct(doc)
  }

  /** The rows of a storable document about an unscored pitch keep the
      score table's keys unique. */
  lemma FreshRowsUnique(base: seq<PitchScore>, pitch: nat, doc: Fields)
    requires KeysUnique(base, ScoreKey) && Unscored(base, pitch) && Storable(pitch, doc)
    ensures KeysUnique(base + ScoreRows(pitch, doc, "scorer_agent").value, ScoreKey)
  {
    var rows := ScoreRows(pitch, doc, "scorer_agent").value;
    var t := base + rows;
    forall i, j | 0 <= i < j < |t| ensures ScoreKey(t[i]) != ScoreKey(t[j]) {
      if j < |base| {
        assert t[i] == base[i] && t[j] == base[j];
      } else if i < |base| {
        assert ScoreRow(pitch, doc[j - |base|], "scorer_agent") == Ok(t[j]);
        assert t[i] == base[i];
      } else {
        assert ScoreRow(pitch, doc[j - |base|], "scorer_agent") == Ok(t[j]);
        assert ScoreRow(pitch, doc[i - |base|], "scorer_agent") == Ok(t[i]);
      }
    }
  }

  // ------------------------------------------------------------ the pipeline

  /** What the pipeline cannot see: the LLM client's state, the MCP server,
      the model's replies (the scorer's per pitch, the refiner's per pitch
      and feedback), the JSON decoder and the model name. */
  datatype Oracles = Oracles(
    llmReady: bool, mcp: Result<Json>, researchReply: Result<string>,
    generateReply: Result<string>, scoreReply: nat -> Result<string>,
    refineReply: (nat, string) -> Result<string>,
    decode: string -> Option<Json>, model: string)

  /** The five configurations the pipeline talks through. */
  datatype Crew = Crew(research: nat, generator: nat, scorer: nat, refiner: nat, orchestrator: nat)

  predicate Staffed(agents: seq<AgentConfig>, c: Crew) {
    Serves(agents, c.research, Research) && Serves(agents, c.generator, PitchGenerator)
    && Serves(agents, c.scorer, Scorer) && Serves(agents, c.refiner, Refiner)
    && Serves(agents, c.orchestrator, Orchestrator)
  }

  /** Configuration `id` exists and is of type `t`. */
  predicate Serves(agents: seq<AgentConfig>, id: nat, t: AgentType) {
    id < |agents| && agents[id].agentType == t
  }

  /** One entry of `pipeline_result['steps']`. */
  datatype Step = Step(name: string, status: string, pitch: Option<nat>, message: Option<nat>,
                       scores: Option<Fields>, average: Option<real>, error: Option<string>)

  /** The dictionary a completed pipeline returns (its status is always
      "completed"). */
  datatype PipelineResult = PipelineResult(
    customer: nat, campaign: Option<nat>, correlation: nat, steps: seq<Step>,
    finalPitch: nat, finalScore: real, rounds: nat)

  datatype Outcome = Done(result: PipelineResult) | Raised(error: string)

  /** The context handed to the generator. */
  function Context(c: Customer, research: Json): Json {
    JObj([("customer_name", JStr(c.name)), ("company", JStr(c.company)),
          ("industry", JStr(c.industry)), ("company_size", JStr(c.companySize.Code())),
          ("description", JStr(c.description)), ("preferences", c.preferences),
          ("tone", JStr("professional")), ("research", research)])
  }

  /** The research document, `{}` when research raised. */
  function ResearchDoc(r: Result<Json>): Json {
    if r.Ok? then r.value else JObj([])
  }

  // ------------------------------------------------------------ the reference run

  /** The document the scorer's reply about version `id` decodes to;
      None when the scorer raised or its reply is not an object. */
  function ScoringOf(id: nat, o: Oracles): Option<Fields> {
    if o.scoreReply(id).Err? then None
    else match ScoreReply(o.scoreReply(id).value, o.decode)
         case JObj(f) => Some(f)
         case _ => None
  }

  /** The scorer's document is there exactly when the scorer replied with
      something that reads as an object. */
  lemma ScoringOfReply(id: nat, o: Oracles)
    ensures ScoringOf(id, o).Some? <==>
      o.scoreReply(id).Ok? && ScoreReply(o.scoreReply(id).value, o.decode).JObj?
    ensures ScoringOf(id, o).Some? ==> ScoringOf(id, o).value == ScoreReply(o.scoreReply(id).value, o.decode).fields
  {
  }

  /** The average the pipeline reads back, 0.0 for no numeric score. */
  function Mean(scores: Fields): real {
    AverageScore(scores).GetOr(0.0)
  }

  /** The columns of a version that its author wrote, as opposed to the
      ones scoring and the final marking change. */
  datatype Authorship = Authorship(id: nat, title: string, content: string, version: int,
                                   parent: Option<nat>, tone: Tone, feedback: string,
                                   generatedBy: string, metadata: Fields)

  function AuthorshipOf(p: Pitch): Authorship {
    Authorship(p.id, p.title, p.content, p.version, p.parent, p.tone, p.feedback, p.generatedBy, p.metadata)
  }

  /** What the generator's reply makes of the first version, stored under
      `id`; None when generation raised or the title does not fit its
      column. */
  function DraftOf(id: nat, o: Oracles, c: Customer): Option<Authorship> {
    if o.generateReply.Err? then None
    else
      var parsed := ParseTitleContent(o.generateReply.value, "Pitch for " + c.company);
      if |parsed.0| > TitleMax then None
      else Some(Authorship(id, parsed.0, parsed.1, 1, None, Professional, "", "pitch_generator_agent",
                      [("model", JStr(o.model)), ("tone", JStr("professional")),
                       ("customer_id", JStr(IdText(c.id)))]))
  }

  /** What the refiner makes of `prev` under the feedback on `prevDoc`,
      stored under `id`: one version up, same tone, `prev` as parent; None
      when the feedback or the refiner raised, or the title does not fit
      its column. */
  function RevisionOf(id: nat, prev: Authorship, prevDoc: Fields, threshold: real, o: Oracles): Option<Authorship> {
    match Feedback(prevDoc, threshold)
    case Err(_) => None
    case Ok(fb) =>
      match o.refineReply(prev.id, fb)
      case Err(_) => None
      case Ok(reply) =>
        var parsed := ParseTitleContent(reply, prev.title);
        if |parsed.0| > TitleMax then None
        else Some(Authorship(id, parsed.0, parsed.1, prev.version + 1, Some(prev.id), prev.tone, fb, "refiner_agent",
                        [("model", JStr(o.model)), ("original_pitch_id", JStr(IdText(prev.id))),
                         ("feedback", JStr(fb))]))
  }

  /** The agents as the reference run sees them: what the generator makes
      of the first version stored under an id, what the refiner makes of a
      version under the feedback on its scores, and what the scorer's reply
      about a version decodes to. */
  datatype Agents = Agents(draft: nat -> Option<Authorship>,
                           revise: (nat, Authorship, Fields) -> Option<Authorship>,
                           score: nat -> Option<Fields>)

  /** `ag` is what the agents do under the replies `o`. The reference run
      is stated over `ag`, so the reply parsers and the feedback builder
      only enter a proof where a version is actually written or scored. */
  ghost predicate Acts(ag: Agents, o: Oracles, c: Customer, threshold: real) {
    (forall id {:trigger DraftOf(id, o, c)} :: ag.draft(id) == DraftOf(id, o, c))
    && (forall id, a, d {:trigger RevisionOf(id, a, d, threshold, o)} ::
          ag.revise(id, a, d) == RevisionOf(id, a, d, threshold, o))
    && (forall id {:trigger ScoringOf(id, o)} :: ag.score(id) == ScoringOf(id, o))
  }

  /** The agents under the replies `o` for customer `c`. */
  ghost function AgentsOf(o: Oracles, c: Customer, threshold: real): (ag: Agents)
    ensures Acts(ag, o, c, threshold)
  {
    Agents((id: nat) => DraftOf(id, o, c),
           (id: nat, a: Authorship, d: Fields) => RevisionOf(id, a, d, threshold, o),
           (id: nat) => ScoringOf(id, o))
  }

  /** The agents of a run that never started. */
  ghost const Idle: Agents := Agents((id: nat) => None, (id: nat, a: Authorship, d: Fields) => None, (id: nat) => None)

  /** One version of a run: what its author wrote and the scorer's
      document about it. */
  datatype Version = Version(author: Authorship, doc: Fields)

  /** A version's average score as the pipeline reads it back. */
  function Average(v: Version): real {
    Mean(ScoreProjection(v.doc))
  }

  /** Versions 0 to `n` of a run whose first version is stored under `p0`,
      as a function of the agents' replies: the generated draft, then each
      refinement of the version before under the feedback on its scores,
      each scored. None when any of these raised. */
  function Run(ag: Agents, p0: nat, n: nat): (r: Option<seq<Version>>)
    ensures r.Some? ==> |r.value| == n + 1
    decreases n
  {
    if n == 0 then
      match (ag.draft(p0), ag.score(p0))
      case (Some(a), Some(d)) => Some([Version(a, d)])
      case _ => None
    else
      match Run(ag, p0, n - 1)
      case None => None
      case Some(vs) =>
        match (ag.revise(p0 + n, vs[n - 1].author, vs[n - 1].doc), ag.score(p0 + n))
        case (Some(a), Some(d)) => Some(vs + [Version(a, d)])
        case _ => None
  }

  /** What the stored rows show of a version: its authored columns, its
      customer and campaign, and its `scores` column. */
  datatype Row = Row(author: Authorship, customer: nat, campaign: Option<nat>, scores: Fields)

  function RowOf(p: Pitch): Row {
    Row(AuthorshipOf(p), p.customer, p.campaign, p.scores)
  }

  /** The rows of the stored versions `vs`. */
  function RowsOf(vs: seq<Pitch>): (r: seq<Row>)
    ensures |r| == |vs|
    decreases |vs|
  {
    if vs == [] then [] else RowsOf(vs[..|vs| - 1]) + [RowOf(vs[|vs| - 1])]
  }

  /** The rows a run is stored as. */
  function RunRows(run: seq<Version>, customer: nat, campaign: Option<nat>): (r: seq<Row>)
    ensures |r| == |run|
    decreases |run|
  {
    if run == [] then []
    else
      var v := run[|run| - 1];
      RunRows(run[..|run| - 1], customer, campaign) + [Row(v.author, customer, campaign, ScoreProjection(v.doc))]
  }

  /** The message that asks the refiner to improve version `pitch`. */
  function RefineRequest(id: nat, crew: Crew, pitch: nat, feedback: string, corr: nat, parent: nat): A2AMessage {
    A2AMessage(id, crew.orchestrator, crew.refiner, Delegate,
               JObj([("pitch_id", JStr(IdText(pitch))), ("feedback", JStr(feedback))]),
               corr, Sent, Some(parent))
  }

  /** The messages of a run, numbered from `m0`: a research request, a
      delegated generation answering it, a scoring request answering that,
      then one delegated refinement per later version, about the version
      before it, answering the scoring request; all in one conversation. */
  function RunMessages(run: seq<Version>, m0: nat, corr: nat, crew: Crew, customer: nat,
                       context: Json, p0: nat): (r: seq<A2AMessage>)
    ensures |r| == if run == [] then 0 else 2 + |run|
    decreases |run|
  {
    if run == [] then []
    else if |run| == 1 then
      [A2AMessage(m0, crew.orchestrator, crew.research, Request,
                  JObj([("customer_id", JStr(IdText(customer)))]), corr, Sent, None),
       A2AMessage(m0 + 1, crew.orchestrator, crew.generator, Delegate,
                  JObj([("customer_id", JStr(IdText(customer))), ("context", context)]), corr, Sent, Some(m0)),
       A2AMessage(m0 + 2, crew.orchestrator, crew.scorer, Request,
                  JObj([("pitch_id", JStr(IdText(p0)))]), corr, Sent, Some(m0 + 1))]
    else
      var n := |run| - 1;
      RunMessages(run[..n], m0, corr, crew, customer, context, p0)
      + [RefineRequest(m0 + 2 + n, crew, p0 + n - 1, run[n].author.feedback, corr, m0 + 2)]
  }

  /** The step name of refinement round `k`: `f'refine_{k}'`. */
  function RoundName(k: nat): string {
    "refine_" + NatToString(k)
  }

  /** The step log of a run: research (completed or failed), generation,
      scoring, then `refine_k` for round k with its version, message,
      scores and average. */
  function RunSteps(research: Result<Json>, run: seq<Version>, m0: nat, p0: nat): (r: seq<Step>)
    ensures |r| == if run == [] then 0 else 2 + |run|
    decreases |run|
  {
    if run == [] then []
    else if |run| == 1 then
      [if research.Ok? then Step("research", "completed", None, Some(m0), None, None, None)
       else Step("research", "failed", None, None, None, None, Some(research.error)),
       Step("generate", "completed", Some(p0), Some(m0 + 1), None, None, None),
       Step("score", "completed", None, Some(m0 + 2), Some(ScoreProjection(run[0].doc)), Some(Average(run[0])), None)]
    else
      var n := |run| - 1;
      RunSteps(research, run[..n], m0, p0)
      + [Step(RoundName(n), "completed", Some(p0 + n), Some(m0 + 2 + n),
              Some(ScoreProjection(run[n].doc)), Some(Average(run[n])), None)]
  }

  /** A run is determined by its replies: the first `m + 1` versions of a
      longer run are the run of `m`. */
  lemma {:induction false} RunPrefix(ag: Agents, p0: nat, n: nat, m: nat)
    requires m <= n && Run(ag, p0, n).Some?
    ensures Run(ag, p0, m) == Some(Run(ag, p0, n).value[..m + 1])
    decreases n
  {
    var run := Run(ag, p0, n).value;
    if m < n {
      var prev := Run(ag, p0, n - 1).value;
      assert run[..n] == prev;
      RunPrefix(ag, p0, n - 1, m);
      assert Run(ag, p0, m) == Some(prev[..m + 1]);
      assert run[..m + 1] == run[..n][..m + 1];
    } else {
      assert run[..m + 1] == run;
    }
  }

  /** Version `k` of a run is in the line of descent: it is stored under
      `p0 + k` with version number k + 1 and tone "professional"; the first
      is the generator's, with no parent and no feedback; every later one
      is the refiner's, its parent the version before and its feedback the
      feedback on that version's scores. */
  ghost predicate InLine(run: seq<Version>, k: nat, p0: nat, threshold: real)
    requires k < |run|
  {
    var a := run[k].author;
    a.id == p0 + k && a.version == k + 1 && a.tone == Professional
    && (k == 0 ==> a.parent.None? && a.generatedBy == "pitch_generator_agent" && a.feedback == "")
    && (k > 0 ==> a.parent == Some(p0 + k - 1) && a.generatedBy == "refiner_agent"
                  && Feedback(run[k - 1].doc, threshold) == Ok(a.feedback))
  }

  /** The newest version of a run is in the line of descent. */
  lemma {:induction false} RunNewest(o: Oracles, c: Customer, threshold: real, ag: Agents,
                                     p0: nat, n: nat)
    requires Acts(ag, o, c, threshold) && Run(ag, p0, n).Some?
    ensures InLine(Run(ag, p0, n).value, n, p0, threshold)
    decreases n
  {
    if n > 0 {
      RunNewest(o, c, threshold, ag, p0, n - 1);
      var run := Run(ag, p0, n).value;
      var prev := Run(ag, p0, n - 1).value;
      assert run[n - 1] == prev[n - 1];
      assert ag.revise(p0 + n, prev[n - 1].author, prev[n - 1].doc)
             == RevisionOf(p0 + n, prev[n - 1].author, prev[n - 1].doc, threshold, o);
    } else {
      assert ag.draft(p0) == DraftOf(p0, o, c);
    }
  }

  /** Every version of a run is in the line of descent. */
  lemma RunLineage(o: Oracles, c: Customer, threshold: real, ag: Agents, p0: nat, n: nat)
    requires Acts(ag, o, c, threshold) && Run(ag, p0, n).Some?
    ensures forall k :: 0 <= k <= n ==> InLine(Run(ag, p0, n).value, k, p0, threshold)
  {
    var run := Run(ag, p0, n).value;
    forall k | 0 <= k <= n
      ensures InLine(run, k, p0, threshold)
    {
      RunPrefix(ag, p0, n, k);
      RunNewest(o, c, threshold, ag, p0, k);
      var pre := Run(ag, p0, k).value;
      assert pre == run[..k + 1];
      assert pre[k] == run[k];
      if k > 0 {
        assert pre[k - 1] == run[k - 1];
      }
    }
  }

  // ------------------------------------------------------------ store steps

  /** `b` keeps every row of `a` and may add more after them. */
  ghost predicate Extends<T>(a: seq<T>, b: seq<T>) {
    |a| <= |b| && b[..|a|] == a
  }

  lemma ExtendsAppend<T>(a: seq<T>, b: seq<T>)
    ensures Extends(a, a + b)
  {
    assert (a + b)[..|a|] == a;
  }

  lemma ExtendsRefl<T>(a: seq<T>)
    ensures Extends(a, a)
  {
    assert a[..|a|] == a;
  }

  lemma ExtendsUpdate<T>(a: seq<T>, b: seq<T>, i: nat, x: T)
    requires Extends(a, b) && |a| <= i < |b|
    ensures Extends(a, b[i := x])
  {
    assert b[i := x][..|a|] == b[..|a|];
  }

  lemma ExtendsTrans<T>(a: seq<T>, b: seq<T>, c: seq<T>)
    requires Extends(a, b) && Extends(b, c)
    ensures Extends(a, c)
  {
    assert c[..|a|] == c[..|b|][..|a|];
  }

  /** One `get_or_create` of the pipeline: existing configurations are
      kept, the one returned has the requested type, and a hireable type
      ends with exactly one configuration. */
  method Hire(db: Db, t: AgentType, name: string) returns (r: Result<nat>)
    requires db.Valid()
    modifies db`agents
    ensures db.Valid() && Extends(old(db.agents), db.agents) && HiredInto(old(db.agents), db.agents, t, name)
    ensures r.Ok? ==> r.value < |db.agents| && db.agents[r.value].agentType == t
    ensures Hireable(old(db.agents), t, name) ==> r.Ok? && Sole(db.agents, t)
  {
    ghost var before := db.agents;
    r := GetOrCreateAgent(db, t, name);
    if db.agents != before {
      OfTypeSnoc(before, AgentConfig(|before|, name, t, "", true), t, false);
      ExtendsAppend(before, [AgentConfig(|before|, name, t, "", true)]);
    }
  }

  /** The roles the pipeline hires, in the order it hires them, each with
      the name a missing configuration is created under. */
  const Roles: seq<(AgentType, string)> :=
    [(Research, "Research Agent"), (PitchGenerator, "Pitch Generator Agent"), (Scorer, "Scoring Agent"),
     (Refiner, "Refinement Agent"), (Orchestrator, "Pipeline Orchestrator")]

  /** No two roles share a type or a name. */
  lemma RolesDistinct()
    ensures forall i, j :: 0 <= i < j < |Roles| ==> Roles[i].0 != Roles[j].0 && Roles[i].1 != Roles[j].1
  {
    assert Roles[1].1[2] != Roles[4].1[2];
  }

  /** Every `get_or_create` of the pipeline succeeds on the table it
      starts from. */
  predicate Staffable(agents: seq<AgentConfig>) {
    forall i :: 0 <= i < |Roles| ==> Hireable(agents, Roles[i].0, Roles[i].1)
  }

  /** Each role's type has exactly one configuration. */
  predicate Crewed(agents: seq<AgentConfig>) {
    forall i :: 0 <= i < |Roles| ==> Sole(agents, Roles[i].0)
  }

  /** The first `k` roles have exactly one configuration each and the
      others are still hireable. */
  ghost predicate HiredUpTo(agents: seq<AgentConfig>, k: nat) {
    k <= |Roles|
    && (forall i :: 0 <= i < k ==> Sole(agents, Roles[i].0))
    && (forall i :: k <= i < |Roles| ==> Hireable(agents, Roles[i].0, Roles[i].1))
  }

  /** Hiring role `k` keeps the other roles as they were. */
  lemma HireNext(before: seq<AgentConfig>, after: seq<AgentConfig>, k: nat)
    requires k < |Roles| && HiredUpTo(before, k)
    requires HiredInto(before, after, Roles[k].0, Roles[k].1) && Sole(after, Roles[k].0)
    ensures HiredUpTo(after, k + 1)
  {
    HireKeeps(before, after, Roles[k].0, Roles[k].1);
    RolesDistinct();
    forall i | 0 <= i < |Roles| && i != k
      ensures OfType(after, Roles[i].0, false) == OfType(before, Roles[i].0, false)
      ensures NameTaken(after, Roles[i].1) <==> NameTaken(before, Roles[i].1)
    {
    }
  }

  /** The loop's state after hiring the first `k` roles from the table
      `a0`: the table only grew, `ids` holds one configuration of each
      role so far, and, when every role could be hired, the hired roles
      have one configuration each and the others are still hireable. */
  ghost predicate Staffing(a0: seq<AgentConfig>, agents: seq<AgentConfig>, ids: seq<nat>, k: nat) {
    Extends(a0, agents) && |ids| == k && k <= |Roles|
    && (forall i :: 0 <= i < k ==> Serves(agents, ids[i], Roles[i].0))
    && (Staffable(a0) ==> HiredUpTo(agents, k))
  }

  /** One more role hired. */
  lemma StaffingNext(a0: seq<AgentConfig>, before: seq<AgentConfig>, after: seq<AgentConfig>, ids: seq<nat>,
                     k: nat, id: nat)
    requires k < |Roles| && Staffing(a0, before, ids, k)
    requires HiredInto(before, after, Roles[k].0, Roles[k].1) && Extends(before, after)
    requires Serves(after, id, Roles[k].0)
    requires Hireable(before, Roles[k].0, Roles[k].1) ==> Sole(after, Roles[k].0)
    ensures Staffing(a0, after, ids + [id], k + 1)
  {
    ExtendsTrans(a0, before, after);
    assert forall i :: 0 <= i < k ==> after[ids[i]] == before[ids[i]];
    if Staffable(a0) {
      HireNext(before, after, k);
    }
  }

  /** The `get_or_create` loop over the five roles; the first that raises
      ends the pipeline. When every one of them can succeed on the starting
      table, all do, and each role's type ends with exactly one
      configuration. */
  method ResolveAgents(db: Db) returns (r: Result<Crew>)
    requires db.Valid()
    modifies db`agents
    ensures db.Valid() && Extends(old(db.agents), db.agents)
    ensures r.Ok? ==> Staffed(db.agents, r.value)
    ensures Staffable(old(db.agents)) ==> r.Ok? && Crewed(db.agents)
  {
    ghost var a0 := db.agents;
    var ids: seq<nat> := [];
    assert a0[..|a0|] == a0;
    for k := 0 to |Roles|
      invariant db.Valid() && Staffing(a0, db.agents, ids, k)
    {
      ghost var before := db.agents;
      var hired := Hire(db, Roles[k].0, Roles[k].1);
      if hired.Err? {
        ExtendsTrans(a0, before, db.agents);
        return Err(hired.error);
      }
      StaffingNext(a0, before, db.agents, ids, k, hired.value);
      ids := ids + [hired.value];
    }
    r := Ok(Crew(ids[0], ids[1], ids[2], ids[3], ids[4]));
  }

  /** `Pitch.objects.create`: the row is stored under the next id; a
      campaign that does not exist violates the foreign key, and a title
      longer than the column's 500 characters raises a DataError. */
  method CreatePitch(db: Db, p: Pitch) returns (r: Result<nat>)
    requires db.Valid() && p.id == |db.pitches| && p.customer < |db.customers|
    requires p.parent.Some? ==> p.parent.value < |db.pitches|
    modifies db`pitches
    ensures db.ContextKept()
    ensures db.messages == old(db.messages) && db.pitchScores == old(db.pitchScores) && db.nextUuid == old(db.nextUuid)
    ensures db.Valid()
    ensures ((p.campaign.Some? && p.campaign.value >= |db.campaigns|) || |p.title| > TitleMax) <==> r.Err?
    ensures r.Err? ==> db.pitches == old(db.pitches)
    ensures r.Ok? ==> r.value == p.id && db.pitches == old(db.pitches) + [p]
  {
    if |p.title| > TitleMax {
      return Err("DataError");
    }
    if p.campaign.Some? && p.campaign.value >= |db.campaigns| {
      return Err("IntegrityError");
    }
    db.pitches := db.pitches + [p];
    r := Ok(p.id);
  }

  /** `doc.get(key, default)` for a text entry of a result document. */
  function TextField(doc: Json, key: string, default: string): string {
    if doc.JObj? then match Get(doc.fields, key, JStr(default)) case JStr(t) => t case _ => default
    else default
  }

  /** `doc.get(key, {})` for an object entry of a result document. */
  function ObjField(doc: Json, key: string): Fields {
    if doc.JObj? then match Get(doc.fields, key, JObj([])) case JObj(f) => f case _ => []
    else []
  }

  /** Reading back a result document gives the parts it was built from. */
  lemma ReadResult(t: string, c: string, m: Fields, d: string)
    ensures TextField(PitchResult(t, c, m), "title", d) == t
    ensures TextField(PitchResult(t, c, m), "content", "") == c
    ensures ObjField(PitchResult(t, c, m), "metadata") == m
  {
    var f := PitchResult(t, c, m).fields;
    assert Lookup(f, "title") == Some(JStr(t));
    assert Lookup(f, "content") == Some(JStr(c));
    assert f[2..] == [("metadata", JObj(m))];
    assert Lookup(f[1..], "metadata") == Lookup(f[2..], "metadata") == Some(JObj(m));
  }

  /** Scoring the pitch succeeds: the scorer's configuration lookup does
      not raise, the scorer replies with an object, and its document can be
      stored for a pitch that has no scores yet. */
  predicate Scorable(agents: seq<AgentConfig>, rows: seq<PitchScore>, pitch: nat, o: Oracles) {
    ActiveConfig(agents, Scorer).Ok? && Unscored(rows, pitch)
    && ScoringOf(pitch, o).Some? && Storable(pitch, ScoringOf(pitch, o).value)
  }

  /** `ps` is `ps0` with the pitch's `scores` column set from the scorer's
      document and its status scored. */
  ghost predicate ScoredAs(ps0: seq<Pitch>, ps: seq<Pitch>, pitch: nat, doc: Fields) {
    pitch < |ps0| && ps == ps0[pitch := ps0[pitch].(scores := ScoreProjection(doc), status := Scored)]
  }

  /** `score_pitch` on a stored version followed by the score saving; the
      decoded document and the average come back. */
  method ScoreVersion(db: Db, pitch: nat, o: Oracles) returns (r: Result<(Fields, real)>)
    requires db.Valid() && pitch < |db.pitches|
    modifies db`pitchScores, db`pitches
    ensures db.ContextKept() && db.messages == old(db.messages) && db.nextUuid == old(db.nextUuid)
    ensures db.Valid() && |db.pitches| == |old(db.pitches)| && Extends(old(db.pitchScores), db.pitchScores)
    ensures r.Err? ==> db.pitches == old(db.pitches)
    ensures r.Ok? ==>
      ScoringOf(pitch, o) == Some(r.value.0) && ScoredAs(old(db.pitches), db.pitches, pitch, r.value.0)
      && r.value.1 == Mean(ScoreProjection(r.value.0))
    ensures Scorable(old(db.agents), old(db.pitchScores), pitch, o) ==> r.Ok?
  {
    ScoringOfReply(pitch, o);
    var scored := ScorePitch(db.pitches, db.agents, pitch, o.scoreReply(pitch), o.decode);
    if scored.Err? {
      return Err(scored.error);
    }
    if scored.value.JObj? && Unscored(db.pitchScores, pitch) && Storable(pitch, scored.value.fields) {
      FreshRowsUnique(db.pitchScores, pitch, scored.value.fields);
    }
    var avg := SaveScores(db, pitch, scored.value);
    if avg.Err? {
      return Err(avg.error);
    }
    r := Ok((scored.value.fields, avg.value));
  }

  /** The `Pitch.objects.create` of a refinement round: the refiner's
      result for `prev` under the feedback, one version up, same tone. */
  function RefinedFrom(prev: Pitch, id: nat, customer: nat, campaign: Option<nat>, feedback: string,
                       result: Json, now: Instant): Pitch {
    Pitch(id, customer, TextField(result, "title", prev.title), TextField(result, "content", ""),
          RefinedType, prev.version + 1, PitchStatus.Refined, [], feedback, Some(prev.id), campaign,
          ObjField(result, "metadata"), "refiner_agent", prev.tone, "en", true, now)
  }

  lemma RefinedIsRevision(prev: Pitch, id: nat, customer: nat, campaign: Option<nat>, doc: Fields,
                          threshold: real, o: Oracles, result: Json, now: Instant)
    requires Feedback(doc, threshold).Ok?
    requires o.refineReply(prev.id, Feedback(doc, threshold).value).Ok?
    requires var fb := Feedback(doc, threshold).value;
             var parsed := ParseTitleContent(o.refineReply(prev.id, fb).value, prev.title);
             result == PitchResult(parsed.0, parsed.1,
               [("model", JStr(o.model)), ("original_pitch_id", JStr(IdText(prev.id))), ("feedback", JStr(fb))])
    ensures RefinedFrom(prev, id, customer, campaign, Feedback(doc, threshold).value, result, now).title
            == ParseTitleContent(o.refineReply(prev.id, Feedback(doc, threshold).value).value, prev.title).0
    ensures |RefinedFrom(prev, id, customer, campaign, Feedback(doc, threshold).value, result, now).title| <= TitleMax
            ==> RevisionOf(id, AuthorshipOf(prev), doc, threshold, o)
                == Some(AuthorshipOf(RefinedFrom(prev, id, customer, campaign, Feedback(doc, threshold).value, result, now)))
  {
    var fb := Feedback(doc, threshold).value;
    var parsed := ParseTitleContent(o.refineReply(prev.id, fb).value, prev.title);
    ReadResult(parsed.0, parsed.1,
      [("model", JStr(o.model)), ("original_pitch_id", JStr(IdText(prev.id))), ("feedback", JStr(fb))], prev.title);
  }

  /** The delegated message asking the refiner to improve `pitch`. */
  method RequestRefinement(db: Db, crew: Crew, corr: nat, scoreMsg: nat, pitch: nat, feedback: string)
    requires db.Valid() && Staffed(db.agents, crew) && scoreMsg < |db.messages|
    modifies db`messages, db`nextUuid
    ensures db.ContextKept() && db.pitches == old(db.pitches) && db.pitchScores == old(db.pitchScores)
    ensures db.Valid() && db.nextUuid == old(db.nextUuid)
    ensures db.messages == old(db.messages) + [RefineRequest(|old(db.messages)|, crew, pitch, feedback, corr, scoreMsg)]
  {
    var msg := SendMessage(db, crew.orchestrator, crew.refiner, Delegate,
                           JObj([("pitch_id", JStr(IdText(pitch))), ("feedback", JStr(feedback))]),
                           Some(corr), Some(scoreMsg));
  }

  /** `refine_pitch` on the newest version and the refined version stored. */
  method StoreRevision(db: Db, c: Customer, campaign: Option<nat>, threshold: real, o: Oracles,
                       now: Instant, doc: Fields)
    returns (r: Result<nat>)
    requires db.Valid() && |db.pitches| >= 1 && Feedback(doc, threshold).Ok?
    requires c.id < |db.customers|
    requires campaign.Some? ==> campaign.value < |db.campaigns|
    modifies db`pitches
    ensures db.ContextKept()
    ensures db.messages == old(db.messages) && db.pitchScores == old(db.pitchScores) && db.nextUuid == old(db.nextUuid)
    ensures db.Valid() && Extends(old(db.pitches), db.pitches)
    ensures r.Ok? ==> Stores(old(db.pitches), db.pitches, r.value, doc, threshold, o, c, campaign)
    ensures Revisable(old(db.agents), AuthorshipOf(old(db.pitches)[|old(db.pitches)| - 1]), doc, threshold, o) ==> r.Ok?
  {
    var cur := |db.pitches| - 1;
    var fb := Feedback(doc, threshold).value;
    var refined := RefinePitch(db.pitches, db.agents, cur, fb, o.refineReply(cur, fb), o.model);
    if refined.Err? {
      return Err(refined.error);
    }
    var prev := db.pitches[cur];
    assert prev.id == cur;
    var np := RefinedFrom(prev, |db.pitches|, c.id, campaign, fb, refined.value, now);
    RefinedIsRevision(prev, |db.pitches|, c.id, campaign, doc, threshold, o, refined.value, now);
    var created := CreatePitch(db, np);
    if created.Err? {
      return Err(created.error);
    }
    r := Ok(np.id);
  }

  /** The refinement of the newest of the versions `ps0`, under the
      feedback on `doc`, stored under `id` in `ps`. */
  ghost predicate Stores(ps0: seq<Pitch>, ps: seq<Pitch>, id: nat, doc: Fields, threshold: real, o: Oracles,
                         c: Customer, campaign: Option<nat>) {
    |ps0| >= 1 && id == |ps0| && |ps| == id + 1 && Feedback(doc, threshold).Ok?
    && ps[id].feedback == Feedback(doc, threshold).value
    && ps[id].customer == c.id && ps[id].campaign == campaign
    && RevisionOf(id, AuthorshipOf(ps0[|ps0| - 1]), doc, threshold, o) == Some(AuthorshipOf(ps[id]))
    && ps[id].pitchType == RefinedType
  }

  /** The refinement stored as in `Stores`, and the delegated request that
      asked for it added to the messages `ms0`. */
  ghost predicate Revised(ps0: seq<Pitch>, ms0: seq<A2AMessage>, ps: seq<Pitch>, ms: seq<A2AMessage>, id: nat,
                          doc: Fields, threshold: real, o: Oracles, c: Customer, campaign: Option<nat>, crew: Crew,
                          corr: nat, scoreMsg: nat) {
    Stores(ps0, ps, id, doc, threshold, o, c, campaign)
    && ms == ms0 + [RefineRequest(|ms0|, crew, ps0[|ps0| - 1].id, ps[id].feedback, corr, scoreMsg)]
  }

  /** Refining version `prev` succeeds: the refiner's configuration lookup
      does not raise, the feedback on its scores can be built, the refiner
      replies, and the title of its reply fits the title column. */
  predicate Revisable(agents: seq<AgentConfig>, prev: Authorship, doc: Fields, threshold: real, o: Oracles) {
    ActiveConfig(agents, Refiner).Ok? && Feedback(doc, threshold).Ok?
    && o.refineReply(prev.id, Feedback(doc, threshold).value).Ok?
    && |ParseTitleContent(o.refineReply(prev.id, Feedback(doc, threshold).value).value, prev.title).0| <= TitleMax
  }

  /** The first half of a refinement round: feedback from the newest
      version's scores, a delegated message to the refiner answering
      `scoreMsg`, the refined version stored. */
  method ReviseNewest(db: Db, c: Customer, campaign: Option<nat>, threshold: real, o: Oracles,
                      crew: Crew, corr: nat, scoreMsg: nat, now: Instant, doc: Fields)
    returns (r: Result<nat>)
    requires db.Valid() && Staffed(db.agents, crew) && |db.pitches| >= 1
    requires c.id < |db.customers|
    requires campaign.Some? ==> campaign.value < |db.campaigns|
    requires scoreMsg < |db.messages|
    modifies db`pitches, db`messages, db`nextUuid
    ensures db.ContextKept() && db.pitchScores == old(db.pitchScores)
    ensures db.Valid() && db.nextUuid == old(db.nextUuid)
    ensures Extends(old(db.pitches), db.pitches) && Extends(old(db.messages), db.messages)
    ensures r.Ok? ==> Revised(old(db.pitches), old(db.messages), db.pitches, db.messages, r.value, doc, threshold, o,
                              c, campaign, crew, corr, scoreMsg)
    ensures Revisable(old(db.agents), AuthorshipOf(old(db.pitches)[|old(db.pitches)| - 1]), doc, threshold, o) ==> r.Ok?
  {
    var fb := Feedback(doc, threshold);
    if fb.Err? {
      return Err(fb.error);
    }
    var cur := |db.pitches| - 1;
    ghost var ps0, ms0 := db.pitches, db.messages;
    RequestRefinement(db, crew, corr, scoreMsg, db.pitches[cur].id, fb.value);
    ghost var request := RefineRequest(|ms0|, crew, ps0[cur].id, fb.value, corr, scoreMsg);
    assert db.messages == ms0 + [request] && db.pitches == ps0;
    ExtendsAppend(ms0, [request]);
    r := StoreRevision(db, c, campaign, threshold, o, now, doc);
    assert db.messages == ms0 + [request];
  }

  /** What one refinement round adds. */
  datatype Round = Round(pitch: nat, message: nat, doc: Fields, avg: real)

  /** What a round adds to the pitches `ps0` and the messages `ms0`: the
      refiner's version of the newest pitch, under the feedback on `doc`,
      scored, and the delegated request that asked for it. */
  ghost predicate Refined(ps0: seq<Pitch>, ms0: seq<A2AMessage>, ps: seq<Pitch>, ms: seq<A2AMessage>, round: Round,
                          crew: Crew, corr: nat, scoreMsg: nat, doc: Fields, c: Customer, campaign: Option<nat>,
                          ag: Agents) {
    |ps0| >= 1 && round.pitch == |ps0| && round.message == |ms0| && |ps| == |ps0| + 1
    && var prev := ps0[|ps0| - 1];
       var p := ps[round.pitch];
       ms == ms0 + [RefineRequest(|ms0|, crew, prev.id, p.feedback, corr, scoreMsg)]
       && ag.revise(round.pitch, AuthorshipOf(prev), doc) == Some(AuthorshipOf(p))
       && ag.score(round.pitch) == Some(round.doc) && round.avg == Mean(ScoreProjection(round.doc))
       && RowOf(p) == Row(AuthorshipOf(p), c.id, campaign, ScoreProjection(round.doc))
       && p.status == Scored && p.pitchType == RefinedType
  }

  /** The agents refine the newest of the versions `ps` under the feedback
      on `doc` and score the refinement in a document the score table
      takes. */
  ghost predicate Refinable(ag: Agents, ps: seq<Pitch>, doc: Fields) {
    var n := |ps|;
    n >= 1 && ag.revise(n, AuthorshipOf(ps[n - 1]), doc).Some? && ag.score(n).Some? && Storable(n, ag.score(n).value)
  }

  /** When the agents refine and score, and the refiner and the scorer
      are configured, a round goes through. */
  lemma RefinableReady(ag: Agents, o: Oracles, c: Customer, threshold: real, ps: seq<Pitch>, doc: Fields,
                       agents: seq<AgentConfig>, rows: seq<PitchScore>)
    requires Acts(ag, o, c, threshold) && Refinable(ag, ps, doc) && ps[|ps| - 1].id == |ps| - 1
    requires Ready(agents) && ScoresValid(rows, |ps|)
    ensures Revisable(agents, AuthorshipOf(ps[|ps| - 1]), doc, threshold, o) && Scorable(agents, rows, |ps|, o)
  {
    NewPitchUnscored(rows, |ps|);
    assert ag.revise(|ps|, AuthorshipOf(ps[|ps| - 1]), doc) == RevisionOf(|ps|, AuthorshipOf(ps[|ps| - 1]), doc, threshold, o);
    assert ag.score(|ps|) == ScoringOf(|ps|, o);
  }

  /** When the agents write and score the next version of a stored run,
      and the refiner and the scorer are configured, the next round goes
      through. */
  lemma ContinuesRefinable(ag: Agents, o: Oracles, c: Customer, threshold: real, ps: seq<Pitch>, p0: nat,
                           run: seq<Version>, count: nat, doc: Fields, campaign: Option<nat>,
                           agents: seq<AgentConfig>, rows: seq<PitchScore>)
    requires Acts(ag, o, c, threshold) && Run(ag, p0, count) == Some(run) && Stored(ps, p0, run, c.id, campaign)
    requires |run| == count + 1 && doc == run[count].doc && ps[|ps| - 1].id == |ps| - 1
    requires ScoresValid(rows, |ps|)
    ensures Ready(agents) && Continues(ag, p0, count + 1) ==>
      Revisable(agents, AuthorshipOf(ps[|ps| - 1]), doc, threshold, o) && Scorable(agents, rows, |ps|, o)
  {
    if Ready(agents) && Continues(ag, p0, count + 1) {
      StoredNewest(ps, p0, run, c.id, campaign);
      assert p0 + count + 1 == |ps|;
      assert Refinable(ag, ps, doc);
      RefinableReady(ag, o, c, threshold, ps, doc, agents, rows);
    }
  }

  /** One pass of the refinement loop on the newest version: the refined
      version and its scores. */
  method RefineRound(db: Db, c: Customer, campaign: Option<nat>, threshold: real, o: Oracles,
                     crew: Crew, corr: nat, scoreMsg: nat, now: Instant, doc: Fields)
    returns (r: Result<Round>, ghost revisedPs: seq<Pitch>, ghost revisedMs: seq<A2AMessage>)
    requires db.Valid() && Staffed(db.agents, crew) && |db.pitches| >= 1
    requires c.id < |db.customers| && db.customers[c.id] == c
    requires campaign.Some? ==> campaign.value < |db.campaigns|
    requires scoreMsg < |db.messages|
    modifies db`pitches, db`pitchScores, db`messages, db`nextUuid
    ensures db.ContextKept()
    ensures db.Valid() && db.nextUuid == old(db.nextUuid)
    ensures Extends(old(db.pitches), db.pitches) && Extends(old(db.messages), db.messages)
    ensures Extends(old(db.pitchScores), db.pitchScores)
    ensures r.Ok? ==>
      r.value.message == |old(db.messages)|
      && Revised(old(db.pitches), old(db.messages), revisedPs, revisedMs, r.value.pitch, doc, threshold, o, c,
                 campaign, crew, corr, scoreMsg)
      && db.messages == revisedMs
      && ScoringOf(r.value.pitch, o) == Some(r.value.doc) && ScoredAs(revisedPs, db.pitches, r.value.pitch, r.value.doc)
      && r.value.avg == Mean(ScoreProjection(r.value.doc))
    ensures (Revisable(old(db.agents), AuthorshipOf(old(db.pitches)[|old(db.pitches)| - 1]), doc, threshold, o)
             && Scorable(old(db.agents), old(db.pitchScores), |old(db.pitches)|, o)) ==> r.Ok?
  {
    var m := |db.messages|;
    var revised := ReviseNewest(db, c, campaign, threshold, o, crew, corr, scoreMsg, now, doc);
    revisedPs, revisedMs := db.pitches, db.messages;
    if revised.Err? {
      return Err(revised.error), revisedPs, revisedMs;
    }
    var p := revised.value;
    var scored := ScoreVersion(db, p, o);
    if scored.Err? {
      return Err(scored.error), revisedPs, revisedMs;
    }
    r := Ok(Round(p, m, scored.value.0, scored.value.1));
  }

  /** A stored refinement of the newest version, then scored, is a round. */
  lemma RoundRefined(ps0: seq<Pitch>, ms0: seq<A2AMessage>, ps1: seq<Pitch>, ps2: seq<Pitch>, ms1: seq<A2AMessage>,
                     round: Round, crew: Crew, corr: nat, scoreMsg: nat, doc: Fields, c: Customer,
                     campaign: Option<nat>, threshold: real, o: Oracles, ag: Agents)
    requires Acts(ag, o, c, threshold) && round.message == |ms0|
    requires Revised(ps0, ms0, ps1, ms1, round.pitch, doc, threshold, o, c, campaign, crew, corr, scoreMsg)
    requires ScoringOf(round.pitch, o) == Some(round.doc) && ScoredAs(ps1, ps2, round.pitch, round.doc)
    requires round.avg == Mean(ScoreProjection(round.doc))
    ensures Refined(ps0, ms0, ps2, ms1, round, crew, corr, scoreMsg, doc, c, campaign, ag)
  {
    assert AuthorshipOf(ps2[round.pitch]) == AuthorshipOf(ps1[round.pitch]);
    assert ag.revise(round.pitch, AuthorshipOf(ps0[|ps0| - 1]), doc)
        == RevisionOf(round.pitch, AuthorshipOf(ps0[|ps0| - 1]), doc, threshold, o);
    assert ag.score(round.pitch) == ScoringOf(round.pitch, o);
  }

  // ------------------------------------------------------------ the first version

  /** Skipping a binding under another key. */
  lemma LookupPast(f: Fields, key: string)
    requires f != [] && f[0].0 != key
    ensures Lookup(f, key) == Lookup(f[1..], key)
  {
  }

  /** The context's tone is always "professional". */
  lemma ContextTone(c: Customer, research: Json)
    ensures Get(Context(c, research).fields, "tone", JStr("professional")) == JStr("professional")
  {
    var f := Context(c, research).fields;
    var t := "tone";
    assert t[0] == 't';
    LookupPast(f, t);
    LookupPast(f[1..], t);
    assert f[1..][1..] == f[2..];
    LookupPast(f[2..], t);
    assert f[2..][1..] == f[3..];
    LookupPast(f[3..], t);
    assert f[3..][1..] == f[4..];
    LookupPast(f[4..], t);
    assert f[4..][1..] == f[5..];
    LookupPast(f[5..], t);
    assert f[5..][1..] == f[6..];
    assert f[6] == (t, JStr("professional"));
  }

  /** The `Pitch.objects.create` of the generation step. */
  function GeneratedFrom(id: nat, c: Customer, campaign: Option<nat>, result: Json, now: Instant): Pitch {
    Pitch(id, c.id, TextField(result, "title", "Pitch for " + c.company), TextField(result, "content", ""),
          Initial, 1, Generated, [], "", None, campaign, ObjField(result, "metadata"),
          "pitch_generator_agent", Professional, "en", true, now)
  }

  lemma GeneratedIsDraft(id: nat, c: Customer, campaign: Option<nat>, o: Oracles, result: Json, now: Instant)
    requires o.generateReply.Ok?
    requires var parsed := ParseTitleContent(o.generateReply.value, "Pitch for " + c.company);
             result == PitchResult(parsed.0, parsed.1,
               [("model", JStr(o.model)), ("tone", JStr("professional")), ("customer_id", JStr(IdText(c.id)))])
    ensures DraftOf(id, o, c) == if |GeneratedFrom(id, c, campaign, result, now).title| <= TitleMax
                                 then Some(AuthorshipOf(GeneratedFrom(id, c, campaign, result, now))) else None
  {
    var parsed := ParseTitleContent(o.generateReply.value, "Pitch for " + c.company);
    ReadResult(parsed.0, parsed.1,
      [("model", JStr(o.model)), ("tone", JStr("professional")), ("customer_id", JStr(IdText(c.id)))],
      "Pitch for " + c.company);
  }

  /** The research request, then `research_customer`, whose failure the
      pipeline survives. */
  method ResearchStep(db: Db, crew: Crew, corr: nat, customer: nat, o: Oracles) returns (research: Result<Json>)
    requires db.Valid() && Staffed(db.agents, crew) && customer < |db.customers|
    modifies db`messages, db`nextUuid
    ensures db.ContextKept()
    ensures db.Valid() && db.nextUuid == old(db.nextUuid)
    ensures db.messages == old(db.messages)
      + [A2AMessage(|old(db.messages)|, crew.orchestrator, crew.research, Request,
                    JObj([("customer_id", JStr(IdText(customer)))]), corr, Sent, None)]
    ensures research == ResearchCustomer(old(db.customers), old(db.agents), customer, o.llmReady, o.mcp,
                                         o.researchReply, o.model)
  {
    var msg := SendMessage(db, crew.orchestrator, crew.research, Request,
                           JObj([("customer_id", JStr(IdText(customer)))]), Some(corr), None);
    research := ResearchCustomer(db.customers, db.agents, customer, o.llmReady, o.mcp, o.researchReply, o.model);
  }

  /** The delegated generation request answering `researchMsg`, then
      `generate_pitch` and the first version stored. */
  method GenerateStep(db: Db, crew: Crew, corr: nat, c: Customer, campaign: Option<nat>, context: Json,
                      researchMsg: nat, o: Oracles, now: Instant) returns (r: Result<nat>)
    requires db.Valid() && Staffed(db.agents, crew) && c.id < |db.customers| && db.customers[c.id] == c
    requires researchMsg < |db.messages|
    requires context.JObj? && Get(context.fields, "tone", JStr("professional")) == JStr("professional")
    modifies db`messages, db`nextUuid, db`pitches
    ensures db.ContextKept()
    ensures db.Valid() && db.nextUuid == old(db.nextUuid) && Extends(old(db.pitches), db.pitches)
    ensures db.messages == old(db.messages)
      + [A2AMessage(|old(db.messages)|, crew.orchestrator, crew.generator, Delegate,
                    JObj([("customer_id", JStr(IdText(c.id))), ("context", context)]), corr, Sent, Some(researchMsg))]
    ensures r.Ok? ==>
      r.value == |old(db.pitches)| && |db.pitches| == r.value + 1
      && (campaign.Some? ==> campaign.value < |db.campaigns|)
      && db.pitches[r.value].customer == c.id && db.pitches[r.value].campaign == campaign
      && DraftOf(r.value, o, c) == Some(AuthorshipOf(db.pitches[r.value]))
      && db.pitches[r.value].pitchType == Initial
    ensures (ActiveConfig(db.agents, PitchGenerator).Ok? && DraftOf(|old(db.pitches)|, o, c).Some?
             && (campaign.Some? ==> campaign.value < |db.campaigns|)) ==> r.Ok?
  {
    var msg := SendMessage(db, crew.orchestrator, crew.generator, Delegate,
                           JObj([("customer_id", JStr(IdText(c.id))), ("context", context)]),
                           Some(corr), Some(researchMsg));
    var generated := GeneratePitch(db.customers, db.agents, c.id, context, o.generateReply, o.model);
    if generated.Err? {
      return Err(generated.error);
    }
    var first := GeneratedFrom(|db.pitches|, c, campaign, generated.value, now);
    GeneratedIsDraft(|db.pitches|, c, campaign, o, generated.value, now);
    var created := CreatePitch(db, first);
    if created.Err? {
      return Err(created.error);
    }
    r := Ok(first.id);
  }

  /** The scoring request answering `genMsg`, then the first version
      scored. */
  method ScoreStep(db: Db, crew: Crew, corr: nat, pitch: nat, genMsg: nat, o: Oracles)
    returns (r: Result<(Fields, real)>)
    requires db.Valid() && Staffed(db.agents, crew) && pitch < |db.pitches| && genMsg < |db.messages|
    modifies db`messages, db`nextUuid, db`pitches, db`pitchScores
    ensures db.ContextKept()
    ensures db.Valid() && db.nextUuid == old(db.nextUuid) && Extends(old(db.pitchScores), db.pitchScores)
    ensures |db.pitches| == |old(db.pitches)|
    ensures db.messages == old(db.messages)
      + [A2AMessage(|old(db.messages)|, crew.orchestrator, crew.scorer, Request,
                    JObj([("pitch_id", JStr(IdText(pitch)))]), corr, Sent, Some(genMsg))]
    ensures r.Err? ==> db.pitches == old(db.pitches)
    ensures r.Ok? ==>
      ScoringOf(pitch, o) == Some(r.value.0) && ScoredAs(old(db.pitches), db.pitches, pitch, r.value.0)
      && r.value.1 == Mean(ScoreProjection(r.value.0))
    ensures Scorable(old(db.agents), old(db.pitchScores), pitch, o) ==> r.Ok?
  {
    var msg := SendMessage(db, crew.orchestrator, crew.scorer, Request,
                           JObj([("pitch_id", JStr(IdText(pitch)))]), Some(corr), Some(genMsg));
    r := ScoreVersion(db, pitch, o);
  }

  // ------------------------------------------------------------ the whole pipeline

  /** Before the final marking every version is scored and keeps its
      creation type. */
  ghost predicate Drafts(vs: seq<Pitch>) {
    forall k :: 0 <= k < |vs| ==>
      vs[k].status == Scored && vs[k].pitchType == (if k == 0 then Initial else RefinedType)
  }

  /** The versions stored from `p0` on are the rows of the run, all
      still drafts. */
  ghost predicate Stored(ps: seq<Pitch>, p0: nat, run: seq<Version>, customer: nat, campaign: Option<nat>) {
    |ps| == p0 + |run| && RowsOf(ps[p0..]) == RunRows(run, customer, campaign) && Drafts(ps[p0..])
  }

  /** The messages sent from `m0` on are the messages of the run. */
  ghost predicate Messaged(ms: seq<A2AMessage>, m0: nat, run: seq<Version>, corr: nat, crew: Crew, customer: nat,
                       context: Json, p0: nat) {
    |ms| == m0 + |run| + 2 && ms[m0..] == RunMessages(run, m0, corr, crew, customer, context, p0)
  }

  /** The loop invariant of the pipeline: after `count` rounds the run
      succeeded so far, and the versions from `p0` on, the messages from
      `m0` on and the step log are the ones it records. */
  ghost predicate Progress(ps: seq<Pitch>, ms: seq<A2AMessage>, p0: nat, m0: nat, corr: nat, crew: Crew,
                           c: Customer, campaign: Option<nat>, research: Result<Json>, steps: seq<Step>,
                           run: seq<Version>, count: nat, threshold: real, ag: Agents) {
    Run(ag, p0, count) == Some(run)
    && Stored(ps, p0, run, c.id, campaign)
    && Messaged(ms, m0, run, corr, crew, c.id, Context(c, ResearchDoc(research)), p0)
    && steps == RunSteps(research, run, m0, p0)
  }

  /** What the first three steps hand to the refinement loop. */
  datatype Opening = Opening(research: Result<Json>, steps: seq<Step>, doc: Fields, score: real)

  /** The rows, messages and steps of the opening. */
  lemma Opened(ps: seq<Pitch>, ms0: seq<A2AMessage>, ms: seq<A2AMessage>, p0: nat, m0: nat, corr: nat, crew: Crew,
               c: Customer, campaign: Option<nat>, research: Result<Json>, steps: seq<Step>,
               a: Authorship, doc: Fields, threshold: real, ag: Agents)
    requires ag.draft(p0) == Some(a) && ag.score(p0) == Some(doc)
    requires |ps| == p0 + 1 && RowOf(ps[p0]) == Row(a, c.id, campaign, ScoreProjection(doc))
    requires ps[p0].status == Scored && ps[p0].pitchType == Initial
    requires |ms0| == m0
    requires ms == ms0
      + [A2AMessage(m0, crew.orchestrator, crew.research, Request,
                    JObj([("customer_id", JStr(IdText(c.id)))]), corr, Sent, None)]
      + [A2AMessage(m0 + 1, crew.orchestrator, crew.generator, Delegate,
                    JObj([("customer_id", JStr(IdText(c.id))), ("context", Context(c, ResearchDoc(research)))]),
                    corr, Sent, Some(m0))]
      + [A2AMessage(m0 + 2, crew.orchestrator, crew.scorer, Request,
                    JObj([("pitch_id", JStr(IdText(p0)))]), corr, Sent, Some(m0 + 1))]
    requires steps == [if research.Ok? then Step("research", "completed", None, Some(m0), None, None, None)
                       else Step("research", "failed", None, None, None, None, Some(research.error)),
                       Step("generate", "completed", Some(p0), Some(m0 + 1), None, None, None),
                       Step("score", "completed", None, Some(m0 + 2), Some(ScoreProjection(doc)),
                            Some(Mean(ScoreProjection(doc))), None)]
    ensures Progress(ps, ms, p0, m0, corr, crew, c, campaign, research, steps, [Version(a, doc)], 0, threshold, ag)
  {
    assert ms[m0..] == RunMessages([Version(a, doc)], m0, corr, crew, c.id, Context(c, ResearchDoc(research)), p0);
    assert ps[p0..] == [ps[p0]];
    assert ps[p0..][..0] == [];
    assert [Version(a, doc)][..0] == [];
  }

  /** What research and generation leave for the first scoring: after the
      messages `ms0`, the research request and the generation request
      answering it; after the versions `ps00`, the generator's first version
      of the customer's pitch in the campaign. */
  ghost predicate Drafted(ps: seq<Pitch>, ms: seq<A2AMessage>, ps00: seq<Pitch>, ms0: seq<A2AMessage>, c: Customer,
                          campaign: Option<nat>, crew: Crew, corr: nat, research: Result<Json>, o: Oracles) {
    var p0, m0 := |ps00|, |ms0|;
    |ps| == p0 + 1 && Extends(ps00, ps)
    && ms == ms0
      + [A2AMessage(m0, crew.orchestrator, crew.research, Request,
                    JObj([("customer_id", JStr(IdText(c.id)))]), corr, Sent, None)]
      + [A2AMessage(m0 + 1, crew.orchestrator, crew.generator, Delegate,
                    JObj([("customer_id", JStr(IdText(c.id))), ("context", Context(c, ResearchDoc(research)))]),
                    corr, Sent, Some(m0))]
    && ps[p0].customer == c.id && ps[p0].campaign == campaign
    && DraftOf(p0, o, c) == Some(AuthorshipOf(ps[p0])) && ps[p0].pitchType == Initial
  }

  /** Research, whose failure the pipeline survives, then generation of
      the first version. */
  method Prepare(db: Db, c: Customer, campaign: Option<nat>, o: Oracles, crew: Crew, corr: nat, now: Instant)
    returns (research: Result<Json>, first: Result<nat>)
    requires db.Valid() && Staffed(db.agents, crew) && c.id < |db.customers| && db.customers[c.id] == c
    modifies db`pitches, db`messages, db`nextUuid
    ensures db.ContextKept()
    ensures db.Valid() && db.nextUuid == old(db.nextUuid) && Extends(old(db.pitches), db.pitches)
    ensures research == ResearchCustomer(old(db.customers), old(db.agents), c.id, o.llmReady, o.mcp,
                                         o.researchReply, o.model)
    ensures |db.messages| == |old(db.messages)| + 2 && Extends(old(db.messages), db.messages)
    ensures first.Ok? ==>
      first.value == |old(db.pitches)| && (campaign.Some? ==> campaign.value < |db.campaigns|)
      && Drafted(db.pitches, db.messages, old(db.pitches), old(db.messages), c, campaign, crew, corr, research, o)
    ensures (ActiveConfig(db.agents, PitchGenerator).Ok? && DraftOf(|old(db.pitches)|, o, c).Some?
             && (campaign.Some? ==> campaign.value < |db.campaigns|)) ==> first.Ok?
  {
    var m0 := |db.messages|;
    research := ResearchStep(db, crew, corr, c.id, o);
    var context := Context(c, ResearchDoc(research));
    ContextTone(c, ResearchDoc(research));
    first := GenerateStep(db, crew, corr, c, campaign, context, m0, o, now);
    assert db.messages[..m0] == old(db.messages);
  }

  /** The scoring of the first version, stored under `p0` after the
      research request and the generation request from `m0` on, over the
      tables `ps00`, `ms0` and `ss00` the run started from. */
  method ScoreFirst(db: Db, c: Customer, campaign: Option<nat>, threshold: real, o: Oracles, crew: Crew,
                    corr: nat, m0: nat, p0: nat, research: Result<Json>, ghost ag: Agents,
                    ghost ps00: seq<Pitch>, ghost ms0: seq<A2AMessage>, ghost ss00: seq<PitchScore>)
    returns (r: Result<Opening>, ghost run: seq<Version>)
    requires Acts(ag, o, c, threshold)
    requires db.Valid() && Staffed(db.agents, crew) && c.id < |db.customers| && db.customers[c.id] == c
    requires campaign.Some? ==> campaign.value < |db.campaigns|
    requires |ms0| == m0 && |ps00| == p0 && Extends(ss00, db.pitchScores)
    requires Drafted(db.pitches, db.messages, ps00, ms0, c, campaign, crew, corr, research, o)
    modifies db`pitches, db`pitchScores, db`messages, db`nextUuid
    ensures db.ContextKept()
    ensures db.Valid() && db.nextUuid == old(db.nextUuid)
    ensures Extends(ps00, db.pitches) && Extends(ms0, db.messages) && Extends(ss00, db.pitchScores)
    ensures r.Ok? ==>
      r.value.research == research
      && |run| == 1 && r.value.doc == run[0].doc && r.value.score == Average(run[0])
      && Cycle(db, c, campaign, threshold, crew, corr, m0, p0, research, r.value.steps, run, 0, ag, ps00, ms0, ss00)
    ensures Scorable(old(db.agents), old(db.pitchScores), p0, o) ==> r.Ok?
  {
    run := [];
    var entry := if research.Ok? then Step("research", "completed", None, Some(m0), None, None, None)
                 else Step("research", "failed", None, None, None, None, Some(research.error));
    ghost var ps1, ms1, ss1 := db.pitches, db.messages, db.pitchScores;
    assert |ms1| == m0 + 2;
    var scored := ScoreStep(db, crew, corr, p0, m0 + 1, o);
    ExtendsTrans(ss00, ss1, db.pitchScores);
    DraftKept(ps00, ms0, ps1, ms1, db.pitches, db.messages, c, campaign, crew, corr, research, o,
              if scored.Ok? then Some(scored.value.0) else None);
    if scored.Err? {
      return Err(scored.error), run;
    }
    var doc, avg := scored.value.0, scored.value.1;
    run := [Version(AuthorshipOf(ps1[p0]), doc)];
    var steps := [entry, Step("generate", "completed", Some(p0), Some(m0 + 1), None, None, None),
                  Step("score", "completed", None, Some(m0 + 2), Some(ScoreProjection(doc)), Some(avg), None)];
    FirstScored(ps00, ms0, ps1, ms1, db.pitches, db.messages, c, campaign, crew, corr, research, o, doc, steps,
                threshold, ag);
    r := Ok(Opening(research, steps, doc, avg));
  }

  /** What generation stored and sent stays in front of the tables
      whether or not the first scoring went through. */
  lemma DraftKept(ps00: seq<Pitch>, ms0: seq<A2AMessage>, ps1: seq<Pitch>, ms1: seq<A2AMessage>,
                  ps: seq<Pitch>, ms: seq<A2AMessage>, c: Customer, campaign: Option<nat>, crew: Crew,
                  corr: nat, research: Result<Json>, o: Oracles, scored: Option<Fields>)
    requires Drafted(ps1, ms1, ps00, ms0, c, campaign, crew, corr, research, o) && Extends(ms1, ms)
    requires if scored.None? then ps == ps1 else ScoredAs(ps1, ps, |ps00|, scored.value)
    ensures Extends(ps00, ps) && Extends(ms0, ms)
  {
    assert ps[..|ps00|] == ps1[..|ps00|];
    assert ms1[..|ms0|] == ms0;
    ExtendsTrans(ms0, ms1, ms);
  }

  /** The first scoring of the generator's version completes the opening
      of the run. */
  lemma FirstScored(ps00: seq<Pitch>, ms0: seq<A2AMessage>, ps1: seq<Pitch>, ms1: seq<A2AMessage>,
                    ps: seq<Pitch>, ms: seq<A2AMessage>, c: Customer, campaign: Option<nat>, crew: Crew,
                    corr: nat, research: Result<Json>, o: Oracles, doc: Fields, steps: seq<Step>,
                    threshold: real, ag: Agents)
    requires Acts(ag, o, c, threshold)
    requires Drafted(ps1, ms1, ps00, ms0, c, campaign, crew, corr, research, o)
    requires ScoringOf(|ps00|, o) == Some(doc) && ScoredAs(ps1, ps, |ps00|, doc)
    requires ms == ms1 + [A2AMessage(|ms1|, crew.orchestrator, crew.scorer, Request,
                                     JObj([("pitch_id", JStr(IdText(|ps00|)))]), corr, Sent, Some(|ms0| + 1))]
    requires var p0, m0 := |ps00|, |ms0|;
      steps == [if research.Ok? then Step("research", "completed", None, Some(m0), None, None, None)
                else Step("research", "failed", None, None, None, None, Some(research.error)),
                Step("generate", "completed", Some(p0), Some(m0 + 1), None, None, None),
                Step("score", "completed", None, Some(m0 + 2), Some(ScoreProjection(doc)),
                     Some(Mean(ScoreProjection(doc))), None)]
    ensures Progress(ps, ms, |ps00|, |ms0|, corr, crew, c, campaign, research, steps,
                     [Version(AuthorshipOf(ps1[|ps00|]), doc)], 0, threshold, ag)
  {
    var p0, m0 := |ps00|, |ms0|;
    var a := AuthorshipOf(ps1[p0]);
    assert ag.draft(p0) == DraftOf(p0, o, c);
    assert ag.score(p0) == ScoringOf(p0, o);
    assert AuthorshipOf(ps[p0]) == a;
    Opened(ps, ms0, ms, p0, m0, corr, crew, c, campaign, research, steps, a, doc, threshold, ag);
  }

  /** The services' lookups of the generator's, the scorer's and the
      refiner's active configurations do not raise. */
  predicate Ready(agents: seq<AgentConfig>) {
    ActiveConfig(agents, PitchGenerator).Ok? && ActiveConfig(agents, Scorer).Ok?
    && ActiveConfig(agents, Refiner).Ok?
  }

  /** The agents write and score version `n` of the run whose first
      version is stored under `p0`, in a document the score table takes. */
  ghost predicate Continues(ag: Agents, p0: nat, n: nat) {
    Run(ag, p0, n).Some? && Storable(p0 + n, Run(ag, p0, n).value[n].doc)
  }

  /** The run goes through from version `k` on: the agents write and
      score it, and every version the loop goes on from (below the
      threshold, with refinements left) is followed by one that goes
      through. */
  ghost predicate Goes(ag: Agents, p0: nat, k: nat, threshold: real, maxRefinements: int)
    decreases if k < maxRefinements then maxRefinements - k else 0
  {
    Continues(ag, p0, k)
    && (Average(Run(ag, p0, k).value[k]) < threshold && k < maxRefinements ==>
          Goes(ag, p0, k + 1, threshold, maxRefinements))
  }

  /** When the agents open a run, the generator and the scorer reply. */
  lemma OpensScorable(ag: Agents, o: Oracles, c: Customer, threshold: real, p0: nat,
                      agents: seq<AgentConfig>, rows: seq<PitchScore>)
    requires Acts(ag, o, c, threshold) && ScoresValid(rows, p0)
    ensures Ready(agents) && Continues(ag, p0, 0) ==>
      DraftOf(p0, o, c).Some? && ActiveConfig(agents, PitchGenerator).Ok? && Scorable(agents, rows, p0, o)
  {
    if Ready(agents) && Continues(ag, p0, 0) {
      NewPitchUnscored(rows, p0);
      assert ag.draft(p0) == DraftOf(p0, o, c);
      assert ag.score(p0) == ScoringOf(p0, o);
    }
  }

  /** A pitch stored after every existing score row has none. */
  lemma NewPitchUnscored(rows: seq<PitchScore>, p: nat)
    requires ScoresValid(rows, p)
    ensures Unscored(rows, p)
  {
  }

  /** Research, generation and the first scoring. */
  method Open(db: Db, c: Customer, campaign: Option<nat>, threshold: real, o: Oracles, crew: Crew,
              corr: nat, now: Instant, ghost ag: Agents)
    returns (r: Result<Opening>, ghost run: seq<Version>)
    requires Acts(ag, o, c, threshold)
    requires db.Valid() && Staffed(db.agents, crew) && c.id < |db.customers| && db.customers[c.id] == c
    modifies db`pitches, db`pitchScores, db`messages, db`nextUuid
    ensures db.ContextKept()
    ensures db.Valid() && db.nextUuid == old(db.nextUuid)
    ensures Extends(old(db.pitches), db.pitches) && Extends(old(db.messages), db.messages)
    ensures Extends(old(db.pitchScores), db.pitchScores)
    ensures r.Ok? ==>
      r.value.research == ResearchCustomer(old(db.customers), old(db.agents), c.id, o.llmReady, o.mcp,
                                           o.researchReply, o.model)
      && |run| == 1 && r.value.doc == run[0].doc && r.value.score == Average(run[0])
      && Cycle(db, c, campaign, threshold, crew, corr, |old(db.messages)|, |old(db.pitches)|, r.value.research,
               r.value.steps, run, 0, ag, old(db.pitches), old(db.messages), old(db.pitchScores))
    ensures (Ready(db.agents) && (campaign.Some? ==> campaign.value < |db.campaigns|)
             && Continues(ag, |old(db.pitches)|, 0)) ==> r.Ok?
  {
    run := [];
    var m0, p0 := |db.messages|, |db.pitches|;
    OpensScorable(ag, o, c, threshold, p0, db.agents, db.pitchScores);
    var research, first := Prepare(db, c, campaign, o, crew, corr, now);
    if first.Err? {
      return Err(first.error), run;
    }
    ExtendsRefl(old(db.pitchScores));
    r, run := ScoreFirst(db, c, campaign, threshold, o, crew, corr, m0, p0, research, ag,
                         old(db.pitches), old(db.messages), old(db.pitchScores));
  }

  /** A completed round keeps the invariant. */
  lemma NextRound(ps0: seq<Pitch>, ms0: seq<A2AMessage>, ps: seq<Pitch>, ms: seq<A2AMessage>, p0: nat, m0: nat,
                  corr: nat, crew: Crew, c: Customer, campaign: Option<nat>, research: Result<Json>,
                  steps: seq<Step>, run: seq<Version>, count: nat, round: Round, threshold: real, ag: Agents)
    requires Progress(ps0, ms0, p0, m0, corr, crew, c, campaign, research, steps, run, count, threshold, ag)
    requires ps0[|ps0| - 1].id == |ps0| - 1
    requires Extends(ps0, ps)
    requires Refined(ps0, ms0, ps, ms, round, crew, corr, m0 + 2, run[count].doc, c, campaign, ag)
    ensures var v := Version(AuthorshipOf(ps[round.pitch]), round.doc);
      Average(v) == round.avg
      && Progress(ps, ms, p0, m0, corr, crew, c, campaign, research,
                  steps + [Step(RoundName(count + 1), "completed", Some(round.pitch), Some(round.message),
                                Some(ScoreProjection(round.doc)), Some(round.avg), None)],
                  run + [v], count + 1, threshold, ag)
  {
    var x := ps[|ps0|];
    var v := Version(AuthorshipOf(x), round.doc);
    assert ps == ps0 + [x];
    assert |run| == count + 1 && round.pitch == p0 + |run| && round.message == m0 + 2 + |run|;
    assert Step(RoundName(count + 1), "completed", Some(round.pitch), Some(round.message),
                Some(ScoreProjection(round.doc)), Some(round.avg), None)
        == Step(RoundName(|run|), "completed", Some(p0 + |run|), Some(m0 + 2 + |run|),
                Some(ScoreProjection(v.doc)), Some(Average(v)), None);
    StoredNewest(ps0, p0, run, c.id, campaign);
    RunSnoc(ag, p0, count + 1, run, AuthorshipOf(x), round.doc);
    StoredSnoc(ps0, x, p0, run, v, c.id, campaign);
    assert v.author.feedback == x.feedback;
    assert ms == ms0 + [RefineRequest(|ms0|, crew, p0 + |run| - 1, x.feedback, corr, m0 + 2)];
    MessagedSnoc(ms0, ms, m0, run, v, corr, crew, c.id, Context(c, ResearchDoc(research)), p0);
    StepsSnoc(steps, research, run, v, m0, p0);
  }

  /** The newest stored version is the run's newest version. */
  lemma StoredNewest(ps: seq<Pitch>, p0: nat, run: seq<Version>, customer: nat, campaign: Option<nat>)
    requires Stored(ps, p0, run, customer, campaign) && run != []
    ensures AuthorshipOf(ps[|ps| - 1]) == run[|run| - 1].author
  {
    var n := |run| - 1;
    assert RowsOf(ps[p0..])[n] == RowOf(ps[|ps| - 1]);
    assert RunRows(run, customer, campaign)[n].author == run[n].author;
  }

  /** A stored scored revision extends the stored run. */
  lemma StoredSnoc(ps: seq<Pitch>, x: Pitch, p0: nat, run: seq<Version>, v: Version, customer: nat,
                   campaign: Option<nat>)
    requires Stored(ps, p0, run, customer, campaign) && run != []
    requires RowOf(x) == Row(v.author, customer, campaign, ScoreProjection(v.doc))
    requires x.status == Scored && x.pitchType == RefinedType
    ensures Stored(ps + [x], p0, run + [v], customer, campaign)
  {
    DropSnoc(ps, p0, x);
    RowsSnoc(ps[p0..], x);
    RunRowsSnoc(run, v, customer, campaign);
    DraftsSnoc(ps[p0..], x);
  }

  /** A scored revision of the newest version extends the run by one. */
  lemma RunSnoc(ag: Agents, p0: nat, n: nat, run: seq<Version>, a: Authorship, d: Fields)
    requires n >= 1 && Run(ag, p0, n - 1) == Some(run)
    requires ag.revise(p0 + n, run[n - 1].author, run[n - 1].doc) == Some(a)
    requires ag.score(p0 + n) == Some(d)
    ensures Run(ag, p0, n) == Some(run + [Version(a, d)])
  {
  }

  lemma RowsSnoc(vs: seq<Pitch>, x: Pitch)
    ensures RowsOf(vs + [x]) == RowsOf(vs) + [RowOf(x)]
  {
    assert (vs + [x])[..|vs|] == vs;
  }

  lemma RunRowsSnoc(run: seq<Version>, v: Version, customer: nat, campaign: Option<nat>)
    ensures RunRows(run + [v], customer, campaign)
            == RunRows(run, customer, campaign) + [Row(v.author, customer, campaign, ScoreProjection(v.doc))]
  {
    assert (run + [v])[..|run|] == run;
  }

  /** The refinement request about the newest version extends the
      messages of the run. */
  lemma MessagedSnoc(ms0: seq<A2AMessage>, ms: seq<A2AMessage>, m0: nat, run: seq<Version>, v: Version, corr: nat,
                 crew: Crew, customer: nat, context: Json, p0: nat)
    requires Messaged(ms0, m0, run, corr, crew, customer, context, p0) && run != []
    requires ms == ms0 + [RefineRequest(|ms0|, crew, p0 + |run| - 1, v.author.feedback, corr, m0 + 2)]
    ensures Messaged(ms, m0, run + [v], corr, crew, customer, context, p0)
  {
    assert (run + [v])[..|run|] == run;
    assert ms[m0..] == ms0[m0..] + [ms[|ms0|]];
  }

  /** The `refine_k` entry of the newest round extends the step log. */
  lemma StepsSnoc(steps: seq<Step>, research: Result<Json>, run: seq<Version>, v: Version, m0: nat, p0: nat)
    requires run != [] && steps == RunSteps(research, run, m0, p0)
    ensures steps + [Step(RoundName(|run|), "completed", Some(p0 + |run|), Some(m0 + 2 + |run|),
                          Some(ScoreProjection(v.doc)), Some(Average(v)), None)]
            == RunSteps(research, run + [v], m0, p0)
  {
    assert (run + [v])[..|run|] == run;
  }

  /** Dropping a prefix commutes with appending. */
  lemma DropSnoc<T>(xs: seq<T>, n: nat, x: T)
    requires n <= |xs|
    ensures (xs + [x])[n..] == xs[n..] + [x]
  {
  }

  /** Before the final marking, a refined version joins the drafts. */
  lemma DraftsSnoc(vs: seq<Pitch>, x: Pitch)
    requires Drafts(vs) && |vs| >= 1 && x.status == Scored && x.pitchType == RefinedType
    ensures Drafts(vs + [x])
  {
    var vs' := vs + [x];
    assert forall k :: 0 <= k < |vs| ==> vs'[k] == vs[k];
  }

  /** What holds of the database between two rounds of the loop. */
  ghost predicate Cycle(db: Db, c: Customer, campaign: Option<nat>, threshold: real, crew: Crew, corr: nat,
                        m0: nat, p0: nat, research: Result<Json>, steps: seq<Step>, run: seq<Version>, count: nat,
                        ag: Agents, ps00: seq<Pitch>, ms00: seq<A2AMessage>, ss00: seq<PitchScore>)
    reads db
  {
    db.Valid() && Staffed(db.agents, crew) && c.id < |db.customers| && db.customers[c.id] == c
    && (campaign.Some? ==> campaign.value < |db.campaigns|)
    && Progress(db.pitches, db.messages, p0, m0, corr, crew, c, campaign, research, steps, run, count, threshold, ag)
    && Extends(ps00, db.pitches) && Extends(ms00, db.messages) && Extends(ss00, db.pitchScores)
  }

  /** The tables a run reads but never writes. */
  type Tables = (seq<Customer>, seq<AgentConfig>, seq<Campaign>)

  /** What the loop keeps of the database: the read-only tables and the
      id counter as they were, the written tables only extended. */
  ghost predicate Kept(db: Db, tables: Tables, uuid: nat, ps00: seq<Pitch>, ms00: seq<A2AMessage>,
                       ss00: seq<PitchScore>)
    reads db
  {
    db.Valid() && Untouched(db, tables, uuid)
    && Extends(ps00, db.pitches) && Extends(ms00, db.messages) && Extends(ss00, db.pitchScores)
  }

  /** The read-only tables and the id counter are as they were. */
  ghost predicate Untouched(db: Db, tables: Tables, uuid: nat)
    reads db
  {
    db.nextUuid == uuid && db.customers == tables.0 && db.agents == tables.1 && db.campaigns == tables.2
  }

  /** The loop's state after `count` refinements: every earlier version
      scored below the threshold, `score` is the newest one's average, and
      the database holds the run so far. */
  ghost predicate Looping(db: Db, c: Customer, campaign: Option<nat>, threshold: real, maxRefinements: int,
                          crew: Crew, corr: nat, m0: nat, p0: nat, research: Result<Json>,
                          looped: (nat, real, seq<Step>), run: seq<Version>,
                          ag: Agents, ps00: seq<Pitch>, ms00: seq<A2AMessage>, ss00: seq<PitchScore>)
    reads db
  {
    Counted(looped, run, threshold, maxRefinements)
    && Cycle(db, c, campaign, threshold, crew, corr, m0, p0, research, looped.2, run, looped.0, ag,
             ps00, ms00, ss00)
  }

  /** The loop's counters: `count` refinements made, each earlier version
      below the threshold, `score` the newest version's average. */
  ghost predicate Counted(looped: (nat, real, seq<Step>), run: seq<Version>, threshold: real, maxRefinements: int) {
    var (count, score, _) := looped;
    |run| == count + 1
    && count <= (if maxRefinements > 0 then maxRefinements else 0)
    && (forall k :: 0 <= k < count ==> Average(run[k]) < threshold)
    && score == Average(run[count])
  }

  /** The work of one pass of the loop: the newest version refined and
      scored, and the `refine_k` entry of the step log. */
  method Revise(db: Db, c: Customer, campaign: Option<nat>, threshold: real, o: Oracles, crew: Crew,
                 corr: nat, now: Instant, m0: nat, p0: nat, research: Result<Json>, steps: seq<Step>,
                 ghost run: seq<Version>, count: nat, doc: Fields, ghost ag: Agents,
                 ghost ps00: seq<Pitch>, ghost ms00: seq<A2AMessage>, ghost ss00: seq<PitchScore>,
                 ghost tables: Tables, ghost uuid: nat)
    returns (r: Result<(Fields, real, seq<Step>)>, ghost v: Version)
    requires Acts(ag, o, c, threshold)
    requires Cycle(db, c, campaign, threshold, crew, corr, m0, p0, research, steps, run, count, ag, ps00, ms00, ss00)
    requires Kept(db, tables, uuid, ps00, ms00, ss00)
    requires |run| == count + 1 && doc == run[count].doc
    modifies db`pitches, db`pitchScores, db`messages, db`nextUuid
    ensures Kept(db, tables, uuid, ps00, ms00, ss00)
    ensures r.Ok? ==>
      r.value.0 == v.doc && r.value.1 == Average(v)
      && Cycle(db, c, campaign, threshold, crew, corr, m0, p0, research, r.value.2, run + [v], count + 1, ag,
               ps00, ms00, ss00)
    ensures Ready(tables.1) && Continues(ag, p0, count + 1) ==> r.Ok?
  {
    ghost var ps0, ms0, ss0 := db.pitches, db.messages, db.pitchScores;
    assert ps0[|ps0| - 1].id == |ps0| - 1;
    ContinuesRefinable(ag, o, c, threshold, ps0, p0, run, count, doc, campaign, tables.1, db.pitchScores);
    var round;
    ghost var ps1, ms1;
    round, ps1, ms1 := RefineRound(db, c, campaign, threshold, o, crew, corr, m0 + 2, now, doc);
    ExtendsTrans(ps00, ps0, db.pitches);
    ExtendsTrans(ms00, ms0, db.messages);
    ExtendsTrans(ss00, ss0, db.pitchScores);
    v := run[count];
    if round.Err? {
      return Err(round.error), v;
    }
    RoundRefined(ps0, ms0, ps1, db.pitches, ms1, round.value, crew, corr, m0 + 2, doc, c, campaign, threshold, o, ag);
    NextRound(ps0, ms0, db.pitches, db.messages, p0, m0, corr, crew, c, campaign, research, steps,
              run, count, round.value, threshold, ag);
    v := Version(AuthorshipOf(db.pitches[round.value.pitch]), round.value.doc);
    var step := Step(RoundName(count + 1), "completed", Some(round.value.pitch), Some(round.value.message),
                     Some(ScoreProjection(round.value.doc)), Some(round.value.avg), None);
    r := Ok((round.value.doc, round.value.avg, steps + [step]));
  }

  /** A round that was refined scored below the threshold, so the
      counters after it are those of a run one version longer. */
  lemma CountedNext(looped: (nat, real, seq<Step>), run: seq<Version>, v: Version, score: real, steps: seq<Step>,
                    threshold: real, maxRefinements: int)
    requires Counted(looped, run, threshold, maxRefinements)
    requires looped.1 < threshold && looped.0 < maxRefinements && score == Average(v)
    ensures Counted((looped.0 + 1, score, steps), run + [v], threshold, maxRefinements)
  {
    var count := looped.0;
    forall k | 0 <= k < count + 1
      ensures Average((run + [v])[k]) < threshold
    {
      assert (run + [v])[k] == run[k];
    }
  }

  /** One pass of the loop, taking its counters along. */
  method Advance(db: Db, c: Customer, campaign: Option<nat>, threshold: real, maxRefinements: int,
                 o: Oracles, crew: Crew, corr: nat, now: Instant, m0: nat, p0: nat, research: Result<Json>,
                 looped: (nat, real, seq<Step>), doc: Fields, ghost run: seq<Version>, ghost ag: Agents,
                 ghost ps00: seq<Pitch>, ghost ms00: seq<A2AMessage>, ghost ss00: seq<PitchScore>,
                 ghost tables: Tables, ghost uuid: nat)
    returns (r: Result<(Fields, real, seq<Step>)>, ghost v: Version)
    requires Acts(ag, o, c, threshold)
    requires Looping(db, c, campaign, threshold, maxRefinements, crew, corr, m0, p0, research, looped, run, ag,
                     ps00, ms00, ss00)
    requires Kept(db, tables, uuid, ps00, ms00, ss00)
    requires doc == run[looped.0].doc && looped.1 < threshold && looped.0 < maxRefinements
    modifies db`pitches, db`pitchScores, db`messages, db`nextUuid
    ensures Kept(db, tables, uuid, ps00, ms00, ss00)
    ensures r.Ok? ==>
      r.value.0 == v.doc
      && Looping(db, c, campaign, threshold, maxRefinements, crew, corr, m0, p0, research,
                 (looped.0 + 1, r.value.1, r.value.2), run + [v], ag, ps00, ms00, ss00)
    ensures Ready(tables.1) && Goes(ag, p0, looped.0, threshold, maxRefinements) ==>
      r.Ok? && Goes(ag, p0, looped.0 + 1, threshold, maxRefinements)
  {
    if Ready(tables.1) && Goes(ag, p0, looped.0, threshold, maxRefinements) {
      GoesOn(db, c, campaign, threshold, maxRefinements, crew, corr, m0, p0, research, looped, run, ag,
             ps00, ms00, ss00);
    }
    r, v := Revise(db, c, campaign, threshold, o, crew, corr, now, m0, p0, research, looped.2,
                   run, looped.0, doc, ag, ps00, ms00, ss00, tables, uuid);
    if r.Ok? {
      CountedNext(looped, run, v, r.value.1, r.value.2, threshold, maxRefinements);
    }
  }

  /** The `while avg_score < score_threshold and refinement_count <
      max_refinements` loop. */
  method Refinements(db: Db, c: Customer, campaign: Option<nat>, threshold: real, maxRefinements: int,
                     o: Oracles, crew: Crew, corr: nat, now: Instant, m0: nat, p0: nat,
                     research: Result<Json>, looped0: (nat, real, seq<Step>), ghost run0: seq<Version>, doc0: Fields,
                     ghost ag: Agents, ghost ps00: seq<Pitch>, ghost ms00: seq<A2AMessage>,
                     ghost ss00: seq<PitchScore>, ghost tables: Tables, ghost uuid: nat)
    returns (r: Result<(nat, real, seq<Step>)>, ghost run: seq<Version>)
    requires Acts(ag, o, c, threshold)
    requires Looping(db, c, campaign, threshold, maxRefinements, crew, corr, m0, p0, research, looped0, run0, ag,
                     ps00, ms00, ss00)
    requires Kept(db, tables, uuid, ps00, ms00, ss00)
    requires doc0 == run0[looped0.0].doc
    modifies db`pitches, db`pitchScores, db`messages, db`nextUuid
    ensures Kept(db, tables, uuid, ps00, ms00, ss00)
    ensures r.Ok? ==>
      (r.value.1 >= threshold || r.value.0 >= maxRefinements)
      && Looping(db, c, campaign, threshold, maxRefinements, crew, corr, m0, p0, research, r.value, run, ag,
                 ps00, ms00, ss00)
    ensures Ready(tables.1) && Goes(ag, p0, looped0.0, threshold, maxRefinements) ==> r.Ok?
  {
    var looped: (nat, real, seq<Step>), doc := looped0, doc0;
    run := run0;
    ghost var goes := Ready(tables.1) && Goes(ag, p0, looped0.0, threshold, maxRefinements);
    while looped.1 < threshold && looped.0 < maxRefinements
      invariant Untouched(db, tables, uuid)
      invariant Looping(db, c, campaign, threshold, maxRefinements, crew, corr, m0, p0, research, looped, run, ag,
                        ps00, ms00, ss00)
      invariant |run| == looped.0 + 1 && doc == run[looped.0].doc
      invariant goes ==> Ready(tables.1) && Goes(ag, p0, looped.0, threshold, maxRefinements)
      decreases maxRefinements - looped.0
    {
      var advanced;
      ghost var v;
      advanced, v := Advance(db, c, campaign, threshold, maxRefinements, o, crew, corr, now, m0, p0, research,
                             looped, doc, run, ag, ps00, ms00, ss00, tables, uuid);
      if advanced.Err? {
        return Err(advanced.error), run;
      }
      run := run + [v];
      looped, doc := (looped.0 + 1, advanced.value.1, advanced.value.2), advanced.value.0;
    }
    r := Ok(looped);
  }

  /** A run that goes through from the loop's current version, which is
      below the threshold with refinements left, goes through from the
      next one. */
  lemma GoesOn(db: Db, c: Customer, campaign: Option<nat>, threshold: real, maxRefinements: int,
               crew: Crew, corr: nat, m0: nat, p0: nat, research: Result<Json>,
               looped: (nat, real, seq<Step>), run: seq<Version>,
               ag: Agents, ps00: seq<Pitch>, ms00: seq<A2AMessage>, ss00: seq<PitchScore>)
    requires Looping(db, c, campaign, threshold, maxRefinements, crew, corr, m0, p0, research, looped, run, ag,
                     ps00, ms00, ss00)
    requires Goes(ag, p0, looped.0, threshold, maxRefinements)
    requires looped.1 < threshold && looped.0 < maxRefinements
    ensures Continues(ag, p0, looped.0 + 1) && Goes(ag, p0, looped.0 + 1, threshold, maxRefinements)
  {
    assert Run(ag, p0, looped.0) == Some(run);
  }

  /** Marking the newest version leaves its row as it was. */
  lemma RowsMarked(vs: seq<Pitch>, st: PitchStatus, ty: PitchType)
    requires |vs| >= 1
    ensures RowsOf(vs[|vs| - 1 := vs[|vs| - 1].(status := st, pitchType := ty)]) == RowsOf(vs)
  {
    var n := |vs| - 1;
    var vs' := vs[n := vs[n].(status := st, pitchType := ty)];
    assert vs'[..n] == vs[..n];
    assert RowOf(vs'[n]) == RowOf(vs[n]);
  }

  /** After the final marking: the rows stand, the earlier versions are
      drafts, and the last one is final with the given status. */
  lemma MarkFinal(ps2: seq<Pitch>, ps: seq<Pitch>, p0: nat, count: nat, status: PitchStatus)
    requires |ps2| == p0 + count + 1 && Drafts(ps2[p0..])
    requires ps == ps2[p0 + count := ps2[p0 + count].(status := status, pitchType := Final)]
    ensures RowsOf(ps[p0..]) == RowsOf(ps2[p0..])
    ensures Drafts(ps[p0..p0 + count])
    ensures ps[p0 + count].pitchType == Final && ps[p0 + count].status == status
  {
    var vs := ps2[p0..];
    assert ps[p0..] == vs[count := vs[count].(status := status, pitchType := Final)];
    RowsMarked(vs, status, Final);
    var ws := ps[p0..p0 + count];
    assert forall k :: 0 <= k < |ws| ==> ws[k] == vs[k];
  }

  /** The rounds of a completed run: the reference run of the agents,
      refined while below the threshold and stopped at the threshold or at
      the bound. */
  ghost predicate Stopped(p0: nat, res: PipelineResult, run: seq<Version>, threshold: real, maxRefinements: int,
                          ag: Agents) {
    Run(ag, p0, res.rounds) == Some(run)
    && res.rounds <= (if maxRefinements > 0 then maxRefinements else 0)
    && (forall k :: 0 <= k < res.rounds ==> Average(run[k]) < threshold)
    && res.finalScore == Average(run[res.rounds])
    && (res.finalScore >= threshold || res.rounds >= maxRefinements)
  }

  /** The versions of a completed run: those of the reference run, all
      drafts but the last, which is final and approved exactly when it
      reached the threshold. */
  ghost predicate Marked(ps: seq<Pitch>, p0: nat, res: PipelineResult, run: seq<Version>, threshold: real)
    requires |run| == res.rounds + 1
  {
    |ps| == p0 + res.rounds + 1 && res.finalPitch == p0 + res.rounds
    && RowsOf(ps[p0..]) == RunRows(run, res.customer, res.campaign)
    && Drafts(ps[p0..res.finalPitch])
    && ps[res.finalPitch].pitchType == Final
    && ps[res.finalPitch].status == (if res.finalScore >= threshold then Approved else PitchStatus.Refined)
  }

  /** The messages and steps of a completed run record every stage. */
  ghost predicate Recorded(ms: seq<A2AMessage>, m0: nat, p0: nat, res: PipelineResult, crew: Crew,
                           run: seq<Version>, c: Customer, research: Result<Json>) {
    |ms| == m0 + res.rounds + 3
    && ms[m0..] == RunMessages(run, m0, res.correlation, crew, res.customer, Context(c, ResearchDoc(research)), p0)
    && res.steps == RunSteps(research, run, m0, p0)
  }

  /** What a completed run promises, given the outcome of its research:
      the rounds stop at the threshold or at the bound, the last version is
      the one marked final (approved exactly when it reached the threshold),
      the stored versions are those of the reference run, and the messages
      and steps record every stage. */
  ghost predicate Finished(ps: seq<Pitch>, ms: seq<A2AMessage>, agents: seq<AgentConfig>,
                           customers: seq<Customer>, p0: nat, m0: nat, res: PipelineResult,
                           crew: Crew, run: seq<Version>, threshold: real, maxRefinements: int,
                           research: Result<Json>, ag: Agents)
    requires res.customer < |customers|
  {
    var c := customers[res.customer];
    Staffed(agents, crew)
    && Stopped(p0, res, run, threshold, maxRefinements, ag)
    && |run| == res.rounds + 1 && Marked(ps, p0, res, run, threshold)
    && Recorded(ms, m0, p0, res, crew, run, c, research)
  }

  /** A run that left the loop and marked its last version has finished. */
  lemma Concluded(ps2: seq<Pitch>, ps: seq<Pitch>, ms: seq<A2AMessage>, agents: seq<AgentConfig>,
                  customers: seq<Customer>, p0: nat, m0: nat, corr: nat, crew: Crew, c: Customer,
                  campaign: Option<nat>, research: Result<Json>, steps: seq<Step>, run: seq<Version>,
                  count: nat, score: real, threshold: real, maxRefinements: int, ag: Agents)
    requires Staffed(agents, crew)
    requires c.id < |customers| && customers[c.id] == c
    requires |run| == count + 1
    requires Progress(ps2, ms, p0, m0, corr, crew, c, campaign, research, steps, run, count, threshold, ag)
    requires count <= (if maxRefinements > 0 then maxRefinements else 0)
    requires forall k :: 0 <= k < count ==> Average(run[k]) < threshold
    requires score == Average(run[count]) && (score >= threshold || count >= maxRefinements)
    requires ps == ps2[p0 + count := ps2[p0 + count].(status := if score >= threshold then Approved else PitchStatus.Refined,
                                                      pitchType := Final)]
    ensures Finished(ps, ms, agents, customers, p0, m0, PipelineResult(c.id, campaign, corr, steps, p0 + count, score, count),
                     crew, run, threshold, maxRefinements, research, ag)
  {
    var res := PipelineResult(c.id, campaign, corr, steps, p0 + count, score, count);
    MarkedFinal(ps2, ps, p0, res, run, threshold);
  }

  /** Marking the last stored version of the run final, approved exactly
      when it reached the threshold. */
  lemma MarkedFinal(ps2: seq<Pitch>, ps: seq<Pitch>, p0: nat, res: PipelineResult, run: seq<Version>, threshold: real)
    requires Stored(ps2, p0, run, res.customer, res.campaign) && |run| == res.rounds + 1
    requires res.finalPitch == p0 + res.rounds
    requires ps == ps2[res.finalPitch := ps2[res.finalPitch].(status := if res.finalScore >= threshold then Approved
                                                                         else PitchStatus.Refined,
                                                               pitchType := Final)]
    ensures Marked(ps, p0, res, run, threshold)
  {
    MarkFinal(ps2, ps, p0, res.rounds, if res.finalScore >= threshold then Approved else PitchStatus.Refined);
  }

  /** The final save of the last version: its status and `pitch_type`. */
  method MarkLast(db: Db, last: nat, status: PitchStatus)
    requires db.Valid() && last < |db.pitches|
    modifies db`pitches
    ensures db.ContextKept()
    ensures db.Valid() && db.nextUuid == old(db.nextUuid)
    ensures db.pitches == old(db.pitches)[last := old(db.pitches)[last].(status := status, pitchType := Final)]
    ensures db.messages == old(db.messages) && db.pitchScores == old(db.pitchScores)
    ensures db.customers == old(db.customers) && db.agents == old(db.agents) && db.campaigns == old(db.campaigns)
  {
    db.pitches := db.pitches[last := db.pitches[last].(status := status, pitchType := Final)];
  }

  /** The final marking of the last version after the loop: approved
      when it reached the threshold, refined otherwise. */
  method Finalize(db: Db, c: Customer, campaign: Option<nat>, threshold: real, maxRefinements: int,
                  crew: Crew, corr: nat, m0: nat, p0: nat, research: Result<Json>,
                  looped: (nat, real, seq<Step>), ghost run: seq<Version>, ghost ag: Agents,
                  ghost ps00: seq<Pitch>, ghost ms00: seq<A2AMessage>, ghost ss00: seq<PitchScore>)
    returns (res: PipelineResult)
    requires p0 == |ps00| && (looped.1 >= threshold || looped.0 >= maxRefinements)
    requires Looping(db, c, campaign, threshold, maxRefinements, crew, corr, m0, p0, research, looped, run, ag,
                     ps00, ms00, ss00)
    modifies db`pitches
    ensures db.ContextKept()
    ensures db.Valid() && db.nextUuid == old(db.nextUuid)
    ensures Extends(ps00, db.pitches) && Extends(ms00, db.messages) && Extends(ss00, db.pitchScores)
    ensures res.customer == c.id && res.campaign == campaign && res.correlation == corr
    ensures campaign.Some? ==> campaign.value < |db.campaigns|
    ensures Finished(db.pitches, db.messages, db.agents, db.customers, p0, m0, res, crew, run,
                     threshold, maxRefinements, research, ag)
  {
    var (count, score, steps) := looped;
    var last := p0 + count;
    var status := if score >= threshold then Approved else PitchStatus.Refined;
    ghost var ps2 := db.pitches;
    MarkLast(db, last, status);
    Concluded(ps2, db.pitches, db.messages, db.agents, db.customers, p0, m0, corr, crew, c, campaign,
              research, steps, run, count, score, threshold, maxRefinements, ag);
    ExtendsUpdate(ps00, ps2, last, ps2[last].(status := status, pitchType := Final));
    res := PipelineResult(c.id, campaign, corr, steps, last, score, count);
  }

  /** The refinement loop after the opening, then the final marking of
      the last version: approved when it reached the threshold, refined
      otherwise. */
  method Conclude(db: Db, c: Customer, campaign: Option<nat>, threshold: real, maxRefinements: int,
                  o: Oracles, crew: Crew, corr: nat, now: Instant, m0: nat, p0: nat, opening: Opening,
                  ghost run0: seq<Version>, ghost ag: Agents,
                  ghost ps00: seq<Pitch>, ghost ms00: seq<A2AMessage>, ghost ss00: seq<PitchScore>)
    returns (r: Result<PipelineResult>, ghost run: seq<Version>)
    requires Acts(ag, o, c, threshold)
    requires |run0| == 1 && opening.doc == run0[0].doc && opening.score == Average(run0[0]) && p0 == |ps00|
    requires Cycle(db, c, campaign, threshold, crew, corr, m0, p0, opening.research, opening.steps, run0, 0, ag,
                   ps00, ms00, ss00)
    modifies db`pitches, db`pitchScores, db`messages, db`nextUuid
    ensures db.ContextKept()
    ensures db.Valid() && db.nextUuid == old(db.nextUuid)
    ensures Extends(ps00, db.pitches) && Extends(ms00, db.messages) && Extends(ss00, db.pitchScores)
    ensures r.Ok? ==>
      r.value.customer == c.id && r.value.campaign == campaign && r.value.correlation == corr
      && (campaign.Some? ==> campaign.value < |db.campaigns|)
      && Finished(db.pitches, db.messages, db.agents, db.customers, p0, m0, r.value, crew, run,
                  threshold, maxRefinements, opening.research, ag)
    ensures Ready(old(db.agents)) && Goes(ag, p0, 0, threshold, maxRefinements) ==> r.Ok?
  {
    ghost var tables := (db.customers, db.agents, db.campaigns);
    var looped;
    looped, run := Refinements(db, c, campaign, threshold, maxRefinements, o, crew, corr, now, m0, p0,
                               opening.research, (0, opening.score, opening.steps), run0, opening.doc, ag,
                               ps00, ms00, ss00, tables, db.nextUuid);
    if looped.Err? {
      return Err(looped.error), run;
    }
    var res := Finalize(db, c, campaign, threshold, maxRefinements, crew, corr, m0, p0, opening.research,
                        looped.value, run, ag, ps00, ms00, ss00);
    r := Ok(res);
  }

  /** The conversation of one pipeline run, from research to the final
      marking, for an existing customer and a resolved crew. */
  method Converse(db: Db, c: Customer, campaign: Option<nat>, threshold: real, maxRefinements: int,
                  o: Oracles, crew: Crew, corr: nat, now: Instant, ghost ag: Agents)
    returns (r: Result<PipelineResult>, ghost run: seq<Version>, ghost research: Result<Json>)
    requires Acts(ag, o, c, threshold)
    requires db.Valid() && Staffed(db.agents, crew) && c.id < |db.customers| && db.customers[c.id] == c
    modifies db`pitches, db`pitchScores, db`messages, db`nextUuid
    ensures db.ContextKept()
    ensures db.Valid() && db.nextUuid == old(db.nextUuid)
    ensures Extends(old(db.pitches), db.pitches) && Extends(old(db.messages), db.messages)
    ensures Extends(old(db.pitchScores), db.pitchScores)
    ensures r.Ok? ==>
      r.value.customer == c.id && r.value.campaign == campaign && r.value.correlation == corr
      && (campaign.Some? ==> campaign.value < |db.campaigns|)
      && research == ResearchCustomer(old(db.customers), old(db.agents), c.id, o.llmReady, o.mcp,
                                      o.researchReply, o.model)
      && Finished(db.pitches, db.messages, db.agents, db.customers, |old(db.pitches)|, |old(db.messages)|,
                  r.value, crew, run, threshold, maxRefinements, research, ag)
    ensures (Ready(old(db.agents)) && (campaign.Some? ==> campaign.value < |old(db.campaigns)|)
             && Goes(ag, |old(db.pitches)|, 0, threshold, maxRefinements)) ==> r.Ok?
  {
    run, research := [], Err("");
    var m0, p0 := |db.messages|, |db.pitches|;
    ghost var ps0, ms0, ss0 := db.pitches, db.messages, db.pitchScores;
    var opening;
    ghost var run0;
    opening, run0 := Open(db, c, campaign, threshold, o, crew, corr, now, ag);
    if opening.Err? {
      return Err(opening.error), run, research;
    }
    research := opening.value.research;
    r, run := Conclude(db, c, campaign, threshold, maxRefinements, o, crew, corr, now, m0, p0,
                       opening.value, run0, ag, ps0, ms0, ss0);
  }

  /** A table with exactly one configuration of each role's type has at
      most one active generator, scorer and refiner. */
  lemma CrewedReady(agents: seq<AgentConfig>)
    requires Crewed(agents)
    ensures Ready(agents)
  {
    assert Sole(agents, Roles[1].0) && Sole(agents, Roles[2].0) && Sole(agents, Roles[3].0);
    SoleActive(agents, PitchGenerator);
    SoleActive(agents, Scorer);
    SoleActive(agents, Refiner);
  }

  /** The start of a run: a fresh correlation id, then the five agents. */
  method Begin(db: Db) returns (corr: nat, staff: Result<Crew>)
    requires db.Valid()
    modifies db`agents, db`nextUuid
    ensures db.Valid() && Extends(old(db.agents), db.agents)
    ensures corr == old(db.nextUuid) && db.nextUuid == corr + 1
    ensures staff.Ok? ==> Staffed(db.agents, staff.value)
    ensures Staffable(old(db.agents)) ==> staff.Ok? && Ready(db.agents)
  {
    corr := db.nextUuid;
    db.nextUuid := db.nextUuid + 1;
    staff := ResolveAgents(db);
    if staff.Ok? && Crewed(db.agents) {
      CrewedReady(db.agents);
    }
  }

  /** `A2AService.orchestrate_pipeline(customer_id, campaign_id)` with
      `AGENT_SCORE_THRESHOLD` and `AGENT_MAX_REFINEMENT_ITERATIONS` as
      parameters. A missing customer raises before anything is written;
      any later exception ends the run with what was written so far kept. */
  method OrchestratePipeline(db: Db, customer: nat, campaign: Option<nat>, threshold: real,
                             maxRefinements: int, o: Oracles, now: Instant)
    returns (out: Outcome, crew: Crew, ghost ag: Agents, ghost run: seq<Version>, ghost research: Result<Json>)
    requires db.Valid()
    modifies db`pitches, db`pitchScores, db`messages, db`agents, db`nextUuid
    ensures db.Valid()
    ensures Extends(old(db.pitches), db.pitches) && Extends(old(db.messages), db.messages)
    ensures Extends(old(db.pitchScores), db.pitchScores) && Extends(old(db.agents), db.agents)
    ensures customer >= |db.customers| ==>
      out == Raised("Customer matching query does not exist.") && db.pitches == old(db.pitches)
      && db.messages == old(db.messages) && db.agents == old(db.agents)
      && db.pitchScores == old(db.pitchScores) && db.nextUuid == old(db.nextUuid)
    ensures out.Done? ==>
      out.result.customer == customer && out.result.campaign == campaign && customer < |db.customers|
      && (campaign.Some? ==> campaign.value < |db.campaigns|)
      && out.result.correlation == old(db.nextUuid) && db.nextUuid == old(db.nextUuid) + 1
      && Acts(ag, o, db.customers[customer], threshold)
      && research == ResearchCustomer(db.customers, db.agents, customer, o.llmReady, o.mcp, o.researchReply, o.model)
      && Finished(db.pitches, db.messages, db.agents, db.customers, |old(db.pitches)|, |old(db.messages)|,
                  out.result, crew, run, threshold, maxRefinements, research, ag)
    ensures customer < |old(db.customers)| ==> ag == AgentsOf(o, old(db.customers)[customer], threshold)
    ensures (customer < |old(db.customers)| && Staffable(old(db.agents))
             && (campaign.Some? ==> campaign.value < |old(db.campaigns)|)
             && Goes(AgentsOf(o, old(db.customers)[customer], threshold), |old(db.pitches)|, 0, threshold,
                     maxRefinements)) ==> out.Done?
  {
    crew, ag, run, research := Crew(0, 0, 0, 0, 0), Idle, [], Err("");
    if customer >= |db.customers| {
      return Raised("Customer matching query does not exist."), crew, ag, run, research;
    }
    var c := db.customers[customer];
    ag := AgentsOf(o, c, threshold);
    var corr, staff := Begin(db);
    if staff.Err? {
      return Raised(staff.error), crew, ag, run, research;
    }
    crew := staff.value;
    var conversed;
    conversed, run, research := Converse(db, c, campaign, threshold, maxRefinements, o, crew, corr, now, ag);
    if conversed.Err? {
      return Raised(conversed.error), crew, ag, run, research;
    }
    out := Done(conversed.value);
  }
}
