/** The pitch tasks run outside a request: generation from a customer's
    profile and an optional template, scoring with one upserted score row
    per dimension, and refinement into a new version. A task that raises is
    retried by the queue; here it returns the error and leaves whatever it
    had already saved. */
module PitchTasks {
  import opened Common
  import opened Calendar
  import opened CustomerModels
  import opened AgentModels
  import opened PitchModels
  import opened AgentService
  import opened Store
  import opened Pipeline

  // ------------------------------------------------------------ generation

  /** The template table after `template.usage_count += 1` on the template
      `id`, when there is one. */
  function UsedTemplate(ts: seq<PitchTemplate>, id: Option<nat>): (r: seq<PitchTemplate>)
    ensures |r| == |ts|
    ensures forall i :: 0 <= i < |ts| ==>
      r[i] == ts[i].(usageCount := ts[i].usageCount + (if id == Some(i) then 1 else 0))
  {
    if id.Some? && id.value < |ts| then ts[id.value := ts[id.value].(usageCount := ts[id.value].usageCount + 1)]
    else ts
  }

  /** The context handed to the generator: the customer's profile, the
      tone and the extra context, then the template's text and variables
      when the template exists. */
  function GenerationContext(c: Customer, tone: Tone, extra: string, ts: seq<PitchTemplate>, id: Option<nat>): Json {
    var base := [("customer_name", JStr(c.name)), ("company", JStr(c.company)), ("industry", JStr(c.industry)),
                 ("company_size", JStr(c.companySize.Code())), ("description", JStr(c.description)),
                 ("preferences", c.preferences), ("tone", JStr(tone.Code())), ("additional_context", JStr(extra))];
    if id.Some? && id.value < |ts| then
      JObj(base + [("template", JStr(ts[id.value].templateContent)), ("template_variables", ts[id.value].variables)])
    else JObj(base)
  }

  /** The `Pitch.objects.create` of a generation task. */
  function GeneratedVersion(id: nat, c: Customer, pitchType: PitchType, tone: Tone, campaign: Option<nat>,
                            result: Json, now: Instant): Pitch {
    Pitch(id, c.id, TextField(result, "title", "Pitch for " + c.company), TextField(result, "content", ""),
          pitchType, 1, Generated, [], "", None, campaign, ObjField(result, "metadata"),
          "pitch_generator_agent", tone, "en", true, now)
  }

  /** What a generation task reports. */
  function GeneratedReport(p: Pitch): Json {
    JObj([("status", JStr("success")), ("pitch_id", JStr(IdText(p.id))), ("title", JStr(p.title))])
  }

  /** A generator reply in the requested layout gives a first version with
      that title and content, of the requested type and tone, and with no
      parent. */
  lemma GeneratedFormatted(customers: seq<Customer>, agents: seq<AgentConfig>, customer: nat, context: Json,
                           t: string, body: string, model: string, id: nat, pitchType: PitchType, tone: Tone,
                           campaign: Option<nat>, now: Instant)
    requires customer < |customers| && ActiveConfig(agents, PitchGenerator).Ok? && context.JObj?
    requires t != [] && IsStripped(t) && IsStripped(body)
    requires !Contains(t, TitleMarker) && !Contains(t, ContentMarker)
    ensures var r := GeneratePitch(customers, agents, customer, context, Ok("TITLE: " + t + "\nCONTENT:\n" + body), model);
      r.Ok?
      && var p := GeneratedVersion(id, customers[customer], pitchType, tone, campaign, r.value, now);
         p.title == t && p.content == body && p.version == 1 && p.parent.None? && p.status == Generated
         && p.pitchType == pitchType && p.tone == tone && p.customer == customers[customer].id
  {
    var c := customers[customer];
    ParseFormatted(t, body, "Pitch for " + c.company);
    ReadResult(t, body, [("model", JStr(model)), ("tone", Get(context.fields, "tone", JStr("professional"))),
                         ("customer_id", JStr(IdText(customer)))], "Pitch for " + c.company);
  }

  /** `template.usage_count += 1; template.save()` when the template
      exists. */
  method UseTemplate(db: Db, template: Option<nat>)
    requires db.Valid()
    modifies db`templates
    ensures db.Valid() && db.templates == UsedTemplate(old(db.templates), template)
    ensures db.customers == old(db.customers) && db.agents == old(db.agents)
    ensures db.pitches == old(db.pitches) && db.campaigns == old(db.campaigns)
  {
    if template.Some? && template.value < |db.templates| {
      var t := template.value;
      db.templates := db.templates[t := db.templates[t].(usageCount := db.templates[t].usageCount + 1)];
    }
  }

  /** `async_generate_pitch`: the customer must exist; an existing template
      is counted as used before the generator is asked, so the count stays
      raised when generation then fails; a missing template is skipped; the
      new pitch is stored as generated. */
  method GenerateTask(db: Db, customer: nat, tone: Tone, pitchType: PitchType, template: Option<nat>,
                      campaign: Option<nat>, extra: string, reply: Result<string>, model: string, now: Instant)
    returns (r: Result<Json>)
    requires db.Valid()
    modifies db`templates, db`pitches
    ensures db.Valid()
    ensures customer >= |old(db.customers)| ==>
      r == Err("Customer matching query does not exist.") && db.templates == old(db.templates) && db.pitches == old(db.pitches)
    ensures customer < |old(db.customers)| ==>
      var c := old(db.customers)[customer];
      var res := GeneratePitch(old(db.customers), old(db.agents), customer,
                               GenerationContext(c, tone, extra, old(db.templates), template), reply, model);
      db.templates == UsedTemplate(old(db.templates), template)
      && (r.Ok? <==> res.Ok? && (campaign.Some? ==> campaign.value < |old(db.campaigns)|)
                     && |GeneratedVersion(|old(db.pitches)|, c, pitchType, tone, campaign, res.value, now).title|
                        <= TitleMax)
      && (r.Ok? ==>
            var p := GeneratedVersion(|old(db.pitches)|, c, pitchType, tone, campaign, res.value, now);
            db.pitches == old(db.pitches) + [p] && r.value == GeneratedReport(p))
      && (r.Err? ==> db.pitches == old(db.pitches))
  {
    if customer >= |db.customers| {
      return Err("Customer matching query does not exist.");
    }
    var c := db.customers[customer];
    var context := GenerationContext(c, tone, extra, db.templates, template);
    UseTemplate(db, template);
    var result := GeneratePitch(db.customers, db.agents, customer, context, reply, model);
    if result.Err? {
      return Err(result.error);
    }
    var p := GeneratedVersion(|db.pitches|, c, pitchType, tone, campaign, result.value, now);
    assert c.id == customer;
    var created := CreatePitch(db, p);
    if created.Err? {
      return Err(created.error);
    }
    r := Ok(GeneratedReport(p));
  }

  // --------------------------------------------------------------- scoring

  /** `PitchScore.objects.update_or_create` keyed by pitch, dimension and
      scorer: the row with that key takes the new score and explanation, or
      the new row is appended. */
  function UpsertScore(rows: seq<PitchScore>, row: PitchScore): (r: seq<PitchScore>)
    ensures KeysUnique(rows, ScoreKey) ==> KeysUnique(r, ScoreKey)
    ensures FindKey(rows, ScoreKey, ScoreKey(row)).None? ==> r == rows + [row]
    ensures FindKey(rows, ScoreKey, ScoreKey(row)).Some? ==>
      r == rows[FindKey(rows, ScoreKey, ScoreKey(row)).value := row]
  {
    match FindKey(rows, ScoreKey, ScoreKey(row))
    case None => rows + [row]
    case Some(i) => rows[i := row]
  }

  /** The rows upserted in order. */
  function UpsertScores(rows: seq<PitchScore>, news: seq<PitchScore>): seq<PitchScore>
    decreases |news|
  {
    if news == [] then rows
    else UpsertScore(UpsertScores(rows, news[..|news| - 1]), news[|news| - 1])
  }

  /** Upserting keeps the keys unique and never drops or reorders a row:
      the table only grows. */
  lemma {:induction false} UpsertScoresUnique(rows: seq<PitchScore>, news: seq<PitchScore>)
    requires KeysUnique(rows, ScoreKey)
    ensures KeysUnique(UpsertScores(rows, news), ScoreKey)
    ensures |rows| <= |UpsertScores(rows, news)| <= |rows| + |news|
    ensures forall i :: 0 <= i < |rows| ==> ScoreKey(UpsertScores(rows, news)[i]) == ScoreKey(rows[i])
    decreases |news|
  {
    if news != [] {
      UpsertScoresUnique(rows, news[..|news| - 1]);
    }
  }

  /** Upserting a row leaves the row of every other key where it was. */
  lemma UpsertScoreOther(rows: seq<PitchScore>, row: PitchScore, k: (nat, string, string))
    requires k != ScoreKey(row)
    ensures FindKey(UpsertScore(rows, row), ScoreKey, k) == FindKey(rows, ScoreKey, k)
    ensures FindKey(rows, ScoreKey, k).Some? ==>
      UpsertScore(rows, row)[FindKey(rows, ScoreKey, k).value] == rows[FindKey(rows, ScoreKey, k).value]
  {
    var r := UpsertScore(rows, row);
    if FindKey(rows, ScoreKey, ScoreKey(row)).None? {
      assert forall j :: 0 <= j < |rows| ==> r[j] == rows[j];
      FindKeyPrefix(rows, [row], k);
    } else {
      var i := FindKey(rows, ScoreKey, ScoreKey(row)).value;
      assert forall j :: 0 <= j < |rows| ==> ScoreKey(r[j]) == ScoreKey(rows[j]);
      FindKeySameKeys(rows, r, k);
    }
  }

  /** The upserted row is the one stored under its key. */
  lemma UpsertScoreFinds(rows: seq<PitchScore>, row: PitchScore)
    ensures var t := UpsertScore(rows, row);
      FindKey(t, ScoreKey, ScoreKey(row)).Some? && t[FindKey(t, ScoreKey, ScoreKey(row)).value] == row
  {
    var t := UpsertScore(rows, row);
    if FindKey(rows, ScoreKey, ScoreKey(row)).None? {
      assert ScoreKey(t[|rows|]) == ScoreKey(row);
    } else {
      assert forall j :: 0 <= j < |rows| ==> ScoreKey(t[j]) == ScoreKey(rows[j]);
      FindKeySameKeys(rows, t, ScoreKey(row));
    }
  }

  lemma {:induction false} FindKeyPrefix(rows: seq<PitchScore>, more: seq<PitchScore>, k: (nat, string, string))
    requires forall j :: 0 <= j < |more| ==> ScoreKey(more[j]) != k
    ensures FindKey(rows + more, ScoreKey, k) == FindKey(rows, ScoreKey, k)
  {
    if rows == [] {
      assert rows + more == more;
    } else {
      assert (rows + more)[1..] == rows[1..] + more;
      FindKeyPrefix(rows[1..], more, k);
    }
  }

  lemma {:induction false} FindKeySameKeys(a: seq<PitchScore>, b: seq<PitchScore>, k: (nat, string, string))
    requires |a| == |b| && forall j :: 0 <= j < |a| ==> ScoreKey(a[j]) == ScoreKey(b[j])
    ensures FindKey(a, ScoreKey, k) == FindKey(b, ScoreKey, k)
  {
    if a != [] {
      assert forall j :: 0 <= j < |a| - 1 ==> ScoreKey(a[1..][j]) == ScoreKey(b[1..][j]);
      FindKeySameKeys(a[1..], b[1..], k);
    }
  }

  /** After upserting rows of distinct keys, each key's row is the row
      given for it: the score table holds exactly one row per dimension
      scored, carrying the latest score. */
  lemma {:induction false} UpsertScoresFound(rows: seq<PitchScore>, news: seq<PitchScore>)
    requires KeysUnique(news, ScoreKey)
    ensures forall j :: 0 <= j < |news| ==>
      var t := UpsertScores(rows, news);
      FindKey(t, ScoreKey, ScoreKey(news[j])).Some? && t[FindKey(t, ScoreKey, ScoreKey(news[j])).value] == news[j]
    decreases |news|
  {
    if news != [] {
      var init := news[..|news| - 1];
      var x := news[|news| - 1];
      assert KeysUnique(init, ScoreKey) by {
        assert forall j :: 0 <= j < |init| ==> init[j] == news[j];
      }
      UpsertScoresFound(rows, init);
      var t0 := UpsertScores(rows, init);
      var t := UpsertScore(t0, x);
      forall j | 0 <= j < |news|
        ensures FindKey(t, ScoreKey, ScoreKey(news[j])).Some? && t[FindKey(t, ScoreKey, ScoreKey(news[j])).value] == news[j]
      {
        if j == |news| - 1 {
          UpsertScoreFinds(t0, x);
        } else {
          assert init[j] == news[j];
          UpsertScoreOther(t0, x, ScoreKey(news[j]));
        }
      }
    }
  }

  /** Upserting a row that is already stored changes nothing. */
  lemma UpsertScoreStored(rows: seq<PitchScore>, row: PitchScore)
    requires FindKey(rows, ScoreKey, ScoreKey(row)).Some?
    requires rows[FindKey(rows, ScoreKey, ScoreKey(row)).value] == row
    ensures UpsertScore(rows, row) == rows
  {
  }

  /** Re-scoring with the same rows leaves the table as the first scoring
      left it: rows are replaced, never duplicated. */
  lemma {:induction false} RescoreIdempotent(rows: seq<PitchScore>, news: seq<PitchScore>)
    requires KeysUnique(news, ScoreKey)
    ensures UpsertScores(UpsertScores(rows, news), news) == UpsertScores(rows, news)
  {
    UpsertScoresFound(rows, news);
    StoredPrefix(UpsertScores(rows, news), news, |news|);
    assert news[..|news|] == news;
  }

  lemma {:induction false} StoredPrefix(t: seq<PitchScore>, news: seq<PitchScore>, n: nat)
    requires n <= |news|
    requires forall j :: 0 <= j < |news| ==>
      FindKey(t, ScoreKey, ScoreKey(news[j])).Some? && t[FindKey(t, ScoreKey, ScoreKey(news[j])).value] == news[j]
    ensures UpsertScores(t, news[..n]) == t
  {
    if n > 0 {
      assert news[..n][..n - 1] == news[..n - 1];
      StoredPrefix(t, news, n - 1);
      UpsertScoreStored(t, news[n - 1]);
    }
  }

  /** The score table stays valid under an upsert of a row for a stored
      pitch. */
  lemma UpsertScoreValid(rows: seq<PitchScore>, n: nat, row: PitchScore)
    requires ScoresValid(rows, n) && row.pitch < n
    ensures ScoresValid(UpsertScore(rows, row), n)
  {
    if FindKey(rows, ScoreKey, ScoreKey(row)).None? {
      AddScore(rows, n, row);
    }
  }

  /** One `update_or_create` of a score row; a dimension longer than its
      column fails the write with a DataError and changes nothing. */
  method StoreScore(db: Db, row: PitchScore) returns (r: Result<()>)
    requires db.Valid() && row.pitch < |db.pitches|
    modifies db`pitchScores
    ensures db.Valid() && db.pitches == old(db.pitches)
    ensures r.Err? <==> |row.dimension| > DimensionMax
    ensures r.Ok? ==> db.pitchScores == UpsertScore(old(db.pitchScores), row)
    ensures r.Err? ==> r.error == "DataError" && db.pitchScores == old(db.pitchScores)
  {
    if |row.dimension| > DimensionMax {
      return Err("DataError");
    }
    UpsertScoreValid(db.pitchScores, |db.pitches|, row);
    db.pitchScores := UpsertScore(db.pitchScores, row);
    r := Ok(());
  }

  /** The upserts of a scoring task, one per entry of the scorer's
      document and in its order, up to the first entry that cannot be
      read or stored; the upserts before that entry stay, as no
      transaction spans the loop. */
  method StoreScores(db: Db, pitch: nat, doc: Fields) returns (r: Result<()>)
    requires db.Valid() && pitch < |db.pitches|
    modifies db`pitchScores
    ensures db.Valid() && db.pitches == old(db.pitches)
    ensures r.Ok? <==> ScoreRows(pitch, doc, "scorer_agent").Ok?
    ensures r.Ok? ==> db.pitchScores == UpsertScores(old(db.pitchScores), ScoreRows(pitch, doc, "scorer_agent").value)
    ensures r.Err? ==> db.pitchScores == UpsertScores(old(db.pitchScores), RowsRead(pitch, doc, "scorer_agent"))
  {
    var i := 0;
    while i < |doc|
      invariant 0 <= i <= |doc| && pitch < |db.pitches|
      invariant db.Valid() && db.pitches == old(db.pitches)
      invariant ScoreRows(pitch, doc[..i], "scorer_agent").Ok?
      invariant db.pitchScores == UpsertScores(old(db.pitchScores), ScoreRows(pitch, doc[..i], "scorer_agent").value)
    {
      assert doc[..i + 1][..i] == doc[..i];
      var row := ScoreRow(pitch, doc[i], "scorer_agent");
      if row.Err? {
        PrefixRowsFail(pitch, doc, i + 1);
        ReadableAt(pitch, doc, i, "scorer_agent");
        return Err(row.error);
      }
      ghost var before := ScoreRows(pitch, doc[..i], "scorer_agent").value;
      assert ScoreRows(pitch, doc[..i + 1], "scorer_agent").value == before + [row.value];
      assert (before + [row.value])[..|before|] == before;
      var stored := StoreScore(db, row.value);
      if stored.Err? {
        assert false;
      }
      i := i + 1;
    }
    assert doc[..i] == doc;
    r := Ok(());
  }

  /** `pitch.scores = {...}; pitch.status = 'scored'; pitch.save()`. */
  method MarkScored(db: Db, pitch: nat, doc: Fields)
    requires db.Valid() && pitch < |db.pitches|
    modifies db`pitches
    ensures db.Valid()
    ensures db.pitches == old(db.pitches)[pitch := old(db.pitches)[pitch].(scores := ScoreProjection(doc), status := Scored)]
  {
    db.pitches := db.pitches[pitch := db.pitches[pitch].(scores := ScoreProjection(doc), status := Scored)];
  }

  /** What a scoring task reports. */
  function ScoredReport(pitch: nat, doc: Fields): Json {
    JObj([("status", JStr("success")), ("pitch_id", JStr(IdText(pitch))), ("scores", JObj(ScoreProjection(doc)))])
  }

  /** `async_score_pitch`: the scorer's document is read dimension by
      dimension, each upserted as the `scorer_agent` row; then the pitch's
      `scores` column maps each dimension to its score and its status
      becomes scored. A missing pitch, a failed scorer, a document that is
      not an object or an entry that cannot be read raises; the rows
      upserted before the failure stay. */
  method ScoreTask(db: Db, pitch: nat, reply: Result<string>, decode: string -> Option<Json>)
    returns (r: Result<Json>)
    requires db.Valid()
    modifies db`pitchScores, db`pitches
    ensures db.Valid()
    ensures var scored := ScorePitch(old(db.pitches), old(db.agents), pitch, reply, decode);
      (r.Ok? <==> scored.Ok? && scored.value.JObj? && ScoreRows(pitch, scored.value.fields, "scorer_agent").Ok?)
      && (r.Ok? ==>
            var doc := scored.value.fields;
            db.pitchScores == UpsertScores(old(db.pitchScores), ScoreRows(pitch, doc, "scorer_agent").value)
            && db.pitches == old(db.pitches)[pitch := old(db.pitches)[pitch].(scores := ScoreProjection(doc), status := Scored)]
            && r.value == ScoredReport(pitch, doc))
      && (r.Err? ==> db.pitches == old(db.pitches))
      && (r.Err? ==>
            db.pitchScores
            == if scored.Ok? && scored.value.JObj?
               then UpsertScores(old(db.pitchScores), RowsRead(pitch, scored.value.fields, "scorer_agent"))
               else old(db.pitchScores))
  {
    var scored := ScorePitch(db.pitches, db.agents, pitch, reply, decode);
    if scored.Err? {
      return Err(scored.error);
    }
    if !scored.value.JObj? {
      return Err("AttributeError");
    }
    var doc := scored.value.fields;
    var stored := StoreScores(db, pitch, doc);
    if stored.Err? {
      return Err(stored.error);
    }
    MarkScored(db, pitch, doc);
    r := Ok(ScoredReport(pitch, doc));
  }

  // ------------------------------------------------------------- refinement

  /** The `Pitch.objects.create` of a refinement task: the refiner's result
      for `prev` as version `prev.version + 1` with `prev` as parent, of type
      and status refined, under the given tone or else the parent's, in the
      parent's campaign; its metadata records the feedback and the parent's
      version unless the refiner's own metadata binds those keys. */
  function RefinedVersion(prev: Pitch, id: nat, feedback: string, tone: Option<Tone>, result: Json, now: Instant): Pitch {
    Pitch(id, prev.customer, TextField(result, "title", prev.title), TextField(result, "content", ""),
          RefinedType, prev.version + 1, PitchStatus.Refined, [], feedback, Some(prev.id), prev.campaign,
          Merge([("refinement_feedback", JStr(feedback)), ("parent_version", JNum(prev.version as real))],
                ObjField(result, "metadata")),
          "refiner_agent", tone.GetOr(prev.tone), "en", true, now)
  }

  /** The lineage and metadata rules of a refined version. */
  lemma RefinedLineage(prev: Pitch, id: nat, feedback: string, tone: Option<Tone>, result: Json, now: Instant,
                       key: string)
    ensures var p := RefinedVersion(prev, id, feedback, tone, result, now);
      p.version == prev.version + 1 && p.parent == Some(prev.id) && p.customer == prev.customer
      && p.campaign == prev.campaign && p.pitchType == RefinedType && p.status == PitchStatus.Refined
      && (tone.None? ==> p.tone == prev.tone) && (tone.Some? ==> p.tone == tone.value)
      && Lookup(p.metadata, key) ==
           if Lookup(ObjField(result, "metadata"), key).Some? then Lookup(ObjField(result, "metadata"), key)
           else if key == "refinement_feedback" then Some(JStr(feedback))
           else if key == "parent_version" then Some(JNum(prev.version as real))
           else None
  {
    MergeLookup([("refinement_feedback", JStr(feedback)), ("parent_version", JNum(prev.version as real))],
                ObjField(result, "metadata"), key);
  }

  /** What a refinement task reports. */
  function RefinedReport(prev: Pitch, p: Pitch): Json {
    JObj([("status", JStr("success")), ("original_pitch_id", JStr(IdText(prev.id))),
          ("refined_pitch_id", JStr(IdText(p.id))), ("version", JNum(p.version as real))])
  }

  /** `async_refine_pitch`: a new version is appended and the refined pitch
      itself is left as it was; a refined title longer than its column
      fails the write. */
  method RefineTask(db: Db, pitch: nat, feedback: string, tone: Option<Tone>, reply: Result<string>,
                    model: string, now: Instant)
    returns (r: Result<Json>)
    requires db.Valid()
    modifies db`pitches
    ensures db.Valid()
    ensures var res := RefinePitch(old(db.pitches), old(db.agents), pitch, feedback, reply, model);
      (r.Ok? <==> res.Ok? && |RefinedVersion(old(db.pitches)[pitch], |old(db.pitches)|, feedback, tone, res.value,
                                             now).title| <= TitleMax)
      && (r.Ok? ==>
            var prev := old(db.pitches)[pitch];
            var p := RefinedVersion(prev, |old(db.pitches)|, feedback, tone, res.value, now);
            db.pitches == old(db.pitches) + [p] && r.value == RefinedReport(prev, p))
      && (r.Err? ==> db.pitches == old(db.pitches))
  {
    var res := RefinePitch(db.pitches, db.agents, pitch, feedback, reply, model);
    if res.Err? {
      return Err(res.error);
    }
    var prev := db.pitches[pitch];
    var p := RefinedVersion(prev, |db.pitches|, feedback, tone, res.value, now);
    assert prev.id == pitch;
    var created := CreatePitch(db, p);
    if created.Err? {
      return Err(created.error);
    }
    r := Ok(RefinedReport(prev, p));
  }
}
