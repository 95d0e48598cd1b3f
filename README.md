# Marketing pitch backend and MCP tool server: a Dafny model

This project models the decision logic of a marketing-pitch system. The
system has two parts:

- a Django backend with customers, pitches, campaigns, agents and analytics;
- an MCP tool server that the research agent queries.

The model covers:

- **The orchestration pipeline.** It researches a customer, generates a pitch,
  scores it, then refines and rescores it until the average score reaches a
  threshold or the refinement bound is hit, and finally marks the last
  version as final.
- **The agent-to-agent (A2A) message trail** that the pipeline leaves behind,
  and the message status machine.
- **The parsers around the language-model replies**: the TITLE/CONTENT
  split, the code-fence stripper and the feedback builder.
- **The pitch lineage**: refinement, the history walk and comparison, plus
  score upserts.
- **The campaign lifecycle**: adding targets, launch and pause, the execution
  loop, and metrics.
- **The analytics figures**: trend series, score buckets, top pitches, agent
  comparison, ROI ratios, and the daily, weekly and monthly windows.
- **Customer enrichment** and search.
- **The MCP tools**: the database profile, the lookup fallback chain, greedy
  JSON extraction and the fixed fallback payloads.

The shape of the Dafny follows the shape of the source:

- **The database** is one class, `Store.Db`, with a `seq` field per table.
  Operations that save rows are methods with `modifies` clauses.
- **Code that loops and mutates** stays imperative: the refinement loop,
  `execute_campaign`, `add_targets`, `compute_agent_performance`, the trend
  loops, and the profile loop of `_lookup_customer_in_db`.
- **Pure helpers** are functions with lemmas.
- **Language-model, MCP and HTTP calls** are oracles passed in as parameters
  (`Result` values, or functions of the pitch id). So are `json.loads`, which
  becomes a `decode` parameter, the clock, which becomes an `Instant`
  parameter, and UUID generation, which becomes the `nextUuid` counter of
  `Store.Db`.
- **Scores and rates** are exact `real`s. Python's `round(x, n)` is modelled
  as exact round-half-even. Dates are proleptic Gregorian `(y, m, d)` triples
  with Python's ordinal.

Where the project's written design and its code disagree, the model follows
the code:

- The pipeline marks the **last** version final, not the best-scoring one.
- A research failure is not fatal to the pipeline.
- Every refinement request answers the **first** score message.

Writes obey the column limits of the tables. On PostgreSQL a pitch title
longer than 500 characters, or a score dimension longer than 50, raises a
DataError when the row is written. The limits are `TitleMax` and
`DimensionMax`. In the reference run, an agent "succeeds" only when its
output fits:

- a draft or revision whose title is too long is no version (`DraftOf` and
  `RevisionOf` give `None`);
- a scoring document is usable only when its rows fit the score table, every
  dimension included (`Storable`).

So every liveness clause below ("the run completes when the agents go on")
includes these limits.

## Model

| member | source | states |
|---|---|---|
| Pipeline.OrchestratePipeline | backend/agents/services.py:706-995 | An unknown customer raises before anything is written. A completed run keeps one correlation id, taken from the uuid counter. Its versions are exactly the reference run of the agents. Its rounds stop at the threshold or at the bound. Its last version is final: approved exactly when it reached the threshold, refined otherwise. Its messages and steps record every stage. When the staff can be hired, the campaign exists and the agents succeed, every title and dimension fitting its column, the run completes. |
| Pipeline.Converse | backend/agents/services.py:783-987 | After staffing, the research, generation, scoring, refinement loop and finalisation yield a finished run: the research result is that of `research_customer`, and the run completes when the agents go on, their titles and dimensions fitting their columns. |
| Pipeline.Begin | backend/agents/services.py:731-771 | The correlation id is the next uuid, and the counter advances by one. Staffing succeeds and leaves every role served when the configurations allow it. |
| Pipeline.ResolveAgents | backend/agents/services.py:741-771 | The configuration table only grows. Every role of the crew is served by a configuration of its type. When the table admits staffing, it succeeds and each role has exactly one active configuration. |
| Pipeline.Hire | backend/agents/services.py:764-771 | `get_or_create` for one role: the table only grows, no other type or name changes, and a hireable role ends with a single active configuration of its type. |
| Pipeline.Open | backend/agents/services.py:783-896 | Research, generation and the first score. On success the first version is stored, scored and recorded with the three opening messages and steps. It succeeds whenever the agents are ready, the campaign exists, and the agents write a first version whose title fits and score it with dimensions that fit. |
| Pipeline.Prepare | backend/agents/services.py:783-850 | Exactly two messages are sent (research and generate). The research result is `research_customer`'s. The draft is stored when the generator is configured, the campaign exists, and the generator replies with a title of at most 500 characters (`TitleMax`, the `max_length` of `Pitch.title`). |
| Pipeline.ResearchStep | backend/agents/services.py:783-807 | One research request (no parent, the run's correlation id) is appended. The research result is that of `research_customer`, and its failure is returned rather than raised. |
| Pipeline.GenerateStep | backend/agents/services.py:822-850 | One delegate message answering the research message is appended. On success the generator's draft is stored as the next pitch for the customer and campaign, with type initial. Success implies the campaign exists. It succeeds whenever the generator is configured, the campaign exists, and `DraftOf` yields a draft, which needs a reply whose title fits the 500-character column. |
| Pipeline.ScoreStep | backend/agents/services.py:861-887 | One score request answering the generate message is appended. On success the score rows are saved, the pitch projection is stored, and the average is the mean of the projection. It succeeds when the scorer is configured and its document fits the score table: every row is well formed, every dimension has at most 50 characters, and no key collides. |
| Pipeline.ScoreFirst | backend/agents/services.py:861-896 | The first score, with the run state so far recorded as the loop invariant `Cycle` (run of length one, three steps). It succeeds when the scorer's document is `Storable`, dimensions of at most 50 characters included. |
| Pipeline.Refinements | backend/agents/services.py:899-976 | The refinement loop. On exit the average has reached the threshold or the count has reached the bound, and the loop invariant `Looping` holds. When the agents keep refining and scoring, with titles and dimensions that fit their columns, the loop does not fail. |
| Pipeline.Advance | backend/agents/services.py:899-976 | One loop iteration: the count goes up by one, the invariant is kept for the run extended by one version, and the iteration succeeds whenever the agents go on: the refined title fits and the scores are `Storable`. |
| Pipeline.Revise | backend/agents/services.py:907-976 | Feedback, refinement request, refined version, rescore and step: the run grows by one version and the cycle invariant holds for the next count. It succeeds when the agents go on with a title and dimensions that fit. |
| Pipeline.RefineRound | backend/agents/services.py:916-964 | The refinement request is sent, the refined version stored and then scored. It succeeds when the refiner and scorer are configured and reply, the refined title fits its 500-character column, and the score rows fit the score table. |
| Pipeline.ReviseNewest | backend/agents/services.py:916-947 | A delegate message to the refiner answering the first score message is appended, and the refinement of the newest version is stored under the next id. It succeeds when the feedback is built and the refiner replies with a title of at most 500 characters (`Revisable`). |
| Pipeline.RequestRefinement | backend/agents/services.py:916-929 | Exactly the refine request (pitch id and feedback, parent = the first score message, same correlation id) is appended. Nothing else changes. |
| Pipeline.StoreRevision | backend/agents/services.py:930-947 | The refined version of the newest pitch is stored with the feedback, customer and campaign of the run and type refined. An overlong refined title fails the write, and nothing is stored. It succeeds when the refiner is configured and replies with a title of at most 500 characters. |
| Pipeline.ScoreVersion | backend/agents/services.py:950-964 | Rescoring a version saves its rows and projection, and returns the scorer's document with its mean. It succeeds when the scorer is configured and the rows fit the table, dimensions of at most 50 characters included. |
| Pipeline.CreatePitch | backend/agents/services.py:840-850 | `Pitch.objects.create`: fails exactly when the campaign does not exist (IntegrityError) or the title is longer than 500 characters (DataError, backend/pitches/models.py:44). Otherwise it appends the pitch under the next id. |
| Pipeline.AddScoreRows | backend/agents/services.py:876-883 | On success the document's score rows, one per dimension in order, are appended after the untouched earlier rows; a null explanation or a dimension longer than 50 characters makes it fail. It succeeds whenever every row is well formed (an object, a numeric score, a non-null explanation, a dimension that fits its column) and no key collides (the `unique_together` constraint). |
| Pipeline.SaveScores | backend/agents/services.py:876-889 | The rows are saved, the pitch gets the score projection and status scored, and the result is the projection's average (0.0 when it has none). It fails, leaving the pitch unchanged, when an entry is not an object, its score is not numeric, its explanation is null or its dimension is longer than 50 characters. |
| Pipeline.ScoreRow | backend/agents/services.py:876-883 | A row exists exactly when the entry is an object with a numeric score and a non-null explanation (the NOT NULL column), and its dimension has at most 50 characters (`DimensionMax`, backend/pitches/models.py:147-150; a longer one is a DataError). It carries the pitch, the dimension, the scorer, the entry's score and, for a string explanation, that string. |
| Pipeline.StoredText | backend/pitches/models.py:152 | What the NOT NULL text column stores: a null fails, a string is stored as it is. |
| Pipeline.ScoreRows | backend/agents/services.py:876-883 | On success there is one row per entry, each the entry's `ScoreRow`, so a null explanation anywhere fails the document. |
| Pipeline.Readable | backend/pitches/tasks.py:96-105 | The entries before the first unreadable one read as rows, and the entry at that position does not. |
| Pipeline.ReadableAll | backend/pitches/tasks.py:96-105 | Every entry is readable exactly when the whole document reads as rows. |
| Pipeline.ReadableAt | backend/pitches/tasks.py:96-105 | An entry that fails after a readable prefix is the first failing entry. |
| Pipeline.ReadBefore | backend/pitches/tasks.py:96-105 | Every entry of a readable prefix is readable. |
| Pipeline.RowsRead | backend/pitches/tasks.py:96-105 | The rows of the entries before the first failing one, each the `ScoreRow` of its entry. |
| Pipeline.PrefixRowsFail | backend/agents/services.py:876-883 | A malformed entry in a prefix makes the whole document fail. |
| Pipeline.FreshRowsUnique | backend/pitches/models.py:164 | The rows of a new pitch never collide with stored keys. |
| Pipeline.ToFloat | backend/agents/services.py:876-883 | `float(...)` accepts exactly the numeric values, unchanged. |
| Pipeline.Finalize | backend/agents/services.py:979-987 | After the loop, the last version is marked final (approved exactly when its average reached the threshold, refined otherwise) and the result is a finished run. |
| Pipeline.MarkLast | backend/agents/services.py:979-982 | Only the last pitch changes: its status and its type final. |
| Pipeline.MarkFinal | backend/agents/services.py:979-982 | Marking the last version leaves the rows of the run unchanged, the earlier versions drafts, and the last final with the given status. |
| Pipeline.MarkedFinal | backend/agents/services.py:979-987 | A stored run whose last version is so marked satisfies `Marked`. |
| Pipeline.Concluded | backend/agents/services.py:984-987 | A run that left the loop and marked its last version satisfies `Finished`. |
| Pipeline.Conclude | backend/agents/services.py:899-987 | The loop and the finalisation together yield a finished run, which completes whenever the agents go on, their titles and dimensions fitting their columns. |
| Pipeline.Run | backend/agents/services.py:899-967 | The reference run of the agents: n rounds give n + 1 versions. |
| Pipeline.RunPrefix | backend/agents/services.py:899-967 | A shorter run is a prefix of a longer one. |
| Pipeline.RunNewest | backend/agents/services.py:934-947 | The newest version is in the line of descent: id `p0 + n`, version n + 1, tone professional, parent the previous version, feedback computed from the previous scores. |
| Pipeline.RunLineage | backend/agents/services.py:934-967 | Every version of a run is in the line of descent. |
| Pipeline.NextRound | backend/agents/services.py:899-976 | One refined and rescored round extends the loop invariant `Progress` by one version, one message and one step. |
| Pipeline.RefinedIsRevision | backend/agents/services.py:934-947 | The stored title is the title parsed from the refiner's reply. When it fits its column, the stored refinement is exactly the refiner's revision of the previous version under the feedback. |
| Pipeline.GeneratedIsDraft | backend/agents/services.py:840-850 | The generator's draft exists exactly when the stored first pitch's title fits its 500-character column, and then it is that pitch, with the default title "Pitch for {company}". |
| Pipeline.ContextTone | backend/agents/services.py:811-820 | The generation context carries tone "professional". |
| Pipeline.ScoringOfReply | backend/agents/services.py:873-887 | The scorer's document is the parsed reply exactly when the scorer replies with an object. |
| Pipeline.RolesDistinct | backend/agents/services.py:741-761 | The five roles have distinct types and names. |
| AgentService.ParseTitleContent | backend/agents/services.py:267-277 | Without "TITLE:" the whole reply is the content and the title is the default. Otherwise the title is the stripped text before the first "CONTENT:" with the marker removed, or the default when that is empty. The content is the stripped text after the first "CONTENT:", or the whole reply when there is none. |
| AgentService.ParseFormatted | backend/agents/services.py:267-277 | For a non-empty stripped title without markers and stripped content, the reply "TITLE: t\nCONTENT:\nc" parses back to (t, c), whatever the default. |
| AgentService.UnformattedReply | backend/agents/services.py:267-269 | A reply without "TITLE:" keeps the default title and is all content. |
| AgentService.TwoParts | backend/agents/services.py:270-277 | With a title and a "CONTENT:" split, the parse is the stripped title (or the default) and the stripped second part. |
| AgentService.FenceBody | backend/agents/services.py:365-372 | Without a fence the text is unchanged; with one the result contains no fence. |
| AgentService.FencedJsonReply | backend/agents/services.py:365-369 | The body of a ```json fence is extracted exactly. |
| AgentService.FencedPlainReply | backend/agents/services.py:370-372 | Without a ```json fence, the body of a bare ``` fence is extracted exactly. |
| AgentService.DefaultScores | backend/agents/services.py:380-384 | The three dimensions, each with score 0.5 and the explanation "Unable to parse score". |
| AgentService.ScoreReply | backend/agents/services.py:365-384 | The scorer's reply is the decoded unfenced text, or the default scores when that does not decode. |
| AgentService.ScoreReplyFenced | backend/agents/services.py:365-384 | A fenced reply decodes to its body's value, or to the defaults. |
| AgentService.ScorePitch | backend/agents/services.py:313-408 | A missing pitch raises. It succeeds exactly when the pitch exists, the scorer's configuration lookup does not raise and the model replies, and then the result is `ScoreReply` of the reply. |
| AgentService.ActiveConfigSpec | backend/agents/services.py:46-53 | The lookup is none exactly when no active configuration of the type exists. A found one is the only active configuration of its type. It raises exactly when there are two. |
| AgentService.Below | backend/agents/services.py:908-912 | The comparison succeeds exactly for numeric scores and says whether the score is below the threshold. |
| AgentService.EntryFeedback | backend/agents/services.py:908-912 | A dimension yields "Improve {dim}: {explanation}" exactly when its score is below the threshold. A missing score counts as 1.0, so it is never flagged at a threshold up to 1.0. A non-object entry yields nothing. |
| AgentService.Feedback | backend/agents/services.py:907-914 | The flagged parts joined with "; ", or "General improvement needed" when none is flagged. It fails exactly when a comparison fails. |
| AgentService.FeedbackPartsExact | backend/agents/services.py:908-912 | The parts are exactly the messages of the flagged dimensions, one per flagged dimension. |
| AgentService.FeedbackPartsOrder | backend/agents/services.py:908-912 | The parts appear in the order of their dimensions. |
| AgentService.NothingFlagged | backend/agents/services.py:913-914 | When no dimension is flagged, the feedback is "General improvement needed". |
| AgentService.McpResearch | backend/agents/services.py:147-182 | The MCP result is wrapped with source "mcp" and the research document. |
| AgentService.ResearchCustomer | backend/agents/services.py:71-145 | A missing customer or a missing model raises. An object from the MCP server is used as is, and otherwise the model's text is used with source "llm". It succeeds when the customer exists, the configuration lookup does not raise, and either the MCP server or the model answers. |
| AgentService.GeneratePitch | backend/agents/services.py:201-311 | It succeeds exactly when the customer exists, the generator's lookup does not raise, the model replies and the context is an object. The result is the parsed title and content (default "Pitch for {company}") with the model, tone and customer metadata. |
| AgentService.RefinePitch | backend/agents/services.py:410-506 | It succeeds exactly when the pitch exists, the refiner's lookup does not raise and the model replies. The parsed title defaults to the old title, and the metadata records the model, the original pitch and the feedback. |
| AgentService.RefineFormatted | backend/agents/services.py:462-472 | A well-formed refiner reply yields its title and content. |
| AgentService.Route | backend/agents/services.py:667-692 | The orchestrator type routes to nothing. Every other type routes to its own capability, exactly when the payload is an object. |
| AgentService.RouteArguments | backend/agents/services.py:672-692 | The call takes its arguments from the payload: the customer, pitch or campaign id, with the context defaulting to {} and the feedback to "". |
| A2A.SendMessage | backend/agents/services.py:613-646 | Exactly one message is appended, status sent, with the given correlation id or a fresh one (the counter advances only then) and the given parent. |
| A2A.ProcessedStatus | backend/agents/services.py:694-704 | The final status is processed exactly on success, and failed exactly on an exception. |
| A2A.ProcessResult | backend/agents/services.py:667-692 | An orchestrator recipient yields {}. A non-object payload raises. Otherwise the routed agent call's result is returned. |
| A2A.ProcessMessage | backend/agents/services.py:648-704 | A missing message raises with no write. Otherwise the status is written received, then processed or failed, the message ends in that status, and the result (or the exception) is passed on. |
| A2A.GetOrCreateAgent | backend/agents/services.py:764-771 | One configuration of the type is returned unchanged. Two or more raise. With none, a taken name raises (names are unique), and otherwise an active configuration with the role name is appended and returned. |
| A2A.HireKeeps | backend/agents/services.py:764-771 | A get-or-create changes no other type's configurations and no other name. |
| A2A.SoleActive | backend/agents/services.py:46-53 | When the type has exactly one configuration, the active lookup does not raise. |
| AgentModels.Duration | backend/agents/models.py:91-96 | Defined exactly when both timestamps are set, and then start + duration = completion. |
| AgentModels.OfType | backend/agents/services.py:765-768 | The configurations of a type (the active ones only, when asked): all of them, in ascending order. |
| AgentTasks.Dispatch | backend/agents/tasks.py:49-66 | The orchestrator type is the only unknown type, and it yields the error dictionary. Every other type is routed to its capability with the arguments taken from the input. |
| AgentTasks.ExecuteAgent | backend/agents/tasks.py:32-73 | A missing configuration raises. An unknown type returns the error dictionary without raising. Otherwise the result is the routed call's. |
| AgentTasks.ExecuteMatchesProcess | backend/agents/tasks.py:49-66 | The Celery task and `process_message` route alike, except for the orchestrator: the Celery task reports the unknown type while `process_message` yields {}. |
| AgentTasks.SendTask | backend/agents/tasks.py:76-104 | It never raises. A missing agent yields the error dictionary with Django's "AgentConfig matching query does not exist." text, and no message is written. Otherwise one message is sent and the report carries its id and correlation id. |
| AgentTasks.ProcessedReport | backend/agents/tasks.py:112-119 | "processed" with the result exactly on success, otherwise the error dictionary. |
| AgentTasks.ProcessTask | backend/agents/tasks.py:107-119 | It never raises: the report is that of `process_message`, whose status write it performs. A missing message reports "A2AMessage matching query does not exist.". |
| AgentViews.ExecuteView | backend/agents/views.py:42-76 | A body without a configuration id is refused with 400, and a missing or inactive configuration with 404, with no task enqueued. Otherwise the Celery task is enqueued and the response is 202 with the agent's name and type. |
| AgentViews.OrchestrateView | backend/agents/views.py:89-126 | An unknown customer gives 404 with no task. Otherwise the response is 202 with status "pending" and the campaign id or null. |
| PitchModels.NewPitch | backend/pitches/models.py:39-90 | The defaults: version 1, status draft, type initial, tone professional, no scores, no parent, no campaign, active. |
| PitchModels.NumericValuesSpec | backend/pitches/models.py:105 | The numeric values are exactly those of the numeric entries; there are none exactly when no entry is numeric. |
| PitchModels.AverageScoreSpec | backend/pitches/models.py:100-106 | None exactly when no entry is numeric (in particular for empty scores). Otherwise the mean lies between two of the numeric values. |
| PitchModels.AverageWithin | backend/pitches/models.py:106 | When every numeric value lies in [lo, hi], so does the average. |
| PitchTasks.UsedTemplate | backend/pitches/tasks.py:41-50 | Only the named template's usage count goes up, by one; a missing template changes nothing. |
| PitchTasks.UseTemplate | backend/pitches/tasks.py:41-50 | The template table becomes `UsedTemplate`; no other table changes. |
| PitchTasks.GenerateTask | backend/pitches/tasks.py:11-77 | A missing customer raises. Otherwise the template is used. The generated pitch (status generated, the requested type and tone) is stored exactly when generation succeeds, the campaign exists and its title has at most 500 characters. |
| PitchTasks.GeneratedFormatted | backend/pitches/tasks.py:56-66 | A well-formed reply gives a pitch with that title and content, version 1, no parent, status generated, and the requested type and tone. |
| PitchTasks.UpsertScore | backend/pitches/tasks.py:96-105 | `update_or_create` on (pitch, dimension, scored_by): a new key is appended, an existing row is replaced, and key uniqueness is kept. |
| PitchTasks.UpsertScoresUnique | backend/pitches/tasks.py:96-105 | Upserting a document keeps keys unique, keeps existing keys in place, and adds at most one row per entry. |
| PitchTasks.UpsertScoreOther | backend/pitches/tasks.py:96-105 | An upsert leaves every other key's row unchanged. |
| PitchTasks.UpsertScoreFinds | backend/pitches/tasks.py:96-105 | After an upsert the row is found under its key. |
| PitchTasks.UpsertScoresFound | backend/pitches/tasks.py:96-105 | After upserting a document, every entry is found under its key. |
| PitchTasks.UpsertScoreStored | backend/pitches/tasks.py:96-105 | Upserting a row already stored changes nothing. |
| PitchTasks.RescoreIdempotent | backend/pitches/tasks.py:96-105 | Scoring twice with the same document gives the same rows as scoring once. |
| PitchTasks.UpsertScoreValid | backend/pitches/models.py:164 | An upsert keeps the score table valid. |
| PitchTasks.StoreScore | backend/pitches/tasks.py:97-105 | One row is upserted, and no pitch changes. A dimension longer than 50 characters fails with a DataError and writes nothing. |
| PitchTasks.StoreScores | backend/pitches/tasks.py:96-105 | All rows of the document are upserted. It fails exactly when a row is malformed, has a null explanation or a dimension longer than 50 characters. On failure the upserts of the entries before the failing one stay. |
| PitchTasks.MarkScored | backend/pitches/tasks.py:108-113 | The pitch gets the score projection (a missing score becomes 0.0) and status scored; nothing else changes. |
| PitchTasks.ScoreTask | backend/pitches/tasks.py:80-124 | It succeeds exactly when the score succeeds and its rows are well formed, every dimension fitting its 50-character column. Then the rows are upserted and the pitch projected and marked scored. On failure no pitch changes, and the score table holds the upserts of the entries before the failing one (none when the scorer or the document fails). |
| PitchTasks.RefinedLineage | backend/pitches/tasks.py:143-160 | The refinement has version + 1, the original as parent, the same customer and campaign, and type and status refined. Its tone is the given one or the parent's. In its metadata the refiner's keys override `refinement_feedback` and `parent_version`. |
| PitchTasks.RefineTask | backend/pitches/tasks.py:127-172 | It succeeds exactly when the refiner succeeds and the refined title has at most 500 characters. Then exactly one new pitch, the refinement, is appended and the original row is untouched. On failure nothing is written. |
| PitchViews.GenerateView | backend/pitches/views.py:40-66 | 202 with status "pending", and the job carries tone professional and type initial by default. |
| PitchViews.ScoreView | backend/pitches/views.py:68-82 | A missing or inactive pitch gives REST framework's 404 `{"detail": "Not found."}` with no job. Otherwise 202 "pending" and the score job. |
| PitchViews.RefineView | backend/pitches/views.py:84-105 | A missing pitch gives the 404 `{"detail": "Not found."}`, and blank feedback gives the serializer's 400 `{"feedback": ["This field may not be blank."]}`, both with no job. Otherwise 202 "pending" and the refine job with the stripped feedback. |
| PitchViews.StoredLineage | backend/pitches/views.py:112-115 | Every pitch table the model stores keeps parents before their children. |
| PitchViews.Root | backend/pitches/views.py:112-115 | The root of a pitch is a pitch without a parent, stored no later than it. |
| PitchViews.DescendsFromRoot | backend/pitches/views.py:112-115 | Every pitch descends from its root. |
| PitchViews.FamilyRoot | backend/pitches/views.py:112-118 | A pitch and its ancestors share one root. |
| PitchViews.VersionsAreDescendants | backend/pitches/views.py:122-127 | The collected versions start with the given pitch and are exactly its descendants. |
| PitchViews.VersionsDescend | backend/pitches/views.py:122-127 | Every collected version descends from the start. |
| PitchViews.RevisionCollected | backend/pitches/views.py:122-127 | A revision of a collected version is collected. |
| PitchViews.History | backend/pitches/views.py:107-120 | A missing pitch gives the 404 `{"detail": "Not found."}`. Otherwise the result is the root followed by all its descendants, and the queried pitch is among them. |
| PitchViews.WalkUp | backend/pitches/views.py:112-115 | The walk along parent links stays inside the table. |
| PitchViews.WalkReachesRoot | backend/pitches/views.py:112-115 | With parents stored before children, the walk from pitch i reaches its root within i steps. |
| PitchViews.CyclicPitches | backend/pitches/serializers.py:31 | A two-pitch table whose parent links all point inside the table (each pitch is the other's parent), which the writable `parent_pitch` field admits. |
| PitchViews.HistoryWalkCycles | backend/pitches/views.py:112-115 | On two pitches that are each other's parents, the walk never reaches a pitch without a parent, however many steps it takes. |
| PitchViews.Matching | backend/pitches/views.py:136 | The filter keeps ids of stored pitches only. |
| PitchViews.MatchingMembers | backend/pitches/views.py:136 | The filter keeps exactly the active requested pitches. |
| PitchViews.MatchingSize | backend/pitches/views.py:136 | The number found is the number of distinct active requested pitches. |
| PitchViews.MatchingComplete | backend/pitches/views.py:138-142 | As many are found as requested exactly when the ids are distinct and all visible. |
| PitchViews.DistinctSize | backend/pitches/views.py:138-142 | A list has as many distinct elements as entries exactly when no entry repeats. |
| PitchViews.Averages | backend/pitches/views.py:153-156 | The averages of the compared pitches that have one. |
| PitchViews.BestScore | backend/pitches/views.py:153-156 | None exactly when no compared pitch has an average; otherwise the largest of the averages. |
| PitchViews.Compare | backend/pitches/views.py:129-158 | Fewer than 2 or more than 5 ids give the serializer's 400 on `pitch_ids`, with its "at least 2" or "no more than 5" message. Missing, inactive or repeated ids give 404 `{"error": "One or more pitch IDs not found."}`. Otherwise the count is the number of ids, the pitches are exactly the requested ones, and best is `BestScore`. |
| PitchViews.Rule | backend/pitches/views.py:185-196 | A rule of n "=" characters. |
| PitchViews.TextFramesContent | backend/pitches/views.py:185-196 | The text export is the header lines, a 60-character rule, the content, a second rule and the "Generated by" footer, in that order. |
| PitchViews.Export | backend/pitches/views.py:160-202 | A missing pitch gives the 404 `{"detail": "Not found."}`. Format "html" gives the HTML document, and any other format (the default "text" included) gives the plain-text one. |
| PitchAnalytics.TrendDaysSpec | backend/analytics/views.py:186-199 | The trend days are distinct, in increasing order, and exactly the days on which a pitch was created inside the window. |
| PitchAnalytics.WrittenRowOf | backend/analytics/views.py:196-209 | A trend row as written: the day's label and count, with the day's approved pitches counted without the window's cutoff. |
| PitchAnalytics.Trends | backend/analytics/views.py:186-209 | The trend loop as written: one row per trend day, each `WrittenRowOf` that day. |
| PitchAnalytics.ApprovedExceedsCount | backend/analytics/views.py:202-204 | On the example, the day's row counts one pitch created in the window but two approved. |
| PitchAnalytics.RowOf | backend/analytics/views.py:196-209 | The corrected row: the approved count is taken inside the window, so it is at most the count. |
| PitchAnalytics.CorrectedTrends | backend/analytics/views.py:186-209 | The corrected loop: one row per trend day, each `RowOf` that day, approved never above count. |
| PitchAnalytics.ApprovedWithinCount | backend/analytics/views.py:196-204 | Approved pitches in the window never outnumber the pitches created in it on that day. |
| PitchAnalytics.ApprovedAgreesAfterCutoff | backend/analytics/views.py:202-204 | On a day wholly inside the window, the written and the corrected counts agree. |
| PitchAnalytics.RowsOf | backend/analytics/views.py:196-209 | The loop appends one row per day, in order. |
| PitchAnalytics.BucketsContiguous | backend/analytics/views.py:212-218 | Five buckets from 0 to 1.01, each ending where the next begins. |
| PitchAnalytics.BucketOf | backend/analytics/views.py:212-224 | Each score in [0, 1.01) falls in exactly one bucket. |
| PitchAnalytics.ScoreDistribution | backend/analytics/views.py:212-224 | Five entries, each a bucket's label with its number of scores. |
| PitchAnalytics.DistributionTotal | backend/analytics/views.py:212-224 | The buckets count no score twice, and count every score when all lie in [0, 1.01). |
| PitchAnalytics.ScoredBelow | backend/analytics/views.py:228-232 | The candidate list holds exactly the eligible scored pitches, each annotated with its average. |
| PitchAnalytics.TopScoredSpec | backend/analytics/views.py:228-243 | At most five entries, in non-increasing order of average. Together with the rest they are a permutation of the candidates, and nothing left out scores higher. |
| PitchAnalytics.TopScoredRows | backend/analytics/views.py:228-243 | Every top entry is an annotated candidate. |
| PitchAnalytics.TopPitches | backend/analytics/views.py:228-243 | At most five entries. |
| AnalyticsModels.SuccessRate | backend/analytics/models.py:124-128 | 0.0 with no executions; otherwise successful/total, inside [0, 1] when successful ≤ total. |
| AnalyticsModels.MergeMetric | backend/analytics/models.py:83 | An update keeps the row's (name, period, date) key. |
| AnalyticsModels.MergePerformance | backend/analytics/models.py:119 | An update keeps the row's (agent, period, date) key. |
| AnalyticsDashboard.DashboardView | backend/analytics/views.py:23-164 | The counts are those of the tables. Approved ≤ generated ≤ total. Both rates are guarded ratios in [0, 1]. The average tokens and score are the means, or defaults. The chart, campaign ROI and latest metrics are as specified below. |
| AnalyticsDashboard.TrendChart | backend/analytics/views.py:83-101 | Seven points for now−6 … now in increasing order, each with that day's count, or 0 when the day has no pitch. |
| AnalyticsDashboard.GroupedCounts | backend/analytics/views.py:83-92 | The grouped count of a day is the number of pitches created on it inside the window. |
| AnalyticsDashboard.ChartDayWhole | backend/analytics/views.py:83-101 | Each of the seven chart days lies wholly inside the window, so its count is all the active pitches of that day. |
| AnalyticsDashboard.ApprovedWithinCreated | backend/analytics/views.py:38-49 | Approved ≤ created ≤ total pitches. |
| AnalyticsDashboard.Average | backend/analytics/views.py:77-79 | None exactly for no values; otherwise between their minimum and maximum. |
| AnalyticsDashboard.LatestMetricsSpec | backend/analytics/views.py:69-71 | At most ten metrics, newest first: a permutation split of the table in which no left-out metric is newer. |
| AnalyticsDashboard.ListedNewestFirst | backend/analytics/views.py:127-130 | All active campaigns, newest first. |
| AnalyticsDashboard.WithTargets | backend/analytics/views.py:131-136 | Exactly the listed campaigns that have targets, each valued by its target count. |
| AnalyticsDashboard.Placeholders | backend/analytics/views.py:137-140 | Each listed campaign with value 1. |
| AnalyticsDashboard.CampaignRoi | backend/analytics/views.py:127-140 | Those of the first ten campaigns that have targets, each valued by its target count; when none has targets, the first five, each with value 1. |
| AnalyticsDashboard.RoiReportView | backend/analytics/views.py:357-425 | The totals over the period. Each per-unit cost is total cost over its denominator, or 0 when the denominator is 0. The approval rate lies in [0, 1]. |
| AgentComparison.Rate | backend/analytics/views.py:307-321 | 0 when the total is 0, otherwise successful/total, inside [0, 1]. |
| AgentComparison.FromPerformance | backend/analytics/views.py:290-321 | An agent's entry sums its performance rows of the period, with the rate guarded. |
| AgentComparison.FromExecutions | backend/analytics/views.py:323-350 | An agent's fallback entry counts its executions and completions, with the rate guarded. |
| AgentComparison.PerformanceEntriesSpec | backend/analytics/views.py:290-321 | One entry per agent with performance rows in the period, and no agent twice. |
| AgentComparison.PerformanceEntriesPresent | backend/analytics/views.py:307-323 | There are performance entries exactly when some agent reported in the period. |
| AgentComparison.ExecutionEntriesSpec | backend/analytics/views.py:323-350 | One entry per agent with executions, and no agent twice. |
| AgentComparison.Compare | backend/analytics/views.py:285-355 | The period defaults to monthly, and the entries are in non-increasing order of total executions. |
| AgentComparison.CompareSpec | backend/analytics/views.py:285-355 | The entries come from performance rows exactly when some exist, and from executions otherwise. |
| AnalyticsTasks.Yesterday | backend/analytics/tasks.py:23-24 | The day before today. |
| AnalyticsTasks.WeekStart | backend/analytics/tasks.py:105-106 | A Monday between 7 and 13 days before today. |
| AnalyticsTasks.WeekEnd | backend/analytics/tasks.py:105-107 | The Sunday six days after the week start, between 1 and 7 days before today. |
| AnalyticsTasks.FirstOfMonth | backend/analytics/tasks.py:150-151 | Day 1 of the same month. |
| AnalyticsTasks.LastMonthEnd | backend/analytics/tasks.py:150-152 | The last day of the previous month, which is the day before this month's first. |
| AnalyticsTasks.LastMonthStart | backend/analytics/tasks.py:150-153 | Day 1 of that month, a whole month before its end. |
| AnalyticsTasks.SuccessPercentage | backend/analytics/tasks.py:81 | 0 with no executions; otherwise success/total × 100, inside [0, 100]. |
| AnalyticsTasks.DailyEntries | backend/analytics/tasks.py:29-93 | Six metric rows. |
| AnalyticsTasks.DailyKeys | backend/analytics/tasks.py:29-93 | The six rows have distinct keys. |
| AnalyticsTasks.DailyFigures | backend/analytics/tasks.py:29-93 | Approved pitches ≤ generated pitches. The success rate lies in [0, 100] and is 0 when nothing ran. |
| AnalyticsTasks.WeeklyEntries | backend/analytics/tasks.py:111-135 | Two metric rows. |
| AnalyticsTasks.WeeklyFigures | backend/analytics/tasks.py:111-135 | Distinct keys, approved ≤ generated, and the week is recorded in the metadata. |
| AnalyticsTasks.MonthlyEntries | backend/analytics/tasks.py:159-199 | Three metric rows. |
| AnalyticsTasks.MonthlyFigures | backend/analytics/tasks.py:159-199 | The three rows have distinct keys. |
| AnalyticsTasks.RecordFigures | backend/analytics/tasks.py:29-93 | The loop of `update_or_create` calls leaves the metric table equal to `UpsertAll` of the entries. |
| AnalyticsTasks.FiguresStored | backend/analytics/tasks.py:29-93 | Every entry is stored under its key, and rows under other keys are untouched. |
| AnalyticsTasks.ComputeDailyMetrics | backend/analytics/tasks.py:14-96 | Yesterday's six figures are upserted, and the report names yesterday. |
| AnalyticsTasks.ComputeWeeklyMetrics | backend/analytics/tasks.py:99-138 | The previous week's two figures are upserted, and the report names the week start. |
| AnalyticsTasks.ComputeMonthlyMetrics | backend/analytics/tasks.py:141-202 | The previous month's three figures are upserted, and the report names the month start. |
| AnalyticsTasks.PerformanceRow | backend/analytics/tasks.py:228-256 | A daily row for the agent and the day. |
| AnalyticsTasks.PerformanceRowFigures | backend/analytics/tasks.py:228-243 | The total is the number of runs and successes never exceed it. The average duration is 0 without completed runs and otherwise lies within their range, up to rounding. |
| AnalyticsTasks.PerformanceRows | backend/analytics/tasks.py:218-256 | At most one row per agent, in agent order. |
| AnalyticsTasks.PerformanceRowsFrom | backend/analytics/tasks.py:218-256 | Each row is the performance row of an active agent that ran. |
| AnalyticsTasks.PerformanceRowsCover | backend/analytics/tasks.py:218-256 | Every active agent that ran yesterday has a row. |
| AnalyticsTasks.RowPerformed | backend/analytics/tasks.py:224-226 | A row is written only for an agent that ran. |
| AnalyticsTasks.ComputeAgentPerformance | backend/analytics/tasks.py:205-259 | The performance table becomes `UpsertAll` of the rows, and the report counts the active agents. |
| AnalyticsTasks.PerformanceStoredRan | backend/analytics/tasks.py:245-256 | An agent that ran has its row stored. |
| AnalyticsTasks.PerformanceStoredSkipped | backend/analytics/tasks.py:224-226 | A skipped agent gets no new row, and its existing row is untouched. |
| CampaignModels.NewCampaign | backend/campaigns/models.py:27-52 | A new campaign is a draft email campaign with no dates, no metrics and budget 0. |
| CampaignModels.NewTarget | backend/campaigns/models.py:93-98 | A new target is pending and not pitched. |
| CampaignModels.ConvertedAtMostTargets | backend/campaigns/models.py:62-68 | Converted targets never outnumber targets. |
| CampaignViews.AddTargets | backend/campaigns/views.py:38-64 | A missing campaign gives the 404 `{"detail": "Not found."}`, and an empty id list gives the serializer's 400 on `customer_ids`, both with nothing written. Otherwise every id is got or created in order. An unknown customer raises after the earlier ids were stored. |
| CampaignViews.GetOrCreateAll | backend/campaigns/views.py:49-58 | The loop stores `Added` up to where it stops, and fails exactly at the first unknown customer. |
| CampaignViews.AddedShape | backend/campaigns/views.py:49-58 | Every id is either created or skipped. Existing targets are kept, and each created target is a new pending row. |
| CampaignViews.AddedCreated | backend/campaigns/views.py:49-58 | Exactly the ids not yet targeted are created, each once. |
| CampaignViews.AddedPairs | backend/campaigns/views.py:49-58 | Afterwards a pair is targeted exactly when it was before or was requested. |
| CampaignViews.AddedNothingNew | backend/campaigns/views.py:49-58 | When every id is already targeted, nothing is created and all are skipped. |
| CampaignViews.AddTargetsIdempotent | backend/campaigns/views.py:49-58 | Repeating the call creates nothing and skips every id. |
| CampaignViews.AddedValid | backend/campaigns/models.py:105 | The targets stay unique per (campaign, customer). |
| CampaignViews.LaunchRefusal | backend/campaigns/views.py:71-81 | A launch is allowed exactly from draft or paused with at least one target. |
| CampaignViews.Launched | backend/campaigns/views.py:83-85 | The status becomes active and the start date is set, an existing start date being kept; nothing else changes. |
| CampaignViews.PauseRefusal | backend/campaigns/views.py:102-110 | A pause is allowed exactly from active. |
| CampaignViews.RelaunchKeepsStart | backend/campaigns/views.py:66-114 | An active campaign cannot be launched again but can be paused, and relaunching after a pause keeps the first start date. |
| CampaignViews.Launch | backend/campaigns/views.py:66-95 | 404 `{"detail": "Not found."}` for a missing campaign. A refused launch gives 400 with the campaign unchanged. Otherwise the campaign is launched and the execution task is enqueued. |
| CampaignViews.Pause | backend/campaigns/views.py:97-114 | 404 `{"detail": "Not found."}` for a missing campaign. A refused pause gives 400 with the campaign unchanged. Otherwise the status becomes paused. |
| CampaignViews.StatusPartition | backend/campaigns/views.py:122-126 | The five status counts add up to the target count. |
| CampaignViews.SharesAtMostOne | backend/campaigns/views.py:135-138 | The four rates together are at most 1. |
| CampaignViews.Stats | backend/campaigns/views.py:116-138 | The counts of the campaign's targets. Each rate is count/total, or 0 when there are none, non-negative and together at most 1. |
| CampaignViews.MetricsView | backend/campaigns/views.py:116-142 | 404 `{"detail": "Not found."}` for a missing campaign; otherwise the counts, the rates and the stored metrics, in order. |
| CampaignTasks.PendingBelow | backend/campaigns/tasks.py:30 | The pending targets of the campaign among the first n rows. |
| CampaignTasks.Reached | backend/campaigns/tasks.py:30-38 | The loop goes on while the campaign is seen active and stops at the first check that sees it otherwise. |
| CampaignTasks.PitchPending | backend/campaigns/tasks.py:30-52 | The loop pitches the pending targets it reaches and enqueues their generation jobs, and `launched` counts them. |
| CampaignTasks.PitchAllRows | backend/campaigns/tasks.py:40-52 | Each processed target becomes pitched with its timestamp, and every other row is unchanged. |
| CampaignTasks.ExecuteCampaign | backend/campaigns/tasks.py:11-67 | A missing campaign raises. A campaign that is not active gives "skipped" with nothing changed. Otherwise the reached pending targets are pitched and `launched` is their number. |
| CampaignTasks.ReachedPitched | backend/campaigns/tasks.py:40-52 | Each reached target is pitched and its job generates a professional initial pitch for the campaign. No other row changes. |
| CampaignTasks.UnreachedPending | backend/campaigns/tasks.py:30-38 | Targets after the stop stay pending. |
| CampaignTasks.FullRunPitchesAll | backend/campaigns/tasks.py:30-52 | When the campaign stays active, every pending target is pitched. |
| CampaignTasks.Refreshed | backend/campaigns/tasks.py:85-105 | The metrics are stored. The campaign becomes completed, with the end date set, exactly when it was active and no target is pending. Nothing else changes. |
| CampaignTasks.UpdateMetrics | backend/campaigns/tasks.py:70-111 | A missing campaign gives the error dictionary, and no targets gives "no_targets", both with nothing changed. Otherwise the campaign is refreshed. |
| CampaignTasks.FullRunCompletes | backend/campaigns/tasks.py:30-105 | After a full run, the metrics update completes an active campaign. |
| CustomerViews.Customer360 | backend/customers/views.py:38-101 | A missing or inactive customer gives the 404 `{"detail": "Not found."}`, with nothing saved. Otherwise the customer is saved as `Enriched` (the basic enrichment replaces only an empty document). The view carries the pitch summary and flags the enrichment task as queued exactly when the stored document was empty. |
| CustomerViews.Enriched | backend/customers/views.py:49-77 | An existing document is kept; an empty one is replaced by the basic enrichment. |
| CustomerViews.EnrichedOnce | backend/customers/views.py:49-77 | A second request changes nothing. |
| CustomerViews.ScoredAverages | backend/customers/views.py:83-90 | Empty exactly when no pitch has an average. |
| CustomerViews.ScoredAveragesFrom | backend/customers/views.py:83-90 | Every kept average is some pitch's average. |
| CustomerViews.SummaryOf | backend/customers/views.py:83-97 | The total counts the active pitches and approved ≤ total. The average is none exactly when no active pitch has an average. |
| CustomerViews.SummaryWithin | backend/customers/views.py:85-91 | The summary average lies within the range of the pitches' averages, up to rounding to two places. |
| CustomerViews.Search | backend/customers/views.py:117-143 | 400 exactly when the stripped query is empty. Otherwise the results are exactly the active customers that match, as many as match, newest first (the table's `-created_at` ordering, backend/customers/models.py:56). |
| CustomerViews.SearchIgnoresPadding | backend/customers/views.py:123 | White space around the query does not change the result. |
| CustomerViews.MatchIgnoresCase | backend/customers/views.py:130-136 | The query's case does not change the match. |
| CustomerTasks.NewestInteraction | backend/customers/tasks.py:47-52 | None exactly when the customer has no interaction. Otherwise an interaction of theirs no older than any other. |
| CustomerTasks.InteractionCount | backend/customers/tasks.py:39 | 0 exactly when there is no newest interaction. |
| CustomerTasks.LastInteraction | backend/customers/tasks.py:47-52 | null exactly when the customer has no interaction; otherwise the newest one's ISO timestamp. |
| CustomerTasks.BasicEnrichmentFacts | backend/customers/tasks.py:26-52 | The document's keys in order. The interaction count, `last_interaction` null exactly without interactions, source "internal", complete. |
| CustomerTasks.TaskEnrichmentSource | backend/customers/tasks.py:54-66 | `ai_research` is present and the source is "ai_agent" exactly when the research returned a truthy value; otherwise the document is the basic one. |
| CustomerTasks.EnrichCustomerData | backend/customers/tasks.py:11-75 | A missing customer raises. Otherwise the document replaces the stored one wholesale, and a failing research does not fail the Celery task. |
| CustomerTasks.LastFilled | backend/customers/tasks.py:47-52 | Filling in `last_interaction` later gives the document built with it. |
| McpServer.RowCells | mcp-server/server.py:116-128 | One cell per profile column; a text cell is truthy exactly when non-empty. |
| McpServer.TruthyCells | mcp-server/server.py:116-128 | The truthy cells, all of them, in column order. |
| McpServer.ProfileLinesTruthy | mcp-server/server.py:116-128 | One "col: val" line per truthy cell, in column order. |
| McpServer.ProfileEmpty | mcp-server/server.py:116-133 | The profile is empty exactly when no cell is truthy. |
| McpServer.Profile | mcp-server/server.py:116-130 | The loop joins the profile lines with newlines. |
| McpServer.FindName | mcp-server/server.py:103-113 | A row whose name matches ignoring case (the first in the table), or none exactly when no row matches. |
| McpServer.LookupCustomerInDb | mcp-server/server.py:93-133 | None exactly when the database is unavailable or no row matches; otherwise the row's profile. |
| McpServer.ResearchAnswer | mcp-server/server.py:170-181 | A non-empty database profile comes first, then the exact-key directory entry, then the "No customer data found" message. |
| McpServer.ResearchCustomer | mcp-server/server.py:154-181 | The answer of the fallback chain. |
| McpServer.DatabaseFirst | mcp-server/server.py:170-181 | A matched row with any truthy cell answers with its profile. |
| McpServer.DirectoryExact | mcp-server/server.py:41-65 | The directory lookup is exact: "Acme Corp" is found and "acme corp" is not. |
| McpServer.InitialPitchPrompt | mcp-server/server.py:190-218 | The prompt contains the name, the information and the tone (professional by default). |
| McpServer.IndexOf | mcp-server/server.py:251 | The first occurrence of a character, or none when there is none. |
| McpServer.LastIndexOf | mcp-server/server.py:251 | The last occurrence of a character, or none when there is none. |
| McpServer.BraceSpan | mcp-server/server.py:251 | A span exists exactly when some "{" precedes some "}", and then it runs from the first "{" to the last "}". |
| McpServer.GreedyUnique | mcp-server/server.py:251 | The greedy span is unique. |
| McpServer.JsonReply | mcp-server/server.py:248-262 | A failed call or no span gives the fallback. A decoded span gives its value. |
| McpServer.ScoreFallback | mcp-server/server.py:259-262 | All three dimensions scored 5. |
| McpServer.ScorePitch | mcp-server/server.py:226-267 | `score_pitch`: when the model raises, the three dimensions each scored 5. A result other than the fallback is the JSON document decoded from the reply's greedy brace span (`JsonReply` of the reply with this fallback). |
| McpServer.RefinePitch | mcp-server/server.py:271-315 | The model's reply, or a fallback containing the original pitch and the feedback. |
| McpServer.CompetitivePositioning | mcp-server/server.py:438-482 | The model's reply, or a fallback naming the customer and the industry. |
| McpServer.SentimentFallback | mcp-server/server.py:363-371 | Sentiment 0 and engagement "medium". |
| McpServer.AnalyzeSentiment | mcp-server/server.py:323-376 | `analyze_customer_sentiment`: when the model raises, sentiment 0 and engagement "medium". A result other than the fallback is the JSON document decoded from the reply's greedy brace span (`JsonReply` of the reply with this fallback). |
| McpServer.SubjectFallback | mcp-server/server.py:413-428 | Exactly three subject options, each with a subject and a reasoning. |
| McpServer.GenerateSubjectLine | mcp-server/server.py:379-434 | `generate_subject_line`: when the model raises, exactly three subject options. A result other than the fallback is the JSON document decoded from the reply's greedy brace span (`JsonReply` of the reply with this fallback). |
| McpServer.VariantsFallbackShape | mcp-server/server.py:527-538 | Exactly `num_variants` items labelled "Variant 1" … "Variant n", each with the unchanged pitch, with distinct labels. |
| McpServer.PitchAbVariants | mcp-server/server.py:490-543 | `pitch_ab_variants`: when the model raises, `num_variants` variants (2 when the argument is absent, none when it is negative), each carrying the unchanged pitch. A result other than the fallback is the JSON document decoded from the reply's greedy brace span (`JsonReply` of the reply with this fallback). |
| McpServer.NatToStringInjective | mcp-server/server.py:530-536 | Distinct numbers print differently. |
| McpServer.LeadScoreBalanced | mcp-server/server.py:583-598 | Score 50, the sum of its five factors of 10. |
| McpServer.CalculateLeadScore | mcp-server/server.py:546-603 | `calculate_lead_score`: when the model raises, score 50. A result other than the fallback is the JSON document decoded from the reply's greedy brace span (`JsonReply` of the reply with this fallback). |
| McpServer.FollowUpSchedule | mcp-server/server.py:656-674 | `num_emails` emails numbered 1 … n, sent after 3·k days, strictly increasing. |
| McpServer.GenerateFollowupSequence | mcp-server/server.py:606-674 | `generate_followup_sequence`: when the model raises, `num_emails` e-mails (3 when the argument is absent, none when it is negative) numbered 1 to n. A result other than the fallback is the JSON document decoded from the reply's greedy brace span (`JsonReply` of the reply with this fallback). |
| Store.Db.SaveCustomer360 | backend/customers/views.py:74-75 | Only the customer's document changes. |
| Store.Db.UpdateOrCreateMetric | backend/analytics/tasks.py:32-38 | `update_or_create` on (name, period, date). |
| Store.Db.UpdateOrCreatePerformance | backend/analytics/tasks.py:245-256 | `update_or_create` on (agent, period, date). |
| Store.AddScore | backend/pitches/models.py:164 | Appending a row under a free key keeps the score table valid. |
| Common.Ratio | backend/campaigns/views.py:135-138 | The guarded division: part/whole when whole > 0, otherwise 0, inside [0, 1] for 0 ≤ part ≤ whole. |
| Common.Round2 | backend/customers/views.py:91 | Within 0.005 of its argument. |
| Common.Strip | backend/customers/views.py:123 | The result has no surrounding white space and is the input with only surrounding white space removed. |
| Common.Upsert | backend/analytics/tasks.py:245-256 | `update_or_create`: a new key is appended, an existing row is merged in place, and key uniqueness is kept. |
| Common.UpsertAllSpec | backend/analytics/tasks.py:245-256 | A sequence of upserts stores every entry under its key and leaves other keys' rows unchanged. |
| Common.FindKey | backend/pitches/tasks.py:97-105 | The row with the key, or none exactly when no row has it. |
| Common.LowerTwice | backend/customers/views.py:130-136 | Lower-casing is idempotent. |
| Calendar.PrevDay | backend/analytics/tasks.py:24 | The valid date one ordinal earlier. |
| Calendar.SubDays | backend/analytics/tasks.py:106 | The valid date k ordinals earlier. |
| Calendar.AddDays | backend/analytics/tasks.py:107 | The valid date k ordinals later. |
| Ranking.SortDesc | backend/analytics/views.py:233 | A permutation of the input in non-increasing order of the key. |
| Ranking.TopSpec | backend/analytics/views.py:233 | The first n of the sorted input: in order, a permutation split of the input, with nothing left out ranking higher. |
| Http.Failure | backend/campaigns/views.py:71-75 | The status code with the error message. |
| Http.Pending | backend/pitches/views.py:59-66 | 202 with status "pending" and the Celery task id. |

## Left out

- Language-model and provider calls, the MCP client, httpx and psycopg2 are oracles: their replies are parameters.
- `json.loads` and `json.dumps` become a `decode` parameter. The JSON grammar is not modelled.
- Celery mechanics are not modelled: `.delay`, retries, countdowns and beat scheduling. Queued jobs are returned as values.
- Floating point is not modelled: scores and rates are exact reals, and `round` is exact round-half-even.
- Decimal costs and budgets are exact reals.
- Logging is not modelled, and `timezone.now()` is a parameter.
- The ORM is reduced to in-memory tables with ids as positions. Not modelled: pagination, serializers (beyond the validation the views do), admin, urls, migrations, and the ASGI and health endpoints.
- `_log_execution` (backend/agents/services.py:55-69) is not modelled. No operation writes to the `AgentExecution` table, which is read-only input here.
- `campaign_strategy` (backend/agents/services.py:508-601) is only routed to. Its prompt and parsing are inside the oracle.
- `import_customers` (backend/customers/views.py:104-115) is not part of this model.
- The agent-performance `trends` endpoint (backend/analytics/views.py:266-283) is not part of this model. It is a filtered listing.
- The dashboard's conversion statistics (backend/analytics/views.py:62-66) are not part of this model.
- `PitchScore` and `DashboardMetric` have no `is_active` column in the model. The `is_active` filters on scores (backend/analytics/views.py:77-79 and 221-223) and on the dashboard's latest metrics (backend/analytics/views.py:68-70) keep every row.
- A PATCH of `parent_pitch` through the pitch serializer is outside the model. The stored tables keep parents before children (`Lineage` in `Store.Db.Valid`), and the cycle the serializer admits is shown under Findings.
- AgentService.EntryFeedback: `str()` of a number, list or object explanation is rendered as the empty string. Only string explanations are printed as the source prints them.
- Pipeline.ToFloat: `float()` of a numeric string such as "0.8" is not modelled, so such scores are rejected rather than converted.
- AnalyticsDashboard.DashboardView: the 30-day cutoff for agent executions is compared by day rather than by microsecond.
- AnalyticsDashboard.RoiReportView: the period cutoff for agent executions is compared by day rather than by microsecond. The number of conversions is a parameter: it counts the active, converted `PitchAnalytics` rows since the cutoff (backend/analytics/views.py:381-382), a table that is not part of this model, so nothing bounds it.
- CustomerTasks.NewestInteraction: among interactions with the same timestamp the first in the table is taken, where the database leaves the order open.
- CustomerViews.Search: lower-casing is ASCII-only, whereas the database's case-insensitive match also folds other letters.
- McpServer.FindName: lower-casing is ASCII-only, whereas PostgreSQL's `LOWER` also folds other letters. Among several matching rows the first in the table is taken, where `LIMIT 1` without `ORDER BY` leaves the choice to the database.
- Pipeline.ScoreRow: `str()` of a number, list or object explanation is stored as the empty string, and `str()` of a boolean as "True" or "False". A null explanation fails as the NOT NULL column does.
- Pipeline.ScoreRows: stores the rows Pipeline.ScoreRow builds, so a number, list or object explanation is stored as the empty string rather than as its `str()`.
- Pipeline.AddScoreRows: stores the rows Pipeline.ScoreRow builds, so a number, list or object explanation is stored as the empty string rather than as its `str()`.
- Pipeline.SaveScores: stores the rows Pipeline.ScoreRow builds, so a number, list or object explanation is stored as the empty string rather than as its `str()`.
- PitchTasks.StoreScores: stores the rows Pipeline.ScoreRow builds, so a number, list or object explanation is stored as the empty string rather than as its `str()`.
- PitchTasks.ScoreTask: stores the rows Pipeline.ScoreRow builds, so a number, list or object explanation is stored as the empty string rather than as its `str()`.
- AgentViews.ExecuteView: the body of the 400 response for an `input_data` that is not a dictionary is a single error message, not the per-field error lists the serializer's validation returns. Its status code is modelled.

## Findings

| source | as written | input that shows it | evidently intended | confidence | as-written member | corrected member |
|---|---|---|---|---|---|---|
| backend/pitches/views.py:112-115 | `history` follows parent links until a pitch without a parent. The serializer lets a client write `parent_pitch`, so two pitches can be each other's parents. | Two pitches, each the other's parent (`CyclicPitches`): the walk never ends. | The walk reaches the root of an acyclic lineage. | not executed | PitchViews.HistoryWalkCycles | PitchViews.WalkReachesRoot |
| backend/analytics/views.py:202-204 | Each trend row counts the day's approved pitches with no window cutoff, while its `count` respects the cutoff. | `ExamplePitches` at `ExampleNow` with days=1: the row for 9 March 2024 has count 1 but approved 2. | approved ≤ count on every row | not executed | PitchAnalytics.ApprovedExceedsCount | PitchAnalytics.CorrectedTrends |
