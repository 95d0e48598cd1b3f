/** The pitch endpoints: the three that only enqueue a task, the version
    history of a pitch, the side-by-side comparison and the export.

    Rows are addressed by position; a row's id is its position and newer
    rows come later, so the `-created_at` ordering of pitches and of a
    pitch's revisions is the reverse of table order. */
module PitchViews {
  import opened Common
  import opened Calendar
  import Store
  import opened CustomerModels
  import opened PitchModels
  import opened Http

  /** `self.get_object()` on the active-pitch queryset succeeds. */
  predicate Visible(ps: seq<Pitch>, pitch: nat) {
    pitch < |ps| && ps[pitch].isActive
  }

  // ------------------------------------------------------- enqueuing views

  /** The Celery task a view hands to the queue. */
  datatype PitchJob =
    | GenerateJob(customer: nat, tone: Tone, pitchType: PitchType, template: Option<nat>,
                  campaign: Option<nat>, extra: string)
    | ScoreJob(pitch: nat)
    | RefineJob(pitch: nat, feedback: string, requestedTone: Option<Tone>)

  /** `generate`: the validated request, with the serializer's defaults,
      goes to the queue and the answer is 202 pending. */
  function GenerateView(customer: nat, tone: Option<Tone>, pitchType: Option<PitchType>, template: Option<nat>,
                        campaign: Option<nat>, extra: Option<string>, taskId: string): (r: (Response, PitchJob))
    ensures r.0.code == ACCEPTED && r.0.body.JObj? && Lookup(r.0.body.fields, "status") == Some(JStr("pending"))
    ensures r.1 == GenerateJob(customer, tone.GetOr(Professional), pitchType.GetOr(Initial), template, campaign, extra.GetOr(""))
  {
    (Pending("Pitch generation started", taskId, []),
     GenerateJob(customer, tone.GetOr(Professional), pitchType.GetOr(Initial), template, campaign, extra.GetOr("")))
  }

  /** `score`: 404 for a pitch that is missing or inactive, otherwise the
      task is enqueued and the answer is 202 pending. */
  function ScoreView(ps: seq<Pitch>, pitch: nat, taskId: string): (r: (Response, Option<PitchJob>))
    ensures !Visible(ps, pitch) ==> r.0 == NotFound && r.1.None?
    ensures Visible(ps, pitch) ==>
      r.0.code == ACCEPTED && r.0.body.JObj? && Lookup(r.0.body.fields, "status") == Some(JStr("pending"))
      && r.1 == Some(ScoreJob(pitch))
  {
    if !Visible(ps, pitch) then (NotFound, None)
    else (Pending("Pitch scoring started", taskId, [("pitch_id", JStr(IdText(pitch)))]), Some(ScoreJob(pitch)))
  }

  /** `refine`: 404 for a pitch that is missing or inactive, 400 for
      feedback that is blank once the serializer trims it, otherwise the
      trimmed feedback and the optional tone are enqueued. */
  function RefineView(ps: seq<Pitch>, pitch: nat, feedback: string, tone: Option<Tone>, taskId: string)
    : (r: (Response, Option<PitchJob>))
    ensures !Visible(ps, pitch) ==> r.0 == NotFound && r.1.None?
    ensures Visible(ps, pitch) && Strip(feedback) == [] ==>
      r.0 == Invalid("feedback", "This field may not be blank.") && r.1.None?
    ensures Visible(ps, pitch) && Strip(feedback) != [] ==>
      r.0.code == ACCEPTED && r.0.body.JObj? && Lookup(r.0.body.fields, "status") == Some(JStr("pending"))
      && r.1 == Some(RefineJob(pitch, Strip(feedback), tone))
  {
    if !Visible(ps, pitch) then (NotFound, None)
    else if Strip(feedback) == [] then (Invalid("feedback", "This field may not be blank."), None)
    else (Pending("Pitch refinement started", taskId, [("pitch_id", JStr(IdText(pitch)))]),
          Some(RefineJob(pitch, Strip(feedback), tone)))
  }

  // --------------------------------------------------------------- history

  /** Each row's id is its position and a parent is an older row: the
      version graph is a forest. Every creation path (generation, refinement,
      the pipeline) appends a row whose parent is already stored. */
  predicate Lineage(ps: seq<Pitch>) {
    forall i :: 0 <= i < |ps| ==> ps[i].id == i && (ps[i].parent.Some? ==> ps[i].parent.value < i)
  }

  /** The stored table is a forest: the database's invariant orders every
      parent before its child, so `history` may rely on it. */
  lemma StoredLineage(db: Store.Db)
    requires db.Valid()
    ensures Lineage(db.pitches)
  {
  }

  /** The pitch reached by following parent links from `i` until a pitch
      with no parent. */
  function Root(ps: seq<Pitch>, i: nat): (r: nat)
    requires Lineage(ps) && i < |ps|
    ensures r <= i && ps[r].parent.None?
    decreases i
  {
    if ps[i].parent.None? then i else Root(ps, ps[i].parent.value)
  }

  /** `x` is `r` or a revision of a revision … of `r`. */
  predicate Descends(ps: seq<Pitch>, x: nat, r: nat)
    requires Lineage(ps) && x < |ps|
    decreases x
  {
    x == r || (ps[x].parent.Some? && Descends(ps, ps[x].parent.value, r))
  }

  /** `_collect_versions`: the pitch, then the versions of each of its
      revisions, newest revision first. */
  function Versions(ps: seq<Pitch>, i: nat): seq<nat>
    requires Lineage(ps) && i < |ps|
    decreases |ps| - i, 1, 0
  {
    [i] + VersionsBelow(ps, i, |ps|)
  }

  /** The versions of the revisions of `i` that sit below position `j`. */
  function VersionsBelow(ps: seq<Pitch>, i: nat, j: nat): seq<nat>
    requires Lineage(ps) && i < |ps| && j <= |ps|
    decreases |ps| - i, 0, j
  {
    if j <= i + 1 then []
    else (if ps[j - 1].parent == Some(i) then Versions(ps, j - 1) else []) + VersionsBelow(ps, i, j - 1)
  }

  lemma {:induction false} DescendsAbove(ps: seq<Pitch>, x: nat, r: nat)
    requires Lineage(ps) && x < |ps| && Descends(ps, x, r)
    ensures r <= x
    decreases x
  {
    if x != r {
      DescendsAbove(ps, ps[x].parent.value, r);
    }
  }

  lemma {:induction false} DescendsTrans(ps: seq<Pitch>, x: nat, c: nat, r: nat)
    requires Lineage(ps) && x < |ps| && c < |ps| && Descends(ps, x, c) && Descends(ps, c, r)
    ensures Descends(ps, x, r)
    decreases x
  {
    if x != c {
      DescendsTrans(ps, ps[x].parent.value, c, r);
    }
  }

  /** Every pitch descends from its root. */
  lemma {:induction false} DescendsFromRoot(ps: seq<Pitch>, x: nat)
    requires Lineage(ps) && x < |ps|
    ensures Descends(ps, x, Root(ps, x))
    decreases x
  {
    if ps[x].parent.Some? {
      DescendsFromRoot(ps, ps[x].parent.value);
    }
  }

  /** A member of the collected versions descends from where the walk
      started. */
  lemma {:induction false} VersionsDescend(ps: seq<Pitch>, i: nat, x: nat)
    requires Lineage(ps) && i < |ps| && x in Versions(ps, i)
    ensures x < |ps| && Descends(ps, x, i)
    decreases |ps| - i, 1, 0
  {
    if x != i {
      BelowDescend(ps, i, |ps|, x);
    }
  }

  lemma {:induction false} BelowDescend(ps: seq<Pitch>, i: nat, j: nat, x: nat)
    requires Lineage(ps) && i < |ps| && j <= |ps| && x in VersionsBelow(ps, i, j)
    ensures x < |ps| && Descends(ps, x, i)
    decreases |ps| - i, 0, j
  {
    var c := j - 1;
    if ps[c].parent == Some(i) && x in Versions(ps, c) {
      VersionsDescend(ps, c, x);
      DescendsTrans(ps, x, c, i);
    } else {
      BelowDescend(ps, i, c, x);
    }
  }

  /** The collected versions of a revision `c` of `i` below `j` are among
      those collected below `j`. */
  lemma {:induction false} SubtreeBelow(ps: seq<Pitch>, i: nat, j: nat, c: nat, x: nat)
    requires Lineage(ps) && i < c < j <= |ps| && ps[c].parent == Some(i) && x in Versions(ps, c)
    ensures x in VersionsBelow(ps, i, j)
    decreases j
  {
    if c != j - 1 {
      SubtreeBelow(ps, i, j - 1, c, x);
    }
  }

  /** A member of the versions below `j` lies in the subtree of one of the
      revisions below `j`. */
  lemma {:induction false} BelowWitness(ps: seq<Pitch>, i: nat, j: nat, x: nat) returns (c: nat)
    requires Lineage(ps) && i < |ps| && j <= |ps| && x in VersionsBelow(ps, i, j)
    ensures i < c < j && ps[c].parent == Some(i) && x in Versions(ps, c)
    decreases j
  {
    if ps[j - 1].parent == Some(i) && x in Versions(ps, j - 1) {
      c := j - 1;
    } else {
      c := BelowWitness(ps, i, j - 1, x);
    }
  }

  /** The collected versions are closed under taking revisions. */
  lemma {:induction false} RevisionCollected(ps: seq<Pitch>, i: nat, p: nat, x: nat)
    requires Lineage(ps) && i < |ps| && x < |ps| && p in Versions(ps, i) && ps[x].parent == Some(p)
    ensures x in Versions(ps, i)
    decreases |ps| - i
  {
    if p == i {
      SubtreeBelow(ps, i, |ps|, x, x);
    } else {
      var c := BelowWitness(ps, i, |ps|, p);
      RevisionCollected(ps, c, p, x);
      SubtreeBelow(ps, i, |ps|, c, x);
    }
  }

  lemma {:induction false} DescendantCollected(ps: seq<Pitch>, i: nat, x: nat)
    requires Lineage(ps) && i < |ps| && x < |ps| && Descends(ps, x, i)
    ensures x in Versions(ps, i)
    decreases x
  {
    if x != i {
      var p := ps[x].parent.value;
      DescendantCollected(ps, i, p);
      RevisionCollected(ps, i, p, x);
    }
  }

  /** The versions collected from `i` are exactly the pitches descending
      from `i`, with `i` first. */
  lemma VersionsAreDescendants(ps: seq<Pitch>, i: nat)
    requires Lineage(ps) && i < |ps|
    ensures Versions(ps, i)[0] == i
    ensures forall x: nat :: x in Versions(ps, i) <==> x < |ps| && Descends(ps, x, i)
  {
    forall x | x in Versions(ps, i) ensures x < |ps| && Descends(ps, x, i) {
      VersionsDescend(ps, i, x);
    }
    forall x: nat | x < |ps| && Descends(ps, x, i) ensures x in Versions(ps, i) {
      DescendantCollected(ps, i, x);
    }
  }

  /** `history`: 404 for a pitch that is missing or inactive; otherwise the
      walk up the parent links reaches the root and the answer is the
      root's collected versions, which hold the queried pitch and every
      other version of its family. */
  method History(ps: seq<Pitch>, pitch: nat) returns (r: Reply<seq<nat>>)
    requires Lineage(ps)
    ensures !Visible(ps, pitch) <==> r.Refusal?
    ensures r.Refusal? ==> r.response == NotFound
    ensures r.Answer? ==> r.value == Versions(ps, Root(ps, pitch))
    ensures r.Answer? ==> r.value[0] == Root(ps, pitch) && ps[r.value[0]].parent.None? && pitch in r.value
  {
    if !Visible(ps, pitch) {
      return Refusal(NotFound);
    }
    var root: nat := pitch;
    while ps[root].parent.Some?
      invariant root < |ps| && Root(ps, root) == Root(ps, pitch)
      decreases root
    {
      root := ps[root].parent.value;
    }
    DescendsFromRoot(ps, pitch);
    VersionsAreDescendants(ps, root);
    r := Answer(Versions(ps, root));
  }

  /** The table's own integrity rule: a parent link names a stored pitch.
      It does not order parents before children. */
  predicate ParentsStored(ps: seq<Pitch>) {
    forall i :: 0 <= i < |ps| ==> ps[i].parent.Some? ==> ps[i].parent.value < |ps|
  }

  /** The walk of `history` as written, cut after `steps` hops: up the
      parent links from `i` until a pitch without a parent. */
  function WalkUp(ps: seq<Pitch>, i: nat, steps: nat): (r: nat)
    requires ParentsStored(ps) && i < |ps|
    ensures r < |ps|
    decreases steps
  {
    if steps == 0 || ps[i].parent.None? then i else WalkUp(ps, ps[i].parent.value, steps - 1)
  }

  /** Two pitches whose `parent_pitch` names each other, as a client can
      set through the writable field of the pitch serializer. */
  function CyclicPitches(): (ps: seq<Pitch>)
    ensures ParentsStored(ps) && |ps| == 2
  {
    var t := DateTime(Date(2024, 3, 9), 12, 0, 0, 0);
    [NewPitch(0, 0, "a", "", t).(parent := Some(1)), NewPitch(1, 0, "b", "", t).(parent := Some(0))]
  }

  /** On those two pitches the walk of `history` never reaches a root: after
      any number of hops it stands on a pitch that still has a parent, so
      the request never returns. */
  lemma {:induction false} HistoryWalkCycles(steps: nat)
    ensures var ps := CyclicPitches();
      WalkUp(ps, 0, steps) < 2 && ps[WalkUp(ps, 0, steps)].parent.Some?
  {
    CycleStep(0, steps);
  }

  lemma {:induction false} CycleStep(i: nat, steps: nat)
    requires i < 2
    ensures CyclicPitches()[WalkUp(CyclicPitches(), i, steps)].parent.Some?
    decreases steps
  {
    var ps := CyclicPitches();
    if steps > 0 {
      CycleStep(ps[i].parent.value, steps - 1);
    }
  }

  /** The rule the model's tables keep instead: every creation path stores
      a parent before its child, and the walk then ends at the root within
      `i` hops. */
  lemma {:induction false} WalkReachesRoot(ps: seq<Pitch>, i: nat)
    requires Lineage(ps) && i < |ps|
    ensures ParentsStored(ps) && WalkUp(ps, i, i) == Root(ps, i)
    decreases i
  {
    if ps[i].parent.Some? {
      WalkReachesRoot(ps, ps[i].parent.value);
      WalkLonger(ps, ps[i].parent.value, ps[i].parent.value, i - 1);
    }
  }

  /** Hops beyond the root change nothing. */
  lemma {:induction false} WalkLonger(ps: seq<Pitch>, i: nat, k: nat, m: nat)
    requires Lineage(ps) && i < |ps| && k <= m && WalkUp(ps, i, k) == Root(ps, i)
    ensures WalkUp(ps, i, m) == Root(ps, i)
    decreases k
  {
    if k > 0 && ps[i].parent.Some? {
      WalkLonger(ps, ps[i].parent.value, k - 1, m - 1);
    }
  }

  /** Every version of a family reports the same history. */
  lemma {:induction false} FamilyRoot(ps: seq<Pitch>, x: nat, r: nat)
    requires Lineage(ps) && x < |ps| && r < |ps| && Descends(ps, x, r)
    ensures Root(ps, x) == Root(ps, r)
    decreases x
  {
    if x != r {
      FamilyRoot(ps, ps[x].parent.value, r);
    }
  }

  // --------------------------------------------------------------- compare

  /** `Pitch.objects.filter(id__in=ids, is_active=True)` among the first
      `n` rows, newest first. */
  function Matching(ps: seq<Pitch>, ids: seq<nat>, n: nat): (r: seq<nat>)
    requires n <= |ps|
    ensures forall k :: 0 <= k < |r| ==> r[k] < n
  {
    if n == 0 then []
    else (if ps[n - 1].isActive && n - 1 in ids then [n - 1] else []) + Matching(ps, ids, n - 1)
  }

  /** The query finds the active rows whose id is asked for. */
  lemma {:induction false} MatchingMembers(ps: seq<Pitch>, ids: seq<nat>, n: nat)
    requires n <= |ps|
    ensures forall x: nat :: x in Matching(ps, ids, n) <==> x in Found(ps, ids, n)
  {
    if n > 0 {
      MatchingMembers(ps, ids, n - 1);
      FoundStep(ps, ids, n);
    }
  }

  predicate Distinct(ids: seq<nat>) {
    forall i, j :: 0 <= i < j < |ids| ==> ids[i] != ids[j]
  }

  /** The ids among `ids` of active rows below `n`. */
  function Found(ps: seq<Pitch>, ids: seq<nat>, n: nat): set<nat>
    requires n <= |ps|
  {
    set x: nat | x in ids && x < n && ps[x].isActive
  }

  /** The query finds each row once. */
  lemma {:induction false} MatchingSize(ps: seq<Pitch>, ids: seq<nat>, n: nat)
    requires n <= |ps|
    ensures |Matching(ps, ids, n)| == |Found(ps, ids, n)|
  {
    if n > 0 {
      MatchingSize(ps, ids, n - 1);
      FoundStep(ps, ids, n);
    }
  }

  lemma FoundStep(ps: seq<Pitch>, ids: seq<nat>, n: nat)
    requires 0 < n <= |ps|
    ensures ps[n - 1].isActive && n - 1 in ids ==>
      Found(ps, ids, n) == Found(ps, ids, n - 1) + {n - 1} && n - 1 !in Found(ps, ids, n - 1)
    ensures !(ps[n - 1].isActive && n - 1 in ids) ==> Found(ps, ids, n) == Found(ps, ids, n - 1)
  {
  }

  function Elems(ids: seq<nat>): set<nat> {
    set x | x in ids
  }

  lemma ElemsSnoc(init: seq<nat>, last: nat)
    ensures Elems(init + [last]) == Elems(init) + {last}
    ensures Distinct(init + [last]) <==> Distinct(init) && last !in Elems(init)
  {
    var ids := init + [last];
    assert forall k :: 0 <= k < |init| ==> ids[k] == init[k];
    if last in Elems(init) {
      var k :| 0 <= k < |init| && init[k] == last;
      assert ids[k] == ids[|init|];
    }
  }

  /** A list has as many distinct elements as entries exactly when no
      entry repeats. */
  lemma {:induction false} DistinctSize(ids: seq<nat>)
    ensures |Elems(ids)| <= |ids|
    ensures |Elems(ids)| == |ids| <==> Distinct(ids)
  {
    if ids != [] {
      var init := ids[..|ids| - 1];
      var last := ids[|ids| - 1];
      assert ids == init + [last];
      DistinctSize(init);
      ElemsSnoc(init, last);
      if last in Elems(init) {
        assert Elems(ids) == Elems(init);
      }
    }
  }

  /** The comparison goes ahead exactly when the ids name distinct active
      pitches: a missing or inactive pitch and a repeated id both make the
      count differ. */
  lemma MatchingComplete(ps: seq<Pitch>, ids: seq<nat>)
    ensures |Matching(ps, ids, |ps|)| == |ids| <==>
      Distinct(ids) && forall k :: 0 <= k < |ids| ==> Visible(ps, ids[k])
  {
    MatchingSize(ps, ids, |ps|);
    DistinctSize(ids);
    var found := Found(ps, ids, |ps|);
    var named := Elems(ids);
    assert found <= named;
    if forall k :: 0 <= k < |ids| ==> Visible(ps, ids[k]) {
      assert found == named;
    } else {
      var k :| 0 <= k < |ids| && !Visible(ps, ids[k]);
      assert ids[k] in named - found;
      assert |found| < |named| by {
        assert named == found + (named - found);
      }
    }
  }

  /** The averages of the scored pitches among `found`. */
  function Averages(ps: seq<Pitch>, found: seq<nat>): (r: seq<real>)
    requires forall k :: 0 <= k < |found| ==> found[k] < |ps|
    ensures forall v :: v in r <==> exists k :: 0 <= k < |found| && AverageScore(ps[found[k]].scores) == Some(v)
    ensures r == [] <==> forall k :: 0 <= k < |found| ==> AverageScore(ps[found[k]].scores).None?
  {
    if found == [] then []
    else
      var rest := Averages(ps, found[1..]);
      assert forall k :: 1 <= k < |found| ==> found[1..][k - 1] == found[k];
      match AverageScore(ps[found[0]].scores)
      case None => rest
      case Some(v) => [v] + rest
  }

  /** `max(..., default=None)` over the averages. */
  function BestScore(ps: seq<Pitch>, found: seq<nat>): (r: Option<real>)
    requires forall k :: 0 <= k < |found| ==> found[k] < |ps|
    ensures r.None? <==> forall k :: 0 <= k < |found| ==> AverageScore(ps[found[k]].scores).None?
    ensures r.Some? ==>
      (exists k :: 0 <= k < |found| && AverageScore(ps[found[k]].scores) == r)
      && forall k :: 0 <= k < |found| && AverageScore(ps[found[k]].scores).Some? ==>
           AverageScore(ps[found[k]].scores).value <= r.value
  {
    var avgs := Averages(ps, found);
    if avgs == [] then None
    else
      var m := MaxOf(avgs);
      assert forall k :: 0 <= k < |found| && AverageScore(ps[found[k]].scores).Some? ==>
        AverageScore(ps[found[k]].scores).value in avgs;
      Some(m)
  }

  /** What `compare` answers: the pitches compared (by id, newest first),
      their number and the best average. */
  datatype Comparison = Comparison(pitches: seq<nat>, count: nat, best: Option<real>)

  /** `compare`: 400 unless two to five ids are given, 404 unless they name
      as many active pitches as there are ids, otherwise the comparison. */
  function Compare(ps: seq<Pitch>, ids: seq<nat>): (r: Reply<Comparison>)
    ensures |ids| < 2 ==> r == Refusal(Invalid("pitch_ids", "Ensure this field has at least 2 elements."))
    ensures |ids| > 5 ==> r == Refusal(Invalid("pitch_ids", "Ensure this field has no more than 5 elements."))
    ensures 2 <= |ids| <= 5 ==>
      (r.Answer? <==> Distinct(ids) && forall k :: 0 <= k < |ids| ==> Visible(ps, ids[k]))
    ensures 2 <= |ids| <= 5 && r.Refusal? ==> r.response == Failure(NOT_FOUND, "One or more pitch IDs not found.")
    ensures r.Answer? ==>
      r.value.count == |ids| == |r.value.pitches|
      && (forall k :: 0 <= k < |r.value.pitches| ==> r.value.pitches[k] < |ps|)
      && (forall x :: x in r.value.pitches <==> x in ids)
      && r.value.best == BestScore(ps, r.value.pitches)
  {
    if |ids| < 2 then Refusal(Invalid("pitch_ids", "Ensure this field has at least 2 elements."))
    else if |ids| > 5 then Refusal(Invalid("pitch_ids", "Ensure this field has no more than 5 elements."))
    else
      var found := Matching(ps, ids, |ps|);
      MatchingComplete(ps, ids);
      MatchingMembers(ps, ids, |ps|);
      if |found| != |ids| then Refusal(Failure(NOT_FOUND, "One or more pitch IDs not found."))
      else Answer(Comparison(found, |found|, BestScore(ps, found)))
  }

  // ---------------------------------------------------------------- export

  /** A line of `n` equals signs. */
  function Rule(n: nat): (r: string)
    ensures |r| == n && forall k :: 0 <= k < n ==> r[k] == '='
  {
    if n == 0 then "" else Rule(n - 1) + "="
  }

  /** The header lines of the text export. */
  function TextHeader(p: Pitch, c: Customer): string {
    "Title: " + p.title + "\n"
    + "Customer: " + c.name + " (" + c.company + ")\n"
    + "Type: " + p.pitchType.Label() + "\n"
    + "Tone: " + p.tone.Label() + "\n"
    + "Version: " + IntToString(p.version) + "\n"
    + "Status: " + p.status.Label() + "\n"
  }

  /** The rule above the content and the blank line after it. */
  function Opening(): (r: string)
    ensures |r| == 62 && r[..60] == Rule(60)
  {
    Rule(60) + "\n\n"
  }

  /** The blank line after the content and the rule below it. */
  function Closing(): (r: string)
    ensures |r| == 63 && r[2..62] == Rule(60)
  {
    "\n\n" + Rule(60) + "\n"
  }

  function Footer(p: Pitch): string {
    "Generated by: " + p.generatedBy + "\n"
  }

  function TextExport(p: Pitch, c: Customer): string {
    TextHeader(p, c) + Opening() + p.content + Closing() + Footer(p)
  }

  const Indent: string := "            "

  function HtmlExport(p: Pitch, c: Customer): string {
    "\n" + Indent + "<html>\n"
    + Indent + "<head><title>" + p.title + "</title></head>\n"
    + Indent + "<body>\n"
    + Indent + "    <h1>" + p.title + "</h1>\n"
    + Indent + "    <p><strong>Customer:</strong> " + c.name + " (" + c.company + ")</p>\n"
    + Indent + "    <p><strong>Type:</strong> " + p.pitchType.Label() + "</p>\n"
    + Indent + "    <p><strong>Tone:</strong> " + p.tone.Label() + "</p>\n"
    + Indent + "    <p><strong>Version:</strong> " + IntToString(p.version) + "</p>\n"
    + Indent + "    <p><strong>Status:</strong> " + p.status.Label() + "</p>\n"
    + Indent + "    <hr>\n"
    + Indent + "    <div>" + p.content + "</div>\n"
    + Indent + "    <hr>\n"
    + Indent + "    <p><em>Generated by: " + p.generatedBy + "</em></p>\n"
    + Indent + "</body>\n"
    + Indent + "</html>\n"
    + Indent
  }

  /** In the text export the content sits between two 60-character rules,
      each with a blank line on the content's side, after the header and
      before the "Generated by" line. */
  lemma TextFramesContent(p: Pitch, c: Customer)
    ensures var t := TextExport(p, c); var k := |TextHeader(p, c)| + 62;
      |t| == k + |p.content| + 63 + |Footer(p)|
      && t[..|TextHeader(p, c)|] == TextHeader(p, c)
      && t[k - 62..k - 2] == Rule(60)
      && t[k..k + |p.content|] == p.content
      && t[k + |p.content| + 2..k + |p.content| + 62] == Rule(60)
      && t[k + |p.content| + 63..] == Footer(p)
  {
    var t := TextExport(p, c);
    var k := |TextHeader(p, c)| + 62;
    Framed(TextHeader(p, c), Opening(), p.content, Closing(), Footer(p));
    assert t[k - 62..k - 2] == t[k - 62..k][..60];
    assert t[k + |p.content| + 2..k + |p.content| + 62] == t[k + |p.content|..k + |p.content| + 63][2..62];
  }

  lemma Framed(h: string, open: string, body: string, close: string, foot: string)
    ensures var t := h + open + body + close + foot; var k := |h| + |open|;
      |t| == k + |body| + |close| + |foot|
      && t[..|h|] == h && t[|h|..k] == open && t[k..k + |body|] == body
      && t[k + |body|..k + |body| + |close|] == close && t[k + |body| + |close|..] == foot
  {
  }

  /** `export`: 404 for a pitch that is missing or inactive; HTML exactly
      when the format asked for is "html", the text layout for any other
      format including the default "text". */
  function Export(ps: seq<Pitch>, customers: seq<Customer>, pitch: nat, format: Option<string>): (r: Response)
    requires forall i :: 0 <= i < |ps| ==> ps[i].customer < |customers|
    ensures !Visible(ps, pitch) ==> r == NotFound
    ensures Visible(ps, pitch) ==>
      var p := ps[pitch];
      var c := customers[p.customer];
      r.code == OK && r.body.JObj?
      && Lookup(r.body.fields, "format") == Some(JStr(format.GetOr("text")))
      && Lookup(r.body.fields, "content") ==
           Some(JStr(if format == Some("html") then HtmlExport(p, c) else TextExport(p, c)))
  {
    if !Visible(ps, pitch) then NotFound
    else
      var p := ps[pitch];
      var c := customers[p.customer];
      var kind := format.GetOr("text");
      var content := if kind == "html" then HtmlExport(p, c) else TextExport(p, c);
      var fields := [("pitch_id", JStr(IdText(pitch))), ("format", JStr(kind)), ("content", JStr(content))];
      LookupAppend(fields[..2], fields[2..], "content");
      LookupAppend(fields[..1], fields[1..2], "content");
      assert fields == fields[..2] + fields[2..] && fields[..2] == fields[..1] + fields[1..2];
      Response(OK, JObj(fields))
  }
}
