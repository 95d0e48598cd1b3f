/** The campaign tasks: executing a launched campaign, which asks for one
    pitch per pending target until the campaign stops being active, and
    refreshing a campaign's stored metrics, which completes it once no
    target is pending. */
module CampaignTasks {
  import opened Common
  import opened Calendar
  import opened CampaignModels
  import opened Store
  import opened CampaignViews
  import PitchModels
  import PitchViews

  // -------------------------------------------------------- execute_campaign

  /** The pending targets of campaign `c` among the first `n` rows, newest
      first, as the table's order by descending creation gives them. */
  function PendingBelow(ts: seq<CampaignTarget>, c: nat, n: nat): (r: seq<nat>)
    requires n <= |ts|
    ensures forall k :: 0 <= k < |r| ==> r[k] < n && ts[r[k]].campaign == c && ts[r[k]].status == Pending
    ensures forall j, k :: 0 <= j < k < |r| ==> r[j] > r[k]
    ensures forall i :: 0 <= i < n && ts[i].campaign == c && ts[i].status == Pending ==> i in r
  {
    if n == 0 then []
    else if ts[n - 1].campaign == c && ts[n - 1].status == Pending then [n - 1] + PendingBelow(ts, c, n - 1)
    else PendingBelow(ts, c, n - 1)
  }

  /** `campaign.targets.filter(status='pending')`. */
  function PendingTargets(ts: seq<CampaignTarget>, c: nat): seq<nat> {
    PendingBelow(ts, c, |ts|)
  }

  /** How many targets the loop reaches before it sees the campaign no
      longer active: `seen(k)` is the status `refresh_from_db` reads before
      the target at position `k`. */
  function Reached(seen: nat -> CampaignStatus, n: nat, k: nat): (r: nat)
    requires k <= n
    ensures k <= r <= n
    ensures forall j :: k <= j < r ==> seen(j) == Active
    ensures r < n ==> seen(r) != Active
    decreases n - k
  {
    if k == n || seen(k) != Active then k else Reached(seen, n, k + 1)
  }

  /** A target the loop reached: pitched, at the time the clock gave. */
  function PitchedRow(t: CampaignTarget, at: Instant): CampaignTarget {
    t.(status := Pitched, pitchedAt := Some(at))
  }

  /** The table after the loop pitched the targets `idxs`, the `j`-th at
      `clock(j)`. */
  function PitchAll(ts: seq<CampaignTarget>, idxs: seq<nat>, clock: nat -> Instant): (r: seq<CampaignTarget>)
    requires forall k :: 0 <= k < |idxs| ==> idxs[k] < |ts|
    ensures |r| == |ts|
    decreases |idxs|
  {
    if idxs == [] then ts
    else
      var m := PitchAll(ts, idxs[..|idxs| - 1], clock);
      var i := idxs[|idxs| - 1];
      m[i := PitchedRow(m[i], clock(|idxs| - 1))]
  }

  /** Pitching distinct targets changes exactly those rows, each only in
      its status and pitch time. */
  lemma {:induction false} PitchAllRows(ts: seq<CampaignTarget>, idxs: seq<nat>, clock: nat -> Instant)
    requires forall k :: 0 <= k < |idxs| ==> idxs[k] < |ts|
    requires forall j, k :: 0 <= j < k < |idxs| ==> idxs[j] != idxs[k]
    ensures forall j :: 0 <= j < |idxs| ==> PitchAll(ts, idxs, clock)[idxs[j]] == PitchedRow(ts[idxs[j]], clock(j))
    ensures forall i :: 0 <= i < |ts| && i !in idxs ==> PitchAll(ts, idxs, clock)[i] == ts[i]
    decreases |idxs|
  {
    if idxs != [] {
      var init := idxs[..|idxs| - 1];
      PitchAllRows(ts, init, clock);
      assert idxs == init + [idxs[|idxs| - 1]];
    }
  }

  /** Pitching leaves every row's id, campaign and customer alone, so the
      table stays valid. */
  lemma {:induction false} PitchAllValid(ts: seq<CampaignTarget>, idxs: seq<nat>, clock: nat -> Instant, nc: nat, nk: nat)
    requires forall k :: 0 <= k < |idxs| ==> idxs[k] < |ts|
    requires TargetsValid(ts, nc, nk)
    ensures TargetsValid(PitchAll(ts, idxs, clock), nc, nk)
    decreases |idxs|
  {
    if idxs != [] {
      var init := idxs[..|idxs| - 1];
      PitchAllValid(ts, init, clock, nc, nk);
      var m := PitchAll(ts, init, clock);
      var i := idxs[|idxs| - 1];
      var r := m[i := PitchedRow(m[i], clock(|idxs| - 1))];
      assert forall j :: 0 <= j < |r| ==> TargetKey(r[j]) == TargetKey(m[j]) && r[j].id == m[j].id;
    }
  }

  lemma PitchAllSnoc(ts: seq<CampaignTarget>, idxs: seq<nat>, clock: nat -> Instant, k: nat)
    requires k < |idxs| && forall j :: 0 <= j < |idxs| ==> idxs[j] < |ts|
    ensures var m := PitchAll(ts, idxs[..k], clock);
      PitchAll(ts, idxs[..k + 1], clock) == m[idxs[k] := PitchedRow(m[idxs[k]], clock(k))]
  {
    assert idxs[..k + 1][..k] == idxs[..k];
  }

  /** `async_generate_pitch.delay(...)` for a target: a professional
      initial pitch for its customer within the campaign. */
  function TargetJob(t: CampaignTarget): PitchViews.PitchJob {
    PitchViews.GenerateJob(t.customer, PitchModels.Professional, PitchModels.Initial, None, Some(t.campaign), "")
  }

  /** The jobs enqueued for the targets `idxs`, in order. */
  function Jobs(ts: seq<CampaignTarget>, idxs: seq<nat>): (r: seq<PitchViews.PitchJob>)
    requires forall k :: 0 <= k < |idxs| ==> idxs[k] < |ts|
    ensures |r| == |idxs| && forall k :: 0 <= k < |idxs| ==> r[k] == TargetJob(ts[idxs[k]])
  {
    seq(|idxs|, k requires 0 <= k < |idxs| => TargetJob(ts[idxs[k]]))
  }

  lemma JobsSnoc(ts: seq<CampaignTarget>, idxs: seq<nat>, k: nat)
    requires k < |idxs| && forall j :: 0 <= j < |idxs| ==> idxs[j] < |ts|
    ensures Jobs(ts, idxs[..k + 1]) == Jobs(ts, idxs[..k]) + [TargetJob(ts[idxs[k]])]
  {
    assert Jobs(ts, idxs[..k + 1])[k] == TargetJob(ts[idxs[k]]);
  }

  /** What `execute_campaign` returns once it ran. */
  function LaunchReport(c: nat, launched: nat): Json {
    JObj([("status", JStr("success")), ("campaign_id", JStr(IdText(c))), ("pitches_launched", JNum(launched as real))])
  }

  /** What it returns for a campaign that is not active. */
  const NotActive: Json := JObj([("status", JStr("skipped")), ("reason", JStr("Campaign not active"))])

  /** The loop of `execute_campaign` over the pending targets `p`: before
      each target the campaign is re-read, and the loop stops at the first
      reading that is not active; each target reached gets a pitch job and
      is marked pitched. */
  method PitchPending(ts: seq<CampaignTarget>, p: seq<nat>, seen: nat -> CampaignStatus, clock: nat -> Instant)
    returns (rows: seq<CampaignTarget>, jobs: seq<PitchViews.PitchJob>, launched: nat)
    requires forall j :: 0 <= j < |p| ==> p[j] < |ts|
    ensures launched == Reached(seen, |p|, 0)
    ensures rows == PitchAll(ts, p[..launched], clock)
    ensures jobs == Jobs(ts, p[..launched])
  {
    rows, jobs, launched := ts, [], 0;
    while launched < |p|
      invariant launched <= |p|
      invariant forall j :: 0 <= j < launched ==> seen(j) == Active
      invariant rows == PitchAll(ts, p[..launched], clock)
      invariant jobs == Jobs(ts, p[..launched])
    {
      if seen(launched) != Active {
        break;
      }
      PitchAllSnoc(ts, p, clock, launched);
      JobsSnoc(ts, p, launched);
      jobs := jobs + [TargetJob(ts[p[launched]])];
      rows := rows[p[launched] := PitchedRow(rows[p[launched]], clock(launched))];
      launched := launched + 1;
    }
    ReachedFrom(seen, |p|, launched);
  }

  /** The first inactive reading is where counting from 0 stops. */
  lemma ReachedFrom(seen: nat -> CampaignStatus, n: nat, k: nat)
    requires k <= n
    requires forall j :: 0 <= j < k ==> seen(j) == Active
    requires k < n ==> seen(k) != Active
    ensures Reached(seen, n, 0) == k
  {
    ReachedFromAt(seen, n, k, 0);
  }

  lemma {:induction false} ReachedFromAt(seen: nat -> CampaignStatus, n: nat, k: nat, i: nat)
    requires i <= k <= n
    requires forall j :: i <= j < k ==> seen(j) == Active
    requires k < n ==> seen(k) != Active
    ensures Reached(seen, n, i) == k
    decreases k - i
  {
    if i < k {
      ReachedFromAt(seen, n, k, i + 1);
    }
  }

  /** `execute_campaign`: a missing campaign raises (and the Celery task retries);
      a campaign that is not active is skipped; otherwise its pending
      targets are pitched in order until the campaign is seen paused, and
      the number pitched is reported. Only the target table changes. */
  method ExecuteCampaign(db: Db, c: nat, seen: nat -> CampaignStatus, clock: nat -> Instant)
    returns (r: Result<Json>, jobs: seq<PitchViews.PitchJob>)
    requires db.Valid()
    modifies db`targets
    ensures db.Valid()
    ensures c >= |db.campaigns| ==>
      r == Err("Campaign matching query does not exist.") && jobs == [] && db.targets == old(db.targets)
    ensures c < |db.campaigns| && db.campaigns[c].status != Active ==>
      r == Ok(NotActive) && jobs == [] && db.targets == old(db.targets)
    ensures c < |db.campaigns| && db.campaigns[c].status == Active ==>
      var p := PendingTargets(old(db.targets), c);
      var n := Reached(seen, |p|, 0);
      db.targets == PitchAll(old(db.targets), p[..n], clock)
      && jobs == Jobs(old(db.targets), p[..n]) && r == Ok(LaunchReport(c, n))
  {
    if c >= |db.campaigns| {
      return Err("Campaign matching query does not exist."), [];
    }
    if db.campaigns[c].status != Active {
      return Ok(NotActive), [];
    }
    var p := PendingTargets(db.targets, c);
    var rows, launched;
    rows, jobs, launched := PitchPending(db.targets, p, seen, clock);
    PitchAllValid(db.targets, p[..launched], clock, |db.campaigns|, |db.customers|);
    StoreTargets(db, rows);
    r := Ok(LaunchReport(c, launched));
  }

  /** The targets a run reached: the `j`-th is pitched at `clock(j)` and
      asked one professional initial pitch for its customer within the
      campaign; every row the run did not reach is as before. */
  lemma ReachedPitched(ts: seq<CampaignTarget>, c: nat, seen: nat -> CampaignStatus, clock: nat -> Instant)
    ensures var p := PendingTargets(ts, c);
      var n := Reached(seen, |p|, 0);
      var after := PitchAll(ts, p[..n], clock);
      (forall j :: 0 <= j < n ==>
         after[p[j]] == PitchedRow(ts[p[j]], clock(j))
         && Jobs(ts, p[..n])[j] == PitchViews.GenerateJob(ts[p[j]].customer, PitchModels.Professional,
                                                         PitchModels.Initial, None, Some(c), ""))
      && (forall i :: 0 <= i < |ts| && i !in p[..n] ==> after[i] == ts[i])
  {
    var p := PendingTargets(ts, c);
    PitchAllRows(ts, p[..Reached(seen, |p|, 0)], clock);
  }

  /** The pending targets a run did not reach stay pending. */
  lemma UnreachedPending(ts: seq<CampaignTarget>, c: nat, seen: nat -> CampaignStatus, clock: nat -> Instant)
    ensures var p := PendingTargets(ts, c);
      var n := Reached(seen, |p|, 0);
      forall j :: n <= j < |p| ==> PitchAll(ts, p[..n], clock)[p[j]].status == Pending
  {
    var p := PendingTargets(ts, c);
    var n := Reached(seen, |p|, 0);
    var pre := p[..n];
    PitchAllRows(ts, pre, clock);
    forall j | n <= j < |p| ensures PitchAll(ts, pre, clock)[p[j]].status == Pending {
      assert p[j] !in pre;
    }
  }

  /** A run that saw the campaign active before every target pitches them
      all, and leaves no target of the campaign pending. */
  lemma FullRunPitchesAll(ts: seq<CampaignTarget>, c: nat, clock: nat -> Instant)
    ensures var p := PendingTargets(ts, c);
      Reached((k: nat) => Active, |p|, 0) == |p| && StatusCount(PitchAll(ts, p, clock), c, Pending) == 0
  {
    var p := PendingTargets(ts, c);
    ReachedFrom((k: nat) => Active, |p|, |p|);
    PitchAllRows(ts, p, clock);
    var after := PitchAll(ts, p, clock);
    forall i | 0 <= i < |after| ensures !(after[i].campaign == c && after[i].status == Pending) {
      if i in p {
        var j :| 0 <= j < |p| && p[j] == i;
        assert after[i] == PitchedRow(ts[i], clock(j));
      }
    }
  }

  // -------------------------------------------------- update_campaign_metrics

  /** The metrics dictionary stored on the campaign: the target counts and
      the shares of pitched, responded and converted targets. */
  function StoredMetrics(st: TargetStats): Fields {
    [("total_targets", JNum(st.total as real)), ("pitched", JNum(st.pitched as real)),
     ("responded", JNum(st.responded as real)), ("converted", JNum(st.converted as real)),
     ("rejected", JNum(st.rejected as real)), ("open_rate", JNum(st.pitchRate)),
     ("response_rate", JNum(st.responseRate)), ("conversion_rate", JNum(st.conversionRate))]
  }

  /** The campaign after a refresh: the new metrics, and an active campaign
      with no pending target is completed now. */
  function Refreshed(cm: Campaign, ts: seq<CampaignTarget>, c: nat, now: Instant): (r: Campaign)
    ensures r.metrics == StoredMetrics(Stats(ts, c))
    ensures r.status == Completed <==>
      cm.status == Completed || (cm.status == Active && StatusCount(ts, c, Pending) == 0)
    ensures r.status != cm.status ==> cm.status == Active && r.status == Completed && r.endDate == Some(now)
    ensures r.status == cm.status ==> r.endDate == cm.endDate
    ensures r.(metrics := cm.metrics, status := cm.status, endDate := cm.endDate) == cm
  {
    var m := cm.(metrics := StoredMetrics(Stats(ts, c)));
    if StatusCount(ts, c, Pending) == 0 && cm.status == Active then m.(status := Completed, endDate := Some(now))
    else m
  }

  /** Row `c` of the campaign table becomes `cm`, which keeps its id. */
  method StoreCampaign(db: Db, c: nat, cm: Campaign)
    requires db.Valid() && c < |db.campaigns| && cm.id == db.campaigns[c].id
    modifies db`campaigns
    ensures db.Valid() && db.campaigns == old(db.campaigns)[c := cm]
  {
    db.campaigns := db.campaigns[c := cm];
  }

  /** `update_campaign_metrics`: failures come back as an error dictionary;
      a campaign without targets is left alone; otherwise the metrics are
      stored and the campaign may complete. The campaign is found whether
      it is listed or not. */
  method UpdateMetrics(db: Db, c: nat, now: Instant) returns (r: Json)
    requires db.Valid()
    modifies db`campaigns
    ensures db.Valid()
    ensures c >= |old(db.campaigns)| ==>
      r == JObj([("status", JStr("error")), ("error", JStr("Campaign matching query does not exist."))])
      && db.campaigns == old(db.campaigns)
    ensures c < |old(db.campaigns)| && TargetCount(db.targets, c) == 0 ==>
      r == JObj([("status", JStr("no_targets"))]) && db.campaigns == old(db.campaigns)
    ensures c < |old(db.campaigns)| && TargetCount(db.targets, c) > 0 ==>
      db.campaigns == old(db.campaigns)[c := Refreshed(old(db.campaigns)[c], db.targets, c, now)]
      && r == JObj([("status", JStr("success")), ("metrics", JObj(StoredMetrics(Stats(db.targets, c))))])
  {
    if c >= |db.campaigns| {
      return JObj([("status", JStr("error")), ("error", JStr("Campaign matching query does not exist."))]);
    }
    if TargetCount(db.targets, c) == 0 {
      return JObj([("status", JStr("no_targets"))]);
    }
    StoreCampaign(db, c, Refreshed(db.campaigns[c], db.targets, c, now));
    r := JObj([("status", JStr("success")), ("metrics", JObj(StoredMetrics(Stats(db.targets, c))))]);
  }

  /** A run that saw the campaign active throughout, followed by a refresh,
      completes the campaign. */
  lemma FullRunCompletes(cm: Campaign, ts: seq<CampaignTarget>, c: nat, clock: nat -> Instant, now: Instant)
    requires cm.status == Active
    ensures var after := PitchAll(ts, PendingTargets(ts, c), clock);
      Refreshed(cm, after, c, now).status == Completed && Refreshed(cm, after, c, now).endDate == Some(now)
  {
    FullRunPitchesAll(ts, c, clock);
  }
}
