/** The campaign endpoints: adding customers as targets, launching and
    pausing a campaign, and its target metrics. A campaign is reached only
    through the list of active campaigns. */
module CampaignViews {
  import opened Common
  import opened Calendar
  import opened CampaignModels
  import opened Store
  import Http

  /** The campaign is reachable: it exists and is active. */
  predicate Listed(cs: seq<Campaign>, c: nat) {
    c < |cs| && cs[c].isActive
  }

  /** Some target row pairs the campaign with the customer. */
  predicate Targeted(ts: seq<CampaignTarget>, c: nat, x: nat) {
    exists i :: 0 <= i < |ts| && ts[i].campaign == c && ts[i].customer == x
  }

  // ------------------------------------------------------------ add_targets

  /** The target table after a run of `get_or_create`, with the ids that
      were created and the ids that were already there, in request order. */
  datatype Addition = Addition(targets: seq<CampaignTarget>, created: seq<nat>, skipped: seq<nat>)

  /** `get_or_create` for each customer id in turn: an id whose pair already
      has a row is skipped, any other gets a new pending row. */
  function Added(ts: seq<CampaignTarget>, c: nat, ids: seq<nat>): (a: Addition)
    decreases |ids|
  {
    if ids == [] then Addition(ts, [], [])
    else GetOrCreate(Added(ts, c, ids[..|ids| - 1]), c, ids[|ids| - 1])
  }

  /** One `get_or_create`: the pair's row if there is one, else a new
      pending row. */
  function GetOrCreate(a: Addition, c: nat, x: nat): Addition {
    if FindKey(a.targets, TargetKey, (c, x)).Some? then a.(skipped := a.skipped + [x])
    else Addition(a.targets + [NewTarget(|a.targets|, c, x)], a.created + [x], a.skipped)
  }

  /** The request one id longer. */
  lemma AddedSnoc(ts: seq<CampaignTarget>, c: nat, ids: seq<nat>, i: nat)
    requires i < |ids|
    ensures Added(ts, c, ids[..i + 1]) == GetOrCreate(Added(ts, c, ids[..i]), c, ids[i])
  {
    assert ids[..i + 1][..i] == ids[..i];
  }

  /** Every id lands in exactly one of the two lists, and the table grows by
      one new pending row per created id, after the rows it had. */
  lemma {:induction false} AddedShape(ts: seq<CampaignTarget>, c: nat, ids: seq<nat>)
    ensures var a := Added(ts, c, ids);
      |a.created| + |a.skipped| == |ids|
      && |a.targets| == |ts| + |a.created| && a.targets[..|ts|] == ts
      && forall j :: 0 <= j < |a.created| ==> a.targets[|ts| + j] == NewTarget(|ts| + j, c, a.created[j])
    decreases |ids|
  {
    if ids != [] {
      AddedShape(ts, c, ids[..|ids| - 1]);
    }
  }

  /** The pairs with a row afterwards are those before and the campaign
      paired with every requested id. */
  lemma {:induction false} AddedPairs(ts: seq<CampaignTarget>, c: nat, ids: seq<nat>)
    ensures forall d, x :: Targeted(Added(ts, c, ids).targets, d, x) <==> Targeted(ts, d, x) || (d == c && x in ids)
    decreases |ids|
  {
    if ids != [] {
      var init := ids[..|ids| - 1];
      var last := ids[|ids| - 1];
      AddedPairs(ts, c, init);
      assert ids == init + [last];
      var a := Added(ts, c, init);
      if FindKey(a.targets, TargetKey, (c, last)).Some? {
        var i := FindKey(a.targets, TargetKey, (c, last)).value;
        assert a.targets[i].campaign == c && a.targets[i].customer == last;
      } else {
        var t := a.targets + [NewTarget(|a.targets|, c, last)];
        assert t[|a.targets|].campaign == c && t[|a.targets|].customer == last;
        forall d, x | Targeted(t, d, x)
          ensures Targeted(a.targets, d, x) || (d == c && x == last)
        {
          var i :| 0 <= i < |t| && t[i].campaign == d && t[i].customer == x;
          if i < |a.targets| {
            assert a.targets[i] == t[i];
          }
        }
        forall d, x | Targeted(a.targets, d, x)
          ensures Targeted(t, d, x)
        {
          var i :| 0 <= i < |a.targets| && a.targets[i].campaign == d && a.targets[i].customer == x;
          assert t[i] == a.targets[i];
        }
      }
    }
  }

  /** An id is created exactly when it was requested and its pair had no
      row, and no id is created twice. */
  lemma {:induction false} AddedCreated(ts: seq<CampaignTarget>, c: nat, ids: seq<nat>)
    ensures var a := Added(ts, c, ids);
      (forall x :: x in a.created <==> x in ids && !Targeted(ts, c, x))
      && forall j, k :: 0 <= j < k < |a.created| ==> a.created[j] != a.created[k]
    decreases |ids|
  {
    if ids != [] {
      var init := ids[..|ids| - 1];
      var last := ids[|ids| - 1];
      AddedCreated(ts, c, init);
      AddedPairs(ts, c, init);
      assert ids == init + [last];
      var a := Added(ts, c, init);
      assert Targeted(a.targets, c, last) <==> Targeted(ts, c, last) || last in init;
      if FindKey(a.targets, TargetKey, (c, last)).Some? {
        var i := FindKey(a.targets, TargetKey, (c, last)).value;
        assert a.targets[i].campaign == c && a.targets[i].customer == last;
        assert Added(ts, c, ids).created == a.created;
        forall x ensures x in a.created <==> x in ids && !Targeted(ts, c, x) {
          assert x in ids <==> x in init || x == last;
        }
      } else {
        assert !Targeted(a.targets, c, last) by {
          forall i | 0 <= i < |a.targets| ensures !(a.targets[i].campaign == c && a.targets[i].customer == last) {
            assert TargetKey(a.targets[i]) != (c, last);
          }
        }
        var r := a.created + [last];
        assert Added(ts, c, ids).created == r;
        forall x ensures x in r <==> x in ids && !Targeted(ts, c, x) {
          assert x in r <==> x in a.created || x == last;
          assert x in ids <==> x in init || x == last;
        }
        forall j, k | 0 <= j < k < |r| ensures r[j] != r[k] {
          assert r[j] == a.created[j];
          if k < |a.created| {
            assert r[k] == a.created[k];
          } else {
            assert r[j] in a.created;
          }
        }
      }
    }
  }

  /** A request whose every pair already has a row creates nothing and
      skips every id. */
  lemma {:induction false} AddedNothingNew(ts: seq<CampaignTarget>, c: nat, ids: seq<nat>)
    requires forall x :: x in ids ==> Targeted(ts, c, x)
    ensures Added(ts, c, ids) == Addition(ts, [], ids)
    decreases |ids|
  {
    if ids != [] {
      var init := ids[..|ids| - 1];
      var last := ids[|ids| - 1];
      assert ids == init + [last];
      AddedNothingNew(ts, c, init);
      assert Targeted(ts, c, last);
      var i :| 0 <= i < |ts| && ts[i].campaign == c && ts[i].customer == last;
      assert TargetKey(ts[i]) == (c, last);
    }
  }

  /** Adding the same customers twice: the second request creates nothing,
      skips them all and leaves the table as the first one left it. */
  lemma AddTargetsIdempotent(ts: seq<CampaignTarget>, c: nat, ids: seq<nat>)
    ensures var a := Added(ts, c, ids); Added(a.targets, c, ids) == Addition(a.targets, [], ids)
  {
    AddedPairs(ts, c, ids);
    AddedNothingNew(Added(ts, c, ids).targets, c, ids);
  }

  /** The table keeps its unique constraint, and every row stays valid when
      the requested customers exist. */
  lemma {:induction false} AddedValid(ts: seq<CampaignTarget>, nc: nat, nk: nat, c: nat, ids: seq<nat>)
    requires TargetsValid(ts, nc, nk) && c < nc
    requires forall k :: 0 <= k < |ids| ==> ids[k] < nk
    ensures TargetsValid(Added(ts, c, ids).targets, nc, nk)
    decreases |ids|
  {
    if ids != [] {
      var init := ids[..|ids| - 1];
      AddedValid(ts, nc, nk, c, init);
      var a := Added(ts, c, init);
      if FindKey(a.targets, TargetKey, (c, ids[|ids| - 1])).None? {
        AppendedValid(a.targets, nc, nk, c, ids[|ids| - 1]);
      }
    }
  }

  /** A new pending row for a pair without one keeps the table valid. */
  lemma AppendedValid(ts: seq<CampaignTarget>, nc: nat, nk: nat, c: nat, x: nat)
    requires TargetsValid(ts, nc, nk) && c < nc && x < nk
    requires FindKey(ts, TargetKey, (c, x)).None?
    ensures TargetsValid(ts + [NewTarget(|ts|, c, x)], nc, nk)
  {
    var t := ts + [NewTarget(|ts|, c, x)];
    forall i, j | 0 <= i < j < |t| ensures TargetKey(t[i]) != TargetKey(t[j]) {
      if j < |ts| {
        assert t[i] == ts[i] && t[j] == ts[j];
      } else {
        assert t[i] == ts[i];
      }
    }
  }

  /** `str(id)` for each id of a list. */
  function IdList(xs: seq<nat>): (r: Json)
    ensures r.JArr? && |r.items| == |xs|
    ensures forall i :: 0 <= i < |xs| ==> r.items[i] == JStr(IdText(xs[i]))
  {
    JArr(seq(|xs|, i requires 0 <= i < |xs| => JStr(IdText(xs[i]))))
  }

  /** The dictionary `add_targets` answers with. */
  function AddedBody(a: Addition): Json {
    JObj([("message", JStr("Added " + NatToString(|a.created|) + " targets, skipped "
                           + NatToString(|a.skipped|) + " duplicates")),
          ("created", IdList(a.created)), ("skipped", IdList(a.skipped))])
  }

  /** The target table becomes `ts`, a valid one. */
  method StoreTargets(db: Db, ts: seq<CampaignTarget>)
    requires db.Valid() && TargetsValid(ts, |db.campaigns|, |db.customers|)
    modifies db`targets
    ensures db.Valid() && db.targets == ts
  {
    db.targets := ts;
  }

  /** `add_targets`: 404 for a campaign outside the active list, 400 for an
      empty list of ids; otherwise `get_or_create` runs for each id in
      turn. An id naming no customer fails the insert with an integrity
      error, which surfaces as a server error; the rows created before it
      stay. */
  method AddTargets(db: Db, c: nat, ids: seq<nat>) returns (r: Result<Http.Response>)
    requires db.Valid()
    modifies db`targets
    ensures db.Valid()
    ensures !Listed(db.campaigns, c) ==>
      r == Ok(Http.NotFound) && db.targets == old(db.targets)
    ensures Listed(db.campaigns, c) && ids == [] ==>
      r == Ok(Http.Invalid("customer_ids", "Ensure this field has at least 1 elements."))
      && db.targets == old(db.targets)
    ensures Listed(db.campaigns, c) && ids != [] && (forall k :: 0 <= k < |ids| ==> ids[k] < |db.customers|) ==>
      var a := Added(old(db.targets), c, ids);
      db.targets == a.targets && r == Ok(Http.Response(Http.OK, AddedBody(a)))
    ensures r.Err? ==>
      r.error == "IntegrityError"
      && exists k :: 0 <= k < |ids| && ids[k] >= |db.customers|
                     && (forall j :: 0 <= j < k ==> ids[j] < |db.customers|)
                     && db.targets == Added(old(db.targets), c, ids[..k]).targets
  {
    if !Listed(db.campaigns, c) {
      return Ok(Http.NotFound);
    }
    if ids == [] {
      return Ok(Http.Invalid("customer_ids", "Ensure this field has at least 1 elements."));
    }
    var a, rows, done := GetOrCreateAll(db.targets, c, ids, |db.customers|);
    AddedValid(db.targets, |db.campaigns|, |db.customers|, c, ids[..done]);
    StoreTargets(db, rows);
    if a.Ok? {
      assert ids[..done] == ids;
      r := Ok(Http.Response(Http.OK, AddedBody(a.value)));
    } else {
      r := Err(a.error);
    }
  }

  /** The loop of `add_targets`: `get_or_create` for each id in turn, until
      an id names none of the `nk` customers; `done` counts the ids that
      went through and `rows` is the table they leave. */
  method GetOrCreateAll(ts: seq<CampaignTarget>, c: nat, ids: seq<nat>, nk: nat)
    returns (r: Result<Addition>, rows: seq<CampaignTarget>, done: nat)
    ensures done <= |ids| && forall k :: 0 <= k < done ==> ids[k] < nk
    ensures rows == Added(ts, c, ids[..done]).targets
    ensures r.Ok? <==> done == |ids|
    ensures r.Ok? ==> r.value == Added(ts, c, ids)
    ensures r.Err? ==> r.error == "IntegrityError" && ids[done] >= nk
  {
    var a := Addition(ts, [], []);
    done := 0;
    while done < |ids| && ids[done] < nk
      invariant 0 <= done <= |ids|
      invariant forall k :: 0 <= k < done ==> ids[k] < nk
      invariant a == Added(ts, c, ids[..done])
    {
      AddedSnoc(ts, c, ids, done);
      a := GetOrCreate(a, c, ids[done]);
      done := done + 1;
    }
    rows := a.targets;
    if done < |ids| {
      // Every stored row names a customer, so an id naming none is never
      // found and reaches the insert, which fails.
      r := Err("IntegrityError");
    } else {
      assert ids[..done] == ids;
      r := Ok(a);
    }
  }

  // ------------------------------------------------------- launch and pause

  /** Why `launch` refuses, if it does: the campaign must be a draft or
      paused, and must have targets. */
  function LaunchRefusal(cm: Campaign, targets: nat): (r: Option<string>)
    ensures r.None? <==> (cm.status == Draft || cm.status == Paused) && targets > 0
  {
    if !(cm.status == Draft || cm.status == Paused) then
      Some("Cannot launch campaign with status: " + cm.status.Code())
    else if targets == 0 then Some("Campaign has no targets. Add targets before launching.")
    else None
  }

  /** The launched campaign: active, started now unless it had started
      before. */
  function Launched(cm: Campaign, now: Instant): (r: Campaign)
    ensures r.status == Active && r.startDate.Some?
    ensures cm.startDate.Some? ==> r.startDate == cm.startDate
    ensures r.(status := cm.status, startDate := cm.startDate) == cm
  {
    cm.(status := Active, startDate := Some(cm.startDate.GetOr(now)))
  }

  /** Why `pause` refuses, if it does: only an active campaign pauses. */
  function PauseRefusal(cm: Campaign): (r: Option<string>)
    ensures r.None? <==> cm.status == Active
  {
    if cm.status != Active then Some("Cannot pause campaign with status: " + cm.status.Code()) else None
  }

  /** A start date is set once: launching, pausing and launching again
      keeps the date of the first launch, and a running campaign cannot be
      launched a second time. */
  lemma {:induction false} RelaunchKeepsStart(cm: Campaign, targets: nat, t1: Instant, t2: Instant)
    requires LaunchRefusal(cm, targets).None?
    ensures LaunchRefusal(Launched(cm, t1), targets).Some?
    ensures PauseRefusal(Launched(cm, t1)).None?
    ensures var p := Launched(cm, t1).(status := Paused);
      LaunchRefusal(p, targets).None? && Launched(p, t2).startDate == Some(cm.startDate.GetOr(t1))
  {
  }

  /** The status moves the two actions allow. */
  predicate Moves(from: CampaignStatus, to: CampaignStatus) {
    ((from == Draft || from == Paused) && to == Active) || (from == Active && to == Paused)
  }

  /** The response of a successful `launch`. */
  function LaunchedBody(c: nat, taskId: string, targets: nat): Json {
    JObj([("message", JStr("Campaign launched successfully")), ("campaign_id", JStr(IdText(c))),
          ("task_id", JStr(taskId)), ("target_count", JNum(targets as real))])
  }

  /** `launch`: 404 outside the active list, 400 with the reason when
      refused; otherwise the campaign becomes active, keeps or gets its
      start date, and its execution is enqueued. Nothing but that row
      changes. */
  method Launch(db: Db, c: nat, now: Instant, taskId: string) returns (r: Http.Response, job: Option<nat>)
    requires db.Valid()
    modifies db`campaigns
    ensures db.Valid()
    ensures job.Some? <==> r.code == Http.OK
    ensures !Listed(old(db.campaigns), c) ==>
      r == Http.NotFound && db.campaigns == old(db.campaigns)
    ensures Listed(old(db.campaigns), c) && LaunchRefusal(old(db.campaigns)[c], TargetCount(db.targets, c)).Some? ==>
      r == Http.Failure(Http.BAD_REQUEST, LaunchRefusal(old(db.campaigns)[c], TargetCount(db.targets, c)).value)
      && db.campaigns == old(db.campaigns)
    ensures Listed(old(db.campaigns), c) && LaunchRefusal(old(db.campaigns)[c], TargetCount(db.targets, c)).None? ==>
      db.campaigns == old(db.campaigns)[c := Launched(old(db.campaigns)[c], now)]
      && Moves(old(db.campaigns)[c].status, db.campaigns[c].status)
      && job == Some(c) && r == Http.Response(Http.OK, LaunchedBody(c, taskId, TargetCount(db.targets, c)))
  {
    if !Listed(db.campaigns, c) {
      return Http.NotFound, None;
    }
    var n := TargetCount(db.targets, c);
    var refusal := LaunchRefusal(db.campaigns[c], n);
    if refusal.Some? {
      return Http.Failure(Http.BAD_REQUEST, refusal.value), None;
    }
    db.campaigns := db.campaigns[c := Launched(db.campaigns[c], now)];
    r, job := Http.Response(Http.OK, LaunchedBody(c, taskId, n)), Some(c);
  }

  /** `pause`: 404 outside the active list, 400 unless active; otherwise
      the campaign is paused and nothing else changes. */
  method Pause(db: Db, c: nat) returns (r: Http.Response)
    requires db.Valid()
    modifies db`campaigns
    ensures db.Valid()
    ensures !Listed(old(db.campaigns), c) ==>
      r == Http.NotFound && db.campaigns == old(db.campaigns)
    ensures Listed(old(db.campaigns), c) && PauseRefusal(old(db.campaigns)[c]).Some? ==>
      r == Http.Failure(Http.BAD_REQUEST, PauseRefusal(old(db.campaigns)[c]).value)
      && db.campaigns == old(db.campaigns)
    ensures Listed(old(db.campaigns), c) && PauseRefusal(old(db.campaigns)[c]).None? ==>
      db.campaigns == old(db.campaigns)[c := old(db.campaigns)[c].(status := Paused)]
      && Moves(old(db.campaigns)[c].status, db.campaigns[c].status)
      && r == Http.Response(Http.OK, JObj([("message", JStr("Campaign paused")), ("campaign_id", JStr(IdText(c)))]))
  {
    if !Listed(db.campaigns, c) {
      return Http.NotFound;
    }
    var refusal := PauseRefusal(db.campaigns[c]);
    if refusal.Some? {
      return Http.Failure(Http.BAD_REQUEST, refusal.value);
    }
    db.campaigns := db.campaigns[c := db.campaigns[c].(status := Paused)];
    r := Http.Response(Http.OK, JObj([("message", JStr("Campaign paused")), ("campaign_id", JStr(IdText(c)))]));
  }

  // ---------------------------------------------------------------- metrics

  /** The target counts of a campaign and the share of each status. */
  datatype TargetStats = TargetStats(
    total: nat, pitched: nat, responded: nat, converted: nat, rejected: nat,
    pitchRate: real, responseRate: real, conversionRate: real, rejectionRate: real)

  /** Every target of a campaign has exactly one of the five statuses. */
  lemma {:induction false} StatusPartition(ts: seq<CampaignTarget>, c: nat)
    ensures StatusCount(ts, c, Pending) + StatusCount(ts, c, Pitched) + StatusCount(ts, c, Responded)
            + StatusCount(ts, c, Converted) + StatusCount(ts, c, Rejected) == TargetCount(ts, c)
  {
    if ts != [] {
      StatusPartition(ts[1..], c);
    }
  }

  /** Shares of one whole add up like their parts. */
  lemma RatioAdd(a: real, b: real, whole: real)
    ensures Ratio(a, whole) + Ratio(b, whole) == Ratio(a + b, whole)
  {
    if whole > 0.0 {
      assert Ratio(a, whole) == a / whole && Ratio(b, whole) == b / whole;
      assert a / whole + b / whole == (a + b) / whole;
    }
  }

  /** Four shares of one whole whose parts add up to at most the whole add
      up to at most one. */
  lemma SharesAtMostOne(total: nat, p: nat, s: nat, v: nat, j: nat)
    requires p + s + v + j <= total
    ensures Ratio(p as real, total as real) + Ratio(s as real, total as real)
            + Ratio(v as real, total as real) + Ratio(j as real, total as real) <= 1.0
  {
    RatioAdd(p as real, s as real, total as real);
    RatioAdd((p + s) as real, v as real, total as real);
    RatioAdd((p + s + v) as real, j as real, total as real);
    assert Ratio((p + s + v + j) as real, total as real) <= 1.0;
  }

  /** The shares of four counts of one total: each is the count's part of
      the total (0 when the total is 0) and lies in [0, 1], and when the
      counts add up to at most the total, so do the shares to at most 1. */
  function Shares(total: nat, p: nat, s: nat, v: nat, j: nat): (r: TargetStats)
    requires p + s + v + j <= total
    ensures r.total == total && r.pitched == p && r.responded == s && r.converted == v && r.rejected == j
    ensures r.pitchRate == Ratio(p as real, total as real) && r.responseRate == Ratio(s as real, total as real)
    ensures r.conversionRate == Ratio(v as real, total as real) && r.rejectionRate == Ratio(j as real, total as real)
    ensures r.pitchRate + r.responseRate + r.conversionRate + r.rejectionRate <= 1.0
  {
    var r := TargetStats(total, p, s, v, j, Ratio(p as real, total as real), Ratio(s as real, total as real),
                         Ratio(v as real, total as real), Ratio(j as real, total as real));
    SharesAtMostOne(total, p, s, v, j);
    r
  }

  /** The counts and rates of the `metrics` action, from the five status
      counts of the campaign's targets. */
  function Stats(ts: seq<CampaignTarget>, c: nat): (r: TargetStats)
    ensures r.total == TargetCount(ts, c)
    ensures r.pitched == StatusCount(ts, c, Pitched) && r.responded == StatusCount(ts, c, Responded)
    ensures r.converted == StatusCount(ts, c, Converted) && r.rejected == StatusCount(ts, c, Rejected)
    ensures r.pitchRate == Ratio(r.pitched as real, r.total as real)
    ensures r.responseRate == Ratio(r.responded as real, r.total as real)
    ensures r.conversionRate == Ratio(r.converted as real, r.total as real)
    ensures r.rejectionRate == Ratio(r.rejected as real, r.total as real)
    ensures 0.0 <= r.pitchRate && 0.0 <= r.responseRate && 0.0 <= r.conversionRate && 0.0 <= r.rejectionRate
    ensures r.pitchRate + r.responseRate + r.conversionRate + r.rejectionRate <= 1.0
  {
    StatusPartition(ts, c);
    Shares(TargetCount(ts, c), StatusCount(ts, c, Pitched), StatusCount(ts, c, Responded),
           StatusCount(ts, c, Converted), StatusCount(ts, c, Rejected))
  }

  /** `metrics`: 404 outside the active list; otherwise the counts, the
      rates and the metrics last stored on the campaign. */
  function MetricsView(cs: seq<Campaign>, ts: seq<CampaignTarget>, c: nat): (r: Http.Response)
    ensures !Listed(cs, c) ==> r == Http.NotFound
    ensures Listed(cs, c) ==>
      r.code == Http.OK && r.body.JObj? && |r.body.fields| == 11
      && r.body.fields[0] == ("campaign_id", JStr(IdText(c)))
      && var st := Stats(ts, c);
      r.body.fields[1..10] == [
        ("total_targets", JNum(st.total as real)), ("pitched", JNum(st.pitched as real)),
        ("responded", JNum(st.responded as real)), ("converted", JNum(st.converted as real)),
        ("rejected", JNum(st.rejected as real)), ("pitch_rate", JNum(st.pitchRate)),
        ("response_rate", JNum(st.responseRate)), ("conversion_rate", JNum(st.conversionRate)),
        ("rejection_rate", JNum(st.rejectionRate))]
      && r.body.fields[10] == ("stored_metrics", JObj(cs[c].metrics))
  {
    if !Listed(cs, c) then Http.NotFound
    else
      var st := Stats(ts, c);
      Http.Response(Http.OK, JObj([
        ("campaign_id", JStr(IdText(c))), ("total_targets", JNum(st.total as real)),
        ("pitched", JNum(st.pitched as real)), ("responded", JNum(st.responded as real)),
        ("converted", JNum(st.converted as real)), ("rejected", JNum(st.rejected as real)),
        ("pitch_rate", JNum(st.pitchRate)), ("response_rate", JNum(st.responseRate)),
        ("conversion_rate", JNum(st.conversionRate)), ("rejection_rate", JNum(st.rejectionRate)),
        ("stored_metrics", JObj(cs[c].metrics))]))
  }
}
