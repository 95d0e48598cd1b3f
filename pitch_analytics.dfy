/** The summary the pitch analytics list returns: the daily trend of the
    last `days` days, the distribution of scores over five ranges and the
    five pitches with the best mean score. */
module PitchAnalytics {
  import opened Common
  import opened Calendar
  import opened PitchModels
  import opened Ranking
  import opened AnalyticsDashboard

  // --------------------------------------------------------------- trends

  /** `r` holds the creation days of the pitches of `ps` that `keep`
      accepts, each once. */
  predicate DaysOf(ps: seq<Pitch>, keep: Pitch -> bool, r: seq<Day>) {
    (forall k :: 0 <= k < |r| ==>
       exists i :: 0 <= i < |ps| && keep(ps[i]) && ps[i].createdAt.date == r[k])
    && (forall i :: 0 <= i < |ps| && keep(ps[i]) ==> ps[i].createdAt.date in r)
    && Distinct(r)
  }

  /** The distinct creation days of the pitches `keep` accepts. */
  function DaysWhere(ps: seq<Pitch>, keep: Pitch -> bool): (r: seq<Day>)
    ensures DaysOf(ps, keep, r)
  {
    if ps == [] then []
    else
      var rest := DaysWhere(ps[1..], keep);
      var d := ps[0].createdAt.date;
      var r := if keep(ps[0]) && d !in rest then [d] + rest else rest;
      DaysCons(ps, keep, rest, r);
      r
  }

  /** Putting the first pitch's day in front of the days of the others,
      unless it is there already or `keep` rejects the pitch. */
  lemma DaysCons(ps: seq<Pitch>, keep: Pitch -> bool, rest: seq<Day>, r: seq<Day>)
    requires ps != [] && DaysOf(ps[1..], keep, rest)
    requires var d := ps[0].createdAt.date;
      r == if keep(ps[0]) && d !in rest then [d] + rest else rest
    ensures DaysOf(ps, keep, r)
  {
    DaysConsFrom(ps, keep, rest, r);
    DaysConsCover(ps, keep, rest, r);
    if r != rest {
      DistinctCons(ps[0].createdAt.date, rest);
    }
  }

  /** Every day of the longer list comes from a pitch `keep` accepts. */
  lemma DaysConsFrom(ps: seq<Pitch>, keep: Pitch -> bool, rest: seq<Day>, r: seq<Day>)
    requires ps != [] && DaysOf(ps[1..], keep, rest)
    requires var d := ps[0].createdAt.date;
      r == if keep(ps[0]) && d !in rest then [d] + rest else rest
    ensures forall k :: 0 <= k < |r| ==>
      exists i :: 0 <= i < |ps| && keep(ps[i]) && ps[i].createdAt.date == r[k]
  {
    var d := ps[0].createdAt.date;
    var off := if keep(ps[0]) && d !in rest then 1 else 0;
    forall k | 0 <= k < |r|
      ensures exists i :: 0 <= i < |ps| && keep(ps[i]) && ps[i].createdAt.date == r[k]
    {
      if k < off {
        assert r[k] == d && keep(ps[0]);
      } else {
        assert r[k] == rest[k - off];
        var j :| 0 <= j < |ps[1..]| && keep(ps[1..][j]) && ps[1..][j].createdAt.date == rest[k - off];
        assert ps[j + 1] == ps[1..][j];
      }
    }
  }

  /** Every accepted pitch's day is in the longer list. */
  lemma DaysConsCover(ps: seq<Pitch>, keep: Pitch -> bool, rest: seq<Day>, r: seq<Day>)
    requires ps != [] && DaysOf(ps[1..], keep, rest)
    requires var d := ps[0].createdAt.date;
      r == if keep(ps[0]) && d !in rest then [d] + rest else rest
    ensures forall i :: 0 <= i < |ps| && keep(ps[i]) ==> ps[i].createdAt.date in r
  {
    forall i | 0 <= i < |ps| && keep(ps[i])
      ensures ps[i].createdAt.date in r
    {
      if i > 0 {
        assert ps[i] == ps[1..][i - 1];
      }
    }
  }

  /** A day not among distinct days keeps them distinct in front. */
  lemma DistinctCons(d: Day, rest: seq<Day>)
    requires Distinct(rest) && d !in rest
    ensures Distinct([d] + rest)
  {
    var r := [d] + rest;
    forall j, k | 0 <= j < k < |r| ensures r[j] != r[k] {
      assert r[k] == rest[k - 1];
      if j > 0 {
        assert r[j] == rest[j - 1];
      }
    }
  }

  /** The distinct creation days of the window's pitches. */
  function WindowDays(ps: seq<Pitch>, now: Instant, days: int): (r: seq<Day>)
  {
    DaysWhere(ps, (p: Pitch) => RecentPitch(p, now, days))
  }

  /** The sort key of `order_by('date')`. */
  function Earliest(d: Day): real {
    -(Ordinal(d) as real)
  }

  /** `.values('date').annotate(count=...).order_by('date')`: the days with
      pitches in the window, oldest first. */
  function TrendDays(ps: seq<Pitch>, now: Instant, days: int): seq<Day> {
    SortDesc(WindowDays(ps, now, days), Earliest)
  }

  /** Each day of the window that has a pitch appears exactly once, no other
      day appears, and the days are in calendar order. */
  lemma TrendDaysSpec(ps: seq<Pitch>, now: Instant, days: int)
    ensures var r := TrendDays(ps, now, days);
      Distinct(r)
      && (forall j, k :: 0 <= j < k < |r| ==> Ordinal(r[j]) <= Ordinal(r[k]))
      && (forall d :: d in r <==> exists i :: 0 <= i < |ps| && RecentPitch(ps[i], now, days) && ps[i].createdAt.date == d)
  {
    var w := WindowDays(ps, now, days);
    var r := TrendDays(ps, now, days);
    Rearranged(w, r);
    forall d ensures d in r <==> d in w {
      assert d in r <==> d in multiset(r);
    }
  }

  /** As written, `approved` counts the active approved pitches created on
      the day at any time, also before the cutoff. */
  function ApprovedOnDay(ps: seq<Pitch>, d: Date): nat {
    Count(ps, (p: Pitch) => p.isActive && p.createdAt.date == d && p.status == Approved)
  }

  /** The count the trend evidently means: the approved pitches among the
      day's pitches of the window. */
  function ApprovedInWindow(ps: seq<Pitch>, now: Instant, days: int, d: Date): nat {
    Count(ps, (p: Pitch) => RecentPitch(p, now, days) && p.createdAt.date == d && p.status == Approved)
  }

  /** The corrected count never exceeds the day's count. */
  lemma ApprovedWithinCount(ps: seq<Pitch>, now: Instant, days: int, d: Date)
    ensures ApprovedInWindow(ps, now, days, d) <= CreatedOn(ps, now, days, d)
  {
    CountImplies(ps, (p: Pitch) => RecentPitch(p, now, days) && p.createdAt.date == d && p.status == Approved,
                     (p: Pitch) => RecentPitch(p, now, days) && p.createdAt.date == d);
  }

  /** On every day that starts at or after the cutoff the two counts agree:
      they differ only on the cutoff's own day. */
  lemma ApprovedAgreesAfterCutoff(ps: seq<Pitch>, now: Instant, days: int, d: Date)
    requires ValidDate(d) && Ordinal(d) * 86400000000 >= Micros(now) - days * 86400000000
    ensures ApprovedOnDay(ps, d) == ApprovedInWindow(ps, now, days, d)
  {
    forall i | 0 <= i < |ps| && ps[i].isActive && ps[i].createdAt.date == d
      ensures RecentPitch(ps[i], now, days)
    {
      MicrosWithinDay(ps[i].createdAt);
    }
    CountImplies(ps, (p: Pitch) => p.isActive && p.createdAt.date == d && p.status == Approved,
                     (p: Pitch) => RecentPitch(p, now, days) && p.createdAt.date == d && p.status == Approved);
    CountImplies(ps, (p: Pitch) => RecentPitch(p, now, days) && p.createdAt.date == d && p.status == Approved,
                     (p: Pitch) => p.isActive && p.createdAt.date == d && p.status == Approved);
  }

  /** The cutoff of the example below: `days=1` at noon of 10 March 2024
      puts it at noon of 9 March. */
  function ExampleNow(): Instant {
    DateTime(Date(2024, 3, 10), 12, 0, 0, 0)
  }

  /** A draft created on 9 March after the cutoff and two approved pitches
      created that morning, before it. */
  function ExamplePitches(): seq<Pitch> {
    [NewPitch(0, 0, "a", "", DateTime(Date(2024, 3, 9), 13, 0, 0, 0)),
     NewPitch(1, 0, "b", "", DateTime(Date(2024, 3, 9), 9, 0, 0, 0)).(status := Approved),
     NewPitch(2, 0, "c", "", DateTime(Date(2024, 3, 9), 10, 0, 0, 0)).(status := Approved)]
  }

  lemma ExampleWindow()
    ensures var ps := ExamplePitches();
      RecentPitch(ps[0], ExampleNow(), 1) && !RecentPitch(ps[1], ExampleNow(), 1)
      && !RecentPitch(ps[2], ExampleNow(), 1)
  {
    assert Ordinal(Date(2024, 3, 9)) == 738954 && Ordinal(Date(2024, 3, 10)) == 738955;
  }

  /** 9 March is the only day of the example's trend. */
  lemma ExampleDays()
    ensures TrendDays(ExamplePitches(), ExampleNow(), 1) == [Date(2024, 3, 9)]
  {
    var ps := ExamplePitches();
    var d: Day := Date(2024, 3, 9);
    ExampleWindow();
    assert ps[1..] == [ps[1], ps[2]] && ps[1..][1..] == [ps[2]] && ps[1..][1..][1..] == [];
    var keep := (p: Pitch) => RecentPitch(p, ExampleNow(), 1);
    assert !keep(ps[2]) && !keep(ps[1]) && keep(ps[0]);
    assert DaysWhere([ps[2]], keep) == [];
    assert DaysWhere([ps[1], ps[2]], keep) == [];
    assert DaysWhere(ps, keep) == [d];
    assert SortDesc([d], Earliest) == Insert(d, [], Earliest) == [d];
  }

  /** In the example, the trend row of 9 March counts one pitch but, as
      written, two approved ones. */
  lemma ApprovedExceedsCount()
    ensures TrendDays(ExamplePitches(), ExampleNow(), 1) == [Date(2024, 3, 9)]
    ensures CreatedOn(ExamplePitches(), ExampleNow(), 1, Date(2024, 3, 9)) == 1
    ensures ApprovedOnDay(ExamplePitches(), Date(2024, 3, 9)) == 2
    ensures ApprovedInWindow(ExamplePitches(), ExampleNow(), 1, Date(2024, 3, 9)) == 0
  {
    ExampleDays();
    ExampleCreated();
    ExampleApprovedOnDay();
    ExampleApprovedInWindow();
  }

  lemma ExampleCreated()
    ensures CreatedOn(ExamplePitches(), ExampleNow(), 1, Date(2024, 3, 9)) == 1
  {
    var ps := ExamplePitches();
    ExampleWindow();
    assert ps[1..] == [ps[1], ps[2]] && ps[1..][1..] == [ps[2]] && ps[1..][1..][1..] == [];
  }

  lemma ExampleApprovedOnDay()
    ensures ApprovedOnDay(ExamplePitches(), Date(2024, 3, 9)) == 2
  {
    var ps := ExamplePitches();
    assert ps[1..] == [ps[1], ps[2]] && ps[1..][1..] == [ps[2]] && ps[1..][1..][1..] == [];
  }

  lemma ExampleApprovedInWindow()
    ensures ApprovedInWindow(ExamplePitches(), ExampleNow(), 1, Date(2024, 3, 9)) == 0
  {
    var ps := ExamplePitches();
    ExampleWindow();
    assert ps[1..] == [ps[1], ps[2]] && ps[1..][1..] == [ps[2]] && ps[1..][1..][1..] == [];
  }

  /** One entry of `trends`. */
  datatype TrendRow = TrendRow(day: Day, caption: string, count: nat, approved: nat)

  /** The trend row of a day as written: its `'%b %d'` label, its count
      and the approved count of `ApprovedOnDay`, which disregards the
      cutoff. */
  function WrittenRowOf(ps: seq<Pitch>, now: Instant, days: int, d: Day): (row: TrendRow)
    ensures row.day == d && row.caption == ShortLabel(d) && row.count == CreatedOn(ps, now, days, d)
    ensures row.approved == ApprovedOnDay(ps, d)
  {
    TrendRow(d, ShortLabel(d), CreatedOn(ps, now, days, d), ApprovedOnDay(ps, d))
  }

  /** The trend row of a day, corrected: how many of the day's pitches in
      the window are approved, which is never more than the count. */
  function RowOf(ps: seq<Pitch>, now: Instant, days: int, d: Day): (row: TrendRow)
    ensures row.day == d && row.caption == ShortLabel(d) && row.count == CreatedOn(ps, now, days, d)
    ensures row.approved == ApprovedInWindow(ps, now, days, d) && row.approved <= row.count
  {
    ApprovedWithinCount(ps, now, days, d);
    TrendRow(d, ShortLabel(d), CreatedOn(ps, now, days, d), ApprovedInWindow(ps, now, days, d))
  }

  /** `trends` as written: one row per day of the window that has pitches,
      oldest first, with the day's label, its count and the approved count
      of the whole day. */
  method Trends(ps: seq<Pitch>, now: Instant, days: int) returns (rows: seq<TrendRow>)
    ensures |rows| == |TrendDays(ps, now, days)|
    ensures forall k :: 0 <= k < |rows| ==> rows[k] == WrittenRowOf(ps, now, days, TrendDays(ps, now, days)[k])
  {
    rows := RowsOf(TrendDays(ps, now, days), (d: Day) => WrittenRowOf(ps, now, days, d));
  }

  /** `trends` corrected: the same rows, whose approved count is that of
      the pitches the row counts. */
  method CorrectedTrends(ps: seq<Pitch>, now: Instant, days: int) returns (rows: seq<TrendRow>)
    ensures |rows| == |TrendDays(ps, now, days)|
    ensures forall k :: 0 <= k < |rows| ==> rows[k] == RowOf(ps, now, days, TrendDays(ps, now, days)[k])
    ensures forall k :: 0 <= k < |rows| ==> rows[k].approved <= rows[k].count
  {
    rows := RowsOf(TrendDays(ps, now, days), (d: Day) => RowOf(ps, now, days, d));
  }

  /** The loop of `trends` over the grouped days. */
  method RowsOf(entries: seq<Day>, row: Day -> TrendRow) returns (rows: seq<TrendRow>)
    ensures |rows| == |entries|
    ensures forall k :: 0 <= k < |rows| ==> rows[k] == row(entries[k])
  {
    rows := [];
    for k := 0 to |entries|
      invariant |rows| == k
      invariant forall j :: 0 <= j < k ==> rows[j] == row(entries[j])
    {
      rows := rows + [row(entries[k])];
    }
  }

  // ------------------------------------------------- score distribution

  /** A score range `[low, high)` and its label. */
  datatype Bucket = Bucket(name: string, low: real, high: real)

  const Buckets: seq<Bucket> := [
    Bucket("0-20%", 0.0, 0.2), Bucket("20-40%", 0.2, 0.4), Bucket("40-60%", 0.4, 0.6),
    Bucket("60-80%", 0.6, 0.8), Bucket("80-100%", 0.8, 1.01)]

  predicate InBucket(x: real, b: Bucket) {
    b.low <= x < b.high
  }

  /** `PitchScore.objects.filter(score__gte=low, score__lt=high).count()`. */
  function BucketCount(scores: seq<PitchScore>, b: Bucket): nat {
    Count(scores, (s: PitchScore) => InBucket(s.score, b))
  }

  /** The ranges are contiguous: they start at 0, each ends where the next
      starts, and the last ends at 1.01. */
  lemma BucketsContiguous()
    ensures |Buckets| == 5 && Buckets[0].low == 0.0 && Buckets[4].high == 1.01
    ensures forall k :: 0 <= k < 4 ==> Buckets[k].high == Buckets[k + 1].low
  {
  }

  /** Every value in `[0, 1.01)`, hence every score of the 0–1 scale, lies in
      exactly one range. */
  function BucketOf(x: real): (k: nat)
    requires 0.0 <= x < 1.01
    ensures k < 5 && InBucket(x, Buckets[k])
    ensures forall j :: 0 <= j < 5 && InBucket(x, Buckets[j]) ==> j == k
  {
    if x < 0.2 then 0 else if x < 0.4 then 1 else if x < 0.6 then 2 else if x < 0.8 then 3 else 4
  }

  /** The row of range `k`: its label and the number of scores in it. */
  function DistributionRow(scores: seq<PitchScore>, k: nat): (string, nat)
    requires k < 5
  {
    (Buckets[k].name, BucketCount(scores, Buckets[k]))
  }

  /** `score_distribution`: the five ranges in order, each with its label
      and the number of scores in it. */
  method ScoreDistribution(scores: seq<PitchScore>) returns (dist: seq<(string, nat)>)
    ensures |dist| == 5
    ensures forall k :: 0 <= k < 5 ==> dist[k] == (Buckets[k].name, BucketCount(scores, Buckets[k]))
  {
    dist := [];
    for k := 0 to 5
      invariant |dist| == k
      invariant forall j :: 0 <= j < k ==> dist[j] == DistributionRow(scores, j)
    {
      dist := dist + [DistributionRow(scores, k)];
    }
  }

  function Distributed(scores: seq<PitchScore>): nat {
    BucketCount(scores, Buckets[0]) + BucketCount(scores, Buckets[1]) + BucketCount(scores, Buckets[2])
    + BucketCount(scores, Buckets[3]) + BucketCount(scores, Buckets[4])
  }

  /** The ranges never count a score twice, and when every score is in
      `[0, 1.01)` they count every score once. */
  lemma {:induction false} DistributionTotal(scores: seq<PitchScore>)
    ensures Distributed(scores) <= |scores|
    ensures (forall i :: 0 <= i < |scores| ==> 0.0 <= scores[i].score < 1.01) ==> Distributed(scores) == |scores|
  {
    if scores != [] {
      DistributionTotal(scores[1..]);
      assert forall i :: 1 <= i < |scores| ==> scores[i] == scores[1..][i - 1];
      var x := scores[0].score;
      if 0.0 <= x < 1.01 {
        var k := BucketOf(x);
      }
    }
  }

  // --------------------------------------------------------- top pitches

  /** The score values of one pitch's score rows. */
  function ScoresOf(scores: seq<PitchScore>, pitch: nat): seq<real> {
    if scores == [] then []
    else (if scores[0].pitch == pitch then [scores[0].score] else []) + ScoresOf(scores[1..], pitch)
  }

  /** An annotated pitch: its id and the mean of its scores. */
  datatype Ranked = Ranked(pitch: nat, avg: real)

  /** The pitch is active and has scores: the inner join keeps it. */
  predicate Eligible(ps: seq<Pitch>, scores: seq<PitchScore>, i: nat) {
    i < |ps| && ps[i].isActive && ScoresOf(scores, i) != []
  }

  /** The annotated row of an eligible pitch. */
  function RankOf(ps: seq<Pitch>, scores: seq<PitchScore>, i: nat): Ranked
    requires Eligible(ps, scores, i)
  {
    Ranked(i, Mean(ScoresOf(scores, i)))
  }

  /** The row is the annotated row of an eligible pitch. */
  predicate Annotated(ps: seq<Pitch>, scores: seq<PitchScore>, x: Ranked) {
    Eligible(ps, scores, x.pitch) && x == RankOf(ps, scores, x.pitch)
  }

  /** `Pitch.objects.filter(is_active=True, pitch_scores__isnull=False)
      .annotate(avg_score=Avg('pitch_scores__score'))` over the first `n`
      pitches: one annotated row per eligible pitch. */
  function ScoredBelow(ps: seq<Pitch>, scores: seq<PitchScore>, n: nat): (r: seq<Ranked>)
    requires n <= |ps|
    ensures forall k :: 0 <= k < |r| ==> r[k].pitch < n && Annotated(ps, scores, r[k])
    ensures forall i :: 0 <= i < n && Eligible(ps, scores, i) ==> RankOf(ps, scores, i) in r
  {
    if n == 0 then []
    else
      var rest := ScoredBelow(ps, scores, n - 1);
      if Eligible(ps, scores, n - 1) then
        var x := RankOf(ps, scores, n - 1);
        var r := rest + [x];
        forall k | 0 <= k < |r| ensures r[k].pitch < n && Annotated(ps, scores, r[k]) {
          if k < |rest| {
            assert r[k] == rest[k];
          }
        }
        forall i | 0 <= i < n && Eligible(ps, scores, i) ensures RankOf(ps, scores, i) in r {
          if i < n - 1 {
            assert RankOf(ps, scores, i) in rest;
          }
        }
        r
      else rest
  }

  function AvgOf(s: Ranked): real {
    s.avg
  }

  /** `.order_by('-avg_score')[:5]`. */
  function TopScored(ps: seq<Pitch>, scores: seq<PitchScore>): seq<Ranked> {
    Top(ScoredBelow(ps, scores, |ps|), AvgOf, 5)
  }

  /** The top list holds at most five rows, best first; with the rows left
      out it makes up all the annotated rows, and none left out has a
      better mean than one listed. */
  lemma TopScoredSpec(ps: seq<Pitch>, scores: seq<PitchScore>)
    ensures var all := ScoredBelow(ps, scores, |ps|); var r := TopScored(ps, scores);
      var rest := Rest(all, AvgOf, 5);
      |r| == (if |all| <= 5 then |all| else 5)
      && (forall j, k :: 0 <= j < k < |r| ==> r[j].avg >= r[k].avg)
      && multiset(all) == multiset(r) + multiset(rest)
      && forall k, j :: 0 <= k < |r| && 0 <= j < |rest| ==> rest[j].avg <= r[k].avg
  {
    TopSpec(ScoredBelow(ps, scores, |ps|), AvgOf, 5);
  }

  /** Every listed row is an active pitch with scores, shown with the mean
      of its scores. */
  lemma TopScoredRows(ps: seq<Pitch>, scores: seq<PitchScore>)
    ensures forall k :: 0 <= k < |TopScored(ps, scores)| ==> Annotated(ps, scores, TopScored(ps, scores)[k])
  {
    var all := ScoredBelow(ps, scores, |ps|);
    TopFrom(all, AvgOf, 5);
  }

  /** One entry of `top_pitches`. */
  function TopPitchJson(p: Pitch, customerName: string, avg: real): Json {
    JObj([("id", JStr(IdText(p.id))), ("title", JStr(p.title)), ("customer_name", JStr(customerName)),
          ("overall_score", JNum(avg)), ("pitch_type", JStr(p.pitchType.Code())),
          ("created_at", JStr(IsoFormat(p.createdAt)))])
  }

  /** `top_pitches`: the top list rendered, each pitch with its customer's
      name. */
  function TopPitches(ps: seq<Pitch>, names: seq<string>, scores: seq<PitchScore>): (r: seq<Json>)
    requires forall i :: 0 <= i < |ps| ==> ps[i].customer < |names|
    ensures |r| <= 5
  {
    var top := TopScored(ps, scores);
    TopScoredSpec(ps, scores);
    TopScoredRows(ps, scores);
    seq(|top|, k requires 0 <= k < |top| =>
      TopPitchJson(ps[top[k].pitch], names[ps[top[k].pitch].customer], top[k].avg))
  }
}
