/** The dashboard endpoint and the ROI report: counts over time windows,
    rates guarded against empty denominators, the seven-day pitch chart and
    the campaign list of the dashboard. Everything here only reads the
    tables, which are passed in as values. */
module AnalyticsDashboard {
  import opened Common
  import opened Calendar
  import opened CustomerModels
  import opened PitchModels
  import opened AgentModels
  import opened AnalyticsModels
  import opened Ranking
  import CampaignModels

  // ------------------------------------------------------------ windows

  /** `t >= now - timedelta(days=days)` on timestamps (a day is
      86 400 000 000 microseconds). */
  predicate Since(t: Instant, now: Instant, days: int) {
    Micros(t) >= Micros(now) - days * 86400000000
  }

  /** `Pitch.objects.filter(is_active=True, created_at__gte=cutoff)`. */
  predicate RecentPitch(p: Pitch, now: Instant, days: int) {
    p.isActive && Since(p.createdAt, now, days)
  }

  /** `AgentExecution.objects.filter(created_at__gte=cutoff)`, with the
      execution's creation known to the day: every execution of the
      cutoff's day counts. */
  predicate RecentExecution(e: AgentExecution, now: Instant, days: int) {
    Ordinal(e.createdOn) >= Ordinal(now.date) - days
  }

  /** A timestamp lies within its own day. */
  lemma MicrosWithinDay(t: Instant)
    ensures Ordinal(t.date) * 86400000000 <= Micros(t) < (Ordinal(t.date) + 1) * 86400000000
  {
  }

  // --------------------------------------------------------- trend chart

  /** How many active pitches created since `days` before `now` were created
      on day `d`. */
  function CreatedOn(ps: seq<Pitch>, now: Instant, days: int, d: Date): nat {
    Count(ps, (p: Pitch) => RecentPitch(p, now, days) && p.createdAt.date == d)
  }

  /** How many active pitches were created on day `d`, at any time. */
  function ActiveOn(ps: seq<Pitch>, d: Date): nat {
    Count(ps, (p: Pitch) => p.isActive && p.createdAt.date == d)
  }

  /** `counts_by_date.get(day, 0)`. */
  function CountOn(m: map<Date, nat>, d: Date): nat {
    if d in m then m[d] else 0
  }

  /** The grouped query of the last seven days as the dictionary the view
      builds from it: creation day to number of pitches. */
  function Grouped(ps: seq<Pitch>, now: Instant): map<Date, nat> {
    if ps == [] then map[]
    else
      var m := Grouped(ps[1..], now);
      if RecentPitch(ps[0], now, 7) then m[ps[0].createdAt.date := CountOn(m, ps[0].createdAt.date) + 1]
      else m
  }

  /** Every day's entry of the dictionary is that day's grouped count, and a
      day without pitches reads as 0. */
  lemma {:induction false} GroupedCounts(ps: seq<Pitch>, now: Instant, d: Date)
    ensures CountOn(Grouped(ps, now), d) == CreatedOn(ps, now, 7, d)
  {
    if ps != [] {
      GroupedCounts(ps[1..], now, d);
    }
  }

  /** On the chart's days, now−6 to now, the seven-day cutoff takes in the
      whole day: the count is that of every active pitch created that day. */
  lemma ChartDayWhole(ps: seq<Pitch>, now: Instant, d: Date)
    requires ValidDate(d) && Ordinal(now.date) - 6 <= Ordinal(d) <= Ordinal(now.date)
    ensures CreatedOn(ps, now, 7, d) == ActiveOn(ps, d)
  {
    MicrosWithinDay(now);
    forall i | 0 <= i < |ps| && ps[i].isActive && ps[i].createdAt.date == d
      ensures RecentPitch(ps[i], now, 7)
    {
      MicrosWithinDay(ps[i].createdAt);
    }
    CountImplies(ps, (p: Pitch) => RecentPitch(p, now, 7) && p.createdAt.date == d,
                     (p: Pitch) => p.isActive && p.createdAt.date == d);
    CountImplies(ps, (p: Pitch) => p.isActive && p.createdAt.date == d,
                     (p: Pitch) => RecentPitch(p, now, 7) && p.createdAt.date == d);
  }

  /** One point of `pitch_trend_chart`: the day, its `'%b %d'` label and
      its count. */
  datatype ChartPoint = ChartPoint(day: Day, caption: string, count: nat)

  /** The chart's `i`-th point: day now−6+i, labelled and counted. */
  predicate PointOf(ps: seq<Pitch>, now: Instant, i: int, pt: ChartPoint) {
    Ordinal(pt.day) == Ordinal(now.date) - 6 + i
    && pt.caption == ShortLabel(pt.day)
    && pt.count == CreatedOn(ps, now, 7, pt.day)
    && pt.count == ActiveOn(ps, pt.day)
  }

  /** The chart's seven days, oldest first, each labelled and counted. */
  predicate ChartOf(ps: seq<Pitch>, now: Instant, chart: seq<ChartPoint>) {
    |chart| == 7 && forall i :: 0 <= i < 7 ==> PointOf(ps, now, i, chart[i])
  }

  /** `pitch_trend_chart`: seven entries for the days now−6 … now in
      increasing order, each with the grouped count of its day or 0. */
  method TrendChart(ps: seq<Pitch>, now: Instant) returns (chart: seq<ChartPoint>)
    requires Ordinal(now.date) > 6
    ensures ChartOf(ps, now, chart)
  {
    var counts := Grouped(ps, now);
    chart := [];
    for i := 0 to 7
      invariant |chart| == i
      invariant forall k :: 0 <= k < i ==> PointOf(ps, now, k, chart[k])
    {
      var day := SubDays(now.date, 6 - i);
      GroupedCounts(ps, now, day);
      ChartDayWhole(ps, now, day);
      var pt := ChartPoint(day, ShortLabel(day), CountOn(counts, day));
      assert PointOf(ps, now, i, pt);
      chart := chart + [pt];
    }
  }

  // -------------------------------------------------------- campaign roi

  /** `Campaign.objects.filter(is_active=True)` in its default order, newest
      first: the listed campaigns' ids, descending. */
  function ListedNewestFirst(cs: seq<CampaignModels.Campaign>): (r: seq<nat>)
    ensures forall k :: 0 <= k < |r| ==> r[k] < |cs| && cs[r[k]].isActive
    ensures forall i :: 0 <= i < |cs| && cs[i].isActive ==> i in r
    ensures forall j, k :: 0 <= j < k < |r| ==> r[j] > r[k]
  {
    if cs == [] then []
    else
      var rest := ListedNewestFirst(cs[..|cs| - 1]);
      if cs[|cs| - 1].isActive then [|cs| - 1] + rest else rest
  }

  /** One entry of `campaign_roi`. */
  datatype RoiEntry = RoiEntry(name: string, value: nat)

  /** The campaigns among `ids` that have targets, each valued by its
      number of targets, in order. */
  function WithTargets(cs: seq<CampaignModels.Campaign>, ts: seq<CampaignModels.CampaignTarget>, ids: seq<nat>)
    : (r: seq<RoiEntry>)
    requires forall k :: 0 <= k < |ids| ==> ids[k] < |cs|
    ensures |r| <= |ids|
    ensures forall e :: e in r ==>
      e.value > 0 && exists k :: 0 <= k < |ids| && e == RoiEntry(cs[ids[k]].name, CampaignModels.TargetCount(ts, ids[k]))
    ensures forall k :: 0 <= k < |ids| && CampaignModels.TargetCount(ts, ids[k]) > 0 ==>
      RoiEntry(cs[ids[k]].name, CampaignModels.TargetCount(ts, ids[k])) in r
  {
    if ids == [] then []
    else
      var rest := WithTargets(cs, ts, ids[1..]);
      assert forall k :: 1 <= k < |ids| ==> ids[k] == ids[1..][k - 1];
      var n := CampaignModels.TargetCount(ts, ids[0]);
      if n > 0 then [RoiEntry(cs[ids[0]].name, n)] + rest else rest
  }

  /** The placeholder list: every campaign of `ids` valued 1. */
  function Placeholders(cs: seq<CampaignModels.Campaign>, ids: seq<nat>): (r: seq<RoiEntry>)
    requires forall k :: 0 <= k < |ids| ==> ids[k] < |cs|
    ensures |r| == |ids| && forall k :: 0 <= k < |ids| ==> r[k] == RoiEntry(cs[ids[k]].name, 1)
  {
    seq(|ids|, k requires 0 <= k < |ids| => RoiEntry(cs[ids[k]].name, 1))
  }

  /** The first `n` ids of a list. */
  function First(ids: seq<nat>, n: nat): (r: seq<nat>)
    ensures |r| == (if |ids| <= n then |ids| else n) && r == ids[..|r|]
  {
    if |ids| <= n then ids else ids[..n]
  }

  /** `campaign_roi`: those of the ten newest listed campaigns that have
      targets, valued by their target counts; when none has any, the five
      newest listed campaigns, valued 1. */
  function CampaignRoi(cs: seq<CampaignModels.Campaign>, ts: seq<CampaignModels.CampaignTarget>)
    : (r: seq<RoiEntry>)
    ensures var ten := First(ListedNewestFirst(cs), 10);
      (exists k :: 0 <= k < |ten| && CampaignModels.TargetCount(ts, ten[k]) > 0) ==> r == WithTargets(cs, ts, ten)
    ensures var ten := First(ListedNewestFirst(cs), 10);
      (forall k :: 0 <= k < |ten| ==> CampaignModels.TargetCount(ts, ten[k]) == 0) ==>
      r == Placeholders(cs, First(ListedNewestFirst(cs), 5))
  {
    var listed := ListedNewestFirst(cs);
    var ten := First(listed, 10);
    var found := WithTargets(cs, ts, ten);
    if found != [] then
      assert found[0] in found;
      found
    else
      assert forall k :: 0 <= k < |ten| ==> CampaignModels.TargetCount(ts, ten[k]) == 0;
      Placeholders(cs, First(listed, 5))
  }

  // ----------------------------------------------------------- dashboard

  function ActiveCustomers(customers: seq<Customer>): nat {
    Count(customers, (c: Customer) => c.isActive)
  }

  function ActivePitches(ps: seq<Pitch>): nat {
    Count(ps, (p: Pitch) => p.isActive)
  }

  /** `Campaign.objects.filter(is_active=True, status='active').count()`. */
  function RunningCampaigns(cs: seq<CampaignModels.Campaign>): nat {
    Count(cs, (c: CampaignModels.Campaign) => c.isActive && c.status == CampaignModels.Active)
  }

  /** Active pitches created in the window. */
  function PitchesCreated(ps: seq<Pitch>, now: Instant, days: int): nat {
    Count(ps, (p: Pitch) => RecentPitch(p, now, days))
  }

  /** Active pitches created in the window and approved. */
  function PitchesApproved(ps: seq<Pitch>, now: Instant, days: int): nat {
    Count(ps, (p: Pitch) => RecentPitch(p, now, days) && p.status == Approved)
  }

  /** Approved pitches of a window are pitches of the window, which are
      active pitches. */
  lemma ApprovedWithinCreated(ps: seq<Pitch>, now: Instant, days: int)
    ensures PitchesApproved(ps, now, days) <= PitchesCreated(ps, now, days) <= ActivePitches(ps)
  {
    CountImplies(ps, (p: Pitch) => RecentPitch(p, now, days) && p.status == Approved,
                     (p: Pitch) => RecentPitch(p, now, days));
    CountImplies(ps, (p: Pitch) => RecentPitch(p, now, days), (p: Pitch) => p.isActive);
  }

  function Executions(es: seq<AgentExecution>, now: Instant, days: int): seq<AgentExecution> {
    Filter(es, (e: AgentExecution) => RecentExecution(e, now, days))
  }

  function Completions(es: seq<AgentExecution>): seq<AgentExecution> {
    Filter(es, (e: AgentExecution) => e.status == Completed)
  }

  function Tokens(es: seq<AgentExecution>): seq<real> {
    seq(|es|, i requires 0 <= i < |es| => es[i].tokensUsed as real)
  }

  /** `Avg(...)` of a column: `None` over no rows. */
  function Average(xs: seq<real>): (r: Option<real>)
    ensures r.None? <==> xs == []
    ensures r.Some? ==> MinOf(xs) <= r.value <= MaxOf(xs)
  {
    if xs == [] then None
    else
      MeanWithin(xs);
      Some(Mean(xs))
  }

  function Scores(scores: seq<PitchScore>): seq<real> {
    seq(|scores|, i requires 0 <= i < |scores| => scores[i].score)
  }

  /** `DashboardMetric.objects.order_by('-date')[:10]`. */
  function LatestMetrics(ms: seq<DashboardMetric>): seq<DashboardMetric> {
    Top(ms, MetricDay, 10)
  }

  /** The sort key of `order_by('-date')`. */
  function MetricDay(m: DashboardMetric): real {
    Ordinal(m.date) as real
  }

  /** The fields of the dashboard answer this model computes. */
  datatype Dashboard = Dashboard(
    totalCustomers: nat, totalPitches: nat, activeCampaigns: nat,
    pitchesGenerated: nat, pitchesApproved: nat, approvalRate: real,
    totalExecutions: nat, successfulExecutions: nat, agentSuccessRate: real,
    avgTokens: real, avgScore: Option<real>, campaignRoi: seq<RoiEntry>,
    trendChart: seq<ChartPoint>, recentMetrics: seq<DashboardMetric>)

  /** `dashboard`: the counts of active rows, the 30-day window's pitches
      and executions with their rates (0 when the window is empty, and never
      above 1), the mean token use of completed executions, the mean score,
      the campaign list, the seven-day chart and the ten latest stored
      metrics. */
  method DashboardView(customers: seq<Customer>, ps: seq<Pitch>, scores: seq<PitchScore>,
                       es: seq<AgentExecution>, cs: seq<CampaignModels.Campaign>,
                       ts: seq<CampaignModels.CampaignTarget>, ms: seq<DashboardMetric>, now: Instant)
    returns (d: Dashboard)
    requires Ordinal(now.date) > 6
    ensures d.totalCustomers == ActiveCustomers(customers) && d.totalPitches == ActivePitches(ps)
    ensures d.activeCampaigns == RunningCampaigns(cs)
    ensures d.pitchesGenerated == PitchesCreated(ps, now, 30) && d.pitchesApproved == PitchesApproved(ps, now, 30)
    ensures d.pitchesApproved <= d.pitchesGenerated <= d.totalPitches
    ensures d.approvalRate == Ratio(d.pitchesApproved as real, d.pitchesGenerated as real)
    ensures 0.0 <= d.approvalRate <= 1.0
    ensures d.totalExecutions == |Executions(es, now, 30)|
    ensures d.successfulExecutions == |Completions(Executions(es, now, 30))| <= d.totalExecutions
    ensures d.agentSuccessRate == Ratio(d.successfulExecutions as real, d.totalExecutions as real)
    ensures 0.0 <= d.agentSuccessRate <= 1.0
    ensures d.avgTokens == Round1(Average(Tokens(Completions(Executions(es, now, 30)))).GetOr(0.0))
    ensures d.avgScore == Average(Scores(scores))
    ensures d.campaignRoi == CampaignRoi(cs, ts)
    ensures ChartOf(ps, now, d.trendChart)
    ensures d.recentMetrics == LatestMetrics(ms)
  {
    var chart := TrendChart(ps, now);
    var generated := PitchesCreated(ps, now, 30);
    var approved := PitchesApproved(ps, now, 30);
    ApprovedWithinCreated(ps, now, 30);
    var recent := Executions(es, now, 30);
    var done := Completions(recent);
    var tokens := Average(Tokens(done)).GetOr(0.0);
    d := Dashboard(ActiveCustomers(customers), ActivePitches(ps), RunningCampaigns(cs),
                   generated, approved, Ratio(approved as real, generated as real),
                   |recent|, |done|, Ratio(|done| as real, |recent| as real),
                   Round1(tokens), Average(Scores(scores)), CampaignRoi(cs, ts),
                   chart, LatestMetrics(ms));
  }

  /** The stored metrics the dashboard shows are at most ten, latest first;
      with the ones left out they make up the table, and none left out is
      dated after one shown. */
  lemma LatestMetricsSpec(ms: seq<DashboardMetric>)
    ensures var r := LatestMetrics(ms); var rest := Rest(ms, MetricDay, 10);
      |r| == (if |ms| <= 10 then |ms| else 10)
      && (forall i, j :: 0 <= i < j < |r| ==> Ordinal(r[i].date) >= Ordinal(r[j].date))
      && multiset(ms) == multiset(r) + multiset(rest)
      && forall i, j :: 0 <= i < |r| && 0 <= j < |rest| ==> Ordinal(rest[j].date) <= Ordinal(r[i].date)
  {
    TopSpec(ms, MetricDay, 10);
  }

  // ----------------------------------------------------------- roi report

  function CostSum(es: seq<AgentExecution>): real {
    if es == [] then 0.0 else es[0].cost + CostSum(es[1..])
  }

  function TokenSum(es: seq<AgentExecution>): int {
    if es == [] then 0 else es[0].tokensUsed + TokenSum(es[1..])
  }

  /** `Campaign.objects.filter(is_active=True, status__in=['active',
      'completed'])`. */
  function ReportedCampaigns(cs: seq<CampaignModels.Campaign>): seq<CampaignModels.Campaign> {
    Filter(cs, (c: CampaignModels.Campaign) =>
      c.isActive && (c.status == CampaignModels.Active || c.status == CampaignModels.Completed))
  }

  function BudgetSum(cs: seq<CampaignModels.Campaign>): real {
    if cs == [] then 0.0 else cs[0].budget + BudgetSum(cs[1..])
  }

  datatype RoiReport = RoiReport(
    periodDays: int, totalCost: real, totalTokens: int, totalExecutions: nat, costPerExecution: real,
    pitchesCreated: nat, pitchesApproved: nat, approvalRate: real, conversions: nat,
    totalCampaigns: nat, totalBudget: real, costPerPitch: real, costPerConversion: real)

  /** `roi_report` over the last `days` days: the window's cost, tokens and
      outputs, and each per-unit figure is the ratio to its count or 0 when
      that count is 0. `conversions` is the number of converted pitch
      analytics rows of the window. */
  function RoiReportView(es: seq<AgentExecution>, ps: seq<Pitch>, cs: seq<CampaignModels.Campaign>,
                         conversions: nat, now: Instant, days: int): (r: RoiReport)
    ensures r.periodDays == days && r.conversions == conversions
    ensures r.totalExecutions == |Executions(es, now, days)| && r.totalCost == CostSum(Executions(es, now, days))
    ensures r.totalTokens == TokenSum(Executions(es, now, days))
    ensures r.pitchesCreated == PitchesCreated(ps, now, days) && r.pitchesApproved == PitchesApproved(ps, now, days)
    ensures r.pitchesApproved <= r.pitchesCreated
    ensures r.totalCampaigns == |ReportedCampaigns(cs)| && r.totalBudget == BudgetSum(ReportedCampaigns(cs))
    ensures r.costPerExecution == Ratio(r.totalCost, r.totalExecutions as real)
    ensures r.costPerPitch == Ratio(r.totalCost, r.pitchesCreated as real)
    ensures r.costPerConversion == Ratio(r.totalCost, conversions as real)
    ensures r.approvalRate == Ratio(r.pitchesApproved as real, r.pitchesCreated as real)
    ensures 0.0 <= r.approvalRate <= 1.0
  {
    var window := Executions(es, now, days);
    var cost := CostSum(window);
    var created := PitchesCreated(ps, now, days);
    var approved := PitchesApproved(ps, now, days);
    ApprovedWithinCreated(ps, now, days);
    var reported := ReportedCampaigns(cs);
    RoiReport(days, cost, TokenSum(window), |window|, Ratio(cost, |window| as real),
              created, approved, Ratio(approved as real, created as real), conversions,
              |reported|, BudgetSum(reported),
              Ratio(cost, created as real), Ratio(cost, conversions as real))
  }
}
