/** The periodic analytics tasks: the daily, weekly and monthly dashboard
    figures, each written with `update_or_create` for a window of days
    computed from today's date, and the daily per-agent performance rows. */
module AnalyticsTasks {
  import opened Common
  import opened Calendar
  import opened CustomerModels
  import opened PitchModels
  import opened AgentModels
  import opened AnalyticsModels
  import opened Store

  // ----------------------------------------------------------------- windows

  /** `today - timedelta(days=1)`: the day the daily figures are for. */
  function Yesterday(today: Day): (r: Day)
    requires Ordinal(today) > 1
    ensures Ordinal(r) + 1 == Ordinal(today)
  {
    PrevDay(today)
  }

  /** The day number of a Monday leaves remainder 1 modulo 7. */
  lemma WeekArithmetic(o: int, w: int)
    requires w == (o + 6) % 7
    ensures (o - (w + 7) + 6) % 7 == 0
    ensures (o - (w + 7) + 12) % 7 == 6
  {
    var q := (o + 6) / 7;
    assert o + 6 == 7 * q + w;
    assert o - (w + 7) + 6 == 7 * (q - 1);
    assert o - (w + 7) + 12 == 7 * (q - 1) + 6;
  }

  /** `today - timedelta(days=today.weekday() + 7)`: the Monday of the
      previous week, seven to thirteen days back. */
  function WeekStart(today: Day): (r: Day)
    requires Ordinal(today) > Weekday(today) + 7
    ensures Weekday(r) == 0
    ensures 7 <= Ordinal(today) - Ordinal(r) <= 13
  {
    WeekArithmetic(Ordinal(today), Weekday(today));
    SubDays(today, Weekday(today) + 7)
  }

  /** `week_start + timedelta(days=6)`: the Sunday closing that week, which
      is before today. */
  function WeekEnd(today: Day): (r: Day)
    requires Ordinal(today) > Weekday(today) + 7
    ensures Weekday(r) == 6
    ensures Ordinal(r) == Ordinal(WeekStart(today)) + 6
    ensures 1 <= Ordinal(today) - Ordinal(r) <= 7
  {
    WeekArithmetic(Ordinal(today), Weekday(today));
    AddDays(WeekStart(today), 6)
  }

  /** `today.replace(day=1)`. */
  function FirstOfMonth(d: Day): (r: Day)
    ensures r.year == d.year && r.month == d.month && r.day == 1
  {
    Date(d.year, d.month, 1)
  }

  /** `first_of_month - timedelta(days=1)`: the last day of the previous
      month. The source raises for January of year 1. */
  function LastMonthEnd(today: Day): (r: Day)
    requires today.year > 1 || today.month > 1
    ensures Ordinal(r) + 1 == Ordinal(FirstOfMonth(today))
    ensures r.day == DaysInMonth(r.year, r.month)
    ensures today.month == 1 ==> r.year == today.year - 1 && r.month == 12
    ensures today.month > 1 ==> r.year == today.year && r.month == today.month - 1
  {
    FirstOfMonthAfterStart(today);
    PrevDay(FirstOfMonth(today))
  }

  lemma FirstOfMonthAfterStart(today: Day)
    requires today.year > 1 || today.month > 1
    ensures Ordinal(FirstOfMonth(today)) > 1
  {
    var p := today.year - 1;
    assert p / 4 >= p / 100;
    DaysBeforeMonthNonNegative(today.year, today.month);
    if today.month > 1 {
      DaysBeforeMonthNonNegative(today.year, today.month - 1);
    }
  }

  /** `last_month_end.replace(day=1)`: the first day of the previous
      month. The window it opens holds every day of that month. */
  function LastMonthStart(today: Day): (r: Day)
    requires today.year > 1 || today.month > 1
    ensures r.day == 1 && r.year == LastMonthEnd(today).year && r.month == LastMonthEnd(today).month
    ensures Ordinal(LastMonthEnd(today)) - Ordinal(r) + 1 == DaysInMonth(r.year, r.month)
  {
    var e := LastMonthEnd(today);
    Date(e.year, e.month, 1)
  }

  /** `created_at__date__gte=start, created_at__date__lte=end`. */
  predicate Within(d: Day, start: Day, end: Day) {
    Ordinal(start) <= Ordinal(d) <= Ordinal(end)
  }

  // ----------------------------------------------------------------- figures

  /** `(success / total * 100) if total > 0 else 0`. */
  function SuccessPercentage(success: nat, total: nat): (r: real)
    ensures total == 0 ==> r == 0.0
    ensures total > 0 ==> r * (total as real) == (success as real) * 100.0
    ensures success <= total ==> 0.0 <= r <= 100.0
  {
    if total > 0 then Ratio(success as real, total as real) * 100.0 else 0.0
  }

  /** `aggregate(total=Sum('cost'))['total'] or 0`: the summed cost, zero
      for no rows. */
  function CostSum(es: seq<AgentExecution>): real {
    if es == [] then 0.0 else es[0].cost + CostSum(es[1..])
  }

  /** A metric row with no metadata given. */
  function Metric(name: string, t: MetricType, value: real, period: Period, date: Day): DashboardMetric {
    DashboardMetric(name, t, value, period, date, [])
  }

  /** The executions logged on `day`. */
  function RanOn(es: seq<AgentExecution>, day: Day): seq<AgentExecution> {
    Filter(es, (e: AgentExecution) => e.createdOn == day)
  }

  /** The six figures `compute_daily_metrics` writes for day `y`. */
  function DailyEntries(cs: seq<Customer>, ps: seq<Pitch>, es: seq<AgentExecution>, y: Day): (r: seq<DashboardMetric>)
    ensures |r| == 6
  {
    var ran := RanOn(es, y);
    [Metric("pitches_generated", Counter,
            Count(ps, (p: Pitch) => p.isActive && p.createdAt.date == y) as real, Daily, y),
     Metric("pitches_approved", Counter,
            Count(ps, (p: Pitch) => p.isActive && p.createdAt.date == y && p.status == Approved) as real, Daily, y),
     Metric("new_customers", Counter,
            Count(cs, (c: Customer) => c.isActive && c.createdAt.date == y) as real, Daily, y),
     Metric("agent_executions", Counter, |ran| as real, Daily, y),
     Metric("agent_success_rate", Percentage,
            SuccessPercentage(Count(ran, (e: AgentExecution) => e.status == Completed), |ran|), Daily, y),
     Metric("api_cost", Gauge, CostSum(ran), Daily, y)]
  }

  /** The daily figures have distinct keys. */
  lemma DailyKeys(cs: seq<Customer>, ps: seq<Pitch>, es: seq<AgentExecution>, y: Day)
    ensures KeysUnique(DailyEntries(cs, ps, es, y), MetricKey)
  {
    DailyNamed(cs, ps, es, y);
    DailyNamesApart();
    NamedApart(DailyEntries(cs, ps, es, y), DailyNames);
  }

  /** The names of the daily figures, in the order they are written. */
  const DailyNames: seq<string> :=
    ["pitches_generated", "pitches_approved", "new_customers", "agent_executions", "agent_success_rate", "api_cost"]

  lemma DailyNamed(cs: seq<Customer>, ps: seq<Pitch>, es: seq<AgentExecution>, y: Day)
    ensures forall i :: 0 <= i < 6 ==> DailyEntries(cs, ps, es, y)[i].name == DailyNames[i]
  {
  }

  lemma DailyNamesApart()
    ensures forall i, j :: 0 <= i < j < |DailyNames| ==> DailyNames[i] != DailyNames[j]
  {
  }

  /** Figures named apart have distinct keys. */
  lemma NamedApart(r: seq<DashboardMetric>, names: seq<string>)
    requires |r| == |names| && (forall i :: 0 <= i < |r| ==> r[i].name == names[i])
    requires forall i, j :: 0 <= i < j < |names| ==> names[i] != names[j]
    ensures KeysUnique(r, MetricKey)
  {
  }

  /** No more pitches are approved than generated; the success rate is a
      percentage, zero on a day without executions. */
  lemma DailyFigures(cs: seq<Customer>, ps: seq<Pitch>, es: seq<AgentExecution>, y: Day)
    ensures var r := DailyEntries(cs, ps, es, y);
      r[1].value <= r[0].value
      && 0.0 <= r[4].value <= 100.0
      && (r[3].value == 0.0 ==> r[4].value == 0.0)
  {
    CountImplies(ps, (p: Pitch) => p.isActive && p.createdAt.date == y && p.status == Approved,
                 (p: Pitch) => p.isActive && p.createdAt.date == y);
  }

  /** The two figures `compute_weekly_metrics` writes for the week from
      `start` to `end`; the first carries the window as metadata. */
  function WeeklyEntries(ps: seq<Pitch>, start: Day, end: Day): (r: seq<DashboardMetric>)
    ensures |r| == 2
  {
    var inWeek := Filter(ps, (p: Pitch) => p.isActive && Within(p.createdAt.date, start, end));
    [DashboardMetric("weekly_pitches", Counter, |inWeek| as real, Weekly, start,
                     [("week_start", JStr(DateText(start))), ("week_end", JStr(DateText(end)))]),
     Metric("weekly_approvals", Counter, Count(inWeek, (p: Pitch) => p.status == Approved) as real, Weekly, start)]
  }

  /** The weekly figures have distinct keys and no more approvals than
      pitches. */
  lemma WeeklyFigures(ps: seq<Pitch>, start: Day, end: Day)
    ensures var r := WeeklyEntries(ps, start, end);
      KeysUnique(r, MetricKey) && r[1].value <= r[0].value && r[0].metadata != []
  {
  }

  /** The executions logged between `start` and `end`. */
  function RanWithin(es: seq<AgentExecution>, start: Day, end: Day): seq<AgentExecution> {
    Filter(es, (e: AgentExecution) => Within(e.createdOn, start, end))
  }

  /** The three figures `compute_monthly_metrics` writes for the month from
      `start` to `end`. */
  function MonthlyEntries(cs: seq<Customer>, ps: seq<Pitch>, es: seq<AgentExecution>, start: Day, end: Day)
    : (r: seq<DashboardMetric>)
    ensures |r| == 3
  {
    [Metric("monthly_pitches", Counter,
            Count(ps, (p: Pitch) => p.isActive && Within(p.createdAt.date, start, end)) as real, Monthly, start),
     Metric("monthly_new_customers", Counter,
            Count(cs, (c: Customer) => c.isActive && Within(c.createdAt.date, start, end)) as real, Monthly, start),
     Metric("monthly_api_cost", Gauge, CostSum(RanWithin(es, start, end)), Monthly, start)]
  }

  lemma MonthlyFigures(cs: seq<Customer>, ps: seq<Pitch>, es: seq<AgentExecution>, start: Day, end: Day)
    ensures KeysUnique(MonthlyEntries(cs, ps, es, start, end), MetricKey)
  {
  }

  // ------------------------------------------------------------ metric tasks

  /** The successive `update_or_create` calls of a metric task, one per
      figure, in the order the Celery task writes them. */
  method RecordFigures(db: Db, entries: seq<DashboardMetric>)
    requires db.Valid()
    modifies db`dashboardMetrics
    ensures db.Valid()
    ensures db.dashboardMetrics == UpsertAll(old(db.dashboardMetrics), MetricKey, entries, MergeMetric)
  {
    for j := 0 to |entries|
      invariant db.Valid()
      invariant db.dashboardMetrics == UpsertAll(old(db.dashboardMetrics), MetricKey, entries[..j], MergeMetric)
    {
      UpsertAllSnoc(old(db.dashboardMetrics), MetricKey, entries[..j], entries[j], MergeMetric);
      assert entries[..j] + [entries[j]] == entries[..j + 1];
      db.UpdateOrCreateMetric(entries[j]);
    }
    assert entries[..|entries|] == entries;
  }

  /** `compute_daily_metrics`: the six daily figures for yesterday are
      written in turn. */
  method ComputeDailyMetrics(db: Db, today: Day) returns (r: Json)
    requires db.Valid() && Ordinal(today) > 1
    modifies db`dashboardMetrics
    ensures db.Valid()
    ensures db.dashboardMetrics == UpsertAll(old(db.dashboardMetrics), MetricKey,
              DailyEntries(db.customers, db.pitches, db.executions, Yesterday(today)), MergeMetric)
    ensures r == JObj([("date", JStr(DateText(Yesterday(today)))), ("metrics_computed", JNum(6.0))])
  {
    var y := Yesterday(today);
    var entries := DailyEntries(db.customers, db.pitches, db.executions, y);
    RecordFigures(db, entries);
    r := JObj([("date", JStr(DateText(y))), ("metrics_computed", JNum(6.0))]);
  }

  /** `compute_weekly_metrics`: the two figures for the previous Monday to
      Sunday are written in turn, dated on that Monday. */
  method ComputeWeeklyMetrics(db: Db, today: Day) returns (r: Json)
    requires db.Valid() && Ordinal(today) > Weekday(today) + 7
    modifies db`dashboardMetrics
    ensures db.Valid()
    ensures db.dashboardMetrics == UpsertAll(old(db.dashboardMetrics), MetricKey,
              WeeklyEntries(db.pitches, WeekStart(today), WeekEnd(today)), MergeMetric)
    ensures r == JObj([("week_start", JStr(DateText(WeekStart(today)))), ("metrics_computed", JNum(2.0))])
  {
    var start, end := WeekStart(today), WeekEnd(today);
    var entries := WeeklyEntries(db.pitches, start, end);
    RecordFigures(db, entries);
    r := JObj([("week_start", JStr(DateText(start))), ("metrics_computed", JNum(2.0))]);
  }

  /** `compute_monthly_metrics`: the three figures for the previous month are
      written in turn, dated on its first day. */
  method ComputeMonthlyMetrics(db: Db, today: Day) returns (r: Json)
    requires db.Valid() && (today.year > 1 || today.month > 1)
    modifies db`dashboardMetrics
    ensures db.Valid()
    ensures db.dashboardMetrics == UpsertAll(old(db.dashboardMetrics), MetricKey,
              MonthlyEntries(db.customers, db.pitches, db.executions, LastMonthStart(today), LastMonthEnd(today)),
              MergeMetric)
    ensures r == JObj([("month_start", JStr(DateText(LastMonthStart(today)))), ("metrics_computed", JNum(3.0))])
  {
    var start, end := LastMonthStart(today), LastMonthEnd(today);
    var entries := MonthlyEntries(db.customers, db.pitches, db.executions, start, end);
    RecordFigures(db, entries);
    r := JObj([("month_start", JStr(DateText(start))), ("metrics_computed", JNum(3.0))]);
  }

  /** After a metric task every figure it computed is stored under its key,
      merged into the row that held the key or added, and no other row
      changes. */
  lemma FiguresStored(rows: seq<DashboardMetric>, entries: seq<DashboardMetric>)
    requires KeysUnique(rows, MetricKey) && KeysUnique(entries, MetricKey)
    ensures var r := UpsertAll(rows, MetricKey, entries, MergeMetric);
      |rows| <= |r|
      && (forall j :: 0 <= j < |entries| ==> Stored(r, rows, MetricKey, entries[j], MergeMetric))
      && (forall i :: 0 <= i < |rows| && (forall j :: 0 <= j < |entries| ==> MetricKey(entries[j]) != MetricKey(rows[i]))
            ==> r[i] == rows[i])
  {
    UpsertAllSpec(rows, MetricKey, entries, MergeMetric);
  }

  // ------------------------------------------------------ agent performance

  /** The durations of the completed executions with both timestamps. */
  function Durations(es: seq<AgentExecution>): (r: seq<real>)
    ensures |r| <= |es|
  {
    if es == [] then []
    else
      var rest := Durations(es[1..]);
      if es[0].status == Completed && Duration(es[0]).Some? then [Duration(es[0]).value] + rest else rest
  }

  /** The tokens of the completed executions. */
  function CompletedTokens(es: seq<AgentExecution>): seq<real> {
    if es == [] then []
    else
      var rest := CompletedTokens(es[1..]);
      if es[0].status == Completed then [es[0].tokensUsed as real] + rest else rest
  }

  /** The performance row of agent `agent` from its executions of day `y`:
      totals, the truncated mean token count of the completed ones (zero
      when none), and their mean duration rounded to two places (zero when
      none has both timestamps); the quality score is left at zero. */
  function PerformanceRow(agent: nat, es: seq<AgentExecution>, y: Day): (r: AgentPerformance)
    ensures r.agent == agent && r.period == Daily && r.date == y
  {
    var tokens := CompletedTokens(es);
    var durations := Durations(es);
    var avgTokens := if tokens == [] then 0 else Trunc(Mean(tokens));
    var avgDuration := if durations == [] then 0.0 else Mean(durations);
    AgentPerformance(agent, Daily, y, |es|, Count(es, (e: AgentExecution) => e.status == Completed),
                     avgTokens, Round2(avgDuration), 0.0, true)
  }

  /** The row counts every execution and no more successes than executions;
      its mean duration is zero without timed completions and otherwise lies
      between the shortest and the longest, up to the rounding; the quality
      score is left at zero. */
  lemma PerformanceRowFigures(agent: nat, es: seq<AgentExecution>, y: Day)
    ensures var r := PerformanceRow(agent, es, y);
      r.totalExecutions == |es| && r.successfulExecutions <= r.totalExecutions
      && (Durations(es) == [] ==> r.avgDuration == 0.0)
      && (Durations(es) != [] ==> MinOf(Durations(es)) - 0.005 <= r.avgDuration <= MaxOf(Durations(es)) + 0.005)
      && r.avgQualityScore == 0.0
  {
    if Durations(es) != [] {
      MeanWithin(Durations(es));
    }
  }

  /** The executions of agent `a` on day `y`. */
  function AgentRan(es: seq<AgentExecution>, a: nat, y: Day): seq<AgentExecution> {
    Filter(es, (e: AgentExecution) => e.agent == a && e.createdOn == y)
  }

  /** Whether `compute_agent_performance` writes a row for agent `a`: it is
      active and ran at least once on day `y`. */
  predicate Performed(agents: seq<AgentConfig>, es: seq<AgentExecution>, a: nat, y: Day) {
    a < |agents| && agents[a].isActive && |AgentRan(es, a, y)| > 0
  }

  /** The rows the Celery task writes for the first `k` configurations, in order. */
  function PerformanceRows(agents: seq<AgentConfig>, es: seq<AgentExecution>, y: Day, k: nat): (r: seq<AgentPerformance>)
    requires k <= |agents|
    ensures forall j :: 0 <= j < |r| ==> r[j].agent < k
    ensures forall a, b :: 0 <= a < b < |r| ==> r[a].agent < r[b].agent
  {
    if k == 0 then []
    else
      var rest := PerformanceRows(agents, es, y, k - 1);
      if Performed(agents, es, k - 1, y) then rest + [PerformanceRow(k - 1, AgentRan(es, k - 1, y), y)]
      else rest
  }

  /** `row` is the performance row of an agent that was active and ran. */
  predicate RowOf(agents: seq<AgentConfig>, es: seq<AgentExecution>, y: Day, row: AgentPerformance) {
    Performed(agents, es, row.agent, y) && row == PerformanceRow(row.agent, AgentRan(es, row.agent, y), y)
  }

  /** Each row written is the performance row of an agent that was active
      and ran. */
  lemma {:induction false} PerformanceRowsFrom(agents: seq<AgentConfig>, es: seq<AgentExecution>, y: Day, k: nat)
    requires k <= |agents|
    ensures forall j :: 0 <= j < |PerformanceRows(agents, es, y, k)| ==>
              RowOf(agents, es, y, PerformanceRows(agents, es, y, k)[j])
    decreases k
  {
    if k > 0 {
      PerformanceRowsFrom(agents, es, y, k - 1);
      var rest := PerformanceRows(agents, es, y, k - 1);
      if Performed(agents, es, k - 1, y) {
        var row := PerformanceRow(k - 1, AgentRan(es, k - 1, y), y);
        assert RowOf(agents, es, y, row);
        var r := PerformanceRows(agents, es, y, k);
        assert r == rest + [row];
        forall j | 0 <= j < |r|
          ensures RowOf(agents, es, y, r[j])
        {
          if j < |rest| {
            assert r[j] == rest[j];
          } else {
            assert r[j] == row;
          }
        }
      }
    }
  }

  /** Every agent that was active and ran has its row among the first `k`. */
  lemma {:induction false} PerformanceRowsCover(agents: seq<AgentConfig>, es: seq<AgentExecution>, y: Day, k: nat, a: nat)
    requires k <= |agents| && a < k && Performed(agents, es, a, y)
    ensures exists j :: 0 <= j < |PerformanceRows(agents, es, y, k)| && PerformanceRows(agents, es, y, k)[j].agent == a
    decreases k
  {
    var r := PerformanceRows(agents, es, y, k);
    if a == k - 1 {
      assert r[|r| - 1].agent == a;
    } else {
      PerformanceRowsCover(agents, es, y, k - 1, a);
      var j :| 0 <= j < |PerformanceRows(agents, es, y, k - 1)| && PerformanceRows(agents, es, y, k - 1)[j].agent == a;
      assert r[j] == PerformanceRows(agents, es, y, k - 1)[j];
    }
  }

  /** `compute_agent_performance`: for each active configuration, its
      executions of yesterday are gathered; one without any is skipped, and
      for the others the performance row is written. The count reported is
      that of the active configurations, skipped ones included. */
  method ComputeAgentPerformance(db: Db, today: Day) returns (r: Json)
    requires db.Valid() && Ordinal(today) > 1
    modifies db`performance
    ensures db.Valid()
    ensures db.performance == UpsertAll(old(db.performance), PerformanceKey,
              PerformanceRows(db.agents, db.executions, Yesterday(today), |db.agents|), MergePerformance)
    ensures r == JObj([("date", JStr(DateText(Yesterday(today)))),
                       ("agents_processed", JNum(Count(db.agents, (a: AgentConfig) => a.isActive) as real))])
  {
    var y := Yesterday(today);
    for i := 0 to |db.agents|
      invariant db.Valid()
      invariant db.performance == UpsertAll(old(db.performance), PerformanceKey,
                  PerformanceRows(db.agents, db.executions, y, i), MergePerformance)
    {
      if !db.agents[i].isActive {
        continue;
      }
      var executions := AgentRan(db.executions, i, y);
      var total := |executions|;
      if total == 0 {
        continue;
      }
      var row := PerformanceRow(i, executions, y);
      UpsertAllSnoc(old(db.performance), PerformanceKey, PerformanceRows(db.agents, db.executions, y, i),
                    row, MergePerformance);
      db.UpdateOrCreatePerformance(row);
    }
    r := JObj([("date", JStr(DateText(y))),
               ("agents_processed", JNum(Count(db.agents, (a: AgentConfig) => a.isActive) as real))]);
  }

  /** After the Celery task, every agent that was active and ran yesterday has its
      row stored, merged into its row for that day or added. */
  lemma PerformanceStoredRan(rows: seq<AgentPerformance>, agents: seq<AgentConfig>, es: seq<AgentExecution>, y: Day, a: nat)
    requires KeysUnique(rows, PerformanceKey) && Performed(agents, es, a, y)
    ensures var r := UpsertAll(rows, PerformanceKey, PerformanceRows(agents, es, y, |agents|), MergePerformance);
      Stored(r, rows, PerformanceKey, PerformanceRow(a, AgentRan(es, a, y), y), MergePerformance)
  {
    var news := PerformanceRows(agents, es, y, |agents|);
    UpsertAllSpec(rows, PerformanceKey, news, MergePerformance);
    PerformanceRowsCover(agents, es, y, |agents|, a);
    PerformanceRowsFrom(agents, es, y, |agents|);
    var j :| 0 <= j < |news| && news[j].agent == a;
    assert RowOf(agents, es, y, news[j]);
  }

  /** An agent that was inactive or did not run yesterday gets no new row,
      and the row it already had for that day, if any, is unchanged. */
  lemma PerformanceStoredSkipped(rows: seq<AgentPerformance>, agents: seq<AgentConfig>, es: seq<AgentExecution>, y: Day, a: nat)
    requires KeysUnique(rows, PerformanceKey) && !Performed(agents, es, a, y)
    ensures var r := UpsertAll(rows, PerformanceKey, PerformanceRows(agents, es, y, |agents|), MergePerformance);
      |rows| <= |r|
      && (forall i :: 0 <= i < |rows| && PerformanceKey(rows[i]) == (a, Daily, y) ==> r[i] == rows[i])
      && (forall i :: |rows| <= i < |r| ==> r[i].agent != a)
  {
    var news := PerformanceRows(agents, es, y, |agents|);
    var r := UpsertAll(rows, PerformanceKey, news, MergePerformance);
    UpsertAllSpec(rows, PerformanceKey, news, MergePerformance);
    forall i | 0 <= i < |rows| && PerformanceKey(rows[i]) == (a, Daily, y)
      ensures r[i] == rows[i]
    {
      if r[i] != rows[i] {
        var j :| 0 <= j < |news| && PerformanceKey(news[j]) == PerformanceKey(rows[i])
                 && r[i] == MergePerformance(rows[i], news[j]);
        RowPerformed(agents, es, y, j);
      }
    }
    forall i | |rows| <= i < |r|
      ensures r[i].agent != a
    {
      var j :| 0 <= j < |news| && news[j] == r[i];
      RowPerformed(agents, es, y, j);
    }
  }

  /** The agent of the `j`-th row written was active and ran. */
  lemma RowPerformed(agents: seq<AgentConfig>, es: seq<AgentExecution>, y: Day, j: nat)
    requires j < |PerformanceRows(agents, es, y, |agents|)|
    ensures Performed(agents, es, PerformanceRows(agents, es, y, |agents|)[j].agent, y)
  {
    PerformanceRowsFrom(agents, es, y, |agents|);
    assert RowOf(agents, es, y, PerformanceRows(agents, es, y, |agents|)[j]);
  }
}
