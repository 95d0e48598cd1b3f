/** The records of the analytics application: stored dashboard metrics and
    per-agent performance rows. */
module AnalyticsModels {
  import opened Common
  import opened Calendar

  datatype MetricType = Counter | Gauge | Percentage | Trend {
    function Code(): string {
      match this
      case Counter => "counter"
      case Gauge => "gauge"
      case Percentage => "percentage"
      case Trend => "trend"
    }
  }

  datatype Period = Daily | Weekly | Monthly {
    function Code(): string {
      match this
      case Daily => "daily"
      case Weekly => "weekly"
      case Monthly => "monthly"
    }
  }

  datatype DashboardMetric = DashboardMetric(
    name: string, metricType: MetricType, value: real, period: Period, date: Day, metadata: Fields)

  /** The columns of the metric table's unique constraint. */
  function MetricKey(m: DashboardMetric): (string, Period, Day) {
    (m.name, m.period, m.date)
  }

  /** What `update_or_create` does to an existing metric row: the type and
      the value are replaced, and the metadata too when the defaults carry
      one (a row created without it has the empty object). */
  function MergeMetric(row: DashboardMetric, given: DashboardMetric): (r: DashboardMetric)
    ensures MetricKey(r) == MetricKey(row)
  {
    row.(metricType := given.metricType, value := given.value,
         metadata := if given.metadata != [] then given.metadata else row.metadata)
  }

  datatype AgentPerformance = AgentPerformance(
    agent: nat, period: Period, date: Day, totalExecutions: int, successfulExecutions: int,
    avgTokens: int, avgDuration: real, avgQualityScore: real, isActive: bool)

  /** The columns of the performance table's unique constraint. */
  function PerformanceKey(p: AgentPerformance): (nat, Period, Day) {
    (p.agent, p.period, p.date)
  }

  /** `AgentPerformance.success_rate`: successes per execution, zero when
      there were none. */
  function SuccessRate(p: AgentPerformance): (r: real)
    ensures p.totalExecutions == 0 ==> r == 0.0
    ensures p.totalExecutions != 0 ==> r * (p.totalExecutions as real) == p.successfulExecutions as real
    ensures 0 <= p.successfulExecutions <= p.totalExecutions ==> 0.0 <= r <= 1.0
  {
    if p.totalExecutions == 0 then 0.0
    else (p.successfulExecutions as real) / (p.totalExecutions as real)
  }

  /** What `update_or_create` does to an existing performance row: every
      column but the key is replaced. */
  function MergePerformance(row: AgentPerformance, given: AgentPerformance): (r: AgentPerformance)
    ensures PerformanceKey(r) == PerformanceKey(row)
  {
    row.(totalExecutions := given.totalExecutions, successfulExecutions := given.successfulExecutions,
         avgTokens := given.avgTokens, avgDuration := given.avgDuration,
         avgQualityScore := given.avgQualityScore)
  }
}
