/** The agent comparison of the analytics endpoint: one entry per agent,
    aggregated from the stored performance rows of the requested period,
    or, when there are none, from the raw execution log; largest total
    first. Agent names are unique, so grouping by name and type is
    grouping by agent. */
module AgentComparison {
  import opened Common
  import opened AgentModels
  import opened AnalyticsModels
  import opened Ranking

  /** One entry of `comparison`; `agent` is the configuration grouped on. */
  datatype Entry = Entry(
    agent: nat, name: string, agentName: string, agentType: AgentType,
    totalExecutions: int, successfulExecutions: int, successRate: real,
    avgTokens: real, avgDuration: real, avgQualityScore: real)

  /** `successful / total if total > 0 else 0`. */
  function Rate(successful: int, total: int): (r: real)
    ensures total <= 0 ==> r == 0.0
    ensures total > 0 ==> r * (total as real) == successful as real
    ensures 0 <= successful <= total ==> 0.0 <= r <= 1.0
  {
    Ratio(successful as real, total as real)
  }

  /** The agents below `k` for which `has` holds, in table order. */
  function Present(has: nat -> bool, k: nat): (r: seq<nat>)
    ensures forall j :: 0 <= j < |r| ==> r[j] < k && has(r[j])
    ensures forall a: nat :: a < k && has(a) ==> a in r
    ensures forall i, j :: 0 <= i < j < |r| ==> r[i] < r[j]
  {
    if k == 0 then []
    else if has(k - 1) then Present(has, k - 1) + [k - 1]
    else Present(has, k - 1)
  }

  /** The key the comparison is ordered on. */
  function TotalKey(e: Entry): real {
    e.totalExecutions as real
  }

  /** `period` when given, else `monthly`. */
  function PeriodOf(period: Option<string>): string {
    period.GetOr("monthly")
  }

  // ------------------------------------------------ from performance rows

  /** The rows the first query reads: active, of the requested period. */
  predicate Reported(p: AgentPerformance, period: string) {
    p.isActive && p.period.Code() == period
  }

  /** The reported rows of agent `a`. */
  function RowsOf(ps: seq<AgentPerformance>, period: string, a: nat): seq<AgentPerformance> {
    Filter(ps, (p: AgentPerformance) => Reported(p, period) && p.agent == a)
  }

  function TotalSum(rows: seq<AgentPerformance>): int {
    if rows == [] then 0 else rows[0].totalExecutions + TotalSum(rows[1..])
  }

  function SuccessSum(rows: seq<AgentPerformance>): int {
    if rows == [] then 0 else rows[0].successfulExecutions + SuccessSum(rows[1..])
  }

  /** The column `f` of the rows, for `Avg`. */
  function Column(rows: seq<AgentPerformance>, f: AgentPerformance -> real): (r: seq<real>)
    ensures |r| == |rows|
  {
    seq(|rows|, i requires 0 <= i < |rows| => f(rows[i]))
  }

  /** The entry of agent `a` from its reported rows: sums of the counts,
      and the averages of the row averages rounded to one, two and three
      places. */
  function FromPerformance(agents: seq<AgentConfig>, ps: seq<AgentPerformance>, period: string, a: nat): (e: Entry)
    requires a < |agents| && RowsOf(ps, period, a) != []
    ensures e.agent == a && e.name == agents[a].name && e.agentName == e.name
    ensures e.totalExecutions == TotalSum(RowsOf(ps, period, a))
    ensures e.successfulExecutions == SuccessSum(RowsOf(ps, period, a))
    ensures e.successRate == Rate(e.successfulExecutions, e.totalExecutions)
  {
    var rows := RowsOf(ps, period, a);
    var total := TotalSum(rows);
    var successful := SuccessSum(rows);
    Entry(a, agents[a].name, agents[a].name, agents[a].agentType, total, successful, Rate(successful, total),
          Round1(Mean(Column(rows, (p: AgentPerformance) => p.avgTokens as real))),
          Round2(Mean(Column(rows, (p: AgentPerformance) => p.avgDuration))),
          Round3(Mean(Column(rows, (p: AgentPerformance) => p.avgQualityScore))))
  }

  /** The entries of the first query, in table order of the agents. */
  function PerformanceEntries(agents: seq<AgentConfig>, ps: seq<AgentPerformance>, period: string): seq<Entry> {
    var ids := Present((a: nat) => a < |agents| && RowsOf(ps, period, a) != [], |agents|);
    seq(|ids|, i requires 0 <= i < |ids| => FromPerformance(agents, ps, period, ids[i]))
  }

  // ------------------------------------------------------ from executions

  /** Every logged execution of agent `a`, whatever its day or period. */
  function RanBy(es: seq<AgentExecution>, a: nat): seq<AgentExecution> {
    Filter(es, (e: AgentExecution) => e.agent == a)
  }

  function TokensUsed(es: seq<AgentExecution>): (r: seq<real>)
    ensures |r| == |es|
  {
    seq(|es|, i requires 0 <= i < |es| => es[i].tokensUsed as real)
  }

  /** The fallback entry of agent `a`: its executions counted, the completed
      ones as successes, the mean token use rounded to one place, and zero
      duration and quality. */
  function FromExecutions(agents: seq<AgentConfig>, es: seq<AgentExecution>, a: nat): (e: Entry)
    requires a < |agents| && RanBy(es, a) != []
    ensures e.agent == a && e.name == agents[a].name && e.agentName == e.name
    ensures e.totalExecutions == |RanBy(es, a)| > 0
    ensures e.successfulExecutions == Count(RanBy(es, a), (x: AgentExecution) => x.status == Completed)
    ensures 0 <= e.successfulExecutions <= e.totalExecutions
    ensures e.successRate == Rate(e.successfulExecutions, e.totalExecutions)
    ensures e.avgDuration == 0.0 && e.avgQualityScore == 0.0
  {
    var mine := RanBy(es, a);
    var successful := Count(mine, (x: AgentExecution) => x.status == Completed);
    Entry(a, agents[a].name, agents[a].name, agents[a].agentType, |mine|, successful, Rate(successful, |mine|),
          Round1(Mean(TokensUsed(mine))), 0.0, 0.0)
  }

  /** The entries of the fallback query, in table order of the agents. */
  function ExecutionEntries(agents: seq<AgentConfig>, es: seq<AgentExecution>): seq<Entry> {
    var ids := Present((a: nat) => a < |agents| && RanBy(es, a) != [], |agents|);
    seq(|ids|, i requires 0 <= i < |ids| => FromExecutions(agents, es, ids[i]))
  }

  // ------------------------------------------------------------- endpoint

  /** `agent_comparison`: the period asked for, and the entries from the
      performance rows, largest total first; only when that list is empty,
      the entries from the execution log instead. */
  function Compare(agents: seq<AgentConfig>, ps: seq<AgentPerformance>, es: seq<AgentExecution>,
                   period: Option<string>): (r: (string, seq<Entry>))
    ensures r.0 == PeriodOf(period)
    ensures Descending(r.1, TotalKey)
  {
    var primary := SortDesc(PerformanceEntries(agents, ps, PeriodOf(period)), TotalKey);
    if primary != [] then (PeriodOf(period), primary)
    else (PeriodOf(period), SortDesc(ExecutionEntries(agents, es), TotalKey))
  }

  /** Some active row of the period belongs to a known agent. */
  predicate AnyReported(agents: seq<AgentConfig>, ps: seq<AgentPerformance>, period: string) {
    exists i :: 0 <= i < |ps| && Reported(ps[i], period) && ps[i].agent < |agents|
  }

  /** The first query's entries: exactly one per known agent with reported
      rows, each aggregated from those rows. */
  lemma PerformanceEntriesSpec(agents: seq<AgentConfig>, ps: seq<AgentPerformance>, period: string)
    ensures var r := PerformanceEntries(agents, ps, period);
      (forall e :: e in r <==>
         e.agent < |agents| && RowsOf(ps, period, e.agent) != [] && e == FromPerformance(agents, ps, period, e.agent))
      && (forall i, j :: 0 <= i < j < |r| ==> r[i].agent != r[j].agent)
  {
    var has := (a: nat) => a < |agents| && RowsOf(ps, period, a) != [];
    var ids := Present(has, |agents|);
    var r := PerformanceEntries(agents, ps, period);
    forall e: Entry | e.agent < |agents| && RowsOf(ps, period, e.agent) != [] && e == FromPerformance(agents, ps, period, e.agent)
      ensures e in r
    {
      assert has(e.agent);
      var j :| 0 <= j < |ids| && ids[j] == e.agent;
      assert r[j] == e;
    }
  }

  /** The first query has entries exactly when some reported row belongs to
      a known agent. */
  lemma PerformanceEntriesPresent(agents: seq<AgentConfig>, ps: seq<AgentPerformance>, period: string)
    ensures PerformanceEntries(agents, ps, period) != [] <==> AnyReported(agents, ps, period)
  {
    var r := PerformanceEntries(agents, ps, period);
    PerformanceEntriesSpec(agents, ps, period);
    if AnyReported(agents, ps, period) {
      var i :| 0 <= i < |ps| && Reported(ps[i], period) && ps[i].agent < |agents|;
      var a := ps[i].agent;
      assert ps[i] in RowsOf(ps, period, a);
      assert FromPerformance(agents, ps, period, a) in r;
    }
    if r != [] {
      var a := r[0].agent;
      var rows := RowsOf(ps, period, a);
      assert rows[0] in ps && Reported(rows[0], period) && rows[0].agent == a;
    }
  }

  /** The fallback's entries: exactly one per known agent with logged
      executions, each aggregated from them. */
  lemma ExecutionEntriesSpec(agents: seq<AgentConfig>, es: seq<AgentExecution>)
    ensures var r := ExecutionEntries(agents, es);
      (forall e :: e in r <==> e.agent < |agents| && RanBy(es, e.agent) != [] && e == FromExecutions(agents, es, e.agent))
      && (forall i, j :: 0 <= i < j < |r| ==> r[i].agent != r[j].agent)
  {
    var has := (a: nat) => a < |agents| && RanBy(es, a) != [];
    var ids := Present(has, |agents|);
    var r := ExecutionEntries(agents, es);
    forall e: Entry | e.agent < |agents| && RanBy(es, e.agent) != [] && e == FromExecutions(agents, es, e.agent)
      ensures e in r
    {
      assert has(e.agent);
      var j :| 0 <= j < |ids| && ids[j] == e.agent;
      assert r[j] == e;
    }
  }

  /** Sorting keeps the entries and no agent appears twice. */
  lemma SortedEntries(xs: seq<Entry>)
    requires forall i, j :: 0 <= i < j < |xs| ==> xs[i].agent != xs[j].agent
    ensures var r := SortDesc(xs, TotalKey);
      (forall e :: e in r <==> e in xs) && (forall i, j :: 0 <= i < j < |r| ==> r[i].agent != r[j].agent)
  {
    var r := SortDesc(xs, TotalKey);
    forall e: Entry ensures e in r <==> e in xs {
      assert e in r <==> e in multiset(r);
      assert e in xs <==> e in multiset(xs);
    }
    assert Distinct(xs);
    Rearranged(xs, r);
    forall i, j | 0 <= i < j < |r| ensures r[i].agent != r[j].agent {
      assert r[i] in xs && r[j] in xs;
      var a :| 0 <= a < |xs| && xs[a] == r[i];
      var b :| 0 <= b < |xs| && xs[b] == r[j];
      assert a != b;
    }
  }

  /** The comparison comes from the performance rows whenever one active row
      of the period belongs to a known agent, and from the execution log
      otherwise; either way it holds one entry per agent that has data,
      aggregated from that data, and no agent twice. */
  lemma CompareSpec(agents: seq<AgentConfig>, ps: seq<AgentPerformance>, es: seq<AgentExecution>, period: Option<string>)
    ensures var r := Compare(agents, ps, es, period).1;
      var p := PeriodOf(period);
      (AnyReported(agents, ps, p) ==>
         forall e :: e in r <==> e.agent < |agents| && RowsOf(ps, p, e.agent) != [] && e == FromPerformance(agents, ps, p, e.agent))
      && (!AnyReported(agents, ps, p) ==>
         forall e :: e in r <==> e.agent < |agents| && RanBy(es, e.agent) != [] && e == FromExecutions(agents, es, e.agent))
      && (forall i, j :: 0 <= i < j < |r| ==> r[i].agent != r[j].agent)
  {
    var p := PeriodOf(period);
    PerformanceEntriesSpec(agents, ps, p);
    PerformanceEntriesPresent(agents, ps, p);
    ExecutionEntriesSpec(agents, es);
    SortedEntries(PerformanceEntries(agents, ps, p));
    SortedEntries(ExecutionEntries(agents, es));
  }
}
