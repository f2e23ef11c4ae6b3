/**
 * The daily report's summary of one detector run: how many opportunities there were, which of
 * them are profitable, their total guaranteed profit and mean ROI, and the first three of them
 * to print.
 */
module Report {
  import opened Records

  /** How many profitable opportunities the report prints. */
  const TopShown := 3

  datatype Summary = Summary(
    totalOpportunities: int,
    profitableCount: int,
    totalGuaranteedProfit: real,
    averageRoi: real)

  datatype DailyReport = DailyReport(summary: Summary, opportunities: seq<Record>, top: seq<Record>)

  /**
   * The report of a run: its profitable opportunities in input order, counted and totalled,
   * their mean ROI (0 when there are none), and the first three of them as printed.
   */
  function GenerateReport(opportunities: seq<Record>): (r: DailyReport)
    requires forall i :: 0 <= i < |opportunities| ==> opportunities[i].guaranteedProfit.Some?
    ensures r.opportunities == Profitable(opportunities)
    ensures r.summary.totalOpportunities == |opportunities|
    ensures r.summary.totalGuaranteedProfit == SumProfit(r.opportunities)
    ensures r.summary.profitableCount == |r.opportunities| <= |opportunities|
    ensures r.summary.profitableCount == 0 ==> r.summary.averageRoi == 0.0
    ensures r.summary.profitableCount > 0 ==>
      r.summary.averageRoi * r.summary.profitableCount as real == SumRoi(r.opportunities)
    ensures |r.top| == (if |r.opportunities| < TopShown then |r.opportunities| else TopShown)
    ensures forall i :: 0 <= i < |r.top| ==> r.top[i] == r.opportunities[i]
  {
    var profitable := Profitable(opportunities);
    ProfitableNoLonger(opportunities);
    var top := if |profitable| < TopShown then profitable else profitable[..TopShown];
    DailyReport(
      Summary(|opportunities|, |profitable|, SumProfit(profitable), AverageRoi(profitable)),
      profitable,
      top)
  }

  /**
   * The report lists every profitable opportunity of the run, as often as it occurs, and nothing
   * else; its total profit is positive exactly when it lists any.
   */
  lemma ReportListsTheProfitable(opportunities: seq<Record>)
    requires forall i :: 0 <= i < |opportunities| ==> opportunities[i].guaranteedProfit.Some?
    ensures var r := GenerateReport(opportunities);
      && (forall x :: multiset(r.opportunities)[x] == if IsProfitable(x) then multiset(opportunities)[x] else 0)
      && r.summary.totalGuaranteedProfit >= 0.0
      && (r.summary.totalGuaranteedProfit > 0.0 <==> r.summary.profitableCount > 0)
  {
    var profitable := Profitable(opportunities);
    ProfitableExactly(opportunities);
    ProfitableAreProfitable(opportunities);
    forall i | 0 <= i < |profitable| ensures IsProfitable(profitable[i]) {
      assert profitable[i] in profitable;
    }
    SumProfitPositive(profitable);
  }

  /**
   * The report keeps input order: the report of two runs' records one after the other lists
   * the first run's profitable opportunities, then the second's, and adds up their counts and profits.
   */
  lemma ReportKeepsOrder(a: seq<Record>, b: seq<Record>)
    requires forall i :: 0 <= i < |a| ==> a[i].guaranteedProfit.Some?
    requires forall i :: 0 <= i < |b| ==> b[i].guaranteedProfit.Some?
    ensures forall i :: 0 <= i < |a + b| ==> (a + b)[i].guaranteedProfit.Some?
    ensures GenerateReport(a + b).opportunities == GenerateReport(a).opportunities + GenerateReport(b).opportunities
    ensures GenerateReport(a + b).summary.profitableCount
         == GenerateReport(a).summary.profitableCount + GenerateReport(b).summary.profitableCount
    ensures GenerateReport(a + b).summary.totalGuaranteedProfit
         == GenerateReport(a).summary.totalGuaranteedProfit + GenerateReport(b).summary.totalGuaranteedProfit
  {
    forall i | 0 <= i < |a + b| ensures (a + b)[i].guaranteedProfit.Some? {
      if i < |a| {
        assert (a + b)[i] == a[i];
      } else {
        assert (a + b)[i] == b[i - |a|];
      }
    }
    ProfitableSplit(a, b);
    SumProfitSplit(Profitable(a), Profitable(b));
  }
}
