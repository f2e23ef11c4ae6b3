/**
 * The bets-now page: the profitable opportunities ranked by guaranteed profit, the first five
 * of them shown as bets to place with their totals, and a summary over all of them.
 */
module BetsNow {
  import opened Optional
  import opened Records
  import opened StableSort
  import opened Ranking

  /** How many ranked bets are spelled out. */
  const ShownCount := 5
  /** Minutes the page budgets for placing one bet. */
  const MinutesPerBet := 3

  datatype BetsNow = BetsNow(
    ranked: seq<Record>,
    shown: seq<Record>,
    betCount: int,
    totalProfit: real,
    totalRisk: real,
    minutesToExecute: int,
    averageRoi: Option<real>)

  /**
   * Filters the profitable opportunities and sorts them by profit, highest first; adds up the
   * profit and the real-money risk of the first five; summarises all of them: their number,
   * the minutes to place them, and (when there is any) their mean ROI.
   */
  method CreateBetsNow(opportunities: seq<Record>) returns (b: BetsNow)
    requires forall i :: 0 <= i < |opportunities| ==> opportunities[i].guaranteedProfit.Some?
    requires forall i :: 0 <= i < |Top(Ranked(opportunities), ShownCount)| ==>
      Top(Ranked(opportunities), ShownCount)[i].totalRealMoneyRisk.Some?
    ensures b.ranked == Ranked(opportunities)
    ensures b.shown == Top(b.ranked, ShownCount)
    ensures b.betCount == |b.ranked|
    ensures b.totalProfit == SumProfit(b.shown) && b.totalRisk == SumRisk(b.shown)
    ensures b.minutesToExecute == MinutesPerBet * b.betCount
    ensures b.averageRoi == if b.betCount > 0 then Some(AverageRoi(b.ranked)) else None
  {
    var profitable := Profitable(opportunities);
    profitable := SortDesc(profitable, Profit);
    assert profitable == Ranked(opportunities);
    RankedMembers(opportunities);
    var shown := Top(profitable, ShownCount);
    var totalProfit, totalRisk := 0.0, 0.0;
    for i := 0 to |shown|
      invariant totalProfit == SumProfit(shown[..i]) && totalRisk == SumRisk(shown[..i])
    {
      var opp := shown[i];
      SumsOfPrefix(shown, i);
      assert IsProfitable(opp) by {
        assert opp == profitable[i];
      }
      var profit := opp.guaranteedProfit.value;
      var risk := opp.totalRealMoneyRisk.value;
      totalProfit := totalProfit + profit;
      totalRisk := totalRisk + risk;
    }
    assert shown[..|shown|] == shown;
    var averageRoi := if |profitable| > 0 then Some(AverageRoi(profitable)) else None;
    b := BetsNow(profitable, shown, |profitable|, totalProfit, totalRisk, |profitable| * MinutesPerBet, averageRoi);
  }

  /**
   * The totals cover only the bets shown: the profit and risk of all bets when there are at most
   * five, and strictly less profit than all bets together when there are more. The profit total
   * is positive when any bet is shown.
   */
  lemma ShownTotals(opportunities: seq<Record>)
    ensures var ranked := Ranked(opportunities);
      var shown := Top(ranked, ShownCount);
      && (|ranked| <= ShownCount ==> SumProfit(shown) == SumProfit(ranked) && SumRisk(shown) == SumRisk(ranked))
      && (|ranked| > ShownCount ==> SumProfit(shown) < SumProfit(ranked))
      && (|ranked| > 0 ==> SumProfit(shown) > 0.0)
  {
    var ranked := Ranked(opportunities);
    var shown := Top(ranked, ShownCount);
    RankedMembers(opportunities);
    assert forall i :: 0 <= i < |shown| ==> IsProfitable(shown[i]) by {
      forall i | 0 <= i < |shown| ensures IsProfitable(shown[i]) {
        assert shown[i] == ranked[i];
      }
    }
    SumProfitPositive(shown);
    if |ranked| > ShownCount {
      var rest := ranked[ShownCount..];
      assert ranked == shown + rest;
      assert forall i :: 0 <= i < |rest| ==> IsProfitable(rest[i]) by {
        forall i | 0 <= i < |rest| ensures IsProfitable(rest[i]) {
          assert rest[i] == ranked[ShownCount + i];
        }
      }
      SumProfitSplit(shown, rest);
      SumProfitPositive(rest);
    } else {
      assert shown == ranked;
    }
  }

  /** The mean ROI lies between the lowest and the highest ROI of the profitable bets. */
  lemma AverageRoiOfBets(opportunities: seq<Record>, lo: real, hi: real)
    requires forall i :: 0 <= i < |opportunities| ==> lo <= opportunities[i].roiPct <= hi
    requires |Ranked(opportunities)| > 0
    ensures lo <= AverageRoi(Ranked(opportunities)) <= hi
  {
    var ranked := Ranked(opportunities);
    RankedMembers(opportunities);
    forall i | 0 <= i < |ranked| ensures lo <= ranked[i].roiPct <= hi {
      var j :| 0 <= j < |opportunities| && opportunities[j] == ranked[i];
    }
    AverageRoiWithin(ranked, lo, hi);
  }
}
