/**
 * Bonus-bet arbitrage arithmetic (scripts/detector.py): American prices, the hedge sizing and
 * the two outcome profits of a bonus leg paired with a real-money hedge leg.
 *
 * Python's `/` is true division, so every quantity is a Dafny `real`; values are exact here and
 * the two-decimal rounding applied when the result dictionary is built is not modelled.
 */
module Detector {
  import opened Optional

  function Min(a: real, b: real): real
  {
    if b < a then b else a
  }

  /**
   * Decimal payout factor (stake times factor is the total return) of an American price.
   * Zero odds divide by zero in the source, so callers must not pass them.
   */
  function AmericanToDecimal(odds: int): (d: real)
    requires odds != 0
    ensures d > 1.0
  {
    var o := odds as real;
    // in the second branch the price is negative, so -o is its absolute value
    if o > 0.0 then o / 100.0 + 1.0 else 100.0 / -o + 1.0
  }

  /** A price pays even money (factor 2) exactly at ±100, and less exactly between 0 and +100 or below -100. */
  lemma EvenMoney(odds: int)
    requires odds != 0
    ensures AmericanToDecimal(odds) == 2.0 <==> odds == 100 || odds == -100
    ensures AmericanToDecimal(odds) < 2.0 <==> 0 < odds < 100 || odds < -100
  {
    if odds < 0 {
      var a := -odds as real;
      assert 100.0 / a < 1.0 <==> a > 100.0;
      assert 100.0 / a == 1.0 <==> a == 100.0;
    }
  }

  /**
   * Implied win probability of an American price: strictly between 0 and 1, and the reciprocal of
   * its decimal factor. A price of 0 takes the negative branch and gives 0.
   */
  function AmericanToImpliedProb(odds: int): (p: real)
    ensures odds != 0 ==> 0.0 < p < 1.0 && p * AmericanToDecimal(odds) == 1.0
    ensures odds == 0 ==> p == 0.0
  {
    if odds > 0 then
      var o := odds as real;
      assert (o / 100.0 + 1.0) == (o + 100.0) / 100.0;
      100.0 / (o + 100.0)
    else
      var a := -odds as real;
      assert odds != 0 ==> 100.0 / a + 1.0 == (a + 100.0) / a;
      a / (a + 100.0)
  }

  /** The result dictionary of calculate_bonus_arb, with its values unrounded. */
  datatype Calculation = Calculation(
    bonusBook: string, bonusTeam: string, bonusOdds: int, bonusStake: real,
    hedgeBook: string, hedgeTeam: string, hedgeOdds: int, hedgeStake: real,
    scenarioBonusWins: real, scenarioHedgeWins: real,
    guaranteedProfit: real, roiPct: real, totalRealMoneyRisk: real)

  /**
   * The whole bonus amount is staked on the bonus leg; the hedge stake is sized as
   * bonus * (bonus_decimal - 1) / (hedge_decimal - 1). If the bonus side wins the model
   * credits the full bonus payout and loses the hedge; if the hedge side wins it charges the
   * bonus amount and collects the hedge's net winnings. None when the hedge price does not
   * pay more than the stake.
   */
  function CalculateBonusArb(bonusAmount: real, bonusBook: string, bonusTeam: string, bonusOdds: int,
                             hedgeBook: string, hedgeTeam: string, hedgeOdds: int): (r: Option<Calculation>)
    requires bonusOdds != 0 && hedgeOdds != 0
    ensures r.Some?
    ensures r.value.bonusBook == bonusBook && r.value.bonusTeam == bonusTeam && r.value.bonusOdds == bonusOdds
    ensures r.value.hedgeBook == hedgeBook && r.value.hedgeTeam == hedgeTeam && r.value.hedgeOdds == hedgeOdds
    ensures r.value.bonusStake == bonusAmount
    ensures r.value.totalRealMoneyRisk == r.value.hedgeStake
  {
    var bonusDecimal := AmericanToDecimal(bonusOdds);
    var hedgeDecimal := AmericanToDecimal(hedgeOdds);
    var bonusStake := bonusAmount;
    if hedgeDecimal <= 1.0 then None
    else
      var hedgeStake := bonusStake * (bonusDecimal - 1.0) / (hedgeDecimal - 1.0);
      var scenario1 := (bonusStake * bonusDecimal - 0.0) + -hedgeStake;
      var scenario2 := -bonusStake + (hedgeStake * hedgeDecimal - hedgeStake);
      var guaranteed := Min(scenario1, scenario2);
      var roi := if hedgeStake > 0.0 then guaranteed / hedgeStake * 100.0 else 0.0;
      Some(Calculation(bonusBook, bonusTeam, bonusOdds, bonusStake,
                       hedgeBook, hedgeTeam, hedgeOdds, hedgeStake,
                       scenario1, scenario2, guaranteed, roi, hedgeStake))
  }

  /** The hedge stake balances the two legs' net winnings, and is non-negative for a non-negative bonus. */
  lemma HedgeStakeBalances(bonusAmount: real, bonusBook: string, bonusTeam: string, bonusOdds: int,
                           hedgeBook: string, hedgeTeam: string, hedgeOdds: int)
    requires bonusOdds != 0 && hedgeOdds != 0
    ensures var c := CalculateBonusArb(bonusAmount, bonusBook, bonusTeam, bonusOdds, hedgeBook, hedgeTeam, hedgeOdds).value;
      && c.hedgeStake * (AmericanToDecimal(hedgeOdds) - 1.0) == bonusAmount * (AmericanToDecimal(bonusOdds) - 1.0)
      && (bonusAmount >= 0.0 ==> c.hedgeStake >= 0.0)
      && (bonusAmount > 0.0 ==> c.hedgeStake > 0.0)
  {
    var bd, hd := AmericanToDecimal(bonusOdds), AmericanToDecimal(hedgeOdds);
    var hs := bonusAmount * (bd - 1.0) / (hd - 1.0);
    SignOfProduct(bonusAmount, bd - 1.0);
    SignOfQuotient(bonusAmount * (bd - 1.0), hd - 1.0);
  }

  /**
   * If the hedge side wins the outcome is bonus * (bonus_decimal - 2), whatever the hedge price:
   * for a positive bonus it loses money exactly when the bonus price pays less than even money.
   */
  lemma HedgeWinsIgnoresHedgeOdds(bonusAmount: real, bonusBook: string, bonusTeam: string, bonusOdds: int,
                                  hedgeBook: string, hedgeTeam: string, hedgeOdds: int)
    requires bonusOdds != 0 && hedgeOdds != 0
    ensures var c := CalculateBonusArb(bonusAmount, bonusBook, bonusTeam, bonusOdds, hedgeBook, hedgeTeam, hedgeOdds).value;
      && c.scenarioHedgeWins == bonusAmount * (AmericanToDecimal(bonusOdds) - 2.0)
      && (bonusAmount > 0.0 ==> (c.scenarioHedgeWins < 0.0 <==> 0 < bonusOdds < 100 || bonusOdds < -100))
  {
    EvenMoney(bonusOdds);
  }

  /** The guaranteed profit is the worse of the two outcomes. */
  lemma GuaranteedIsWorstCase(bonusAmount: real, bonusBook: string, bonusTeam: string, bonusOdds: int,
                              hedgeBook: string, hedgeTeam: string, hedgeOdds: int)
    requires bonusOdds != 0 && hedgeOdds != 0
    ensures var c := CalculateBonusArb(bonusAmount, bonusBook, bonusTeam, bonusOdds, hedgeBook, hedgeTeam, hedgeOdds).value;
      && c.guaranteedProfit <= c.scenarioBonusWins && c.guaranteedProfit <= c.scenarioHedgeWins
      && (c.guaranteedProfit == c.scenarioBonusWins || c.guaranteedProfit == c.scenarioHedgeWins)
  {
  }

  /** ROI is the guaranteed profit as a percentage of the hedge stake, and 0 when nothing is staked. */
  lemma RoiOfGuaranteed(bonusAmount: real, bonusBook: string, bonusTeam: string, bonusOdds: int,
                        hedgeBook: string, hedgeTeam: string, hedgeOdds: int)
    requires bonusOdds != 0 && hedgeOdds != 0
    ensures var c := CalculateBonusArb(bonusAmount, bonusBook, bonusTeam, bonusOdds, hedgeBook, hedgeTeam, hedgeOdds).value;
      && (c.hedgeStake > 0.0 ==> c.roiPct * c.hedgeStake == 100.0 * c.guaranteedProfit)
      && (c.hedgeStake <= 0.0 ==> c.roiPct == 0.0)
      && (bonusAmount > 0.0 ==> (c.roiPct > 0.0 <==> c.guaranteedProfit > 0.0))
  {
  }

  /** A zero bonus is a valid zero-profit calculation, not an error. */
  lemma ZeroBonus(bonusBook: string, bonusTeam: string, bonusOdds: int,
                  hedgeBook: string, hedgeTeam: string, hedgeOdds: int)
    requires bonusOdds != 0 && hedgeOdds != 0
    ensures var c := CalculateBonusArb(0.0, bonusBook, bonusTeam, bonusOdds, hedgeBook, hedgeTeam, hedgeOdds).value;
      && c.hedgeStake == 0.0 && c.scenarioBonusWins == 0.0 && c.scenarioHedgeWins == 0.0
      && c.guaranteedProfit == 0.0 && c.roiPct == 0.0
  {
  }

  /**
   * With a positive bonus the pairing is profitable exactly when the bonus price pays more than
   * even money and bonus_decimal * (hedge_decimal - 1) exceeds bonus_decimal - 1.
   */
  lemma ProfitableIff(bonusAmount: real, bonusBook: string, bonusTeam: string, bonusOdds: int,
                      hedgeBook: string, hedgeTeam: string, hedgeOdds: int)
    requires bonusOdds != 0 && hedgeOdds != 0
    requires bonusAmount > 0.0
    ensures var c := CalculateBonusArb(bonusAmount, bonusBook, bonusTeam, bonusOdds, hedgeBook, hedgeTeam, hedgeOdds).value;
      var bd, hd := AmericanToDecimal(bonusOdds), AmericanToDecimal(hedgeOdds);
      c.guaranteedProfit > 0.0 <==> bd > 2.0 && bd * (hd - 1.0) > bd - 1.0
  {
    var c := CalculateBonusArb(bonusAmount, bonusBook, bonusTeam, bonusOdds, hedgeBook, hedgeTeam, hedgeOdds).value;
    var bd, hd := AmericanToDecimal(bonusOdds), AmericanToDecimal(hedgeOdds);
    Outcomes(bonusAmount, bonusBook, bonusTeam, bonusOdds, hedgeBook, hedgeTeam, hedgeOdds);
    HedgeStakeBalances(bonusAmount, bonusBook, bonusTeam, bonusOdds, hedgeBook, hedgeTeam, hedgeOdds);
    WorseOutcomePositiveIff(bonusAmount, bd, hd, c.hedgeStake, c.scenarioBonusWins, c.scenarioHedgeWins, c.guaranteedProfit);
  }

  /** ProfitableIff on the decimal factors and the computed quantities. */
  lemma WorseOutcomePositiveIff(bonusAmount: real, bd: real, hd: real, hedgeStake: real,
                                bonusWins: real, hedgeWins: real, guaranteed: real)
    requires bonusAmount > 0.0 && bd > 1.0 && hd > 1.0
    requires hedgeStake * (hd - 1.0) == bonusAmount * (bd - 1.0)
    requires bonusWins == bonusAmount * bd - hedgeStake
    requires hedgeWins == -bonusAmount + (hedgeStake * hd - hedgeStake)
    requires guaranteed > 0.0 <==> bonusWins > 0.0 && hedgeWins > 0.0
    ensures guaranteed > 0.0 <==> bd > 2.0 && bd * (hd - 1.0) > bd - 1.0
  {
    OutcomesPositiveIff(bonusAmount, bd, hd, hedgeStake);
  }

  /** The two outcomes in terms of the stakes and the decimal factors; the guaranteed profit is the worse. */
  lemma Outcomes(bonusAmount: real, bonusBook: string, bonusTeam: string, bonusOdds: int,
                 hedgeBook: string, hedgeTeam: string, hedgeOdds: int)
    requires bonusOdds != 0 && hedgeOdds != 0
    ensures var c := CalculateBonusArb(bonusAmount, bonusBook, bonusTeam, bonusOdds, hedgeBook, hedgeTeam, hedgeOdds).value;
      var bd, hd := AmericanToDecimal(bonusOdds), AmericanToDecimal(hedgeOdds);
      && c.scenarioBonusWins == bonusAmount * bd - c.hedgeStake
      && c.scenarioHedgeWins == -bonusAmount + (c.hedgeStake * hd - c.hedgeStake)
      && (c.guaranteedProfit > 0.0 <==> c.scenarioBonusWins > 0.0 && c.scenarioHedgeWins > 0.0)
  {
  }

  /** The sign analysis behind ProfitableIff, on the decimal factors. */
  lemma OutcomesPositiveIff(bonusAmount: real, bd: real, hd: real, hedgeStake: real)
    requires bonusAmount > 0.0 && bd > 1.0 && hd > 1.0
    requires hedgeStake * (hd - 1.0) == bonusAmount * (bd - 1.0)
    ensures bonusAmount * bd - hedgeStake > 0.0 <==> bd * (hd - 1.0) > bd - 1.0
    ensures -bonusAmount + (hedgeStake * hd - hedgeStake) > 0.0 <==> bd > 2.0
  {
    var s1 := bonusAmount * bd - hedgeStake;
    assert s1 * (hd - 1.0) == bonusAmount * (bd * (hd - 1.0) - (bd - 1.0));
    SignOfProduct(s1, hd - 1.0);
    SignOfProduct(bd * (hd - 1.0) - (bd - 1.0), bonusAmount);
    assert -bonusAmount + (hedgeStake * hd - hedgeStake) == (bd - 2.0) * bonusAmount;
    SignOfProduct(bd - 2.0, bonusAmount);
  }

  /** For a positive y, x * y has the sign of x. */
  lemma SignOfProduct(x: real, y: real)
    requires y > 0.0
    ensures x * y > 0.0 <==> x > 0.0
    ensures x * y >= 0.0 <==> x >= 0.0
  {
  }

  /** For a positive y, x / y has the sign of x. */
  lemma SignOfQuotient(x: real, y: real)
    requires y > 0.0
    ensures x / y > 0.0 <==> x > 0.0
    ensures x / y >= 0.0 <==> x >= 0.0
  {
    assert (x / y) * y == x;
    SignOfProduct(x / y, y);
  }

  /**
   * The source's own example: a 1000 bonus at -120 hedged at +110. The hedge stake is
   * 25000/33 (757.58 after rounding), the bonus-wins outcome 35500/33 (1075.76) and the
   * hedge-wins outcome, which is also the guaranteed profit, -500/3 (-166.67): a loss of 22%
   * of the hedge stake.
   */
  lemma ExampleIsALoss()
    ensures var c := CalculateBonusArb(1000.0, "DraftKings", "Los Angeles Lakers", -120, "FanDuel", "Boston Celtics", 110).value;
      && c.hedgeStake == 25000.0 / 33.0
      && c.scenarioBonusWins == 35500.0 / 33.0
      && c.scenarioHedgeWins == -500.0 / 3.0
      && c.guaranteedProfit == -500.0 / 3.0
      && c.roiPct == -22.0
  {
  }

  /** One entry of find_arbs' list of candidate pairings. */
  datatype Example = Example(
    description: string,
    bonusBook: string, bonusAmount: real, bonusTeam: string, bonusOdds: int,
    hedgeBook: string, hedgeTeam: string, hedgeOdds: int)

  /** One element of find_arbs' result: the pairing's description and its calculation. */
  datatype Opportunity = Opportunity(description: string, calculation: Calculation)

  predicate Priced(e: Example)
  {
    e.bonusOdds != 0 && e.hedgeOdds != 0
  }

  function Evaluate(e: Example): Option<Calculation>
    requires Priced(e)
  {
    CalculateBonusArb(e.bonusAmount, e.bonusBook, e.bonusTeam, e.bonusOdds, e.hedgeBook, e.hedgeTeam, e.hedgeOdds)
  }

  /** The opportunities find_arbs collects: one per pairing whose calculation is not None, in order. */
  function Collected(examples: seq<Example>): seq<Opportunity>
    requires forall i :: 0 <= i < |examples| ==> Priced(examples[i])
  {
    if examples == [] then []
    else
      var last := examples[|examples| - 1];
      Collected(examples[..|examples| - 1])
        + (match Evaluate(last)
           case Some(c) => [Opportunity(last.description, c)]
           case None => [])
  }

  /** The loop of find_arbs: evaluate each pairing in turn and append the ones that produced a calculation. */
  method FindArbs(examples: seq<Example>) returns (opportunities: seq<Opportunity>)
    requires forall i :: 0 <= i < |examples| ==> Priced(examples[i])
    ensures opportunities == Collected(examples)
  {
    opportunities := [];
    for i := 0 to |examples|
      invariant opportunities == Collected(examples[..i])
    {
      var example := examples[i];
      var result := Evaluate(example);
      if result.Some? {
        opportunities := opportunities + [Opportunity(example.description, result.value)];
      }
      assert examples[..i + 1][..i] == examples[..i];
    }
    assert examples[..|examples|] == examples;
  }

  /** Since the calculation never returns None, every pairing yields exactly one opportunity, in input order. */
  lemma {:induction false} CollectedKeepsEveryPairing(examples: seq<Example>)
    requires forall i :: 0 <= i < |examples| ==> Priced(examples[i])
    ensures |Collected(examples)| == |examples|
    ensures forall i :: 0 <= i < |examples| ==>
              Collected(examples)[i] == Opportunity(examples[i].description, Evaluate(examples[i]).value)
  {
    if examples != [] {
      CollectedKeepsEveryPairing(examples[..|examples| - 1]);
    }
  }

  /** The single hard-coded pairing of find_arbs. */
  function DemoPairings(): seq<Example>
  {
    [Example("DraftKings $1000 Bonus \U{2192} FanDuel Hedge",
             "DraftKings", 1000.0, "Los Angeles Lakers", -120,
             "FanDuel", "Boston Celtics", 110)]
  }

  /** find_arbs on its demo input reports one opportunity, and that opportunity loses money. */
  lemma DemoReportsOneLosingOpportunity()
    ensures |Collected(DemoPairings())| == 1
    ensures Collected(DemoPairings())[0].calculation.guaranteedProfit == -500.0 / 3.0
  {
    CollectedKeepsEveryPairing(DemoPairings());
    ExampleIsALoss();
  }
}
