/**
 * Opportunity records as the report scripts read them back from the detector's JSON output:
 * a description and the calculation fields the reports use. The guaranteed profit and the
 * real-money risk may be missing from a record; `.get(field, 0)` reads a missing one as 0.
 */
module Records {
  import opened Optional

  datatype Record = Record(
    description: string,
    bonusBook: string,
    hedgeBook: string,
    guaranteedProfit: Option<real>,
    roiPct: real,
    totalRealMoneyRisk: Option<real>)

  /** The guaranteed profit, 0 when it is missing. */
  function Profit(r: Record): real
  {
    match r.guaranteedProfit
    case Some(p) => p
    case None => 0.0
  }

  /** The real money at risk, 0 when it is missing. */
  function Risk(r: Record): real
  {
    match r.totalRealMoneyRisk
    case Some(x) => x
    case None => 0.0
  }

  predicate IsProfitable(r: Record)
  {
    Profit(r) > 0.0
  }

  /** The profitable records, in input order (the `guaranteed_profit > 0` comprehensions). */
  function Profitable(rs: seq<Record>): seq<Record>
  {
    if rs == [] then []
    else
      var last := rs[|rs| - 1];
      Profitable(rs[..|rs| - 1]) + (if IsProfitable(last) then [last] else [])
  }

  function SumProfit(rs: seq<Record>): real
  {
    if rs == [] then 0.0 else SumProfit(rs[..|rs| - 1]) + Profit(rs[|rs| - 1])
  }

  function SumRisk(rs: seq<Record>): real
  {
    if rs == [] then 0.0 else SumRisk(rs[..|rs| - 1]) + Risk(rs[|rs| - 1])
  }

  function SumRoi(rs: seq<Record>): real
  {
    if rs == [] then 0.0 else SumRoi(rs[..|rs| - 1]) + rs[|rs| - 1].roiPct
  }

  /** Mean ROI of the records, 0 for none (the `... if profitable else 0` guard). */
  function AverageRoi(rs: seq<Record>): (avg: real)
    ensures |rs| > 0 ==> avg * |rs| as real == SumRoi(rs)
    ensures |rs| == 0 ==> avg == 0.0
  {
    if |rs| == 0 then 0.0 else SumRoi(rs) / |rs| as real
  }

  /** Totals over a concatenation add up. */
  lemma {:induction false} SumProfitSplit(a: seq<Record>, b: seq<Record>)
    ensures SumProfit(a + b) == SumProfit(a) + SumProfit(b)
  {
    if b == [] {
      assert a + b == a;
    } else {
      var b' := b[..|b| - 1];
      assert (a + b)[..|a + b| - 1] == a + b';
      SumProfitSplit(a, b');
    }
  }

  /** Extending a prefix by one record adds that record's profit and risk. */
  lemma SumsOfPrefix(rs: seq<Record>, i: int)
    requires 0 <= i < |rs|
    ensures SumProfit(rs[..i + 1]) == SumProfit(rs[..i]) + Profit(rs[i])
    ensures SumRisk(rs[..i + 1]) == SumRisk(rs[..i]) + Risk(rs[i])
  {
    assert rs[..i + 1][..i] == rs[..i];
  }

  /** Filtering a concatenation filters each part: the filter keeps input order. */
  lemma {:induction false} ProfitableSplit(a: seq<Record>, b: seq<Record>)
    ensures Profitable(a + b) == Profitable(a) + Profitable(b)
  {
    if b != [] {
      var b' := b[..|b| - 1];
      assert (a + b)[..|a + b| - 1] == a + b';
      ProfitableSplit(a, b');
    } else {
      assert a + b == a;
    }
  }

  /** The filter keeps every profitable record, as often as it occurs, and nothing else. */
  lemma {:induction false} ProfitableExactly(rs: seq<Record>)
    ensures forall x :: multiset(Profitable(rs))[x] == if IsProfitable(x) then multiset(rs)[x] else 0
  {
    if rs != [] {
      var init := rs[..|rs| - 1];
      ProfitableExactly(init);
      assert rs == init + [rs[|rs| - 1]];
    }
  }

  lemma {:induction false} ProfitableNoLonger(rs: seq<Record>)
    ensures |Profitable(rs)| <= |rs|
  {
    if rs != [] {
      ProfitableNoLonger(rs[..|rs| - 1]);
    }
  }

  lemma ProfitableAreProfitable(rs: seq<Record>)
    ensures forall x :: x in Profitable(rs) ==> IsProfitable(x) && x in rs
  {
    ProfitableExactly(rs);
    forall x | x in Profitable(rs) ensures IsProfitable(x) && x in rs {
      assert x in multiset(Profitable(rs));
      assert x in multiset(rs);
    }
  }

  /** A total over profitable records is positive as soon as there is one. */
  lemma {:induction false} SumProfitPositive(rs: seq<Record>)
    requires forall i :: 0 <= i < |rs| ==> IsProfitable(rs[i])
    ensures |rs| > 0 ==> SumProfit(rs) > 0.0
    ensures SumProfit(rs) >= 0.0
  {
    if rs != [] {
      SumProfitPositive(rs[..|rs| - 1]);
    }
  }

  lemma {:induction false} SumRoiWithin(rs: seq<Record>, lo: real, hi: real)
    requires forall i :: 0 <= i < |rs| ==> lo <= rs[i].roiPct <= hi
    ensures |rs| as real * lo <= SumRoi(rs) <= |rs| as real * hi
  {
    if rs != [] {
      SumRoiWithin(rs[..|rs| - 1], lo, hi);
    }
  }

  /** The mean ROI lies between the smallest and the largest ROI averaged. */
  lemma AverageRoiWithin(rs: seq<Record>, lo: real, hi: real)
    requires |rs| > 0
    requires forall i :: 0 <= i < |rs| ==> lo <= rs[i].roiPct <= hi
    ensures lo <= AverageRoi(rs) <= hi
  {
    SumRoiWithin(rs, lo, hi);
    var n := |rs| as real;
    var avg := AverageRoi(rs);
    assert avg * n == SumRoi(rs);
    assert (avg - lo) * n >= 0.0;
    assert (hi - avg) * n >= 0.0;
  }
}
