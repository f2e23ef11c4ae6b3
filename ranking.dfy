/**
 * Ranking of opportunities: the profitable ones sorted by guaranteed profit, highest first,
 * with Python's stable sort (`sort(..., reverse=True)` / `sorted(..., reverse=True)`), and the
 * first few of that ranking as the report's selection of best bets.
 */
module Ranking {
  import opened Records
  import opened StableSort

  /** The profitable records, highest guaranteed profit first; ties keep input order. */
  function Ranked(rs: seq<Record>): seq<Record>
  {
    SortDesc(Profitable(rs), Profit)
  }

  /**
   * The ranking holds exactly the profitable records (as often as they occur), all of them
   * profitable records of the input, in non-increasing order of profit, and records of equal
   * profit in the order the input lists them.
   */
  lemma RankedIsRanking(rs: seq<Record>)
    ensures multiset(Ranked(rs)) == multiset(Profitable(rs))
    ensures |Ranked(rs)| == |Profitable(rs)|
    ensures forall i :: 0 <= i < |Ranked(rs)| ==> IsProfitable(Ranked(rs)[i]) && Ranked(rs)[i] in rs
    ensures NonIncreasing(Ranked(rs), Profit)
    ensures forall k :: WithKey(Ranked(rs), Profit, k) == WithKey(Profitable(rs), Profit, k)
  {
    SortDescSorted(Profitable(rs), Profit);
    SortDescStable(Profitable(rs), Profit);
    RankedMembers(rs);
  }

  /** Every ranked record is a profitable record of the input. */
  lemma RankedMembers(rs: seq<Record>)
    ensures forall i :: 0 <= i < |Ranked(rs)| ==> IsProfitable(Ranked(rs)[i]) && Ranked(rs)[i] in rs
  {
    var ranked := Ranked(rs);
    ProfitableAreProfitable(rs);
    forall i | 0 <= i < |ranked| ensures IsProfitable(ranked[i]) && ranked[i] in rs {
      assert ranked[i] in multiset(ranked);
      assert ranked[i] in Profitable(rs);
    }
  }

  /**
   * The first n of the ranking are min(n, number of profitable records) profitable records of
   * the input, in non-increasing order of profit, and no profitable record left out earns more
   * than any of them.
   */
  lemma TopRankedIsBest(rs: seq<Record>, n: nat)
    ensures var top := Top(Ranked(rs), n);
      && |top| == (if |Profitable(rs)| < n then |Profitable(rs)| else n)
      && (forall i :: 0 <= i < |top| ==> IsProfitable(top[i]) && top[i] in rs)
      && (forall i, j :: 0 <= i < j < |top| ==> Profit(top[i]) >= Profit(top[j]))
      && (forall x, i :: x in multiset(Profitable(rs)) - multiset(top) && 0 <= i < |top| ==> Profit(x) <= Profit(top[i]))
  {
    var ranked := Ranked(rs);
    var top := Top(ranked, n);
    RankedMembers(rs);
    SortDescSorted(Profitable(rs), Profit);
    TopOfSortedIsBest(Profitable(rs), Profit, n);
    forall i | 0 <= i < |top| ensures IsProfitable(top[i]) && top[i] in rs {
      assert top[i] == ranked[i];
    }
    forall i, j | 0 <= i < j < |top| ensures Profit(top[i]) >= Profit(top[j]) {
      assert top[i] == ranked[i] && top[j] == ranked[j];
    }
  }
}
