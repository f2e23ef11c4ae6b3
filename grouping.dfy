/**
 * Per-key statistics of a sequence of keyed records, as the weekly report accumulates them in
 * its `daily_stats` (keyed by file date) and `pair_stats` (keyed by book pair) dictionaries,
 * and the law that the groups of distinct keys add up to the statistics of the whole sequence.
 */
module Grouping {
  import opened Records
  import opened StableSort

  /** Statistics of a group of records: how many, how many profitable, their profit and their risk. */
  datatype Tally = Tally(total: int, profitable: int, profit: real, risk: real)

  function Empty(): Tally
  {
    Tally(0, 0, 0.0, 0.0)
  }

  function Add(a: Tally, b: Tally): Tally
  {
    Tally(a.total + b.total, a.profitable + b.profitable, a.profit + b.profit, a.risk + b.risk)
  }

  /**
   * What one record adds to its group: one to the total; one and its profit when it is
   * profitable; its risk, 0 when missing.
   */
  function Contribution(r: Record): Tally
  {
    if IsProfitable(r) then Tally(1, 1, Profit(r), Risk(r)) else Tally(1, 0, 0.0, Risk(r))
  }

  /** Statistics of a whole sequence of records. */
  function TallyAll(rs: seq<Record>): Tally
  {
    if rs == [] then Empty() else Add(TallyAll(rs[..|rs| - 1]), Contribution(rs[|rs| - 1]))
  }

  /** A record filed under a key. */
  datatype Keyed<K> = Keyed(key: K, record: Record)

  function RecordsOf<K>(xs: seq<Keyed<K>>): (rs: seq<Record>)
    ensures |rs| == |xs|
  {
    if xs == [] then [] else RecordsOf(xs[..|xs| - 1]) + [xs[|xs| - 1].record]
  }

  function KeySeq<K>(xs: seq<Keyed<K>>): (ks: seq<K>)
    ensures |ks| == |xs|
  {
    if xs == [] then [] else KeySeq(xs[..|xs| - 1]) + [xs[|xs| - 1].key]
  }

  /** The keys of s without repetitions, in the order of their first occurrence (a dict's key order). */
  function FirstSeen<K(==)>(s: seq<K>): seq<K>
  {
    if s == [] then []
    else
      var init := s[..|s| - 1];
      FirstSeen(init) + (if s[|s| - 1] in init then [] else [s[|s| - 1]])
  }

  /** Statistics of the records filed under key k. */
  function TallyOf<K(==)>(xs: seq<Keyed<K>>, k: K): Tally
  {
    if xs == [] then Empty()
    else
      var last := xs[|xs| - 1];
      Add(TallyOf(xs[..|xs| - 1], k), if last.key == k then Contribution(last.record) else Empty())
  }

  /** The statistics of each key of ks, added up. */
  function SumTallies<K(==)>(xs: seq<Keyed<K>>, ks: seq<K>): Tally
  {
    if ks == [] then Empty() else Add(TallyOf(xs, ks[0]), SumTallies(xs, ks[1..]))
  }

  /** A group never has more profitable records than records, nor fewer than none. */
  lemma {:induction false} TallyOfBounded<K>(xs: seq<Keyed<K>>, k: K)
    ensures 0 <= TallyOf(xs, k).profitable <= TallyOf(xs, k).total
  {
    if xs != [] {
      TallyOfBounded(xs[..|xs| - 1], k);
    }
  }

  lemma {:induction false} FirstSeenDistinct<K>(s: seq<K>)
    ensures Distinct(FirstSeen(s))
    ensures forall k :: k in FirstSeen(s) <==> k in s
  {
    if s != [] {
      var init := s[..|s| - 1];
      FirstSeenDistinct(init);
      assert s == init + [s[|s| - 1]];
      if s[|s| - 1] !in init {
        DistinctSnoc(FirstSeen(init), s[|s| - 1]);
      } else {
        assert FirstSeen(s) == FirstSeen(init);
      }
    }
  }

  /** A key that files nothing has empty statistics. */
  lemma {:induction false} TallyOfAbsent<K>(xs: seq<Keyed<K>>, k: K)
    requires k !in KeySeq(xs)
    ensures TallyOf(xs, k) == Empty()
  {
    if xs != [] {
      var init := xs[..|xs| - 1];
      assert KeySeq(xs) == KeySeq(init) + [xs[|xs| - 1].key];
      TallyOfAbsent(init, k);
    }
  }

  lemma {:induction false} SumTalliesOfNothing<K>(ks: seq<K>)
    ensures SumTallies([], ks) == Empty()
  {
    if ks != [] {
      SumTalliesOfNothing(ks[1..]);
    }
  }

  lemma AddInterchange(a: Tally, b: Tally, c: Tally, d: Tally)
    ensures Add(Add(a, b), Add(c, d)) == Add(Add(a, c), Add(b, d))
  {
  }

  lemma AddEmpty(a: Tally)
    ensures Add(a, Empty()) == a && Add(Empty(), a) == a
  {
  }

  lemma MemberOfNonEmpty<T>(y: T, s: seq<T>)
    requires s != []
    ensures y in s <==> y == s[0] || y in s[1..]
  {
    assert s == [s[0]] + s[1..];
  }

  lemma AddExclusive(c: Tally, a: bool, b: bool)
    requires !(a && b)
    ensures Add(if a then c else Empty(), if b then c else Empty()) == if a || b then c else Empty()
  {
  }

  lemma TallyOfSnoc<K>(xs: seq<Keyed<K>>, x: Keyed<K>, k: K)
    ensures TallyOf(xs + [x], k) == Add(TallyOf(xs, k), if x.key == k then Contribution(x.record) else Empty())
  {
    assert (xs + [x])[..|xs|] == xs;
  }

  lemma SumTalliesSnocNoKeys<K>(xs: seq<Keyed<K>>, x: Keyed<K>)
    ensures SumTallies(xs + [x], []) == Add(SumTallies(xs, []), Empty())
  {
  }

  /** One more record adds its contribution to exactly the one key of ks it is filed under, if any. */
  lemma {:induction false} SumTalliesSnoc<K>(xs: seq<Keyed<K>>, x: Keyed<K>, ks: seq<K>)
    requires Distinct(ks)
    ensures SumTallies(xs + [x], ks)
         == Add(SumTallies(xs, ks), if x.key in ks then Contribution(x.record) else Empty())
  {
    if ks == [] {
      SumTalliesSnocNoKeys(xs, x);
    } else {
      var k, rest := ks[0], ks[1..];
      var c := Contribution(x.record);
      SumTalliesSnoc(xs, x, rest);
      TallyOfSnoc(xs, x, k);
      var ck := if x.key == k then c else Empty();
      var cr := if x.key in rest then c else Empty();
      AddInterchange(TallyOf(xs, k), ck, SumTallies(xs, rest), cr);
      MemberOfNonEmpty(x.key, ks);
      AddExclusive(c, x.key == k, x.key in rest);
      var whole := SumTallies(xs + [x], ks);
      assert whole == Add(TallyOf(xs + [x], k), SumTallies(xs + [x], rest));
      assert whole == Add(Add(TallyOf(xs, k), ck), Add(SumTallies(xs, rest), cr));
      assert whole == Add(Add(TallyOf(xs, k), SumTallies(xs, rest)), Add(ck, cr));
      assert whole == Add(SumTallies(xs, ks), Add(ck, cr));
      var added := if x.key in ks then c else Empty();
      assert Add(ck, cr) == added;
    }
  }

  /** The statistics of a sequence count it, count its profitable part, and sum that part's profit and everyone's risk. */
  lemma {:induction false} TallyAllCounts(rs: seq<Record>)
    ensures TallyAll(rs) == Tally(|rs|, |Profitable(rs)|, SumProfit(Profitable(rs)), SumRisk(rs))
  {
    if rs != [] {
      var init := rs[..|rs| - 1];
      var last := rs[|rs| - 1];
      TallyAllCounts(init);
      if IsProfitable(last) {
        SumProfitSnoc(Profitable(init), last);
      } else {
        assert Profitable(rs) == Profitable(init);
      }
    }
  }

  lemma SumProfitSnoc(rs: seq<Record>, r: Record)
    ensures SumProfit(rs + [r]) == SumProfit(rs) + Profit(r)
  {
    assert (rs + [r])[..|rs|] == rs;
  }

  /** Over a repetition-free key sequence that lists every key used, the groups add up to the whole. */
  lemma {:induction false} SumTalliesCovering<K>(xs: seq<Keyed<K>>, ks: seq<K>)
    requires Distinct(ks)
    requires forall i :: 0 <= i < |xs| ==> xs[i].key in ks
    ensures SumTallies(xs, ks) == TallyAll(RecordsOf(xs))
  {
    if xs == [] {
      SumTalliesOfNothing(ks);
    } else {
      var init, x := xs[..|xs| - 1], xs[|xs| - 1];
      forall i | 0 <= i < |init| ensures init[i].key in ks {
        assert init[i] == xs[i];
      }
      assert xs == init + [x];
      assert x.key in ks;
      SumTalliesCovering(init, ks);
      SumTalliesSnoc(init, x, ks);
      KeyedSnoc(init, x);
      TallyAllSnoc(RecordsOf(init), x.record);
      var grown := Add(TallyAll(RecordsOf(init)), Contribution(x.record));
      assert SumTallies(xs, ks) == grown;
      assert TallyAll(RecordsOf(xs)) == grown;
    }
  }

  lemma TallyAllSnoc(rs: seq<Record>, r: Record)
    ensures TallyAll(rs + [r]) == Add(TallyAll(rs), Contribution(r))
  {
    assert (rs + [r])[..|rs|] == rs;
  }

  /**
   * The groups of a repetition-free key sequence that lists every key add up to the whole:
   * their totals to the number of records, their profitable counts and profits to those of
   * the profitable records, their risks to the total risk.
   */
  lemma GroupsAddUp<K>(xs: seq<Keyed<K>>, ks: seq<K>)
    requires Distinct(ks)
    requires forall i :: 0 <= i < |xs| ==> xs[i].key in ks
    ensures var rs := RecordsOf(xs);
      SumTallies(xs, ks) == Tally(|rs|, |Profitable(rs)|, SumProfit(Profitable(rs)), SumRisk(rs))
  {
    SumTalliesCovering(xs, ks);
    TallyAllCounts(RecordsOf(xs));
  }

  /** Every key that files a record has a nonempty group. */
  lemma {:induction false} TallyOfPresent<K>(xs: seq<Keyed<K>>, k: K)
    requires k in KeySeq(xs)
    ensures TallyOf(xs, k).total >= 1
  {
    var init := xs[..|xs| - 1];
    assert KeySeq(xs) == KeySeq(init) + [xs[|xs| - 1].key];
    if xs[|xs| - 1].key != k {
      TallyOfPresent(init, k);
    } else {
      TallyOfBounded(init, k);
    }
  }

  lemma KeyedSnoc<K>(xs: seq<Keyed<K>>, x: Keyed<K>)
    ensures KeySeq(xs + [x]) == KeySeq(xs) + [x.key]
    ensures RecordsOf(xs + [x]) == RecordsOf(xs) + [x.record]
  {
    assert (xs + [x])[..|xs|] == xs;
  }

  /** The keys and the records of xs, position by position. */
  lemma {:induction false} KeyedAt<K>(xs: seq<Keyed<K>>)
    ensures forall i :: 0 <= i < |xs| ==> KeySeq(xs)[i] == xs[i].key && RecordsOf(xs)[i] == xs[i].record
  {
    if xs != [] {
      KeyedAt(xs[..|xs| - 1]);
    }
  }

  /**
   * A dictionary of per-key statistics and its key order hold what accumulating xs in order
   * yields: the keys in order of first use, each with the statistics of its group.
   */
  ghost predicate Tracks<K>(stats: map<K, Tally>, order: seq<K>, xs: seq<Keyed<K>>)
  {
    && order == FirstSeen(KeySeq(xs))
    && (forall k :: k in stats ==> k in order)
    && (forall k :: k in order ==> k in stats)
    && (forall k :: k in stats ==> stats[k] == TallyOf(xs, k))
  }

  /**
   * The statistics after filing one more record under k: k's statistics (empty when k is new)
   * plus the record's contribution; every other key keeps its statistics.
   */
  function Count<K(==)>(stats: map<K, Tally>, k: K, r: Record): map<K, Tally>
  {
    stats[k := Add(if k in stats then stats[k] else Empty(), Contribution(r))]
  }

  /** The key order after filing one more record under k: k is appended when it is new. */
  function Extend<K(==)>(stats: map<K, Tally>, order: seq<K>, k: K): seq<K>
  {
    if k in stats then order else order + [k]
  }

  /** Filing one more record keeps the dictionary tracking the longer sequence. */
  lemma TracksSnoc<K>(stats: map<K, Tally>, order: seq<K>, xs: seq<Keyed<K>>, x: Keyed<K>)
    requires Tracks(stats, order, xs)
    ensures Tracks(Count(stats, x.key, x.record), Extend(stats, order, x.key), xs + [x])
  {
    var k := x.key;
    var order' := Extend(stats, order, k);
    var stats' := Count(stats, k, x.record);
    var xs' := xs + [x];
    KeyedSnoc(xs, x);
    FirstSeenDistinct(KeySeq(xs));
    assert KeySeq(xs')[..|KeySeq(xs')| - 1] == KeySeq(xs);
    assert order' == FirstSeen(KeySeq(xs'));
    if k !in stats {
      TallyOfAbsent(xs, k);
    }
    forall j | j in stats' ensures stats'[j] == TallyOf(xs', j) {
      TallyOfSnoc(xs, x, j);
      if j == k {
        AddEmpty(Contribution(x.record));
      } else {
        AddEmpty(stats[j]);
      }
    }
    assert forall j :: j in stats' ==> j in order';
    assert forall j :: j in order' ==> j in stats';
    assert Tracks(stats', order', xs');
  }

  /** A group whose records are all profitable and which is nonempty has a positive profit. */
  lemma {:induction false} TallyOfProfitable<K>(xs: seq<Keyed<K>>, k: K)
    requires forall i :: 0 <= i < |xs| ==> IsProfitable(xs[i].record)
    ensures TallyOf(xs, k).profit >= 0.0
    ensures TallyOf(xs, k).total >= 1 ==> TallyOf(xs, k).profit > 0.0
  {
    if xs != [] {
      TallyOfProfitable(xs[..|xs| - 1], k);
    }
  }
}
