/**
 * The weekly summary (bets-this-week): every opportunity of the scan files of the past seven
 * days, the statistics of each scan day, the five most profitable opportunities, the statistics
 * of each (bonus book, hedge book) pair and the share of opportunities that are profitable.
 */
module ThisWeek {
  import opened Optional
  import opened Records
  import opened StableSort
  import opened Grouping
  import opened Ranking
  import opened FileNames

  const TopCount := 5

  /** One scan file: its name without the extension, and the opportunities it holds, in file order. */
  datatype ScanFile = ScanFile(stem: string, records: seq<Record>)

  /**
   * The moment seven days before now: its date as YYYYMMDD and the microseconds elapsed since
   * that date's midnight.
   */
  datatype Cutoff = Cutoff(day: int, microsecond: int)

  /**
   * A file is read when its name carries a date whose midnight is no earlier than the cutoff:
   * a later date, or the cutoff's own date when the cutoff falls exactly at midnight.
   */
  predicate InWindow(f: ScanFile, cutoff: Cutoff)
  {
    var date := FileDate(f.stem);
    date.Some? && (date.value > cutoff.day || (date.value == cutoff.day && cutoff.microsecond == 0))
  }

  /** The records of one file, each filed under the file's day. */
  function Tagged(day: int, rs: seq<Record>): (xs: seq<Keyed<int>>)
    ensures |xs| == |rs|
    ensures forall i :: 0 <= i < |xs| ==> xs[i] == Keyed(day, rs[i])
  {
    if rs == [] then [] else Tagged(day, rs[..|rs| - 1]) + [Keyed(day, rs[|rs| - 1])]
  }

  /** The opportunities of the files read, in file order, each filed under its file's date. */
  function Window(files: seq<ScanFile>, cutoff: Cutoff): seq<Keyed<int>>
  {
    if files == [] then []
    else
      var last := files[|files| - 1];
      Window(files[..|files| - 1], cutoff)
        + (if InWindow(last, cutoff) then Tagged(FileDate(last.stem).value, last.records) else [])
  }

  /** Days are sorted as their `YYYY-MM-DD` keys are: by the number YYYYMMDD. */
  function DayKey(d: int): real
  {
    d as real
  }

  /** The days that have at least one opportunity, latest first. */
  function Days(xs: seq<Keyed<int>>): seq<int>
  {
    SortDesc(FirstSeen(KeySeq(xs)), DayKey)
  }

  /** One line of the daily breakdown. */
  datatype DayRow = DayRow(date: int, stats: Tally)

  function DayRows(xs: seq<Keyed<int>>, ds: seq<int>): (rows: seq<DayRow>)
    ensures |rows| == |ds|
    ensures forall i :: 0 <= i < |ds| ==> rows[i] == DayRow(ds[i], TallyOf(xs, ds[i]))
  {
    if ds == [] then [] else [DayRow(ds[0], TallyOf(xs, ds[0]))] + DayRows(xs, ds[1..])
  }

  /** The daily breakdown: each day with opportunities and its statistics, latest day first. */
  function DailyRows(xs: seq<Keyed<int>>): seq<DayRow>
  {
    DayRows(xs, Days(xs))
  }

  function SumRows(rows: seq<DayRow>): Tally
  {
    if rows == [] then Empty() else Add(rows[0].stats, SumRows(rows[1..]))
  }

  /** A sportsbook pair: where the bonus bet goes and where the hedge goes. */
  datatype BookPair = BookPair(bonusBook: string, hedgeBook: string)

  /** How many profitable opportunities use a pair, and their profit. */
  datatype PairStat = PairStat(count: int, profit: real)

  datatype PairRow = PairRow(pair: BookPair, stats: PairStat)

  function PairOf(r: Record): BookPair
  {
    BookPair(r.bonusBook, r.hedgeBook)
  }

  /** The records, each filed under its sportsbook pair. */
  function ByPair(rs: seq<Record>): seq<Keyed<BookPair>>
  {
    if rs == [] then [] else ByPair(rs[..|rs| - 1]) + [Keyed(PairOf(rs[|rs| - 1]), rs[|rs| - 1])]
  }

  function PairStatOf(t: Tally): PairStat
  {
    PairStat(t.total, t.profit)
  }

  function PairProfit(xs: seq<Keyed<BookPair>>): BookPair -> real
  {
    p => TallyOf(xs, p).profit
  }

  /** The pairs in use, most profitable first; pairs of equal profit in order of first use. */
  function Pairs(xs: seq<Keyed<BookPair>>): seq<BookPair>
  {
    SortDesc(FirstSeen(KeySeq(xs)), PairProfit(xs))
  }

  function PairRowsOf(xs: seq<Keyed<BookPair>>, ps: seq<BookPair>): (rows: seq<PairRow>)
    ensures |rows| == |ps|
    ensures forall i :: 0 <= i < |ps| ==> rows[i] == PairRow(ps[i], PairStatOf(TallyOf(xs, ps[i])))
  {
    if ps == [] then [] else [PairRow(ps[0], PairStatOf(TallyOf(xs, ps[0])))] + PairRowsOf(xs, ps[1..])
  }

  /** The pair breakdown of the profitable opportunities rs. */
  function PairRows(rs: seq<Record>): seq<PairRow>
  {
    PairRowsOf(ByPair(rs), Pairs(ByPair(rs)))
  }

  function SumPairRows(rows: seq<PairRow>): PairStat
  {
    if rows == [] then PairStat(0, 0.0)
    else
      var rest := SumPairRows(rows[1..]);
      PairStat(rows[0].stats.count + rest.count, rows[0].stats.profit + rest.profit)
  }

  /** The percentage of profitable opportunities among all of them, 0 when there are none. */
  function SuccessRate(profitable: int, total: int): (rate: real)
    ensures total == 0 ==> rate == 0.0
    ensures total > 0 ==> rate * total as real == 100.0 * profitable as real
    ensures total > 0 && 0 <= profitable <= total ==> 0.0 <= rate <= 100.0
  {
    if total > 0 then profitable as real / total as real * 100.0 else 0.0
  }

  datatype WeekSummary = WeekSummary(
    opportunities: seq<Record>,
    profitable: seq<Record>,
    totalProfit: real,
    daily: seq<DayRow>,
    top: seq<Record>,
    pairs: seq<PairRow>,
    successRate: real)

  /**
   * Counts one opportunity in its day's statistics, opening the day with empty statistics when
   * it is new.
   */
  method CountDay(dailyStats0: map<int, Tally>, dayOrder0: seq<int>, day: int, opp: Record)
    returns (dailyStats: map<int, Tally>, dayOrder: seq<int>)
    ensures dailyStats == Count(dailyStats0, day, opp)
    ensures dayOrder == Extend(dailyStats0, dayOrder0, day)
  {
    dailyStats, dayOrder := dailyStats0, dayOrder0;
    if day !in dailyStats {
      dailyStats := dailyStats[day := Empty()];
      dayOrder := dayOrder + [day];
    }
    var stats := dailyStats[day];
    stats := stats.(total := stats.total + 1);
    if IsProfitable(opp) {
      stats := stats.(profitable := stats.profitable + 1, profit := stats.profit + Profit(opp));
    }
    stats := stats.(risk := stats.risk + Risk(opp));
    dailyStats := dailyStats[day := stats];
  }

  /** Appends one opportunity to the list and counts it under its file's day. */
  method ReadRecord(day: int, opp: Record, opps0: seq<Record>, stats0: map<int, Tally>, order0: seq<int>,
                    ghost filed0: seq<Keyed<int>>)
    returns (opps: seq<Record>, dailyStats: map<int, Tally>, dayOrder: seq<int>, ghost filed: seq<Keyed<int>>)
    requires opps0 == RecordsOf(filed0) && Tracks(stats0, order0, filed0)
    ensures filed == filed0 + [Keyed(day, opp)]
    ensures opps == RecordsOf(filed) && Tracks(dailyStats, dayOrder, filed)
  {
    filed := filed0 + [Keyed(day, opp)];
    TracksSnoc(stats0, order0, filed0, Keyed(day, opp));
    KeyedSnoc(filed0, Keyed(day, opp));
    opps := opps0 + [opp];
    dailyStats, dayOrder := CountDay(stats0, order0, day, opp);
  }

  /** Reads the opportunities of one file, appending each to the list and counting it under the file's day. */
  method ReadFile(day: int, records: seq<Record>, opps0: seq<Record>, stats0: map<int, Tally>, order0: seq<int>,
                  ghost filed0: seq<Keyed<int>>)
    returns (opps: seq<Record>, dailyStats: map<int, Tally>, dayOrder: seq<int>, ghost filed: seq<Keyed<int>>)
    requires opps0 == RecordsOf(filed0) && Tracks(stats0, order0, filed0)
    ensures filed == filed0 + Tagged(day, records)
    ensures opps == RecordsOf(filed) && Tracks(dailyStats, dayOrder, filed)
  {
    opps, dailyStats, dayOrder, filed := opps0, stats0, order0, filed0;
    for j := 0 to |records|
      invariant filed == filed0 + Tagged(day, records[..j])
      invariant opps == RecordsOf(filed)
      invariant Tracks(dailyStats, dayOrder, filed)
    {
      TaggedSnoc(day, records, j);
      AppendAssoc(filed0, Tagged(day, records[..j]), Keyed(day, records[j]));
      opps, dailyStats, dayOrder, filed := ReadRecord(day, records[j], opps, dailyStats, dayOrder, filed);
    }
    assert records[..|records|] == records;
  }

  lemma AppendAssoc<T>(a: seq<T>, b: seq<T>, x: T)
    ensures a + (b + [x]) == a + b + [x]
  {
  }

  lemma TaggedSnoc(day: int, rs: seq<Record>, j: int)
    requires 0 <= j < |rs|
    ensures Tagged(day, rs[..j + 1]) == Tagged(day, rs[..j]) + [Keyed(day, rs[j])]
  {
    assert rs[..j + 1][..j] == rs[..j];
  }

  /** Reads the files in order, skipping those whose name has no date or whose date is too old. */
  method ReadWindow(files: seq<ScanFile>, cutoff: Cutoff)
    returns (opps: seq<Record>, dailyStats: map<int, Tally>, dayOrder: seq<int>)
    ensures opps == RecordsOf(Window(files, cutoff))
    ensures Tracks(dailyStats, dayOrder, Window(files, cutoff))
  {
    opps, dailyStats, dayOrder := [], map[], [];
    ghost var filed: seq<Keyed<int>> := [];
    for i := 0 to |files|
      invariant filed == Window(files[..i], cutoff)
      invariant opps == RecordsOf(filed) && Tracks(dailyStats, dayOrder, filed)
    {
      var file := files[i];
      assert files[..i + 1][..i] == files[..i];
      if InWindow(file, cutoff) {
        var date := FileDate(file.stem);
        opps, dailyStats, dayOrder, filed := ReadFile(date.value, file.records, opps, dailyStats, dayOrder, filed);
      }
    }
    assert files[..|files|] == files;
  }

  /** One table line per day, in the order given, with the day's statistics from the dictionary. */
  method DayLines(days: seq<int>, dailyStats: map<int, Tally>, ghost filed: seq<Keyed<int>>)
    returns (daily: seq<DayRow>)
    requires forall d :: d in days ==> d in dailyStats && dailyStats[d] == TallyOf(filed, d)
    ensures daily == DayRows(filed, days)
  {
    daily := [];
    for i := 0 to |days|
      invariant daily == DayRows(filed, days[..i])
    {
      var d := days[i];
      DayRowsSnoc(filed, days[..i], d);
      assert days[..i + 1] == days[..i] + [d];
      daily := daily + [DayRow(d, dailyStats[d])];
    }
    assert days[..|days|] == days;
  }

  lemma DayRowsSnoc(xs: seq<Keyed<int>>, ds: seq<int>, d: int)
    ensures DayRows(xs, ds + [d]) == DayRows(xs, ds) + [DayRow(d, TallyOf(xs, d))]
  {
    var lhs, rhs := DayRows(xs, ds + [d]), DayRows(xs, ds) + [DayRow(d, TallyOf(xs, d))];
    assert |lhs| == |rhs|;
    forall i | 0 <= i < |lhs| ensures lhs[i] == rhs[i] {
      if i < |ds| {
        assert (ds + [d])[i] == ds[i];
      }
    }
  }

  /** The daily breakdown table: the days of the dictionary, latest first, with their statistics. */
  method DailyBreakdown(dailyStats: map<int, Tally>, dayOrder: seq<int>, ghost filed: seq<Keyed<int>>)
    returns (daily: seq<DayRow>)
    requires Tracks(dailyStats, dayOrder, filed)
    ensures daily == DailyRows(filed)
  {
    var days := SortDesc(dayOrder, DayKey);
    forall d | d in days ensures d in dailyStats && dailyStats[d] == TallyOf(filed, d) {
      assert d in multiset(days);
      assert d in multiset(dayOrder);
    }
    daily := DayLines(days, dailyStats, filed);
  }

  /** Counts one profitable opportunity and its profit under its pair, opening the pair when it is new. */
  method CountPair(pairStats0: map<BookPair, PairStat>, pairOrder0: seq<BookPair>, pair: BookPair, opp: Record)
    returns (pairStats: map<BookPair, PairStat>, pairOrder: seq<BookPair>)
    ensures var prior := if pair in pairStats0 then pairStats0[pair] else PairStat(0, 0.0);
            pairStats == pairStats0[pair := PairStat(prior.count + 1, prior.profit + Profit(opp))]
    ensures pairOrder == if pair in pairStats0 then pairOrder0 else pairOrder0 + [pair]
  {
    pairStats, pairOrder := pairStats0, pairOrder0;
    if pair !in pairStats {
      pairStats := pairStats[pair := PairStat(0, 0.0)];
      pairOrder := pairOrder + [pair];
    }
    var stats := pairStats[pair];
    stats := stats.(count := stats.count + 1);
    stats := stats.(profit := stats.profit + Profit(opp));
    pairStats := pairStats[pair := stats];
  }

  /** The pair statistics of the dictionary are those of the tallies, less the risk. */
  ghost predicate Projects(pairStats: map<BookPair, PairStat>, tallies: map<BookPair, Tally>)
  {
    && (forall p :: p in pairStats ==> p in tallies && pairStats[p] == PairStatOf(tallies[p]))
    && (forall p :: p in tallies ==> p in pairStats)
  }

  /** Counts each profitable opportunity and its profit under its sportsbook pair. */
  method TallyPairs(profitable: seq<Record>)
    returns (pairStats: map<BookPair, PairStat>, pairOrder: seq<BookPair>, ghost tallies: map<BookPair, Tally>)
    requires forall i :: 0 <= i < |profitable| ==> IsProfitable(profitable[i])
    ensures Tracks(tallies, pairOrder, ByPair(profitable))
    ensures Projects(pairStats, tallies)
  {
    pairStats, pairOrder, tallies := map[], [], map[];
    ghost var byPair: seq<Keyed<BookPair>> := [];
    for i := 0 to |profitable|
      invariant byPair == ByPair(profitable[..i])
      invariant Tracks(tallies, pairOrder, byPair)
      invariant Projects(pairStats, tallies)
    {
      var opp := profitable[i];
      assert profitable[..i + 1][..i] == profitable[..i];
      var pair := BookPair(opp.bonusBook, opp.hedgeBook);
      ghost var x := Keyed(pair, opp);
      TracksSnoc(tallies, pairOrder, byPair, x);
      ProjectsCount(pairStats, tallies, pair, opp);
      pairStats, pairOrder := CountPair(pairStats, pairOrder, pair, opp);
      tallies := Count(tallies, pair, opp);
      byPair := byPair + [x];
    }
    assert profitable[..|profitable|] == profitable;
  }

  lemma ProjectsCount(pairStats: map<BookPair, PairStat>, tallies: map<BookPair, Tally>, pair: BookPair, opp: Record)
    requires Projects(pairStats, tallies) && IsProfitable(opp)
    ensures var prior := if pair in pairStats then pairStats[pair] else PairStat(0, 0.0);
            Projects(pairStats[pair := PairStat(prior.count + 1, prior.profit + Profit(opp))], Count(tallies, pair, opp))
  {
  }

  /** One table line per pair, in the order given, with the pair's statistics from the dictionary. */
  method PairLines(ps: seq<BookPair>, pairStats: map<BookPair, PairStat>, ghost xs: seq<Keyed<BookPair>>)
    returns (pairs: seq<PairRow>)
    requires forall p :: p in ps ==> p in pairStats && pairStats[p] == PairStatOf(TallyOf(xs, p))
    ensures pairs == PairRowsOf(xs, ps)
  {
    pairs := [];
    for i := 0 to |ps|
      invariant pairs == PairRowsOf(xs, ps[..i])
    {
      var p := ps[i];
      PairRowsSnoc(xs, ps[..i], p);
      assert ps[..i + 1] == ps[..i] + [p];
      pairs := pairs + [PairRow(p, pairStats[p])];
    }
    assert ps[..|ps|] == ps;
  }

  lemma PairRowsSnoc(xs: seq<Keyed<BookPair>>, ps: seq<BookPair>, p: BookPair)
    ensures PairRowsOf(xs, ps + [p]) == PairRowsOf(xs, ps) + [PairRow(p, PairStatOf(TallyOf(xs, p)))]
  {
    var lhs, rhs := PairRowsOf(xs, ps + [p]), PairRowsOf(xs, ps) + [PairRow(p, PairStatOf(TallyOf(xs, p)))];
    assert |lhs| == |rhs|;
    forall i | 0 <= i < |lhs| ensures lhs[i] == rhs[i] {
      if i < |ps| {
        assert (ps + [p])[i] == ps[i];
      }
    }
  }

  /**
   * The pair breakdown table: the pairs of the dictionary sorted by their profit, most
   * profitable first, with their count and profit.
   */
  method PairBreakdown(profitable: seq<Record>) returns (pairs: seq<PairRow>)
    requires forall i :: 0 <= i < |profitable| ==> IsProfitable(profitable[i])
    ensures pairs == PairRows(profitable)
  {
    var pairStats, pairOrder, tallies := TallyPairs(profitable);
    ghost var byPair := ByPair(profitable);
    var byProfit := p => if p in pairStats then pairStats[p].profit else 0.0;
    forall p | p in pairOrder ensures PairProfit(byPair)(p) == byProfit(p) {
      assert tallies[p] == TallyOf(byPair, p);
    }
    SortDescAgree(pairOrder, PairProfit(byPair), byProfit);
    var sorted := SortDesc(pairOrder, byProfit);
    forall p | p in sorted ensures p in pairStats && pairStats[p] == PairStatOf(TallyOf(byPair, p)) {
      assert p in multiset(sorted);
      assert p in multiset(pairOrder);
    }
    pairs := PairLines(sorted, pairStats, byPair);
  }

  /**
   * The weekly summary: the opportunities of the files read, the daily breakdown, the profitable
   * opportunities and their total profit, the best five of them, the pair breakdown and the
   * success rate.
   */
  method CreateThisWeek(files: seq<ScanFile>, cutoff: Cutoff) returns (w: WeekSummary)
    ensures w.opportunities == RecordsOf(Window(files, cutoff))
    ensures w.profitable == Profitable(w.opportunities)
    ensures w.totalProfit == SumProfit(w.profitable)
    ensures w.daily == DailyRows(Window(files, cutoff))
    ensures w.top == Top(Ranked(w.opportunities), TopCount)
    ensures w.pairs == PairRows(w.profitable)
    ensures w.successRate == SuccessRate(|w.profitable|, |w.opportunities|)
  {
    var allOpps, dailyStats, dayOrder := ReadWindow(files, cutoff);
    ghost var filed := Window(files, cutoff);
    var profitableOpps := Profitable(allOpps);
    var totalProfit := SumProfit(profitableOpps);
    var daily := DailyBreakdown(dailyStats, dayOrder, filed);
    var top := Top(SortDesc(profitableOpps, Profit), TopCount);
    ProfitableAreProfitable(allOpps);
    var pairs := PairBreakdown(profitableOpps);
    var rate := SuccessRate(|profitableOpps|, |allOpps|);
    w := WeekSummary(allOpps, profitableOpps, totalProfit, daily, top, pairs, rate);
  }

  /** The files are read independently: the window of a concatenation is the concatenation of the windows. */
  lemma {:induction false} WindowSplit(a: seq<ScanFile>, b: seq<ScanFile>, cutoff: Cutoff)
    ensures Window(a + b, cutoff) == Window(a, cutoff) + Window(b, cutoff)
  {
    if b == [] {
      assert a + b == a;
    } else {
      var init := b[..|b| - 1];
      assert (a + b)[..|a + b| - 1] == a + init;
      WindowSplit(a, init, cutoff);
    }
  }

  /**
   * A file outside the window (no date in its name, or a date before the cutoff) adds nothing;
   * a file inside it adds all its opportunities, in order, filed under its date.
   */
  lemma FileContribution(a: seq<ScanFile>, f: ScanFile, b: seq<ScanFile>, cutoff: Cutoff)
    ensures !InWindow(f, cutoff) ==> Window(a + [f] + b, cutoff) == Window(a + b, cutoff)
    ensures InWindow(f, cutoff) ==>
      Window(a + [f] + b, cutoff) == Window(a, cutoff) + Tagged(FileDate(f.stem).value, f.records) + Window(b, cutoff)
  {
    WindowSplit(a + [f], b, cutoff);
    WindowSplit(a, [f], cutoff);
    WindowSplit(a, b, cutoff);
    assert [f][..0] == [];
  }

  /**
   * Every opportunity read is filed under a valid date no earlier than the cutoff's, and later
   * than it unless the cutoff falls exactly at midnight.
   */
  lemma {:induction false} WindowIsRecent(files: seq<ScanFile>, cutoff: Cutoff)
    ensures forall x :: x in Window(files, cutoff) ==>
      ValidDate(x.key) && (x.key > cutoff.day || (x.key == cutoff.day && cutoff.microsecond == 0))
  {
    if files != [] {
      WindowIsRecent(files[..|files| - 1], cutoff);
    }
  }

  lemma {:induction false} SumRowsOfDays(xs: seq<Keyed<int>>, ds: seq<int>)
    ensures SumRows(DayRows(xs, ds)) == SumTallies(xs, ds)
  {
    if ds != [] {
      SumRowsOfDays(xs, ds[1..]);
      assert DayRows(xs, ds)[1..] == DayRows(xs, ds[1..]);
    }
  }

  /** The days of the breakdown are distinct. */
  lemma DaysDistinct(xs: seq<Keyed<int>>)
    ensures Distinct(Days(xs))
  {
    FirstSeenDistinct(KeySeq(xs));
    SortDescDistinct(FirstSeen(KeySeq(xs)), DayKey);
  }

  /** A day is in the breakdown exactly when some opportunity is filed under it. */
  lemma DayListed(xs: seq<Keyed<int>>, d: int)
    ensures d in Days(xs) <==> d in KeySeq(xs)
  {
    FirstSeenDistinct(KeySeq(xs));
    assert d in Days(xs) <==> d in multiset(Days(xs));
    assert d in FirstSeen(KeySeq(xs)) <==> d in multiset(FirstSeen(KeySeq(xs)));
  }

  /**
   * The daily breakdown adds up: its totals to the number of opportunities, its profitable
   * counts to the number of profitable ones, its profits to their total profit, and its risks
   * to the total risk.
   */
  lemma DailyAddsUp(xs: seq<Keyed<int>>)
    ensures var rs := RecordsOf(xs);
      SumRows(DailyRows(xs)) == Tally(|rs|, |Profitable(rs)|, SumProfit(Profitable(rs)), SumRisk(rs))
  {
    DaysDistinct(xs);
    KeyedAt(xs);
    forall i | 0 <= i < |xs| ensures xs[i].key in Days(xs) {
      var d := xs[i].key;
      assert KeySeq(xs)[i] == d;
      DayListed(xs, d);
    }
    SumRowsOfDays(xs, Days(xs));
    GroupsAddUp(xs, Days(xs));
  }

  lemma DaysApart(xs: seq<Keyed<int>>, i: int, j: int)
    requires 0 <= i < j < |Days(xs)|
    ensures Days(xs)[i] > Days(xs)[j]
  {
    var days := Days(xs);
    DaysDistinct(xs);
    DistinctApart(days, i, j);
    SortDescSorted(FirstSeen(KeySeq(xs)), DayKey);
    assert DayKey(days[i]) >= DayKey(days[j]);
  }

  /** The daily breakdown lists each day once, latest first. */
  lemma DailyRowsDescending(xs: seq<Keyed<int>>)
    ensures forall i, j :: 0 <= i < j < |DailyRows(xs)| ==> DailyRows(xs)[i].date > DailyRows(xs)[j].date
  {
    var rows := DailyRows(xs);
    forall i, j | 0 <= i < j < |rows| ensures rows[i].date > rows[j].date {
      DaysApart(xs, i, j);
    }
  }

  /**
   * Each day of the daily breakdown has at least one opportunity and no more profitable
   * opportunities than opportunities, and every day some opportunity is filed under is listed.
   */
  lemma DailyRowsComplete(xs: seq<Keyed<int>>)
    ensures forall i :: 0 <= i < |DailyRows(xs)| ==>
      0 <= DailyRows(xs)[i].stats.profitable <= DailyRows(xs)[i].stats.total && DailyRows(xs)[i].stats.total >= 1
    ensures forall i :: 0 <= i < |xs| ==> exists j :: 0 <= j < |DailyRows(xs)| && DailyRows(xs)[j].date == xs[i].key
  {
    var rows, days := DailyRows(xs), Days(xs);
    forall i | 0 <= i < |rows|
      ensures 0 <= rows[i].stats.profitable <= rows[i].stats.total && rows[i].stats.total >= 1
    {
      DayListed(xs, days[i]);
      TallyOfBounded(xs, days[i]);
      TallyOfPresent(xs, days[i]);
    }
    KeyedAt(xs);
    forall i | 0 <= i < |xs| ensures exists j :: 0 <= j < |rows| && rows[j].date == xs[i].key {
      var d := xs[i].key;
      assert KeySeq(xs)[i] == d;
      DayListed(xs, d);
      var j :| 0 <= j < |days| && days[j] == d;
      assert rows[j].date == xs[i].key;
    }
  }

  /** Filing by pair keeps the records and their order, each under its own pair. */
  lemma {:induction false} ByPairFiles(rs: seq<Record>)
    ensures RecordsOf(ByPair(rs)) == rs
    ensures |KeySeq(ByPair(rs))| == |rs|
    ensures forall i :: 0 <= i < |rs| ==> KeySeq(ByPair(rs))[i] == PairOf(rs[i])
  {
    if rs != [] {
      var init := rs[..|rs| - 1];
      ByPairFiles(init);
      KeyedSnoc(ByPair(init), Keyed(PairOf(rs[|rs| - 1]), rs[|rs| - 1]));
    }
  }

  lemma {:induction false} SumPairRowsOf(xs: seq<Keyed<BookPair>>, ps: seq<BookPair>)
    ensures SumPairRows(PairRowsOf(xs, ps)) == PairStatOf(SumTallies(xs, ps))
  {
    if ps != [] {
      SumPairRowsOf(xs, ps[1..]);
      assert PairRowsOf(xs, ps)[1..] == PairRowsOf(xs, ps[1..]);
    }
  }

  /** Filtering records that are all profitable keeps them all. */
  lemma {:induction false} ProfitableOfProfitable(rs: seq<Record>)
    requires forall i :: 0 <= i < |rs| ==> IsProfitable(rs[i])
    ensures Profitable(rs) == rs
  {
    if rs != [] {
      ProfitableOfProfitable(rs[..|rs| - 1]);
    }
  }

  /** The pairs of the breakdown are distinct and are exactly the pairs filed under. */
  lemma PairsAreThePairsUsed(xs: seq<Keyed<BookPair>>)
    ensures Distinct(Pairs(xs))
    ensures forall p :: p in Pairs(xs) <==> p in KeySeq(xs)
  {
    FirstSeenDistinct(KeySeq(xs));
    SortDescDistinct(FirstSeen(KeySeq(xs)), PairProfit(xs));
    forall p ensures p in Pairs(xs) <==> p in KeySeq(xs) {
      assert p in Pairs(xs) <==> p in multiset(Pairs(xs));
      assert p in FirstSeen(KeySeq(xs)) <==> p in multiset(FirstSeen(KeySeq(xs)));
    }
  }

  /** Every pair of the breakdown is used by some opportunity, and every opportunity's pair is listed. */
  lemma PairRowsComplete(rs: seq<Record>)
    ensures forall i :: 0 <= i < |PairRows(rs)| ==> exists m :: 0 <= m < |rs| && PairOf(rs[m]) == PairRows(rs)[i].pair
    ensures forall m :: 0 <= m < |rs| ==> exists i :: 0 <= i < |PairRows(rs)| && PairRows(rs)[i].pair == PairOf(rs[m])
  {
    var rows := PairRows(rs);
    forall i | 0 <= i < |rows| ensures exists m :: 0 <= m < |rs| && PairOf(rs[m]) == rows[i].pair {
      var m := PairRowUsed(rs, i);
    }
    forall m | 0 <= m < |rs| ensures exists i :: 0 <= i < |rows| && rows[i].pair == PairOf(rs[m]) {
      var i := PairListed(rs, m);
    }
  }

  /** The position of an opportunity that uses the pair of line i. */
  lemma PairRowUsed(rs: seq<Record>, i: int) returns (m: int)
    requires 0 <= i < |PairRows(rs)|
    ensures 0 <= m < |rs| && PairOf(rs[m]) == PairRows(rs)[i].pair
  {
    var xs := ByPair(rs);
    var ps := Pairs(xs);
    ByPairFiles(rs);
    PairsAreThePairsUsed(xs);
    assert PairRows(rs)[i].pair == ps[i];
    assert ps[i] in KeySeq(xs);
    m :| 0 <= m < |KeySeq(xs)| && KeySeq(xs)[m] == ps[i];
  }

  /** The line of the pair breakdown that lists the pair of opportunity m. */
  lemma PairListed(rs: seq<Record>, m: int) returns (i: int)
    requires 0 <= m < |rs|
    ensures 0 <= i < |PairRows(rs)| && PairRows(rs)[i].pair == PairOf(rs[m])
  {
    var xs := ByPair(rs);
    var ps := Pairs(xs);
    ByPairFiles(rs);
    PairsAreThePairsUsed(xs);
    assert KeySeq(xs)[m] in KeySeq(xs);
    i :| 0 <= i < |ps| && ps[i] == PairOf(rs[m]);
    assert PairRows(rs)[i].pair == ps[i];
  }

  /**
   * The pair breakdown of profitable opportunities adds up: its counts to their number, its
   * profits to their total profit.
   */
  lemma PairsAddUp(rs: seq<Record>)
    requires forall i :: 0 <= i < |rs| ==> IsProfitable(rs[i])
    ensures SumPairRows(PairRows(rs)) == PairStat(|rs|, SumProfit(rs))
  {
    var xs := ByPair(rs);
    ByPairFiles(rs);
    PairsAreThePairsUsed(xs);
    KeyedAt(xs);
    forall i | 0 <= i < |xs| ensures xs[i].key in Pairs(xs) {
      assert KeySeq(xs)[i] in KeySeq(xs);
    }
    SumPairRowsOf(xs, Pairs(xs));
    GroupsAddUp(xs, Pairs(xs));
    ProfitableOfProfitable(rs);
  }

  /**
   * The pair breakdown lists each pair in use once, most profitable first, each with at least
   * one opportunity and, the opportunities being profitable, a positive profit.
   */
  lemma PairRowsShape(rs: seq<Record>)
    requires forall i :: 0 <= i < |rs| ==> IsProfitable(rs[i])
    ensures forall i, j :: 0 <= i < j < |PairRows(rs)| ==>
      PairRows(rs)[i].pair != PairRows(rs)[j].pair && PairRows(rs)[i].stats.profit >= PairRows(rs)[j].stats.profit
    ensures forall i :: 0 <= i < |PairRows(rs)| ==> PairRows(rs)[i].stats.count >= 1 && PairRows(rs)[i].stats.profit > 0.0
  {
    forall i, j | 0 <= i < j < |PairRows(rs)|
      ensures PairRows(rs)[i].pair != PairRows(rs)[j].pair && PairRows(rs)[i].stats.profit >= PairRows(rs)[j].stats.profit
    {
      PairRowsApart(rs, i, j);
    }
    ByPairProfitable(rs);
    forall i | 0 <= i < |PairRows(rs)| ensures PairRows(rs)[i].stats.count >= 1 && PairRows(rs)[i].stats.profit > 0.0 {
      PairRowPositive(rs, i);
    }
  }

  lemma PairRowsApart(rs: seq<Record>, i: int, j: int)
    requires 0 <= i < j < |PairRows(rs)|
    ensures PairRows(rs)[i].pair != PairRows(rs)[j].pair && PairRows(rs)[i].stats.profit >= PairRows(rs)[j].stats.profit
  {
    var xs := ByPair(rs);
    var ps := Pairs(xs);
    FirstSeenDistinct(KeySeq(xs));
    SortDescDistinct(FirstSeen(KeySeq(xs)), PairProfit(xs));
    DistinctApart(ps, i, j);
    SortDescSorted(FirstSeen(KeySeq(xs)), PairProfit(xs));
    assert PairProfit(xs)(ps[i]) >= PairProfit(xs)(ps[j]);
  }

  /** Filing profitable records by pair files only profitable records. */
  lemma {:induction false} ByPairProfitable(rs: seq<Record>)
    requires forall i :: 0 <= i < |rs| ==> IsProfitable(rs[i])
    ensures forall i :: 0 <= i < |ByPair(rs)| ==> IsProfitable(ByPair(rs)[i].record)
  {
    if rs != [] {
      ByPairProfitable(rs[..|rs| - 1]);
      ByPairFiles(rs[..|rs| - 1]);
      ByPairFiles(rs);
    }
  }

  lemma PairRowPositive(rs: seq<Record>, i: int)
    requires forall i :: 0 <= i < |ByPair(rs)| ==> IsProfitable(ByPair(rs)[i].record)
    requires 0 <= i < |PairRows(rs)|
    ensures PairRows(rs)[i].stats.count >= 1 && PairRows(rs)[i].stats.profit > 0.0
  {
    var xs := ByPair(rs);
    var ps := Pairs(xs);
    PairsAreThePairsUsed(xs);
    assert ps[i] in ps;
    TallyOfPresent(xs, ps[i]);
    TallyOfProfitable(xs, ps[i]);
  }

  /**
   * The weekly summary agrees with itself: the daily breakdown and the pair breakdown count
   * the same profitable opportunities and add up to the same total profit.
   */
  lemma WeekTotalsAgree(files: seq<ScanFile>, cutoff: Cutoff)
    ensures var xs := Window(files, cutoff);
      var profitable := Profitable(RecordsOf(xs));
      && SumRows(DailyRows(xs)).profitable == SumPairRows(PairRows(profitable)).count == |profitable|
      && SumRows(DailyRows(xs)).profit == SumPairRows(PairRows(profitable)).profit == SumProfit(profitable)
  {
    var xs := Window(files, cutoff);
    var profitable := Profitable(RecordsOf(xs));
    DailyAddsUp(xs);
    ProfitableAreProfitable(RecordsOf(xs));
    forall i | 0 <= i < |profitable| ensures IsProfitable(profitable[i]) {
      assert profitable[i] in profitable;
    }
    PairsAddUp(profitable);
  }

  /** The success rate is a percentage, 0 when nothing was read. */
  lemma SuccessRateIsPercentage(rs: seq<Record>)
    ensures 0.0 <= SuccessRate(|Profitable(rs)|, |rs|) <= 100.0
    ensures |rs| == 0 ==> SuccessRate(|Profitable(rs)|, |rs|) == 0.0
    ensures |Profitable(rs)| == |rs| > 0 ==> SuccessRate(|Profitable(rs)|, |rs|) == 100.0
  {
    ProfitableNoLonger(rs);
  }
}
