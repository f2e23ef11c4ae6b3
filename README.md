# Bonus-bet arbitrage: calculation, ranking and reports

A model of the arithmetic and aggregation core of the sports-betting arbitrage scripts:

- **Detector** (`scripts/detector.py`): American prices become decimal payout factors and
  implied probabilities. A bonus bet is paired with a real-money hedge: the hedge stake is
  sized as `bonus * (bonus_decimal - 1) / (hedge_decimal - 1)`, the two outcome profits are
  computed, and the worse outcome is the "guaranteed profit", with its ROI on the hedge stake.
  `find_arbs` runs this calculation over its list of candidate pairings and collects the results.
- **Bets now** (`scripts/format-report.py`, `create_bets_now`): the profitable opportunities,
  stably sorted by guaranteed profit with the highest first. The first five are spelled out
  with their profit and risk totals. The summary counts every profitable bet, budgets three
  minutes per bet, and gives the mean ROI.
- **This week** (`scripts/format-report.py`, `create_this_week`): the scan files of the last
  seven days, selected by the date in their names. It accumulates:
  - per-day statistics: count, profitable count, profit and risk;
  - the five most profitable opportunities;
  - per sportsbook-pair statistics, ordered by profit;
  - the success rate.
- **Daily report** (`scripts/report.py`, `generate_report`): the profitable opportunities of
  one run, in input order, counted and totalled, with their mean ROI and the first three of them.

Amounts are exact `real`s. Python's stable `sort(..., reverse=True)` is the stable insertion
sort `StableSort.SortDesc`. A Python dictionary updated in a loop is a `map` paired with the
`seq` of its keys in insertion order; `Grouping.Tracks` ties the two to the records read so far.
The clock (`datetime.now()`) is passed in as a `ThisWeek.Cutoff`. The scan files are passed
in as (name stem, records) pairs.

The hedge-wins outcome of a bonus calculation is `bonus * (bonus_decimal - 2)` whatever the
hedge price (`Detector.HedgeWinsIgnoresHedgeOdds`). For the built-in example (a 1000 bonus at
-120 hedged at +110) that is -500/3 ≈ -166.67, so the example is a guaranteed loss
(`Detector.ExampleIsALoss`). A positive American price does not always give a decimal factor
above 2: it does so only for prices above +100 (`Detector.EvenMoney`).

## Model

| member | source | states |
|---|---|---|
| Detector.AmericanToDecimal | scripts/detector.py:11-16 | for every non-zero price the factor exceeds 1, so the `hedge_decimal <= 1` guard never fires |
| Detector.EvenMoney | scripts/detector.py:11-16 | the factor is 2 exactly at ±100, and below 2 exactly for prices in (0, 100) or below -100 |
| Detector.AmericanToImpliedProb | scripts/detector.py:18-23 | for a non-zero price the implied probability lies strictly between 0 and 1 and is the reciprocal of the decimal factor; a price of 0 gives 0, as the source's negative branch does |
| Detector.CalculateBonusArb | scripts/detector.py:25-81 | never None for non-zero prices; books, teams and prices are copied through, the bonus stake is the bonus amount, and the real-money risk equals the hedge stake |
| Detector.HedgeStakeBalances | scripts/detector.py:44-49 | hedge_stake * (hedge_decimal - 1) == bonus * (bonus_decimal - 1); the stake is non-negative for a non-negative bonus and positive for a positive one |
| Detector.HedgeWinsIgnoresHedgeOdds | scripts/detector.py:56-59 | the hedge-wins outcome is bonus * (bonus_decimal - 2) whatever the hedge price; for a positive bonus it is a loss exactly when the bonus price pays less than even money |
| Detector.GuaranteedIsWorstCase | scripts/detector.py:61-62 | the guaranteed profit is at most each outcome and equals one of them |
| Detector.RoiOfGuaranteed | scripts/detector.py:64-65 | ROI times hedge stake is 100 times the guaranteed profit when the stake is positive, ROI is 0 otherwise, and for a positive bonus ROI is positive exactly when the profit is |
| Detector.ZeroBonus | scripts/detector.py:42-65 | a zero bonus gives zero hedge stake, zero outcomes, zero guaranteed profit and zero ROI |
| Detector.ProfitableIff | scripts/detector.py:49-62 | for a positive bonus the pairing is profitable exactly when bonus_decimal > 2 and bonus_decimal * (hedge_decimal - 1) > bonus_decimal - 1 |
| Detector.Outcomes | scripts/detector.py:52-62 | bonus-wins is bonus * bonus_decimal - hedge_stake, hedge-wins is hedge_stake * (hedge_decimal - 1) - bonus, and the guaranteed profit is positive exactly when both are |
| Detector.OutcomesPositiveIff | scripts/detector.py:52-59 | the sign conditions of each outcome in terms of the two decimal factors, given a balanced hedge stake |
| Detector.ExampleIsALoss | scripts/detector.py:102-117 | the built-in example has hedge stake 25000/33, bonus-wins outcome 35500/33, hedge-wins outcome and guaranteed profit -500/3, and ROI -22 |
| Detector.FindArbs | scripts/detector.py:119-136 | the loop's result is the list of (description, calculation) entries of the pairings whose calculation is not None, in pairing order |
| Detector.Collected | scripts/detector.py:119-136 | the reference list of find_arbs: one (description, calculation) entry per pairing whose calculation is not None, in pairing order; `Detector.FindArbs` is proved equal to it and `Detector.CollectedKeepsEveryPairing` shows it has an entry for every pairing |
| Detector.CollectedKeepsEveryPairing | scripts/detector.py:119-136 | since no calculation is None, there is exactly one entry per pairing, the i-th entry coming from the i-th pairing |
| Detector.DemoReportsOneLosingOpportunity | scripts/detector.py:102-136 | on its built-in pairing find_arbs reports one opportunity, with guaranteed profit -500/3 |
| Records.AverageRoi | scripts/report.py:36 | the mean ROI times the number of records is their ROI sum, and 0 for no records |
| Records.AverageRoiWithin | scripts/report.py:36 | the mean ROI lies between any lower and upper bound of the ROIs averaged |
| Records.Profitable | scripts/report.py:28 | the `guaranteed_profit > 0` comprehension (also format-report.py lines 27 and 271): by `Records.ProfitableExactly`, `Records.ProfitableAreProfitable`, `Records.ProfitableSplit` and `Records.ProfitableNoLonger` it keeps exactly the profitable records, as often as they occur, in input order, and is no longer than its input |
| Records.ProfitableExactly | scripts/format-report.py:27 | the filter keeps each record with profit > 0 as often as it occurs, and no other record |
| Records.ProfitableAreProfitable | scripts/format-report.py:271 | every kept record is profitable and comes from the input |
| Records.ProfitableSplit | scripts/report.py:28 | filtering a concatenation filters each part, so the filter keeps input order |
| Records.ProfitableNoLonger | scripts/report.py:33-34 | there are never more profitable records than records |
| Records.SumProfitSplit | scripts/report.py:35 | the profit total of a concatenation is the sum of the parts' totals |
| Records.SumsOfPrefix | scripts/format-report.py:47-57 | extending the prefix by one record adds that record's profit and risk, as the loop's running totals do |
| Records.SumProfitPositive | scripts/report.py:35 | a profit total of profitable records is non-negative, and positive when there is any record |
| StableSort.Insert | scripts/format-report.py:30 | inserting adds exactly the new element to the multiset of elements |
| StableSort.SortDesc | scripts/format-report.py:30 | sorting keeps the length and the multiset of elements: it is a permutation |
| StableSort.SortDescSorted | scripts/format-report.py:30 | the sorted sequence is non-increasing by key |
| StableSort.SortDescStable | scripts/format-report.py:30 | the elements of each key keep their input order (stability) |
| StableSort.SortDescDistinct | scripts/format-report.py:298 | sorting a repetition-free key list keeps it repetition-free |
| StableSort.SortDescAgree | scripts/format-report.py:298 | the order depends on the key function only through its values on the elements sorted |
| StableSort.Top | scripts/format-report.py:282 | the first n elements, or all of them when there are fewer, as Python's `[:n]` |
| StableSort.TopOfSortedIsBest | scripts/format-report.py:282 | the first n of the sorted sequence come from the input, and no element left out has a larger key than any kept |
| Ranking.RankedIsRanking | scripts/format-report.py:27-30 | the ranking is a permutation of the profitable records, non-increasing by profit, with ties in input order |
| Ranking.Ranked | scripts/format-report.py:27-30 | the profitable records sorted by profit, highest first, with ties in input order (`Ranking.RankedIsRanking`); `Ranking.TopRankedIsBest` shows its first five are the best, as line 282 takes them |
| Ranking.RankedMembers | scripts/format-report.py:27-30 | every ranked record is a profitable record of the input |
| Ranking.TopRankedIsBest | scripts/format-report.py:282 | the top n of the ranking has min(n, number profitable) entries, all profitable input records, non-increasing by profit, none beaten by a record left out |
| BetsNow.CreateBetsNow | scripts/format-report.py:23-57 | the ranking; its first five shown; profit and risk totals of the shown five only; the bet count and minutes (3 per bet) over all ranked bets; the mean ROI over all of them, present only when there is a bet |
| BetsNow.ShownTotals | scripts/format-report.py:47-57 | with at most five bets the shown profit and risk totals are the totals of all; with more bets the shown profit total is strictly less than the total of all; the shown profit total is positive whenever there is a bet |
| BetsNow.AverageRoiOfBets | scripts/format-report.py:83-92 | the summary's mean ROI lies between the lowest and the highest ROI of the inputs |
| Grouping.TallyOfBounded | scripts/format-report.py:258-264 | a day's profitable count is between 0 and its total |
| Grouping.FirstSeenDistinct | scripts/format-report.py:258-259 | the dictionary's key order is repetition-free and holds exactly the keys used |
| Grouping.FirstSeen | scripts/format-report.py:258-259 | dictionary key order: each key once, in the order of first use; `Grouping.FirstSeenDistinct` proves it repetition-free and holding exactly the keys used |
| Grouping.Count | scripts/format-report.py:258-266 | one update of a statistics dictionary: the key opened with empty statistics when new, then incremented by the record; `Grouping.TracksSnoc` proves the dictionary still equals the per-key reference statistics after it |
| Grouping.TallyOfAbsent | scripts/format-report.py:258-259 | a key that files nothing has empty statistics |
| Grouping.TallyOfPresent | scripts/format-report.py:258-261 | a key that files a record has a total of at least one |
| Grouping.TallyOfProfitable | scripts/format-report.py:292-295 | a group of profitable records has non-negative profit, positive once it is non-empty |
| Grouping.TallyAllCounts | scripts/format-report.py:261-266 | the statistics of a record sequence are its length, its profitable count, their profit and everyone's risk |
| Grouping.SumTalliesSnoc | scripts/format-report.py:261-266 | one more record adds its contribution to exactly the one listed key it is filed under |
| Grouping.SumTalliesCovering | scripts/format-report.py:253-266 | over a repetition-free list of every key used, the groups add up to the statistics of the whole sequence |
| Grouping.GroupsAddUp | scripts/format-report.py:253-266 | group totals add up to the number of records, profitable counts and profits to those of the profitable records, risks to the total risk |
| Grouping.TracksSnoc | scripts/format-report.py:258-266 | counting one more record keeps the dictionary and its key order equal to the per-key statistics and first-use order of the longer sequence |
| FileNames.Split | scripts/format-report.py:246 | splitting gives at least one piece and no piece contains the separator |
| FileNames.JoinSplit | scripts/format-report.py:246 | joining the pieces back with the separator gives the original stem |
| FileNames.SplitAfter | scripts/format-report.py:246 | a separator-free prefix followed by the separator is split off as one piece |
| FileNames.NumberOf | scripts/format-report.py:247 | a string of k digits reads as a number in [0, 10^k) |
| FileNames.Digits | scripts/format-report.py:247 | writing a number with `width` digits gives `width` decimal digits |
| FileNames.NumberOfDigits | scripts/format-report.py:247 | reading what Digits writes gives the number back |
| FileNames.DigitsNumberOf | scripts/format-report.py:247 | writing what NumberOf reads gives the digits back |
| FileNames.FileDate | scripts/format-report.py:244-247 | a date found in a stem is a valid eight-digit YYYYMMDD date |
| FileNames.FileDateOfName | scripts/format-report.py:244-247 | a stem `<a>_<b>_<YYYYMMDD>_<rest>` yields that date |
| ThisWeek.Tagged | scripts/format-report.py:253-257 | each record of a file is filed, in order, under the file's date |
| ThisWeek.InWindow | scripts/format-report.py:246-249 | a file is read exactly when its name yields a date whose midnight is no earlier than the cutoff; `ThisWeek.FileContribution` shows an out-of-window file adds nothing and `ThisWeek.WindowIsRecent` that every record read has a date on or after the cutoff |
| ThisWeek.Window | scripts/format-report.py:243-257 | the records of the in-window files in file order, each under its file date; `ThisWeek.WindowSplit` and `ThisWeek.FileContribution` show it is built file by file, and `ThisWeek.ReadWindow` is proved to read exactly it |
| ThisWeek.DayRows | scripts/format-report.py:277-279 | one table line per day given, holding that day's statistics |
| ThisWeek.DailyRows | scripts/format-report.py:277-279 | the reference daily table: the days used, latest first, each with its statistics; `ThisWeek.DailyRowsDescending`, `ThisWeek.DailyRowsComplete` and `ThisWeek.DailyAddsUp` prove it strictly descending, complete and adding up to the totals |
| ThisWeek.PairRowsOf | scripts/format-report.py:298-300 | one table line per pair given, holding that pair's count and profit |
| ThisWeek.PairRows | scripts/format-report.py:289-300 | the reference pair table: the pairs used, by profit highest first, each with its count and profit; `ThisWeek.PairRowsShape`, `ThisWeek.PairRowsComplete` and `ThisWeek.PairsAddUp` prove it distinct, ordered, complete and adding up to the totals |
| ThisWeek.SuccessRate | scripts/format-report.py:302 | 0 with no records; otherwise rate * total == 100 * profitable, and in [0, 100] when profitable <= total |
| ThisWeek.CountDay | scripts/format-report.py:258-266 | one record is counted into its day's statistics (opened empty when new), and a new day is appended to the key order |
| ThisWeek.ReadRecord | scripts/format-report.py:253-266 | one record is appended to the list and counted under its day, keeping the day dictionary tracking everything read |
| ThisWeek.TaggedSnoc | scripts/format-report.py:253-257 | one more record of a file is filed under the file's date at the end |
| ThisWeek.ReadFile | scripts/format-report.py:253-266 | reading a file appends its records filed under its date and keeps the day dictionary tracking everything read |
| ThisWeek.ReadWindow | scripts/format-report.py:242-266 | the records read are exactly those of the in-window files, in file order, and the day dictionary tracks them |
| ThisWeek.DayLines | scripts/format-report.py:277-279 | given a dictionary holding each listed day's statistics, the loop's lines equal `ThisWeek.DayRows(filed, days)`: one line per given day, in the given order, with that day's statistics |
| ThisWeek.DayRowsSnoc | scripts/format-report.py:277-279 | one more day adds its own line at the end |
| ThisWeek.DailyBreakdown | scripts/format-report.py:276-279 | the daily table built from the dictionary is the specified daily breakdown of the records read |
| ThisWeek.CountPair | scripts/format-report.py:291-295 | one profitable record adds one and its profit to its pair (opened empty when new), and a new pair is appended to the key order |
| ThisWeek.TallyPairs | scripts/format-report.py:289-295 | the pair dictionary holds, for each pair used, its count and profit, keyed in first-use order |
| ThisWeek.ProjectsCount | scripts/format-report.py:292-295 | counting a record in the pair dictionary matches counting it in the full statistics |
| ThisWeek.PairLines | scripts/format-report.py:297-300 | given a dictionary holding each listed pair's count and profit, the loop's lines equal `ThisWeek.PairRowsOf(xs, ps)`: one line per given pair, in the given order, with its count and profit |
| ThisWeek.PairRowsSnoc | scripts/format-report.py:297-300 | one more pair adds its own line at the end |
| ThisWeek.PairBreakdown | scripts/format-report.py:289-300 | the pair table built from the dictionary is the specified pair breakdown |
| ThisWeek.CreateThisWeek | scripts/format-report.py:230-302 | the weekly summary: records of the in-window files, their profitable ones and total profit, the daily table, the best five, the pair table and the success rate |
| ThisWeek.WindowSplit | scripts/format-report.py:243-250 | files are read independently: the window of a concatenation is the concatenation of the windows |
| ThisWeek.FileContribution | scripts/format-report.py:243-250 | a file outside the window contributes nothing; a file inside it contributes all its records, in order, under its date |
| ThisWeek.WindowIsRecent | scripts/format-report.py:247-249 | every record read is filed under a valid date on or after the cutoff's day |
| ThisWeek.SumRowsOfDays | scripts/format-report.py:277-279 | the daily lines add up as the per-day statistics do |
| ThisWeek.DaysDistinct | scripts/format-report.py:277 | the daily table lists each day once |
| ThisWeek.DayListed | scripts/format-report.py:258-259 | a day is in the table exactly when some record is filed under it |
| ThisWeek.DailyAddsUp | scripts/format-report.py:253-272 | the daily lines add up to the number of records, the number and total profit of the profitable ones, and the total risk |
| ThisWeek.DaysApart | scripts/format-report.py:277 | of two lines of the daily table, the earlier has the later date |
| ThisWeek.DailyRowsDescending | scripts/format-report.py:277 | the daily table is strictly descending by date |
| ThisWeek.DailyRowsComplete | scripts/format-report.py:258-264 | each listed day has at least one record and no more profitable records than records, and every record's day is listed |
| ThisWeek.ByPairFiles | scripts/format-report.py:290-291 | filing by pair keeps the records in order, each under its own (bonus book, hedge book) pair |
| ThisWeek.SumPairRowsOf | scripts/format-report.py:297-300 | the pair lines add up as the per-pair statistics do |
| ThisWeek.ProfitableOfProfitable | scripts/format-report.py:271 | filtering records that are all profitable keeps them all |
| ThisWeek.PairsAreThePairsUsed | scripts/format-report.py:292-298 | the pairs of the table are distinct and are exactly the pairs used |
| ThisWeek.PairRowsComplete | scripts/format-report.py:289-298 | every listed pair is used by some record, and every record's pair is listed |
| ThisWeek.PairRowUsed | scripts/format-report.py:289-298 | the position of an opportunity that uses the pair of a given line |
| ThisWeek.PairListed | scripts/format-report.py:289-298 | the line of the pair table that lists a given opportunity's pair |
| ThisWeek.PairsAddUp | scripts/format-report.py:289-295 | pair counts add up to the number of profitable records and pair profits to their total profit |
| ThisWeek.PairRowsShape | scripts/format-report.py:298 | the pair table lists distinct pairs, non-increasing by profit, each with a count of at least one and a positive profit |
| ThisWeek.PairRowsApart | scripts/format-report.py:298 | two lines of the pair table have different pairs, and the earlier has at least the profit of the later |
| ThisWeek.ByPairProfitable | scripts/format-report.py:290-291 | filing profitable records by pair files only profitable records |
| ThisWeek.PairRowPositive | scripts/format-report.py:292-295 | a line of the pair table of profitable records has a count of at least one and a positive profit |
| ThisWeek.WeekTotalsAgree | scripts/format-report.py:262-295 | the daily and pair tables count the same profitable records and add up to the same total profit |
| ThisWeek.SuccessRateIsPercentage | scripts/format-report.py:302 | the success rate is in [0, 100]; 0 with no records, 100 when every record is profitable |
| Report.GenerateReport | scripts/report.py:28-64 | lists the profitable opportunities in input order; counts all opportunities and the profitable ones (no more than all); the total guaranteed profit is the profit sum of the profitable ones; the mean ROI times the count is their ROI sum, or 0 when there are none; the top list is the first min(3, count) profitable records in input order |
| Report.ReportListsTheProfitable | scripts/report.py:28-35 | the report lists each profitable record as often as it occurs and nothing else; its total profit is non-negative, and positive exactly when it lists any |
| Report.ReportKeepsOrder | scripts/report.py:28-35 | the report of two runs' records together lists the first run's profitable records, then the second's, with counts and profits added |

## Left out

- `scripts/scraper.py` (HTTP fetching of odds and promotions) is not part of this model.
- File discovery and persistence are left out: the `glob`/`sorted` choice of files, JSON loading and saving, `write_text`, archiving. Record lists and scan files are parameters and results instead.
- The clock is an input: `datetime.now() - timedelta(days=7)` is the `Cutoff` parameter. `strftime` timestamps and the next-update time are not modelled.
- `FileNames.FileDate`: it reads exactly eight ASCII digits with month 1-12 and day 1-31. It does not capture `strptime`'s per-month day limits and leap years (an impossible date such as 20260231 is skipped by the source but accepted here). Nor does it capture `strptime`'s acceptance of shorter unpadded date strings.
- Days are YYYYMMDD numbers instead of `YYYY-MM-DD` strings; both sort the same way.
- Python floats and `round(x, 2)` / `:.2f` formatting are left out: amounts are exact reals.
- Markdown and text rendering (f-string templates, `print`, `create_index`) is left out. So is the description split in the bets-now headings, and the "$10 minimum" wording, which the code does not enforce.
- BetsNow.CreateBetsNow: the model does not capture the crash of the heading at scripts/format-report.py:59. A shown description that contains `→` but not ` → ` makes `split(' → ')[1]` raise IndexError, which aborts the whole report; the model treats descriptions as opaque and always succeeds.
- The bare `except: continue` of the weekly loop is left out: files are well-formed and parse completely. A file whose name has no date is skipped, as in the source.
- The weekly `total_risk` (format-report.py line 273) is computed but never shown, and raises KeyError on a record without risk. It is not modelled.
- The promotions-file load in `find_arbs` is left out, because its contents are never used. The unused `hedge_is_real_money` parameter is left out as well.
- The pair key is a (bonus book, hedge book) pair, not the string `"A → B"`. The source would merge two different pairs whose names make the same string; the model keeps them apart.
- `list.sort` in place is modelled as reassigning the sorted sequence.
- Detector.AmericanToDecimal: a price of 0 raises ZeroDivisionError in the source; the model requires a non-zero price.
- BetsNow.CreateBetsNow: it requires every record to have a guaranteed profit (the source raises KeyError otherwise). It also requires the shown records to carry their risk, for the same reason.
- Report.GenerateReport: it requires every record to have a guaranteed profit, for the same KeyError reason.
