# Football pattern-combination counter, modelled in Dafny

The system analyses finished football matches. It looks for combinations of
betting-market outcomes ("patterns") that occur together, and for how often
they do.

- **Pattern catalogue.** A flat list of 101 named predicates over a match:
  - total goals: exact totals, over/under lines, ranges and multigoals;
  - both teams to score, clean sheets, win to nil and team totals;
  - teams to score, odd/even and winning margins.

  Each predicate is tagged with a market and an event type. Every active entry
  is a goals pattern.
- **Counter.** For each match the analyzer computes the *active set*: the names,
  in catalogue order, whose condition holds. A condition that raises counts as
  false.
  - It generates the combinations of every size from `MIN_EVENTS_COMBINATION` to
    `MAX_EVENTS_COMBINATION`, under one of three strategies:
    - `by_event_type` and `by_market` group the names, choose groups, and take
      the Cartesian product;
    - `full` takes plain k-subsets.
  - Each combination is counted under its `"|"`-joined key, first in a local
    dictionary per thread sub-batch and then in a global tally.
- **Ranker.** The tally is split by size. Each size keeps the least- and
  most-occurred display candidates. Overall lists and summary statistics are
  built from those candidates.
- **Stores.** An in-memory results store keeps leagues, seasons, combination
  records, progress and final results. An in-memory API cache keeps leagues,
  seasons, fixtures and their details.
- **API client logic.** Event classification, event descriptions, statistics
  conversion, per-half tallies and derived events.
- **Odds calculator.** A two-level odds lookup:
  - a market name mapping;
  - a primary table, then a fallback table, then 1.0.

  A priority-ordered pairwise correlation classifier feeds discrete adjustment
  bands. As written, two patterns of one market and type get no score and the
  adjustment raises (see "## Findings"). The model's adjustment and the reports
  built on it use the corrected score of 1.0 for that pair.
  `OddsCalculation.AdjustmentAsWrittenAgrees` proves that the corrected
  adjustment equals the program's wherever the program does not raise.
- **Older generator.** A standalone k-subset generator with a category filter.

## Modelling choices

**Modules.** There is one Dafny module per source file:

| module | file |
|---|---|
| `Models` | `data/models.py` |
| `Helpers` | `utils/helpers.py` |
| `EventPatterns` | `patterns/event_patterns.py` |
| `CombinationCounting`, `ResultRanking` and `PatternAnalysis` | `analyzers/pattern_analyzer.py` |
| `EventCombinations` | `analyzers/event_combinations.py` |
| `OddsCalculation` | `utils/odds_calculator.py` |
| `FootballApi` | `clients/football_api.py` |
| `ResultsStore` | `utils/results_manager.py` |
| `CacheStore` | `utils/cache_manager.py` |

`pattern_analyzer.py` is split three ways: the counting specification, the
ranking specification, and the imperative class.

`Wrappers`, `Itertools`, `Strings` and `FiniteSums` model the Python built-ins
and library calls the code relies on:

- `dict.get`;
- `itertools.combinations`;
- `str.join`, `str.split`, `str.lower`, `int()` and `str()`;
- `sum` over dictionary values.

**The match record.** The record is fuller than the dataclass in
`data/models.py`. It has the per-half counters (`first_half`, `second_half`),
the optional team statistics (`home_stats`, `away_stats`),
`home_team_id`/`league_id` and the event `description`. The rest of the code uses
all of these (`clients/football_api.py:141-157`, `297-304`, `390-425`).

**Numbers and raising.**
- A statistic is an `int` or a `float` (`Stat`). Python `+` on statistics keeps
  the int/float distinction.
- A predicate that raises in Python, for lack of per-half counters, evaluates to
  `None`. The evaluation order of Python's `and`/`or` is kept, so "raises" means
  exactly what it means in the source.

**Parameters.** `MIN_EVENTS_COMBINATION`/`MAX_EVENTS_COMBINATION` (default 3
and 5), `MAX_RESULTS_PER_CATEGORY` and `THREAD_COUNT` are fields of a `Settings`
value. `config/settings.py` does not define the last two.

**Threads.** The thread pool of `_process_batch_with_global_dict` is
sequential: the sub-batches are merged one at a time, in an order the method
chooses arbitrarily (modelling `as_completed`). Each merge is atomic, standing in
for the lock. The proof shows the global tally ends up the same whatever the
order and whatever the batch widths.

**Stores.** The results store and the cache are classes whose `leagues` and
`metadata` fields their methods update, as the Python updates its nested
dictionaries. Keys are the integer ids rather than `str(id)`; `str` is
injective on integers, so nothing is lost.

**JSON values.** A raw event keeps the difference between a missing key and
a JSON `null`. `.get(key, default)` gives the default only for a missing key,
`f"{None}"` prints `None`, and `.get(...)` on a `null` nested object raises
`AttributeError`, shown as `None` results of `EventDescription`,
`ProcessedEvents` and `HalfStatsOf`.

## Model

Several specification functions have no contract of their own; they are
described by the lemmas about them, which appear in the table instead:

- `StatsDict`: `StatsDictKeys` and `StatsDictLastWins`.
- `ProcessedStatistics`: `ProcessedStatisticsFrame`, `ProcessedStatisticsLastWins` and `ProcessedStatisticsUntouched`.
- `HalfTally`: `HalfTallyCounts` and `HalfGoalsTotal`.
- `DisplayCandidates`: `DisplayCandidatesShape` and `DisplayCandidatesFrom`.
- `SizeBlockOf`: `SizeCountsAddUp` and `SortedEnds`.
- `FinalResultsOf`: `FinalResultsOrder` and `StatsFromRaw`.
- `GroupedCombinations`: `GroupedTuple` and `GroupedTooLarge`.
- `FullCombinations`: `FullCombinationsSpec`.
- `ValidCombinations`: `GenerateValidCombinations`.
- `Initialized`: `InitializeIdempotent`, `InitializeKeepsData` and `InitializeCountsSeason`.
- `UpdateSeason`: `UpdateSeasonFrame`.
- `WithLeagueInfo`: `LeagueInfoFacts`.
- `WriteMatches`: `WriteMatchesLastWins`, `WriteMatchesUntouched` and `WriteMatchesKeys`.
- `DetailsSaved`: `DetailsSavedFacts` and `DetailsSavedTotal`.
- `Holds`: the per-market pattern lemmas, from `OverUnderThresholds` to `HalfGgNgYesYes`.
- `NameTable`: `NameTableLastWins`.
- `CombinationOdds`: `CombinationOddsLists` and `CombinationOddsBranches`.

| member | source | states |
|---|---|---|
| Models.EventTypeOfValue | data/models.py:6-16 | `EventType(s)` finds the member whose value is `s`, or fails |
| Models.EventTypeValueRoundTrip | data/models.py:6-16 | every member is found again from its value (values are distinct) |
| Models.Stat.Plus | clients/football_api.py:438-439 | Python `+` on statistics: the numeric sum, an int exactly when both operands are ints |
| Models.ToDict | data/models.py:40-51 | `to_dict` copies id, league, season, date, teams and scores; one event entry per event, in order, whose type string is the event type's value |
| Models.Percent | data/models.py:63 | 0 for a non-positive total; otherwise `occurrence*100/total`, in [0,100] when 0 ≤ occurrence ≤ total |
| Models.EventPattern.Percentage | data/models.py:61-63 | `percentage` is 0 without matches; otherwise occurrence·100/total, in [0,100] for occurrence ≤ total |
| Helpers.SeasonYears | utils/helpers.py:17-19 | the list has p+1 elements for p ≥ 0 (none for p < 0), and element i is c−p+i |
| Helpers.SeasonYearsConsecutive | utils/helpers.py:19 | the list starts at c−p, ends at c and steps by one |
| Helpers.SeasonYearsDefault | utils/helpers.py:17 | the default `past_years = 1` gives exactly [c−1, c] |
| EventPatterns.FirstHalfGoals | patterns/event_patterns.py:553-556 | defined exactly when the first-half counters exist (else the lambda raises) |
| EventPatterns.SecondHalfGoals | patterns/event_patterns.py:558-561 | defined exactly when the second-half counters exist |
| EventPatterns.TotalCards | patterns/event_patterns.py:563-568 | yellow + red of each team, 0 for a team without statistics (integer 0 when neither has any) |
| EventPatterns.FirstHalfCards | patterns/event_patterns.py:580-583 | defined exactly when the first-half counters exist |
| EventPatterns.SecondHalfCards | patterns/event_patterns.py:585-588 | defined exactly when the second-half counters exist |
| EventPatterns.TotalCorners | patterns/event_patterns.py:590-595 | corner kicks of both teams, 0 for a team without statistics |
| EventPatterns.FirstHalfCorners | patterns/event_patterns.py:607-610 | defined exactly when the first-half counters exist |
| EventPatterns.SecondHalfCorners | patterns/event_patterns.py:734-737 | defined exactly when the second-half counters exist |
| EventPatterns.FirstHalfResult | patterns/event_patterns.py:612-620 | defined exactly when the first-half counters exist |
| EventPatterns.SecondHalfResult | patterns/event_patterns.py:622-630 | defined exactly when the second-half counters exist |
| EventPatterns.Firing | analyzers/pattern_analyzer.py:174-186 | the active names are never more than the patterns |
| EventPatterns.FiringAppend | analyzers/pattern_analyzer.py:178-184 | the active set of a concatenated pattern list is the concatenation of the active sets |
| EventPatterns.CatalogueAllGoals | patterns/event_patterns.py:19-545 | the active catalogue has 101 entries, every one tagged `EventType.GOALS` |
| EventPatterns.OverUnderThresholds | patterns/event_patterns.py:39-63 | `over_X_5_goals` fires iff total ≥ X+1, and `under_X_5_goals` iff total ≤ X, so exactly one of each pair fires |
| EventPatterns.TotalGoalsExactPartition | patterns/event_patterns.py:25-37 | for a non-negative total exactly one `total_goals_*` entry fires: the one naming the total, or `5_plus` |
| EventPatterns.TotalGoalsExactLow | patterns/event_patterns.py:26-31 | the entries for totals 0, 1 and 2 fire exactly on those totals |
| EventPatterns.TotalGoalsExactHigh | patterns/event_patterns.py:32-37 | the entries for 3, 4 and 5+ fire exactly on those totals |
| EventPatterns.GoalRangePartition | patterns/event_patterns.py:97-105 | for a non-negative total exactly one `goal_range_*` entry fires, the one whose range holds it |
| EventPatterns.WinningMarginPartition | patterns/event_patterns.py:151-165 | for any integer scores exactly one of the seven winning-margin entries fires, chosen by the goal difference |
| EventPatterns.WinningMarginHome | patterns/event_patterns.py:152-157 | the home-margin entries fire exactly for differences 1, 2 and ≥3 |
| EventPatterns.WinningMarginAwayOrDraw | patterns/event_patterns.py:158-165 | the away-margin and draw entries fire exactly for differences −1, −2, ≤−3 and 0 |
| EventPatterns.BttsComplement | patterns/event_patterns.py:65-69 | for non-negative scores exactly one of `btts_yes`/`btts_no` fires |
| EventPatterns.TeamsToScorePartition | patterns/event_patterns.py:107-115 | for non-negative scores exactly one of the four `teams_to_score_*` entries fires |
| EventPatterns.OddEvenComplement | patterns/event_patterns.py:117-129 | of total, home and away goals, exactly one of odd/even fires each |
| EventPatterns.OddEvenHomeAway | patterns/event_patterns.py:122-129 | the home and the away parity pairs are each complementary |
| EventPatterns.BttsBothHalvesComplement | patterns/event_patterns.py:683-696 | `btts_both_halves_no` is the negation of `_yes`; neither fires exactly when the helper raises (no first half, or both scored in it and no second half) |
| EventPatterns.HighestScoringHalfLabels | patterns/event_patterns.py:670-681 | `_highest_scoring_half` is defined iff both halves exist, and is "first", "second" or "equal" exactly as the half totals compare |
| EventPatterns.WonBothImpliesEither | patterns/event_patterns.py:642-668 | winning both halves implies winning either half, for each side |
| EventPatterns.NotBothWinBothHalves | patterns/event_patterns.py:656-668 | home and away cannot both win both halves |
| EventPatterns.HalfGgNgYesYes | patterns/event_patterns.py:719-732 | `_half_gg_ng` is "yes_yes" iff `_btts_both_halves` holds |
| EventPatterns.NameTableLastWins | patterns/event_patterns.py:739-741 | a name is in the name table iff some entry has it, and it maps to the last entry with that name |
| EventPatterns.PatternByName | patterns/event_patterns.py:739-741 | `get_pattern_by_name` finds an entry iff the catalogue has that name, and the entry found carries it |
| EventPatterns.CatalogueTableGoals | utils/odds_calculator.py:11 | every pattern reachable by name is a goals pattern |
| CombinationCounting.ActiveSetSublist | analyzers/pattern_analyzer.py:174-186 | the active set is a subsequence of the catalogue's names; a name is in it iff an entry with that name holds (a raising one never does) |
| CombinationCounting.GroupKeys | analyzers/pattern_analyzer.py:208 | the available group keys have no repeats |
| CombinationCounting.GroupsContents | analyzers/pattern_analyzer.py:200-208 | the groups are keyed by exactly the available keys; each holds the names of its key, in active order; every key comes from a known name, and every known name's key is available |
| CombinationCounting.GroupedTuple | analyzers/pattern_analyzer.py:197-253 | every grouped tuple has exactly `size` members, all active known names, with pairwise distinct event types (resp. markets) |
| CombinationCounting.GroupedTooLarge | analyzers/pattern_analyzer.py:210-211 | a size above the number of available groups yields nothing |
| CombinationCounting.SingleTypeNoPairs | analyzers/pattern_analyzer.py:197-224 | with only goals patterns the default `by_event_type` strategy yields nothing for sizes ≥ 2 |
| CombinationCounting.GoalsOneType | analyzers/pattern_analyzer.py:200-208 | with only goals patterns there is at most one event-type group, `GOALS` |
| CombinationCounting.FullCombinationsSpec | analyzers/pattern_analyzer.py:255-261 | `full` yields exactly the size-S subsequences of the active list, C(n,S) of them, in position-lexicographic order, and none when S exceeds the list |
| CombinationCounting.JoinKeysSnoc | analyzers/pattern_analyzer.py:165-166 | one more combination adds its joined key at the end |
| CombinationCounting.MatchKeysCount | analyzers/pattern_analyzer.py:149-167 | a match contributes one key per combination generated, for each size in range with enough active names |
| CombinationCounting.ConcatMapAppend | analyzers/pattern_analyzer.py:149-167 | keys of a concatenation are the concatenated keys |
| CombinationCounting.BatchKeysAppend | analyzers/pattern_analyzer.py:149-167 | the keys of two consecutive lists of matches are the keys of their concatenation |
| CombinationCounting.BatchKeysSnoc | analyzers/pattern_analyzer.py:149-167 | one more match appends its own keys |
| CombinationCounting.ConcatMapFlatten | analyzers/pattern_analyzer.py:125-133 | counting pieces one by one is counting the flattened list |
| CombinationCounting.ChunkKeysAppend | analyzers/pattern_analyzer.py:125-133 | keys of consecutive lists of sub-batches concatenate |
| CombinationCounting.ChunkKeysFlatten | analyzers/pattern_analyzer.py:125-133 | the keys of the sub-batches are the keys of the matches they were cut from |
| CombinationCounting.ChunkKeysRemove | analyzers/pattern_analyzer.py:136-138 | taking out any one sub-batch leaves, as a multiset, the keys of the others: completion order does not matter |
| CombinationCounting.KeyRoundTrip | analyzers/pattern_analyzer.py:109 | `split("|")` of the joined key gives the combination back when no name contains `|` |
| CombinationCounting.TallyOfAdd | analyzers/pattern_analyzer.py:167 | counting one more key raises its multiplicity by one |
| CombinationCounting.TallySnoc | analyzers/pattern_analyzer.py:167 | one step of `d[k] = d.get(k, 0) + 1` |
| CombinationCounting.TallyIsTallyOf | analyzers/pattern_analyzer.py:165-167 | the counting loop yields each key's multiplicity, whatever order the keys come in |
| CombinationCounting.TallyOfUnion | analyzers/pattern_analyzer.py:170-172 | merging two tallies gives the tally of the union of their keys |
| CombinationCounting.AddTallyAssociative | analyzers/pattern_analyzer.py:170-172 | merges associate |
| CombinationCounting.AddTallyCommutative | analyzers/pattern_analyzer.py:170-172 | merges commute, so the order in which workers finish does not matter |
| CombinationCounting.AddTallyEmpty | analyzers/pattern_analyzer.py:170-172 | merging into an empty dictionary copies the source |
| CombinationCounting.AddTallyStep | analyzers/pattern_analyzer.py:171-172 | adding one more source key to a merge |
| CombinationCounting.MergeTwice | analyzers/pattern_analyzer.py:170-172 | two successive merges are the merge of the union |
| CombinationCounting.TallyPositive | analyzers/pattern_analyzer.py:167-172 | every count in the tally is at least 1 |
| CombinationCounting.BatchTallySplit | analyzers/pattern_analyzer.py:86-98 | counting two batches in turn is counting their concatenation |
| CombinationCounting.TallySum | analyzers/pattern_analyzer.py:104 | `sum(values())` of the tally is the number of keys counted |
| CombinationCounting.ChunksFlatten | analyzers/pattern_analyzer.py:125-126 | the slices concatenate back to the list; none is empty or wider than the width |
| CombinationCounting.ChunkAt | analyzers/pattern_analyzer.py:125-126 | slice i is `xs[i*w : i*w + w]`, as the range steps through |
| CombinationCounting.Width | analyzers/pattern_analyzer.py:87 | `max(1, n // d)` is at least 1, so every slicing loop advances |
| PatternAnalysis.GroupByContents | analyzers/pattern_analyzer.py:43-45 | a `defaultdict(list)` filled by appending holds exactly the occurring keys, each with its elements in order |
| PatternAnalysis.ByMarketCells | analyzers/pattern_analyzer.py:39-45 | the market table has the event types of the type table, and under each type the patterns of that type grouped by market |
| PatternAnalysis.ItemsDistinct | analyzers/pattern_analyzer.py:106-110 | distinct keys give distinct tuples, so no count is lost or overwritten in the conversion |
| PatternAnalysis.NeverOccurredEmpty | analyzers/pattern_analyzer.py:320-327 | the tally holds no zero count, so every never-occurred list and count in the final results is empty/zero |
| PatternAnalysis.NoNeverOfSize | analyzers/pattern_analyzer.py:321 | a size has no never-occurred entries when all counts are positive |
| PatternAnalysis.SizeNeverEmpty | analyzers/pattern_analyzer.py:327-342 | a size without never-occurred entries shows none |
| PatternAnalysis.NeverCandidatesEmpty | analyzers/pattern_analyzer.py:347 | then the overall never-occurred candidates are empty too |
| PatternAnalysis.MergeCounts | analyzers/pattern_analyzer.py:170-172 | the merge loop leaves the pointwise sum of the two dictionaries |
| PatternAnalysis.MergeStep | analyzers/pattern_analyzer.py:171-172 | one merged key keeps the loop invariant and shrinks what is pending |
| PatternAnalysis.MergeDone | analyzers/pattern_analyzer.py:170-172 | with nothing pending the merge is the pointwise sum |
| PatternAnalysis.AddTallyPointwise | analyzers/pattern_analyzer.py:172 | a dictionary with the pointwise-sum keys and values is the merge |
| PatternAnalysis.KeysOfSizesSnoc | analyzers/pattern_analyzer.py:157-167 | counting one more size appends its keys |
| PatternAnalysis.OrganizePatterns | analyzers/pattern_analyzer.py:36-50 | one pass fills the four tables: by type, by type then market, the names in order, and the name table |
| PatternAnalysis.ExpandGroups | analyzers/pattern_analyzer.py:215-222 | the product loop emits every product of every group combination, in order |
| PatternAnalysis.FiringNames | analyzers/pattern_analyzer.py:176-186 | the loop over patterns builds exactly the active set |
| PatternAnalysis.AppendEach | analyzers/pattern_analyzer.py:221-222 | appending each product keeps the earlier ones and adds the new ones in order |
| PatternAnalysis.ProductsOfSnoc | analyzers/pattern_analyzer.py:216-222 | one more group combination appends its products |
| PatternAnalysis.PendingStart | analyzers/pattern_analyzer.py:125-133 | before any worker runs, the sub-batches hold all the keys of the batch |
| PatternAnalysis.PendingStep | analyzers/pattern_analyzer.py:136-138 | a finished worker moves its sub-batch's keys from pending to done |
| PatternAnalysis.EmptySubBatch | analyzers/pattern_analyzer.py:132 | an empty sub-batch (not submitted) contributes nothing |
| PatternAnalysis.PendingEnd | analyzers/pattern_analyzer.py:136-138 | when no worker is pending, every key has been merged |
| PatternAnalysis.TupleItems | analyzers/pattern_analyzer.py:106-110 | the conversion visits every key of the tally exactly once and produces its item |
| PatternAnalysis.BatchStep | analyzers/pattern_analyzer.py:90-98 | counting the next batch extends the counted prefix of the matches |
| PatternAnalysis.GroupBySize | analyzers/pattern_analyzer.py:303-306 | `combinations_by_size` holds, per present size, that size's items in order, and no other size |
| PatternAnalysis.UpToAt | analyzers/pattern_analyzer.py:312-314 | the keys built by the sizes loop are exactly lo..hi−1, each with its entry |
| PatternAnalysis.SizeStep | analyzers/pattern_analyzer.py:312-347 | one more size adds its block and appends its candidates |
| PatternAnalysis.SizeAppend | analyzers/pattern_analyzer.py:336-347 | the sizes-loop invariant holds after one more size |
| PatternAnalysis.AbsentSize | analyzers/pattern_analyzer.py:313-315 | a size absent from the tally gets the empty block and adds no candidates |
| PatternAnalysis.PresentSize | analyzers/pattern_analyzer.py:317-343 | a present size gets the block of its entries and their display candidates |
| PatternAnalysis.SizesEnd | analyzers/pattern_analyzer.py:312-347 | after the last size, the blocks are `organized_results` and the candidate lists are complete |
| PatternAnalysis.PatternAnalyzer.constructor | analyzers/pattern_analyzer.py:15-34 | a fresh analyzer over the catalogue, organised, with strategy `by_event_type`, an empty tally and an empty results store |
| PatternAnalysis.PatternAnalyzer.GetOccurringPatternsForMatch | analyzers/pattern_analyzer.py:174-186 | returns exactly the active set of the match |
| PatternAnalysis.PatternAnalyzer.GenerateGroupedCombinations | analyzers/pattern_analyzer.py:197-253 | returns the grouped combinations (see `GroupedTuple`, `GroupedTooLarge`) |
| PatternAnalysis.PatternAnalyzer.GroupOccurring | analyzers/pattern_analyzer.py:200-208 | the grouping loop builds the groups and the available keys of `GroupsContents` |
| PatternAnalysis.PatternAnalyzer.GenerateFullCombinations | analyzers/pattern_analyzer.py:255-261 | returns the full combinations (see `FullCombinationsSpec`) |
| PatternAnalysis.PatternAnalyzer.GenerateValidCombinations | analyzers/pattern_analyzer.py:188-195 | dispatches on the strategy |
| PatternAnalysis.PatternAnalyzer.AnalyzeMatchBatchGlobal | analyzers/pattern_analyzer.py:144-172 | the global tally becomes the old tally plus the multiplicities of the batch's keys |
| PatternAnalysis.PatternAnalyzer.CountBatch | analyzers/pattern_analyzer.py:146-167 | the local dictionary is the tally of the batch's keys |
| PatternAnalysis.PatternAnalyzer.CountMatch | analyzers/pattern_analyzer.py:149-167 | a match with no active pattern adds nothing; otherwise it adds its keys |
| PatternAnalysis.PatternAnalyzer.CountSizes | analyzers/pattern_analyzer.py:157-167 | the sizes loop adds the keys of every size in range |
| PatternAnalysis.PatternAnalyzer.CountSize | analyzers/pattern_analyzer.py:158-167 | a size larger than the active set adds nothing; otherwise it adds its keys |
| PatternAnalysis.PatternAnalyzer.CountCombinations | analyzers/pattern_analyzer.py:165-167 | each combination adds one to its joined key |
| PatternAnalysis.PatternAnalyzer.MergeIntoGlobal | analyzers/pattern_analyzer.py:169-172 | the locked merge adds every local count into the global tally |
| PatternAnalysis.PatternAnalyzer.ProcessBatchWithGlobalDict | analyzers/pattern_analyzer.py:122-142 | whatever order the workers finish in, the tally gains exactly the counts of the whole batch |
| PatternAnalysis.PatternAnalyzer.AnalyzeMatchesOptimized | analyzers/pattern_analyzer.py:75-120 | the season is registered; the tally gains the counts of all matches, independent of the batch split; the results are those of the tally's items; they are stored |
| PatternAnalysis.PatternAnalyzer.CountInBatches | analyzers/pattern_analyzer.py:86-98 | counting batch by batch gains exactly the counts of all the matches |
| PatternAnalysis.PatternAnalyzer.ProcessCombinationList | analyzers/pattern_analyzer.py:274-298 | one result item per entry, in order (see `ProcessList`) |
| PatternAnalysis.PatternAnalyzer.PatternDetails | analyzers/pattern_analyzer.py:279-288 | the details of the combination's known names, in order |
| PatternAnalysis.PatternAnalyzer.PrepareFinalResultsLazy | analyzers/pattern_analyzer.py:300-368 | builds the final results the ranking specification defines |
| PatternAnalysis.PatternAnalyzer.OrganizeSizes | analyzers/pattern_analyzer.py:308-347 | the sizes loop builds `organized_results` and the candidate lists of every size, in size order |
| PatternAnalysis.PatternAnalyzer.SizeTurn | analyzers/pattern_analyzer.py:312-347 | one turn of the sizes loop keeps its invariant |
| PatternAnalysis.PatternAnalyzer.SizeEntry | analyzers/pattern_analyzer.py:312-343 | the block and candidates of one size, empty when the size is absent |
| PatternAnalysis.PatternAnalyzer.SizeBlock | analyzers/pattern_analyzer.py:317-343 | the block of a present size and its display candidates |
| ResultRanking.Take | analyzers/pattern_analyzer.py:337 | `xs[:k]` is the first min(k, n) elements |
| ResultRanking.PyTail | analyzers/pattern_analyzer.py:339 | `xs[-k:]` is the last min(k, n) elements, but the whole list when k is 0 |
| ResultRanking.Reverse | analyzers/pattern_analyzer.py:339 | `reversed` keeps the length |
| ResultRanking.ReverseAt | analyzers/pattern_analyzer.py:339 | element i of the reversal is element n−1−i |
| ResultRanking.InsertByPermutes | analyzers/pattern_analyzer.py:334 | insertion adds the element and keeps the others |
| ResultRanking.SortByPermutes | analyzers/pattern_analyzer.py:334 | `sorted` is a permutation |
| ResultRanking.SortBySorted | analyzers/pattern_analyzer.py:377 | `sorted` puts the keys in ascending order |
| ResultRanking.SortByStable | analyzers/pattern_analyzer.py:377 | `sorted` is stable: equal-key elements keep their order |
| ResultRanking.Dedup | analyzers/pattern_analyzer.py:385 | `dict.fromkeys` never lengthens the list |
| ResultRanking.DedupMembers | analyzers/pattern_analyzer.py:385 | de-duplication keeps exactly the elements |
| ResultRanking.DedupDistinct | analyzers/pattern_analyzer.py:385 | the result has no repeats |
| ResultRanking.DedupOfDistinct | analyzers/pattern_analyzer.py:385 | a list without repeats is unchanged |
| ResultRanking.DisplayCandidatesShape | analyzers/pattern_analyzer.py:370-401 | the candidates are the w smallest then the w largest when those do not overlap, else (or for w = 0) the whole sorted list |
| ResultRanking.EndsDedup | analyzers/pattern_analyzer.py:381-385 | both ends of a repeat-free sorted list, de-duplicated, are the candidates `DisplayCandidatesShape` describes |
| ResultRanking.WideEnds | analyzers/pattern_analyzer.py:381-385 | a list no longer than w is returned whole |
| ResultRanking.DisjointEnds | analyzers/pattern_analyzer.py:381-385 | when 2w < n the candidates are the first w and the last w |
| ResultRanking.OverlappingEnds | analyzers/pattern_analyzer.py:381-385 | when w < n ≤ 2w the candidates are the whole list |
| ResultRanking.DetailsAppend | analyzers/pattern_analyzer.py:280-288 | details of a concatenation concatenate |
| ResultRanking.DetailsAllKnown | analyzers/pattern_analyzer.py:280-288 | with all names known there is one detail per name, in order |
| ResultRanking.ProcessEntry | analyzers/pattern_analyzer.py:290-296 | the item's size is the combination's length and its count the entry's; for a count between 0 and the number of matches its percentage lies in [0, 100] |
| ResultRanking.ProcessListSnoc | analyzers/pattern_analyzer.py:278-296 | one more entry appends its item |
| ResultRanking.FilterMembers | analyzers/pattern_analyzer.py:320-321 | a comprehension's filter keeps only passing members of its input |
| ResultRanking.FilterComplement | analyzers/pattern_analyzer.py:320-321 | complementary filters together keep every element once |
| ResultRanking.SizeCountsAddUp | analyzers/pattern_analyzer.py:336-343 | `occurred_count + never_occurred_count == total_combinations`; an absent size gets the empty block |
| ResultRanking.SortedEnds | analyzers/pattern_analyzer.py:334-339 | `least_occurred` ascends and beats none left out; `most_occurred` descends and none left out beats it |
| ResultRanking.LeastAndMost | analyzers/pattern_analyzer.py:334-339 | the same facts on the processed result items' occurrence counts |
| ResultRanking.Min | analyzers/pattern_analyzer.py:425 | `min` is a member and below every member |
| ResultRanking.Max | analyzers/pattern_analyzer.py:426 | `max` is a member and above every member |
| ResultRanking.StatsFromRaw | analyzers/pattern_analyzer.py:403-428 | totals are the candidate counts; everything is zero without occurred candidates; otherwise the count and the sum of counts |
| ResultRanking.StatsOfOccurred | analyzers/pattern_analyzer.py:419-427 | with occurred candidates, min and max are candidates' counts that bound all others, and the average lies between them |
| ResultRanking.AverageOfCounts | analyzers/pattern_analyzer.py:427 | the mean of a non-empty list lies between its minimum and its maximum |
| ResultRanking.DisplayCandidatesFrom | analyzers/pattern_analyzer.py:370-385 | the display candidates have no repeats and are all drawn from the input |
| ResultRanking.OccurredCandidatesFrom | analyzers/pattern_analyzer.py:317-339 | the candidates of one size are distinct tally entries of that size that occurred |
| ResultRanking.AllOccurredCandidatesFrom | analyzers/pattern_analyzer.py:312-347 | `all_occurred_candidates` has no repeats; every candidate is a tally entry that occurred, of a size in the range |
| ResultRanking.OverallLists | analyzers/pattern_analyzer.py:349-368 | over distinct candidates the overall list is both ends of the count-sorted candidates; its `[:K]` and `[-K:]` both ascend by count; the first of the least is below every candidate and the last of the most above every candidate |
| ResultRanking.FinalResultsOrder | analyzers/pattern_analyzer.py:300-368 | the overall candidates are distinct, occurred and of a size in range; `least_occurred` is the head and `most_occurred` the tail (not reversed) of the overall list, both ascending by count, with the least's first at most and the most's last at least every candidate's count |
| ResultsStore.ResumePoint | utils/results_manager.py:208-227 | returns the progress iff the season exists and `current_combination` is truthy |
| ResultsStore.InitializeIdempotent | utils/results_manager.py:121-152 | initialising the same league season twice is initialising once, whatever the second name and total |
| ResultsStore.InitializeKeepsData | utils/results_manager.py:121-144 | only absent entries are created; existing names and seasons are untouched; a new season gets fresh progress |
| ResultsStore.InitializeCountsSeason | utils/results_manager.py:146-150 | creating a season adds exactly one to the season total |
| ResultsStore.InitializedSeasonCounts | utils/results_manager.py:132-150 | creating a season raises only its league's season count, by one |
| ResultsStore.SeasonCountsUpdate | utils/results_manager.py:148-150 | replacing one league changes only its season count |
| ResultsStore.UpdateSeasonFrame | utils/results_manager.py:161-170 | updating one season touches no other season, no league name and no season count |
| ResultsStore.ResumePointLifecycle | utils/results_manager.py:229-247 | no resume point for a fresh season or after saving results; after progress with a non-empty combination, that progress |
| ResultsStore.ComboKeyRoundTrip | utils/results_manager.py:159 | the combination key `",".join(combo)` splits back into the combination when no name contains a comma |
| ResultsStore.ResultsManager.constructor | utils/results_manager.py:86-96 | no leagues and zero totals; consistent |
| ResultsStore.ResultsManager.InitializeLeagueSeason | utils/results_manager.py:121-152 | the table is initialised; metadata is recomputed only when a season is created, and is then consistent with the table |
| ResultsStore.ResultsManager.SaveComboResult | utils/results_manager.py:154-178 | writes the combo record for an existing season, is a no-op otherwise, and keeps the metadata |
| ResultsStore.ResultsManager.UpdateProgress | utils/results_manager.py:180-206 | replaces the progress of an existing season only |
| ResultsStore.ResultsManager.GetResumePoint | utils/results_manager.py:208-227 | the resume point of `ResumePoint`, always with a non-empty combination |
| ResultsStore.ResultsManager.SaveAnalysisResults | utils/results_manager.py:229-252 | stores the results in an existing season and resets its progress, so it has no resume point |
| ResultsStore.ResultsManager.GetLeagueSeasonResults | utils/results_manager.py:258-266 | the season's record iff it exists, else `None` |
| CacheStore.MatchesSaved | utils/cache_manager.py:81-112 | after `save_matches` the league season exists |
| CacheStore.LeagueMatches | utils/cache_manager.py:141-149 | the season's match map iff the season exists, else `None` |
| CacheStore.MatchDetailsOf | utils/cache_manager.py:151-166 | the entry iff the match exists and has details, else `None` |
| CacheStore.LeagueSizesUpdate | utils/cache_manager.py:168-174 | replacing one league changes only its match count |
| CacheStore.TotalSameSizes | utils/cache_manager.py:168-174 | a league with the same season sizes keeps the total |
| CacheStore.TotalNewLeague | utils/cache_manager.py:168-174 | a new league without seasons adds nothing to the total |
| CacheStore.LeagueInfoFacts | utils/cache_manager.py:69-79 | `save_league_info` creates only an absent league, never overwrites, is idempotent and keeps the total |
| CacheStore.WriteMatchesLastWins | utils/cache_manager.py:99-112 | a fixture id holds the entry of the last fixture with that id |
| CacheStore.WriteMatchesUntouched | utils/cache_manager.py:99-112 | a match no fixture names is untouched |
| CacheStore.WriteMatchesKeys | utils/cache_manager.py:99-112 | the matches afterwards are the old ones plus one per fixture id |
| CacheStore.FixtureIds | utils/cache_manager.py:101 | exactly the ids of the fixtures |
| CacheStore.MatchesSavedFrame | utils/cache_manager.py:81-112 | `save_matches` changes one season: other leagues and seasons are kept, a league's info is kept, the season holds the written matches |
| CacheStore.MatchesSavedDropDetails | utils/cache_manager.py:102-112 | a re-saved match loses its details (`get_match_details` misses it) |
| CacheStore.DetailsSavedFacts | utils/cache_manager.py:118-139 | details of an existing match are set and then returned; everything else is kept; a missing match is a no-op |
| CacheStore.DetailsSavedTotal | utils/cache_manager.py:118-139 | saving details never changes the match count |
| CacheStore.CountMatches | utils/cache_manager.py:168-174 | the loop sums the per-season match counts |
| CacheStore.WriteEach | utils/cache_manager.py:99-112 | the fixture loop writes one entry per fixture, in order |
| CacheStore.WriteSeason | utils/cache_manager.py:86-112 | creates the league and season when missing, then writes the fixtures |
| CacheStore.OrganizedCacheManager.constructor | utils/cache_manager.py:23-34 | a cache without a file: no leagues and zero totals |
| CacheStore.OrganizedCacheManager.SaveLeagueInfo | utils/cache_manager.py:69-79 | the table after `save_league_info`; metadata unchanged |
| CacheStore.OrganizedCacheManager.SaveMatches | utils/cache_manager.py:81-116 | the table after `save_matches`; `total_matches` recomputed over all seasons |
| CacheStore.OrganizedCacheManager.SaveMatchDetails | utils/cache_manager.py:118-139 | the table after `save_match_details`; metadata unchanged |
| CacheStore.OrganizedCacheManager.GetLeagueMatches | utils/cache_manager.py:141-149 | the season's matches or `None` (see `LeagueMatches`) |
| CacheStore.OrganizedCacheManager.GetMatchDetails | utils/cache_manager.py:151-166 | the entry with details or `None` (see `MatchDetailsOf`) |
| CacheStore.OrganizedCacheManager.CountProcessedMatches | utils/cache_manager.py:168-174 | the sum of the per-season match counts |
| CacheStore.OrganizedCacheManager.ClearAll | utils/cache_manager.py:201-212 | no leagues and zero totals |
| EventCombinations.SizesBelowCount | analyzers/event_combinations.py:15-17 | the output length is the sum over the sizes of C(n, s) |
| EventCombinations.SizesBelowMembership | analyzers/event_combinations.py:15-17 | the output holds exactly the subsequences with a length in range |
| EventCombinations.SizesBelowAscending | analyzers/event_combinations.py:15-17 | sizes appear in ascending order |
| EventCombinations.SizesBelowBeyond | analyzers/event_combinations.py:16 | nothing when the input is shorter than the smallest size |
| EventCombinations.Generated | analyzers/event_combinations.py:11-20 | raises exactly for a non-empty size range starting below 0; empty when min > max |
| EventCombinations.GeneratedFacts | analyzers/event_combinations.py:11-20 | for min ≥ 0: exactly the subsequences with a length in [min, max], Σ C(n, s) of them, none when n < min |
| EventCombinations.CategoriesOf | analyzers/event_combinations.py:28-31 | exactly the categories of the events, `'unknown'` for missing entries |
| EventCombinations.CategoriesSnoc | analyzers/event_combinations.py:29-31 | one more event adds its category |
| EventCombinations.CategoriesAtMost | analyzers/event_combinations.py:28-31 | no more categories than events |
| EventCombinations.ShortNotMeaningful | analyzers/event_combinations.py:34 | a combination shorter than min−1 never passes |
| EventCombinations.FilteredMembership | analyzers/event_combinations.py:22-37 | a combination is kept iff it is an input with at least min−1 categories |
| EventCombinations.FilteredAllMeaningful | analyzers/event_combinations.py:33-35 | every kept combination passes |
| EventCombinations.FilteredSubseq | analyzers/event_combinations.py:22-37 | the result is an order-preserving subsequence of the input |
| EventCombinations.FilteredIdempotent | analyzers/event_combinations.py:22-37 | filtering twice is filtering once |
| EventCombinations.EventCombinationGenerator.constructor | analyzers/event_combinations.py:6-9 | stores the two sizes, which default to 3 and 5 |
| EventCombinations.EventCombinationGenerator.GenerateCombinations | analyzers/event_combinations.py:11-20 | the size loop returns the generated combinations (see `GeneratedFacts`) |
| EventCombinations.EventCombinationGenerator.FilterMeaningfulCombinations | analyzers/event_combinations.py:22-37 | the loop returns the filtered list (see `FilteredMembership`) |
| EventCombinations.AppendAll | analyzers/event_combinations.py:16-17 | appending keeps the earlier combinations and adds the new ones in order |
| EventCombinations.CollectCategories | analyzers/event_combinations.py:28-31 | the inner loop builds the category set |
| FootballApi.ClassifyEventType | clients/football_api.py:307-329 | `None` for a missing type; otherwise the mapped type iff the lower-cased type is mapped |
| FootballApi.ClassifyCaseInsensitive | clients/football_api.py:326 | classification ignores letter case |
| FootballApi.EventDescription | clients/football_api.py:331-349 | the description raises (`None`) exactly when the `player` object is JSON `null` |
| FootballApi.DescriptionFallThrough | clients/football_api.py:337-349 | a goal with an unrecognised detail reads `"Goal: {detail}"`, a missing detail as `''` and a `null` one as `None` (`"Goal: None"`) |
| FootballApi.DescriptionNamesPlayer | clients/football_api.py:331-347 | recognised goals and cards end with the player's name, which a `null` name prints as `None` (`"Goal by None"`); corners read "Corner kick" |
| FootballApi.DescriptionOtherTypes | clients/football_api.py:349 | with a non-`null` player, any other type reads `"{type}: {detail}"` and starts with the rendered type |
| FootballApi.DescriptionNullPlayer | clients/football_api.py:334 | a `null` player object makes the description raise whatever the type |
| FootballApi.EventOf | clients/football_api.py:297-304 | building the event raises exactly when the `team`, `time` or `player` object is `null` |
| FootballApi.ProcessedEvents | clients/football_api.py:290-305 | never more events than raw events |
| FootballApi.ProcessedEventsFacts | clients/football_api.py:290-305 | the loop raises exactly when a classified raw event has a `null` team, time or player; otherwise one event per classified raw event, each built from a raw event of its type |
| FootballApi.ProcessEvents | clients/football_api.py:290-305 | `None` exactly when the loop raises; otherwise the match with the processed events appended |
| FootballApi.RemoveChar | clients/football_api.py:476 | `replace('%', '')` leaves no `%` and adds no character |
| FootballApi.SafeConvertStat | clients/football_api.py:466-487 | None and other types become 0; a JSON boolean, a Python `int`, stays the integer 0 or 1; ints and floats are unchanged |
| FootballApi.IntToStringChars | clients/football_api.py:479-481 | `str(i)` has no `%` |
| FootballApi.SafeConvertIntString | clients/football_api.py:479-481 | an integer string converts back to the integer |
| FootballApi.SafeConvertPercent | clients/football_api.py:474-478 | a percentage string becomes a float, 0.0 when unparseable |
| FootballApi.SafeConvertNoDigits | clients/football_api.py:479-486 | a digit-free string that is no float becomes 0 |
| FootballApi.StatsDictKeys | clients/football_api.py:360-362 | a type is in `stats_dict` iff some entry has it |
| FootballApi.StatsDictLastWins | clients/football_api.py:360-362 | a type holds the converted value of its last entry |
| FootballApi.TeamStatsOf | clients/football_api.py:364-383 | the team's id and name are copied |
| FootballApi.TeamStatsDefaults | clients/football_api.py:364-383 | a team that reports none of the sixteen named types gets every default: 0, and 0.0 for `Passes %` |
| FootballApi.TeamStatsFields | clients/football_api.py:360-383 | per named type: unreported gives 0 (0.0 for `Passes %`); reported gives the converted value of its last entry |
| FootballApi.ProcessedStatisticsFrame | clients/football_api.py:351-388 | only the two statistics fields change |
| FootballApi.ProcessedStatisticsLastWins | clients/football_api.py:385-388 | a side holds the statistics of the last entry for it |
| FootballApi.ProcessedStatisticsUntouched | clients/football_api.py:351-388 | a side no entry is for keeps its statistics; an empty response changes nothing |
| FootballApi.ProcessStatistics | clients/football_api.py:351-388 | the nested loops compute the processed statistics |
| FootballApi.CollectStats | clients/football_api.py:360-362 | the loop builds `stats_dict` |
| FootballApi.KindOf | clients/football_api.py:404-418 | which counter an event type feeds: 'Goal', the two card types, 'Corner' |
| FootballApi.Bump | clients/football_api.py:405-422 | exactly one counter goes up by one |
| FootballApi.HalfTallyCounts | clients/football_api.py:390-425 | every counter is the number of timed events of its kind, half and side (minute ≤ 45 first half; missing or 0 skipped) |
| FootballApi.HalfGoalsTotal | clients/football_api.py:396-408 | first- plus second-half goals equals the number of timed goal events |
| FootballApi.CountedEventsClassify | clients/football_api.py:404-418 | every counted event classifies to its counter's event type |
| FootballApi.HalfStatsOf | clients/football_api.py:390-425 | `None` exactly when some event has a `null` time, or a `null` team with a truthy minute; otherwise the tallied halves |
| FootballApi.ExtractHalfStats | clients/football_api.py:390-425 | `None` exactly when the loop raises on a `null` time or team; otherwise the match with the two tallied halves stored and nothing else changed |
| FootballApi.HalfHelpersReadTally | patterns/event_patterns.py:553-630 | after the halves are extracted, the catalogue's half helpers give each half's goals, cards and corners as the number of timed events of that kind in that half, and each half's result as `_get_half_result` does |
| FootballApi.HalfResult | clients/football_api.py:457-464 | exactly one of home/away/draw, by the goals |
| FootballApi.HalfResultMirrored | clients/football_api.py:457-464 | swapping sides swaps home and away and keeps a draw |
| FootballApi.CardsOf | clients/football_api.py:438-439 | yellow + red of a team, 0 without statistics |
| FootballApi.DerivedEvents | clients/football_api.py:427-453 | raises iff no first half; else appends the half result, total cards and total corners, with the correct totals |
| FootballApi.DerivedTotalsIntegral | clients/football_api.py:438-448 | integer statistics give integer totals |
| OddsCalculation.DependentSymmetric | utils/odds_calculator.py:716-741 | logical dependence is symmetric |
| OddsCalculation.RelatedOrdered | utils/odds_calculator.py:743-760 | relatedness holds for exactly three ordered pairs of event types, never both ways |
| OddsCalculation.PatternCorrelationAsWritten | utils/odds_calculator.py:694-714 | as written, the score is `None` exactly for same market and type |
| OddsCalculation.PatternCorrelation | utils/odds_calculator.py:694-714 | the corrected score lies in (0, 1] and agrees with the written one wherever that is defined |
| OddsCalculation.DescribeRelationship | utils/odds_calculator.py:802-816 | one of the five labels; `same_market` exactly for same market and type; `same_event_type` only for one type |
| OddsCalculation.ScoreOfRelationship | utils/odds_calculator.py:694-714 | the branch scores lie in (0, 1], and 1.0 only for `same_market` |
| OddsCalculation.CorrelationFollowsRelationship | utils/odds_calculator.py:802-816 | the score and `_describe_relationship` take the same branch |
| OddsCalculation.SameTypeCorrelation | utils/odds_calculator.py:705-707 | two patterns of one type score at least 0.6 |
| OddsCalculation.Row | utils/odds_calculator.py:682-690 | the inner loop's pairs with the outer element |
| OddsCalculation.PairsCount | utils/odds_calculator.py:681-692 | there are n(n−1)/2 pairs |
| OddsCalculation.PairsMembers | utils/odds_calculator.py:681-692 | a pair is listed iff it is (xs[i], xs[j]) with i < j |
| OddsCalculation.CalculateCorrelationFactors | utils/odds_calculator.py:677-692 | the nested loop yields the factors of all pairs i < j in order, with the corrected same-market score (as written that pair has no score, see "## Findings") |
| OddsCalculation.AppendRowFactors | utils/odds_calculator.py:682-690 | the inner loop appends the factors of one row |
| OddsCalculation.BandAntitone | utils/odds_calculator.py:773-782 | the band never rises as the average rises |
| OddsCalculation.CorrelationAdjustment | utils/odds_calculator.py:762-782 | one of 0.3/0.6/0.8/0.9/1.0, 1.0 for no factors |
| OddsCalculation.ReasonFollowsAdjustment | utils/odds_calculator.py:784-800 | the reason is the label of the adjustment chosen |
| OddsCalculation.SameTypeAdjustment | utils/odds_calculator.py:762-782 | two or more patterns of one type are adjusted by at most 0.6 |
| OddsCalculation.SameTypeAverage | utils/odds_calculator.py:768 | their average score is at least 0.6 |
| OddsCalculation.SumAsWrittenRaises | utils/odds_calculator.py:768 | one `None` makes `sum` raise |
| OddsCalculation.SameMarketRaises | utils/odds_calculator.py:768 | as written, two patterns of one market and type make the adjustment raise |
| OddsCalculation.SumAsWrittenAgrees | utils/odds_calculator.py:768 | when no pair scores `None`, the program's sum of scores is the sum of the corrected factors |
| OddsCalculation.RaiseMeetsSameMarket | utils/odds_calculator.py:694-768 | as written, the adjustment raises only when some two patterns share market and type |
| OddsCalculation.AsWrittenValue | utils/odds_calculator.py:762-782 | as written, an adjustment that does not raise equals the corrected one |
| OddsCalculation.AdjustmentAsWrittenAgrees | utils/odds_calculator.py:694-782 | as written, the adjustment raises iff two patterns share market and type; otherwise it equals the corrected adjustment |
| OddsCalculation.OverGoalsPairRaises | utils/odds_calculator.py:694-699 | `over_0_5_goals` with `over_1_5_goals` raises as written; corrected it is adjusted by 0.3 |
| OddsCalculation.InverseProduct | utils/odds_calculator.py:647-650 | the independent probability is positive |
| OddsCalculation.FallbackReport | utils/odds_calculator.py:622-641 | adjustment 1.0, reason "fallback_calculation", no correlation details; valuable iff the value indicator is positive |
| OddsCalculation.CorrelatedReport | utils/odds_calculator.py:643-675 | positive combined odds; details are the pair factors; the adjustment is their band; valuable iff the indicator is positive. Uses the corrected same-market score; as written such a pair raises, see "## Findings" |
| OddsCalculation.PricedReport | utils/odds_calculator.py:653-675 | the bookmaker probability is the independent probability times the adjustment, in percent; reason matches the factors |
| OddsCalculation.FallbackBranch | utils/odds_calculator.py:622-641 | builds the fallback report |
| OddsCalculation.CorrelatedBranch | utils/odds_calculator.py:643-675 | builds the correlated report |
| OddsCalculation.ProductLoop | utils/odds_calculator.py:624-626 | the product of the odds |
| OddsCalculation.InverseProductLoop | utils/odds_calculator.py:647-650 | the product of the inverses of the positive odds |
| OddsCalculation.OddsCalculator.constructor | utils/odds_calculator.py:9-17 | the catalogue table and the three odds tables |
| OddsCalculation.OddsCalculator.MapPatternToOddsMarket | utils/odds_calculator.py:277-523 | the mapped key, or the name unchanged when unmapped |
| OddsCalculation.OddsCalculator.LatestMatchOdds | utils/odds_calculator.py:577-587 | the union of both tables, primary overriding fallback |
| OddsCalculation.OddsCalculator.FindOddsIsLatestLookup | utils/odds_calculator.py:589-604 | primary, then fallback, then 1.0: a lookup in the combined table |
| OddsCalculation.OddsCalculator.GetAllPatternOdds | utils/odds_calculator.py:817-823 | the odds of every catalogue name, nothing else |
| OddsCalculation.OddsCalculator.KnownPatterns | utils/odds_calculator.py:613-616 | never more patterns than names |
| OddsCalculation.OddsCalculator.KnownPatternsAll | utils/odds_calculator.py:613-616 | all names are found iff there are as many patterns as names |
| OddsCalculation.OddsCalculator.IndividualOdds | utils/odds_calculator.py:617-618 | one odds value per name |
| OddsCalculation.OddsCalculator.IndividualOddsAt | utils/odds_calculator.py:617-618 | the i-th value is the odds of the i-th name |
| OddsCalculation.OddsCalculator.MissingOddsMembers | utils/odds_calculator.py:619-620 | a name is listed missing iff its odds are 1.0 |
| OddsCalculation.OddsCalculator.CalculateCombinationOdds | utils/odds_calculator.py:606-675 | the report of `calculate_combination_odds` (see the next three rows), with the corrected same-market score; as written such a pair raises, see "## Findings" |
| OddsCalculation.OddsCalculator.CollectOdds | utils/odds_calculator.py:612-620 | the first loop's three lists |
| OddsCalculation.OddsCalculator.CombinationOddsLists | utils/odds_calculator.py:606-675 | one odds value per name; missing names are those at 1.0; valuable iff the indicator is positive (corrected same-market score, see "## Findings") |
| OddsCalculation.OddsCalculator.CombinationOddsBranches | utils/odds_calculator.py:622-675 | fallback iff some name is unknown; it has adjustment 1.0; otherwise the details have n(n−1)/2 factors (corrected same-market score, see "## Findings") |
| OddsCalculation.OddsCalculator.CatalogueCombinationAdjustment | utils/odds_calculator.py:643-654 | two or more catalogue names are adjusted by at most 0.6 (corrected same-market score; as written two catalogue names of one market raise, see "## Findings") |
| OddsCalculation.OddsCalculator.KnownCatalogueGoals | utils/odds_calculator.py:613-616 | catalogue names are all found, and are goals patterns |
| Itertools.Combinations | analyzers/pattern_analyzer.py:261 | `combinations(xs, k)` yields C(n, k) tuples |
| Itertools.CombinationsSound | analyzers/pattern_analyzer.py:261 | every tuple yielded has length k and is a subsequence of the input |
| Itertools.CombinationsComplete | analyzers/pattern_analyzer.py:261 | every length-k subsequence is yielded |
| Itertools.CombinationsNatural | analyzers/pattern_analyzer.py:261 | combinations depend only on positions: renaming elements commutes with them |
| Itertools.RangeCombinationsSorted | analyzers/pattern_analyzer.py:261 | the index tuples come out in strict lexicographic order |
| Itertools.CombinationsMembership | analyzers/pattern_analyzer.py:261 | `combinations` yields exactly the length-k subsequences |
| Itertools.CombinationsByPosition | analyzers/pattern_analyzer.py:261 | combinations come in position-lexicographic order |
| Itertools.ProductOrder | analyzers/pattern_analyzer.py:263-272 | `_product` yields in odometer order, the first list slowest |
| Itertools.ProductMembership | analyzers/pattern_analyzer.py:263-272 | a tuple is yielded iff it takes its i-th element from the i-th list |
| Itertools.Product | analyzers/pattern_analyzer.py:263-272 | the count is the product of the lengths; `()` alone for no list |
| Strings.SplitJoin | analyzers/pattern_analyzer.py:109 | `split` undoes `join` when no part contains the separator |
| Strings.JoinSplit | analyzers/pattern_analyzer.py:109 | `join` undoes `split` |
| Strings.SplitInjective | analyzers/pattern_analyzer.py:109 | different keys never split into the same combination |
| Strings.Lower | clients/football_api.py:326 | `lower()` keeps the length, moves each ASCII capital down by 32 code points, keeps every other character, and leaves no capital |
| Strings.LowerIdempotent | clients/football_api.py:326 | lower-casing twice is lower-casing once |
| Strings.ParseIntToString | clients/football_api.py:481 | `int(str(i)) == i` |

## Left out

- HTTP and rate limiting: `_make_request`, `get_leagues`, `get_matches`, `get_match_events`, `get_match_statistics`, `get_match_lineups`, `_rate_limit`. This is network I/O and the wall clock.
- `parse_match_data` and `_enrich_match_data`: orchestration around the network calls. Their steps (`_process_events`, `_process_statistics`, `_extract_half_stats`, `_generate_derived_events`) are modelled.
- `_load_match_from_organized_cache`: it builds a `MatchEvent` without `description`.
- `_cache_complete_match`: it calls `set_match_data`, which the cache manager does not define.
- File persistence: `_load_results`/`_save_results`, `_load_cache`/`_save_cache`, `helpers.save_results`, `utils/progress_manager.py` and `main.py`. The stores start from the "no file" state.
- `defer_save` of `save_combo_result` only controls saving; it has no effect on the table.
- Timestamps (`created_at`, `last_updated`), logging and printing.
- `get_all_results`, `get_cache_stats` and `clear_expired`: the first returns the whole table, the second builds a report dictionary, and the third does nothing.
- `analyze_matches`: it loops over a Python `set` of leagues, whose iteration order is unknowable. Each league's work is `_analyze_matches_optimized`, which is modelled.
- Concurrency: the thread pool is a sequential fold over the sub-batches, in an arbitrary order, with an atomic merge. The `except` around `future.result()` is not modelled; a worker here cannot fail.
- Dictionary iteration order: the order in which the tally's items are read is left open (a ghost `order` that enumerates the keys). The results are stated for that order.
- Floating point: `float()` parsing in `_safe_convert_stat` is the parameter `floatOf`, and all arithmetic is exact (`real`). No claim is made about rounding.
- `format_percentage` in `utils/helpers.py`: it is string formatting of a float.
- `Strings.Lower`: only ASCII letters are lower-cased; Python's Unicode case mapping is not modelled.
- `Strings.ParseInt`: underscores and non-ASCII digits, which Python's `int()` accepts, are not modelled. Surrounding whitespace is stripped by `Strings.IsSpace`, which is the set of characters Python's `str.isspace` accepts.
- Update in place: the client's `_process_events`, `_process_statistics`, `_extract_half_stats` and `_generate_derived_events` mutate a `Match`. Here they return the updated `Match` value, so aliasing of a match between callers is not modelled.
- The commented-out markets of the catalogue (match result, half time, cards, corners) are not active and are not modelled. The half and stats helpers they use are modelled; the lines starting with their names below say what their contracts leave open.
- `total_leagues` in the cache metadata is never updated by the cache manager, so it stays 0 here as well.
- EventPatterns.FirstHalfGoals: its own contract states only when it is defined. Its direct pattern callers are commented out (`patterns/event_patterns.py:348-363`). `HighestScoringHalfLabels` states what `_highest_scoring_half` makes of its value, and `FootballApi.HalfHelpersReadTally` gives that value on an extracted match.
- EventPatterns.SecondHalfGoals: its own contract states only when it is defined. As for `FirstHalfGoals` (commented-out callers at `patterns/event_patterns.py:395-401`).
- EventPatterns.FirstHalfCards: its own contract states only when it is defined. Its only callers are commented-out markets (`patterns/event_patterns.py:464-470`), so no pattern lemma covers it; `FootballApi.HalfHelpersReadTally` gives its value on an extracted match.
- EventPatterns.SecondHalfCards: as for `FirstHalfCards` (commented-out callers at `patterns/event_patterns.py:475-481`).
- EventPatterns.FirstHalfCorners: its own contract states only when it is defined. Its only callers are commented-out markets (`patterns/event_patterns.py:523-529`); `FootballApi.HalfHelpersReadTally` gives its value on an extracted match.
- EventPatterns.SecondHalfCorners: its own contract states only when it is defined. No pattern, active or commented out, calls it; `FootballApi.HalfHelpersReadTally` gives its value on an extracted match.
- EventPatterns.FirstHalfResult: its own contract states only when it is defined. Its only callers are commented-out markets (`patterns/event_patterns.py:339-382`); `FootballApi.HalfHelpersReadTally` shows it agrees with `_get_half_result` on an extracted match.
- EventPatterns.SecondHalfResult: as for `FirstHalfResult` (commented-out callers at `patterns/event_patterns.py:386-390`).
- PatternAnalysis.PatternAnalyzer.AnalyzeMatchesOptimized: it requires `THREAD_COUNT` ≥ 1, as do `CountInBatches` and `ProcessBatchWithGlobalDict`. With 0 the Python raises `ZeroDivisionError` (`analyzers/pattern_analyzer.py:87`, `125`). With a negative count `ThreadPoolExecutor` raises `ValueError` (`analyzers/pattern_analyzer.py:128`). These error paths are not modelled.
- FootballApi.ProcessEvents: when the loop raises part-way, the Python has already appended the earlier events to `match.events`. The model returns `None` and does not describe that partly updated match. The same holds for `ExtractHalfStats`, whose Python raises before storing any half, so nothing is lost there.
- FootballApi.ProcessStatistics: `RawTeamStats` always has a team with an id and a name, and every statistic has a type and a value; a missing `statistics` key is the empty list. The `KeyError`/`TypeError` of a team without `team`, `id` or `name`, of a statistic without `type` or `value`, and of `"statistics": null` (`clients/football_api.py:357`, `361-362`, `366`) are not modelled. The same holds for `FootballApi.TeamStatsOf`.
- CacheStore.OrganizedCacheManager.SaveMatches: `FixtureRecord` always has a fixture id, both team names and both goals. A fixture without `fixture.id`, `teams` or `goals` makes `save_matches` raise a `KeyError` after the earlier fixtures are already stored (`utils/cache_manager.py:101-108`); that path is not modelled. The same holds for `CacheStore.WriteMatches`.
- FootballApi.SafeConvertStat: a JSON boolean is a Python `int` (`isinstance(True, int)`), so it is kept, as the integer 1 or 0. The model does not keep it distinct from those integers.

## Findings

| source | as written | input that shows it | evidently intended | confidence | as-written member | corrected member |
|---|---|---|---|---|---|---|
| utils/odds_calculator.py:697-699 | same market and event type hit a bare `return`, so the score is `None`; `sum` at line 768 then raises `TypeError` and `calculate_combination_odds` fails | the combination (`over_0_5_goals`, `over_1_5_goals`), both in market `total_goals_over_under` with type GOALS | score 1.0, the top of the documented range 0.0 to 1.0 ("Highly correlated"), giving adjustment 0.3 | not executed | OddsCalculation.OverGoalsPairRaises | OddsCalculation.PatternCorrelation |
