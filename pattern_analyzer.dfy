/**
 * `analyzers/pattern_analyzer.py`: the `PatternAnalyzer` object. Its
 * methods build, step by step, the values `CombinationCounting` and
 * `ResultRanking` define: the active set of a match, the combinations of each
 * size, the global tally of `"|"`-joined keys, and the final results.
 *
 * The thread pool is a sequential loop that takes the sub-batches in an
 * arbitrary order (whichever finishes first); the lock makes each merge into
 * the global tally a single step, and merging is order independent, so the
 * final tally is the same for every order and every split.
 */
module PatternAnalysis {
  import opened Wrappers
  import opened Models
  import opened EventPatterns
  import opened Itertools
  import opened FiniteSums
  import opened CombinationCounting
  import Strings
  import R = ResultRanking
  import ResultsStore

  /** The settings the analyzer reads: `MIN_/MAX_EVENTS_COMBINATION`, `MAX_RESULTS_PER_CATEGORY`, `THREAD_COUNT`. */
  datatype Settings = Settings(
    minEventsCombination: nat,
    maxEventsCombination: nat,
    maxResultsPerCategory: nat,
    threadCount: nat)

  /** `AnalysisConfig`'s defaults for the combination sizes (3 to 5); the other two have no default. */
  function DefaultSettings(maxResultsPerCategory: nat, threadCount: nat): Settings
  {
    Settings(3, 5, maxResultsPerCategory, threadCount)
  }

  // ---------------------------------------------------------------------
  // The organised pattern tables

  /** `defaultdict(list)` filled by appending each element under its key. */
  function GroupBy<T, K(==)>(xs: seq<T>, key: T -> K): map<K, seq<T>>
    decreases |xs|
  {
    if xs == [] then map[]
    else
      var g := GroupBy(xs[..|xs| - 1], key);
      var x := xs[|xs| - 1];
      g[key(x) := Get(g, key(x), []) + [x]]
  }

  function KeyIs<T, K(==)>(key: T -> K, k: K): T -> bool
  {
    (x: T) => key(x) == k
  }

  /** The groups are keyed by the keys that occur, and each holds its elements in order. */
  lemma {:induction false} GroupByContents<T, K>(xs: seq<T>, key: T -> K)
    ensures forall k :: k in GroupBy(xs, key) <==> exists i :: 0 <= i < |xs| && key(xs[i]) == k
    ensures forall k :: k in GroupBy(xs, key) ==> GroupBy(xs, key)[k] == R.Filter(xs, KeyIs(key, k))
    decreases |xs|
  {
    if xs != [] {
      var init := xs[..|xs| - 1];
      var x := xs[|xs| - 1];
      var g := GroupBy(init, key);
      GroupByContents(init, key);
      assert xs == init + [x];
      forall k ensures R.Filter(xs, KeyIs(key, k)) == R.Filter(init, KeyIs(key, k)) + (if key(x) == k then [x] else [])
      {
        R.FilterAppend(init, [x], KeyIs(key, k));
        assert [x][1..] == [];
      }
      forall k ensures k in GroupBy(xs, key) <==> exists i :: 0 <= i < |xs| && key(xs[i]) == k {
        if k in g {
          var i :| 0 <= i < |init| && key(init[i]) == k;
          assert xs[i] == init[i];
        }
        if exists i :: 0 <= i < |xs| && key(xs[i]) == k {
          var i :| 0 <= i < |xs| && key(xs[i]) == k;
          if i < |init| {
            assert init[i] == xs[i];
          }
        }
      }
      var kx := key(x);
      assert KeyIs(key, kx)(x);
      assert GroupBy(xs, key)[kx] == Get(g, kx, []) + [x];
      if kx !in g {
        assert R.Filter(init, KeyIs(key, kx)) == [] by {
          forall i | 0 <= i < |init| ensures !KeyIs(key, kx)(init[i]) {
          }
          FilterNone(init, KeyIs(key, kx));
        }
      } else {
        assert g[kx] == R.Filter(init, KeyIs(key, kx));
      }
      assert GroupBy(xs, key)[kx] == R.Filter(xs, KeyIs(key, kx));
      forall k | k in GroupBy(xs, key) ensures GroupBy(xs, key)[k] == R.Filter(xs, KeyIs(key, k)) {
        if k != kx {
          assert !KeyIs(key, k)(x);
          assert k in g;
        }
      }
    }
  }

  /** `patterns_by_market[event_type][market]`: a group per event type, then per market. */
  function ByMarketTable(pats: seq<EventCondition>): map<EventType, map<string, seq<EventCondition>>>
    decreases |pats|
  {
    if pats == [] then map[]
    else
      var g := ByMarketTable(pats[..|pats| - 1]);
      var p := pats[|pats| - 1];
      var inner := Get(g, p.eventType, map[]);
      g[p.eventType := inner[p.market := Get(inner, p.market, []) + [p]]]
  }

  /** The market table has the event types of the type table, and under each the patterns of that type grouped by market. */
  lemma {:induction false} ByMarketCells(pats: seq<EventCondition>)
    ensures ByMarketTable(pats).Keys == GroupBy(pats, TypeKey).Keys
    ensures forall t :: t in ByMarketTable(pats) ==> ByMarketTable(pats)[t] == GroupBy(GroupBy(pats, TypeKey)[t], MarketKey)
    decreases |pats|
  {
    if pats != [] {
      var init := pats[..|pats| - 1];
      var p := pats[|pats| - 1];
      ByMarketCells(init);
      var t := p.eventType;
      var s := Get(GroupBy(init, TypeKey), t, []);
      assert GroupBy(pats, TypeKey)[t] == s + [p];
      assert (s + [p])[..|s + [p]| - 1] == s;
      assert GroupBy(s + [p], MarketKey) ==
        GroupBy(s, MarketKey)[p.market := Get(GroupBy(s, MarketKey), p.market, []) + [p]];
      if t !in GroupBy(init, TypeKey) {
        assert s == [];
      }
    }
  }

  /** The four tables `_organize_patterns` builds, for the given pattern list. */
  predicate OrganizedAs(pats: seq<EventCondition>,
                        byType: map<EventType, seq<EventCondition>>,
                        byMarket: map<EventType, map<string, seq<EventCondition>>>,
                        names: seq<string>,
                        table: map<string, EventCondition>)
  {
    byType == GroupBy(pats, TypeKey) && byMarket == ByMarketTable(pats) &&
    names == MapSeq(NameOf, pats) && table == NameTable(pats)
  }

  // ---------------------------------------------------------------------
  // The items of the tally

  /** `order` lists each key of the tally exactly once: one possible iteration order of the dictionary. */
  predicate Enumerates(order: seq<string>, keys: set<string>)
  {
    Distinct(order) && (forall i :: 0 <= i < |order| ==> order[i] in keys) && (forall k :: k in keys ==> k in order)
  }

  /** `{tuple(key.split("|")): count for key, count in tally.items()}`, as its list of items in that order. */
  function ItemsOf(tally: map<string, nat>, order: seq<string>): (r: seq<R.Entry>)
    ensures |r| == |order|
    ensures forall i :: 0 <= i < |order| ==> r[i] == (Strings.Split(order[i], '|'), Get(tally, order[i], 0))
  {
    seq(|order|, i requires 0 <= i < |order| => (Strings.Split(order[i], '|'), Get(tally, order[i], 0)))
  }

  /**
   * Distinct keys split into distinct tuples, so the tuple dictionary has one
   * item per key of the tally: no count is lost or overwritten.
   */
  lemma ItemsDistinct(tally: map<string, nat>, order: seq<string>)
    requires Distinct(order)
    ensures Distinct(ItemsOf(tally, order))
    ensures forall i, j :: 0 <= i < j < |order| ==> ItemsOf(tally, order)[i].0 != ItemsOf(tally, order)[j].0
  {
    var items := ItemsOf(tally, order);
    forall i, j | 0 <= i < j < |order| ensures items[i].0 != items[j].0 {
      if items[i].0 == items[j].0 {
        Strings.SplitInjective(order[i], order[j], '|');
      }
    }
  }

  /**
   * The tally only holds combinations that occurred, so no item has count 0:
   * every list of never-occurred combinations the results hold is empty.
   */
  lemma NeverOccurredEmpty(items: seq<R.Entry>, minSize: nat, maxSize: nat, k: nat,
                           table: map<string, EventCondition>, totalMatches: int, strategy: string)
    requires forall i :: 0 <= i < |items| ==> items[i].1 >= 1
    ensures var r := R.FinalResultsOf(items, minSize, maxSize, k, table, totalMatches, strategy);
      r.neverOccurred == [] && r.stats.neverOccurredCount == 0 &&
      forall s :: s in r.organized ==> r.organized[s].neverOccurred == [] && r.organized[s].neverOccurredCount == 0
  {
    forall s: nat ensures R.Filter(R.Filter(items, R.IsOfSize(s)), R.NeverOccurred) == [] {
      NoNeverOfSize(items, s);
    }
    NeverCandidatesEmpty(items, minSize, maxSize + 1, k);
    var never := R.AllNeverCandidates(items, minSize, maxSize + 1, k);
    assert R.ProcessList(R.Take(never, k), table, totalMatches, strategy) == [];
    var organized := R.Organized(items, minSize, maxSize, k, table, totalMatches, strategy);
    forall s | s in organized ensures organized[s].neverOccurred == [] && organized[s].neverOccurredCount == 0 {
      NoNeverOfSize(items, s);
      SizeNeverEmpty(items, s, k, table, totalMatches, strategy);
    }
  }

  lemma NoNeverOfSize(items: seq<R.Entry>, s: nat)
    requires forall i :: 0 <= i < |items| ==> items[i].1 >= 1
    ensures R.Filter(R.Filter(items, R.IsOfSize(s)), R.NeverOccurred) == []
  {
    var sized := R.Filter(items, R.IsOfSize(s));
    R.FilterMembers(items, R.IsOfSize(s));
    forall i | 0 <= i < |sized| ensures !R.NeverOccurred(sized[i]) {
      assert sized[i] in items;
      var j :| 0 <= j < |items| && items[j] == sized[i];
    }
    FilterNone(sized, R.NeverOccurred);
  }

  lemma SizeNeverEmpty(items: seq<R.Entry>, s: nat, k: nat, table: map<string, EventCondition>, totalMatches: int, strategy: string)
    requires R.Filter(R.Filter(items, R.IsOfSize(s)), R.NeverOccurred) == []
    ensures R.SizeResultOf(items, s, k, table, totalMatches, strategy).neverOccurred == []
    ensures R.SizeResultOf(items, s, k, table, totalMatches, strategy).neverOccurredCount == 0
  {
    assert R.ProcessList(R.Take([], k), table, totalMatches, strategy) == [];
  }

  lemma {:induction false} NeverCandidatesEmpty(items: seq<R.Entry>, lo: nat, hi: nat, k: nat)
    requires forall s: nat :: R.Filter(R.Filter(items, R.IsOfSize(s)), R.NeverOccurred) == []
    ensures R.AllNeverCandidates(items, lo, hi, k) == []
    decreases hi
  {
    if hi > lo {
      NeverCandidatesEmpty(items, lo, hi - 1, k);
      assert R.NeverCandidates(items, hi - 1, k) == R.Take(R.Filter(R.Filter(items, R.IsOfSize(hi - 1)), R.NeverOccurred), k);
    }
  }

  /** `for combo_key, count in local.items(): target[combo_key] = target.get(combo_key, 0) + count`. */
  method MergeCounts(target: map<string, nat>, local: map<string, nat>) returns (merged: map<string, nat>)
    ensures merged == AddTally(target, local)
  {
    merged := target;
    var rest := local;
    while rest != map[]
      invariant MergedExcept(target, local, rest, merged)
      decreases |rest.Keys|
    {
      var comboKey :| comboKey in rest;
      var count := rest[comboKey];
      MergeStep(target, local, rest, merged, comboKey);
      merged := merged[comboKey := Get(merged, comboKey, 0) + count];
      rest := rest - {comboKey};
    }
    MergeDone(target, local, merged);
  }

  /** `merged` is `target` plus every count of `local` whose key is no longer in `rest`. */
  ghost predicate MergedExcept(target: map<string, nat>, local: map<string, nat>, rest: map<string, nat>, merged: map<string, nat>)
  {
    (forall k :: k in rest ==> k in local && rest[k] == local[k]) &&
    (forall k :: k in merged <==> k in target || (k in local && k !in rest)) &&
    (forall k :: k in merged ==> merged[k] == Get(target, k, 0) + (if k in rest || k !in local then 0 else local[k]))
  }

  /** Adding the count of one pending key keeps the merge invariant. */
  lemma MergeStep(target: map<string, nat>, local: map<string, nat>, rest: map<string, nat>, merged: map<string, nat>, key: string)
    requires MergedExcept(target, local, rest, merged) && key in rest
    ensures MergedExcept(target, local, rest - {key}, merged[key := Get(merged, key, 0) + rest[key]])
    ensures |(rest - {key}).Keys| < |rest.Keys|
  {
    assert (rest - {key}).Keys == rest.Keys - {key};
  }

  /** With nothing pending, the merge is the pointwise sum. */
  lemma MergeDone(target: map<string, nat>, local: map<string, nat>, merged: map<string, nat>)
    requires MergedExcept(target, local, map[], merged)
    ensures merged == AddTally(target, local)
  {
    AddTallyPointwise(target, local, merged);
  }

  /** Counting one more size appends its keys. */
  lemma KeysOfSizesSnoc(c: Counting, active: seq<string>, lo: nat, size: nat, seen: seq<string>)
    requires lo <= size
    ensures seen + KeysOfSizes(c, active, lo, size + 1) == (seen + KeysOfSizes(c, active, lo, size)) + KeysOfSize(c, active, size)
  {
  }

  /** A map with the keys and values of the pointwise sum is the pointwise sum. */
  lemma AddTallyPointwise(target: map<string, nat>, local: map<string, nat>, merged: map<string, nat>)
    requires forall k :: k in merged <==> k in target || k in local
    requires forall k :: k in merged ==> merged[k] == Get(target, k, 0) + Get(local, k, 0)
    ensures merged == AddTally(target, local)
  {
    var want := AddTally(target, local);
    assert merged.Keys == want.Keys;
    forall k | k in merged ensures merged[k] == want[k] {
    }
  }

  /** `_organize_patterns`: one pass over the patterns fills the four tables. */
  method OrganizePatterns(patterns: seq<EventCondition>)
    returns (patternsByEventType: map<EventType, seq<EventCondition>>,
             patternsByMarket: map<EventType, map<string, seq<EventCondition>>>,
             allPatternNames: seq<string>,
             patternNameToObj: map<string, EventCondition>)
    ensures OrganizedAs(patterns, patternsByEventType, patternsByMarket, allPatternNames, patternNameToObj)
  {
    patternsByEventType := map[];
    patternsByMarket := map[];
    allPatternNames := [];
    patternNameToObj := map[];
    for i := 0 to |patterns|
      invariant OrganizedAs(patterns[..i], patternsByEventType, patternsByMarket, allPatternNames, patternNameToObj)
    {
      var pattern := patterns[i];
      assert patterns[..i + 1][..i] == patterns[..i];
      patternsByEventType := patternsByEventType[pattern.eventType := Get(patternsByEventType, pattern.eventType, []) + [pattern]];
      var inner := Get(patternsByMarket, pattern.eventType, map[]);
      patternsByMarket := patternsByMarket[pattern.eventType := inner[pattern.market := Get(inner, pattern.market, []) + [pattern]]];
      allPatternNames := allPatternNames + [pattern.name];
      patternNameToObj := patternNameToObj[pattern.name := pattern];
    }
    assert patterns[..|patterns|] == patterns;
  }

  /** The product loop of the grouped strategies: every product of every combination of groups, in order. */
  method ExpandGroups<K>(groups: map<K, seq<string>>, combos: seq<seq<K>>) returns (validCombinations: seq<seq<string>>)
    ensures validCombinations == Flatten(ProductsOf(groups, combos))
  {
    validCombinations := [];
    for j := 0 to |combos|
      invariant validCombinations == Flatten(ProductsOf(groups, combos[..j]))
    {
      var patternChoices := Choices(groups, combos[j]);
      var products := Product(patternChoices);
      ProductsOfSnoc(groups, combos, j);
      validCombinations := AppendEach(validCombinations, products);
    }
    assert combos[..|combos|] == combos;
  }

  /** The loop of `_get_occurring_patterns_for_match` over a pattern list. */
  method FiringNames(patterns: seq<EventCondition>, m: Match) returns (occurring: seq<string>)
    ensures occurring == Firing(patterns, m)
  {
    occurring := [];
    var i := 0;
    while i < |patterns|
      invariant 0 <= i <= |patterns|
      invariant occurring + Firing(patterns[i..], m) == Firing(patterns, m)
      decreases |patterns| - i
    {
      FiringFrom(patterns, i, m);
      // a condition that raises (None) is skipped like one that is false
      if Holds(patterns[i].condition, m) == Some(true) {
        occurring := occurring + [patterns[i].name];
      }
      i := i + 1;
    }
  }

  /** `for p in products: valid.append(p)`. */
  method AppendEach(valid: seq<seq<string>>, products: seq<seq<string>>) returns (r: seq<seq<string>>)
    ensures r == valid + products
  {
    r := valid;
    for q := 0 to |products|
      invariant r == valid + products[..q]
    {
      assert products[..q + 1] == products[..q] + [products[q]];
      r := r + [products[q]];
    }
    assert products[..|products|] == products;
  }

  /** One more combination of groups appends its products. */
  lemma ProductsOfSnoc<K>(groups: map<K, seq<string>>, combos: seq<seq<K>>, j: nat)
    requires j < |combos|
    ensures Flatten(ProductsOf(groups, combos[..j + 1])) ==
      Flatten(ProductsOf(groups, combos[..j])) + Product(Choices(groups, combos[j]))
  {
    var products := Product(Choices(groups, combos[j]));
    assert ProductsOf(groups, combos[..j + 1]) == ProductsOf(groups, combos[..j]) + [products];
    FlattenAppend(ProductsOf(groups, combos[..j]), [products]);
    assert Flatten([products]) == products + Flatten([products][1..]);
    assert [products][1..] == [];
  }

  /** Before any worker runs, the sub-batches hold all the keys of the batch. */
  lemma PendingStart(c: Counting, matches: seq<Match>, subBatches: seq<seq<Match>>)
    requires Flatten(subBatches) == matches
    ensures multiset{} + multiset(ChunkKeys(c, subBatches)) == multiset(BatchKeys(c, matches))
  {
    ChunkKeysFlatten(c, subBatches);
  }

  /** A finished worker moves its sub-batch's keys from pending to done. */
  lemma PendingStep(c: Counting, done: multiset<string>, pending: seq<seq<Match>>, j: nat, total: multiset<string>)
    requires j < |pending|
    requires done + multiset(ChunkKeys(c, pending)) == total
    ensures (done + multiset(BatchKeys(c, pending[j]))) + multiset(ChunkKeys(c, pending[..j] + pending[j + 1..])) == total
  {
    ChunkKeysRemove(c, pending, j);
  }

  /** An empty sub-batch is skipped, which is merging no keys. */
  lemma EmptySubBatch(c: Counting, g: map<string, nat>, done: multiset<string>)
    ensures AddTally(g, TallyOf(done)) == AddTally(g, TallyOf(done + multiset(BatchKeys(c, []))))
  {
    assert BatchKeys(c, []) == [];
    assert done + multiset{} == done;
  }

  /** When nothing is pending, every key is done. */
  lemma PendingEnd(c: Counting, done: multiset<string>, total: multiset<string>)
    requires done + multiset(ChunkKeys(c, [])) == total
    ensures done == total
  {
    assert ChunkKeys(c, []) == [];
  }

  /** `{tuple(k.split("|")): v for k, v in tally.items()}`: the items in the dictionary's iteration order, which the model leaves open. */
  method TupleItems(tally: map<string, nat>) returns (items: seq<R.Entry>, ghost order: seq<string>)
    ensures Enumerates(order, tally.Keys)
    ensures items == ItemsOf(tally, order)
  {
    items := [];
    order := [];
    var rest := tally;
    while rest != map[]
      invariant forall k :: k in rest ==> k in tally && rest[k] == tally[k]
      invariant Distinct(order)
      invariant forall i :: 0 <= i < |order| ==> order[i] in tally && order[i] !in rest
      invariant forall k :: k in tally ==> k in rest || k in order
      invariant items == ItemsOf(tally, order)
      decreases |rest|
    {
      var comboKey :| comboKey in rest;
      var comboTuple := Strings.Split(comboKey, '|');
      items := items + [(comboTuple, rest[comboKey])];
      order := order + [comboKey];
      rest := rest - {comboKey};
    }
  }

  /** Counting the next batch extends the counted prefix. */
  lemma BatchStep(c: Counting, g: map<string, nat>, matches: seq<Match>, lo: nat, hi: nat)
    requires lo <= hi <= |matches|
    ensures AddTally(AddTally(g, TallyOf(multiset(BatchKeys(c, matches[..lo])))), TallyOf(multiset(BatchKeys(c, matches[lo..hi])))) ==
      AddTally(g, TallyOf(multiset(BatchKeys(c, matches[..hi]))))
  {
    BatchTallySplit(c, g, matches[..lo], matches[lo..hi]);
    assert matches[..lo] + matches[lo..hi] == matches[..hi];
  }

  /** `combinations_by_size`: each size present holds, in order, the entries of that size, and no size is present without one. */
  ghost predicate BySize(items: seq<R.Entry>, bySize: map<nat, seq<R.Entry>>)
  {
    (forall s: nat :: s in bySize ==> bySize[s] == R.Filter(items, R.IsOfSize(s)) && bySize[s] != []) &&
    (forall s: nat :: s !in bySize ==> R.Filter(items, R.IsOfSize(s)) == [])
  }

  /** The grouping loop of `_prepare_final_results_lazy`. */
  method GroupBySize(combinations: seq<R.Entry>) returns (bySize: map<nat, seq<R.Entry>>)
    ensures BySize(combinations, bySize)
  {
    bySize := map[];
    for i := 0 to |combinations|
      invariant BySize(combinations[..i], bySize)
    {
      var (combo, count) := combinations[i];
      var single: seq<R.Entry> := [combinations[i]];
      assert combinations[..i + 1] == combinations[..i] + single;
      forall s: nat ensures R.Filter(combinations[..i + 1], R.IsOfSize(s)) ==
        R.Filter(combinations[..i], R.IsOfSize(s)) + (if s == |combo| then single else [])
      {
        R.FilterAppend(combinations[..i], single, R.IsOfSize(s));
        assert single[1..] == [];
      }
      bySize := bySize[|combo| := Get(bySize, |combo|, []) + [(combo, count)]];
    }
    assert combinations[..|combinations|] == combinations;
  }

  /** `{s: f(s) for s in range(lo, hi)}`, built one key at a time. */
  ghost function UpTo<V>(f: nat -> V, lo: nat, hi: nat): map<nat, V>
    decreases hi
  {
    if hi <= lo then map[] else UpTo(f, lo, hi - 1)[hi - 1 := f(hi - 1)]
  }

  /** The keys are exactly lo, ..., hi - 1, each mapped by f. */
  lemma {:induction false} UpToAt<V>(f: nat -> V, lo: nat, hi: nat, s: nat)
    ensures s in UpTo(f, lo, hi) <==> lo <= s < hi
    ensures s in UpTo(f, lo, hi) ==> UpTo(f, lo, hi)[s] == f(s)
    decreases hi
  {
    if hi > lo {
      UpToAt(f, lo, hi - 1, s);
    }
  }

  /** The blocks of the sizes lo, ..., hi - 1. */
  ghost function OrganizedUpTo(items: seq<R.Entry>, lo: nat, hi: nat, k: nat, table: map<string, EventCondition>, totalMatches: int, strategy: string): map<nat, R.SizeResults>
  {
    UpTo((s: nat) => R.SizeResultOf(items, s, k, table, totalMatches, strategy), lo, hi)
  }

  /** One more size adds its block and appends its candidates. */
  lemma SizeStep(items: seq<R.Entry>, lo: nat, size: nat, k: nat, table: map<string, EventCondition>, totalMatches: int, strategy: string)
    requires lo <= size
    ensures OrganizedUpTo(items, lo, size + 1, k, table, totalMatches, strategy) ==
      OrganizedUpTo(items, lo, size, k, table, totalMatches, strategy)[size := R.SizeResultOf(items, size, k, table, totalMatches, strategy)]
    ensures R.AllOccurredCandidates(items, lo, size + 1, k) == R.AllOccurredCandidates(items, lo, size, k) + R.OccurredCandidates(items, size, k)
    ensures R.AllNeverCandidates(items, lo, size + 1, k) == R.AllNeverCandidates(items, lo, size, k) + R.NeverCandidates(items, size, k)
  {
  }

  /** The state of the sizes loop once the sizes lo, ..., size - 1 are done. */
  ghost predicate SizesDone(items: seq<R.Entry>, lo: nat, size: nat, k: nat, table: map<string, EventCondition>, totalMatches: int, strategy: string,
                            organized: map<nat, R.SizeResults>, occurred: seq<R.Entry>, never: seq<R.Entry>)
  {
    && organized == OrganizedUpTo(items, lo, size, k, table, totalMatches, strategy)
    && occurred == R.AllOccurredCandidates(items, lo, size, k)
    && never == R.AllNeverCandidates(items, lo, size, k)
  }

  /** The state of the sizes loop after one more size. */
  lemma SizeAppend(items: seq<R.Entry>, lo: nat, size: nat, k: nat, table: map<string, EventCondition>, totalMatches: int, strategy: string,
                   organized: map<nat, R.SizeResults>, occurred: seq<R.Entry>, never: seq<R.Entry>,
                   block: R.SizeResults, occurredHere: seq<R.Entry>, neverHere: seq<R.Entry>)
    requires lo <= size
    requires SizesDone(items, lo, size, k, table, totalMatches, strategy, organized, occurred, never)
    requires block == R.SizeResultOf(items, size, k, table, totalMatches, strategy)
    requires occurredHere == R.OccurredCandidates(items, size, k) && neverHere == R.NeverCandidates(items, size, k)
    ensures SizesDone(items, lo, size + 1, k, table, totalMatches, strategy, organized[size := block], occurred + occurredHere, never + neverHere)
  {
    SizeStep(items, lo, size, k, table, totalMatches, strategy);
  }

  /** A size with no entries gets the empty block and adds no candidates. */
  lemma AbsentSize(items: seq<R.Entry>, size: nat, k: nat, table: map<string, EventCondition>, totalMatches: int, strategy: string)
    requires R.Filter(items, R.IsOfSize(size)) == []
    ensures R.SizeResultOf(items, size, k, table, totalMatches, strategy) == R.EmptySizeResults
    ensures R.OccurredCandidates(items, size, k) == [] && R.NeverCandidates(items, size, k) == []
  {
  }

  /** A size with entries gets the block of those entries. */
  lemma PresentSize(items: seq<R.Entry>, size: nat, sized: seq<R.Entry>, k: nat, table: map<string, EventCondition>, totalMatches: int, strategy: string)
    requires sized == R.Filter(items, R.IsOfSize(size)) && sized != []
    ensures R.SizeResultOf(items, size, k, table, totalMatches, strategy) == R.SizeBlockOf(sized, k, table, totalMatches, strategy)
    ensures R.OccurredCandidates(items, size, k) == R.DisplayCandidates(R.Filter(sized, R.Occurred), k)
    ensures R.NeverCandidates(items, size, k) == R.Take(R.Filter(sized, R.NeverOccurred), k)
  {
  }

  /** After the last size the blocks are `organized_results` and the candidate lists are complete. */
  lemma SizesEnd(items: seq<R.Entry>, minSize: nat, maxSize: nat, size: nat, k: nat, table: map<string, EventCondition>, totalMatches: int, strategy: string,
                 organized: map<nat, R.SizeResults>, occurred: seq<R.Entry>, never: seq<R.Entry>)
    requires size == if maxSize + 1 < minSize then minSize else maxSize + 1
    requires SizesDone(items, minSize, size, k, table, totalMatches, strategy, organized, occurred, never)
    ensures organized == R.Organized(items, minSize, maxSize, k, table, totalMatches, strategy)
    ensures occurred == R.AllOccurredCandidates(items, minSize, maxSize + 1, k)
    ensures never == R.AllNeverCandidates(items, minSize, maxSize + 1, k)
  {
    var r := R.Organized(items, minSize, maxSize, k, table, totalMatches, strategy);
    forall s: nat
      ensures s in organized <==> s in r
      ensures s in organized ==> organized[s] == r[s]
    {
      UpToAt((s: nat) => R.SizeResultOf(items, s, k, table, totalMatches, strategy), minSize, size, s);
    }
    assert organized.Keys == r.Keys;
    if maxSize + 1 < minSize {
      assert occurred == R.ConcatRange(R.CandidatesBySize(items, k), minSize, size) == [];
      assert R.AllOccurredCandidates(items, minSize, maxSize + 1, k) == R.ConcatRange(R.CandidatesBySize(items, k), minSize, maxSize + 1) == [];
    }
  }

  // ---------------------------------------------------------------------
  // The analyzer

  class PatternAnalyzer {
    const config: Settings
    const allPatterns: seq<EventCondition>
    const resultsManager: ResultsStore.ResultsManager
    const combinationStrategy: Strategy
    const patternsByEventType: map<EventType, seq<EventCondition>>
    const patternsByMarket: map<EventType, map<string, seq<EventCondition>>>
    const allPatternNames: seq<string>
    const patternNameToObj: map<string, EventCondition>
    var globalCombinations: map<string, nat>

    /** What the counting of one match depends on. */
    function Context(): Counting
    {
      Counting(allPatterns, patternNameToObj, combinationStrategy, config.minEventsCombination, config.maxEventsCombination)
    }

    ghost predicate PatternsOrganized()
    {
      OrganizedAs(allPatterns, patternsByEventType, patternsByMarket, allPatternNames, patternNameToObj)
    }

    /** A fresh analyzer over the catalogue, with the `by_event_type` strategy and an empty tally. */
    constructor(config: Settings)
      ensures this.config == config && allPatterns == Catalogue
      ensures combinationStrategy == ByEventType && globalCombinations == map[]
      ensures PatternsOrganized()
      ensures fresh(resultsManager) && resultsManager.leagues == map[] && resultsManager.Valid()
    {
      this.config := config;
      allPatterns := Catalogue;
      resultsManager := new ResultsStore.ResultsManager();
      combinationStrategy := ByEventType;
      globalCombinations := map[];
      var byType, byMarket, names, nameToObj := OrganizePatterns(Catalogue);
      patternsByEventType := byType;
      patternsByMarket := byMarket;
      allPatternNames := names;
      patternNameToObj := nameToObj;
    }

    /** `_get_occurring_patterns_for_match`: the names whose condition holds, in catalogue order. */
    method GetOccurringPatternsForMatch(m: Match) returns (occurring: seq<string>)
      ensures occurring == Firing(allPatterns, m)
    {
      occurring := FiringNames(allPatterns, m);
    }

    /**
     * `_generate_combinations_by_event_type_from_occurring` and
     * `_generate_combinations_by_market_from_occurring`, for key = event type
     * resp. market: group the occurring names, choose `size` groups, and take
     * every product of their name lists.
     */
    method GenerateGroupedCombinations<K(==)>(occurring: seq<string>, size: nat, key: EventCondition -> K)
      returns (validCombinations: seq<seq<string>>)
      ensures validCombinations == GroupedCombinations(occurring, size, patternNameToObj, key)
    {
      var groups, available := GroupOccurring(occurring, key);
      if size > |available| {
        return [];
      }
      validCombinations := ExpandGroups(groups, Combinations(available, size));
    }

    /** The grouping loop: each known name joins the list of its key; `available` is the key order of the dictionary. */
    method GroupOccurring<K(==)>(occurring: seq<string>, key: EventCondition -> K)
      returns (groups: map<K, seq<string>>, available: seq<K>)
      ensures groups == Groups(occurring, patternNameToObj, key)
      ensures available == GroupKeys(occurring, patternNameToObj, key)
    {
      groups := map[];
      available := [];
      for i := 0 to |occurring|
        invariant groups == Groups(occurring[..i], patternNameToObj, key)
        invariant available == GroupKeys(occurring[..i], patternNameToObj, key)
      {
        assert occurring[..i + 1][..i] == occurring[..i];
        var name := occurring[i];
        if name in patternNameToObj {
          var k := key(patternNameToObj[name]);
          GroupsContents(occurring[..i], patternNameToObj, key);
          if k !in groups {
            available := available + [k];
          }
          groups := groups[k := Get(groups, k, []) + [name]];
        }
      }
      assert occurring[..|occurring|] == occurring;
    }

    /** `_generate_full_combinations_from_occurring`. */
    method GenerateFullCombinations(occurring: seq<string>, size: nat) returns (validCombinations: seq<seq<string>>)
      ensures validCombinations == FullCombinations(occurring, size)
    {
      if size > |occurring| {
        return [];
      }
      validCombinations := Combinations(occurring, size);
    }

    /** `_generate_valid_combinations`: dispatch on the strategy. */
    method GenerateValidCombinations(occurring: seq<string>, size: nat) returns (validCombinations: seq<seq<string>>)
      ensures validCombinations == ValidCombinations(combinationStrategy, occurring, size, patternNameToObj)
    {
      match combinationStrategy
      case ByEventType =>
        validCombinations := GenerateGroupedCombinations(occurring, size, TypeKey);
      case ByMarket =>
        validCombinations := GenerateGroupedCombinations(occurring, size, MarketKey);
      case Full =>
        validCombinations := GenerateFullCombinations(occurring, size);
    }

    /**
     * `_analyze_match_batch_global`: count the keys of the batch in a local
     * dictionary, then add each local count into the global tally.
     */
    method AnalyzeMatchBatchGlobal(matches: seq<Match>)
      modifies this`globalCombinations
      ensures globalCombinations == AddTally(old(globalCombinations), TallyOf(multiset(BatchKeys(Context(), matches))))
    {
      var localBatch := CountBatch(matches);
      MergeIntoGlobal(localBatch);
    }

    /** The counting loop of `_analyze_match_batch_global`: the local dictionary is the tally of the batch's keys. */
    method CountBatch(matches: seq<Match>) returns (localBatch: map<string, nat>)
      ensures localBatch == TallyOf(multiset(BatchKeys(Context(), matches)))
    {
      ghost var ctx := Context();
      localBatch := map[];
      for i := 0 to |matches|
        invariant localBatch == Tally(BatchKeys(ctx, matches[..i]))
      {
        assert matches[..i + 1] == matches[..i] + [matches[i]];
        BatchKeysSnoc(ctx, matches[..i], matches[i]);
        localBatch := CountMatch(localBatch, matches[i], BatchKeys(ctx, matches[..i]));
      }
      assert matches[..|matches|] == matches;
      TallyIsTallyOf(BatchKeys(ctx, matches));
    }

    /** One match of the counting loop: skip it when no pattern fired, else count every size with enough active names. */
    method CountMatch(localBatch: map<string, nat>, m: Match, ghost seen: seq<string>) returns (counted: map<string, nat>)
      requires localBatch == Tally(seen)
      ensures counted == Tally(seen + MatchKeys(Context(), m))
    {
      var occurring := GetOccurringPatternsForMatch(m);
      if occurring == [] {
        assert seen + MatchKeys(Context(), m) == seen;
        counted := localBatch;
      } else {
        counted := CountSizes(localBatch, occurring, seen);
      }
    }

    /** The sizes loop of one match: `for size in range(min, max + 1)`. */
    method CountSizes(localBatch: map<string, nat>, occurring: seq<string>, ghost seen: seq<string>) returns (counted: map<string, nat>)
      requires localBatch == Tally(seen)
      ensures counted == Tally(seen + KeysOfSizes(Context(), occurring, config.minEventsCombination, config.maxEventsCombination + 1))
    {
      ghost var ctx := Context();
      var minSize := config.minEventsCombination;
      var maxSize := config.maxEventsCombination;
      counted := localBatch;
      var hi: nat := if maxSize + 1 < minSize then minSize else maxSize + 1;
      ghost var acc := seen;
      for size := minSize to hi
        invariant acc == seen + KeysOfSizes(ctx, occurring, minSize, size)
        invariant counted == Tally(acc)
      {
        counted := CountSize(counted, occurring, size, acc);
        KeysOfSizesSnoc(ctx, occurring, minSize, size, seen);
        acc := acc + KeysOfSize(ctx, occurring, size);
      }
      assert KeysOfSizes(ctx, occurring, minSize, hi) == KeysOfSizes(ctx, occurring, minSize, maxSize + 1);
    }

    /** One size of the counting loop: nothing when fewer names are active than the size. */
    method CountSize(localBatch: map<string, nat>, occurring: seq<string>, size: nat, ghost seen: seq<string>)
      returns (counted: map<string, nat>)
      requires localBatch == Tally(seen)
      ensures counted == Tally(seen + KeysOfSize(Context(), occurring, size))
    {
      counted := localBatch;
      if |occurring| >= size {
        var combos := GenerateValidCombinations(occurring, size);
        counted := CountCombinations(counted, combos, seen);
      } else {
        assert seen + [] == seen;
      }
    }

    /** `local_batch_dict[combo_key] = local_batch_dict.get(combo_key, 0) + 1` for each combination. */
    method CountCombinations(localBatch: map<string, nat>, combos: seq<seq<string>>, ghost seen: seq<string>)
      returns (counted: map<string, nat>)
      requires localBatch == Tally(seen)
      ensures counted == Tally(seen + JoinKeys(combos))
    {
      counted := localBatch;
      ghost var acc := seen;
      for j := 0 to |combos|
        invariant acc == seen + JoinKeys(combos[..j])
        invariant counted == Tally(acc)
      {
        var comboKey := Strings.Join(combos[j], '|');
        TallySnoc(acc, comboKey);
        counted := counted[comboKey := Get(counted, comboKey, 0) + 1];
        JoinKeysSnoc(combos, j);
        acc := acc + [comboKey];
      }
      assert combos[..|combos|] == combos;
    }

    /** The locked merge of `_analyze_match_batch_global`: add every local count into the global tally. */
    method MergeIntoGlobal(localBatch: map<string, nat>)
      modifies this`globalCombinations
      ensures globalCombinations == AddTally(old(globalCombinations), localBatch)
    {
      globalCombinations := MergeCounts(globalCombinations, localBatch);
    }

    /**
     * `_process_batch_with_global_dict`: cut the batch into slices of width
     * `max(1, n // thread_count)` and count every non-empty slice, in whatever
     * order the workers finish.
     */
    method ProcessBatchWithGlobalDict(matches: seq<Match>)
      requires config.threadCount >= 1
      modifies this`globalCombinations
      ensures globalCombinations == AddTally(old(globalCombinations), TallyOf(multiset(BatchKeys(Context(), matches))))
    {
      ghost var ctx := Context();
      var subBatches := Chunks(matches, Width(|matches|, config.threadCount));
      ghost var total := multiset(BatchKeys(ctx, matches));
      ghost var g0 := globalCombinations;
      ghost var done: multiset<string> := multiset{};
      ChunksFlatten(matches, Width(|matches|, config.threadCount));
      PendingStart(ctx, matches, subBatches);
      var pending := subBatches;
      while pending != []
        invariant done + multiset(ChunkKeys(ctx, pending)) == total
        invariant globalCombinations == AddTally(g0, TallyOf(done))
        decreases |pending|
      {
        var j :| 0 <= j < |pending|;
        var subBatch := pending[j];
        ghost var here := multiset(BatchKeys(ctx, subBatch));
        PendingStep(ctx, done, pending, j, total);
        MergeTwice(g0, done, here);
        if subBatch != [] {
          AnalyzeMatchBatchGlobal(subBatch);
        } else {
          EmptySubBatch(ctx, g0, done);
        }
        done := done + here;
        pending := pending[..j] + pending[j + 1..];
      }
      PendingEnd(ctx, done, total);
      assert globalCombinations == AddTally(g0, TallyOf(total));
    }

    /**
     * `_analyze_matches_optimized`: register the league season, count the
     * matches in slices of width `max(1, n // (thread_count * 2))`, turn the
     * tally's keys back into tuples (in some iteration order `order` of the
     * tally), rank them and store the results.
     */
    method AnalyzeMatchesOptimized(matches: seq<Match>, leagueId: int, season: int, leagueName: string)
      returns (finalResults: R.FinalResults, ghost order: seq<string>)
      requires config.threadCount >= 1
      modifies this`globalCombinations, resultsManager
      ensures globalCombinations == AddTally(old(globalCombinations), TallyOf(multiset(BatchKeys(Context(), matches))))
      ensures Enumerates(order, globalCombinations.Keys)
      ensures finalResults == R.FinalResultsOf(ItemsOf(globalCombinations, order),
        config.minEventsCombination, config.maxEventsCombination, config.maxResultsPerCategory,
        patternNameToObj, |matches|, combinationStrategy.Value())
      ensures resultsManager.leagues == ResultsStore.UpdateSeason(
        ResultsStore.Initialized(old(resultsManager.leagues), leagueId, leagueName, season, |matches|),
        leagueId, season, ResultsStore.WithAnalysis(finalResults))
    {
      var totalMatches := |matches|;
      resultsManager.InitializeLeagueSeason(leagueId, leagueName, season, totalMatches);
      CountInBatches(matches);
      var validCombinationsCount := SumOfValues(globalCombinations);
      var items;
      items, order := TupleItems(globalCombinations);
      finalResults := PrepareFinalResultsLazy(items, totalMatches, validCombinationsCount);
      resultsManager.SaveAnalysisResults(leagueId, season, finalResults);
    }

    /** The batch loop of `_analyze_matches_optimized`: batches of width `max(1, n // (thread_count * 2))`, in order. */
    method CountInBatches(matches: seq<Match>)
      requires config.threadCount >= 1
      modifies this`globalCombinations
      ensures globalCombinations == AddTally(old(globalCombinations), TallyOf(multiset(BatchKeys(Context(), matches))))
    {
      var totalMatches := |matches|;
      ghost var ctx := Context();
      var batchSize := Width(totalMatches, config.threadCount * 2);
      ghost var g0 := globalCombinations;
      var batchStart := 0;
      while batchStart < totalMatches
        invariant batchStart <= totalMatches
        invariant globalCombinations == AddTally(g0, TallyOf(multiset(BatchKeys(ctx, matches[..batchStart]))))
        decreases totalMatches - batchStart
      {
        var batchEnd := if batchStart + batchSize <= totalMatches then batchStart + batchSize else totalMatches;
        var matchBatch := matches[batchStart..batchEnd];
        ProcessBatchWithGlobalDict(matchBatch);
        BatchStep(ctx, g0, matches, batchStart, batchEnd);
        batchStart := batchEnd;
      }
      assert matches[..batchStart] == matches;
    }

    /** `_process_combination_list`: one result item per entry, with the details of its known patterns. */
    method ProcessCombinationList(combinations: seq<R.Entry>, totalMatches: int) returns (processed: seq<R.ResultItem>)
      ensures processed == R.ProcessList(combinations, patternNameToObj, totalMatches, combinationStrategy.Value())
    {
      processed := [];
      for i := 0 to |combinations|
        invariant processed == R.ProcessList(combinations[..i], patternNameToObj, totalMatches, combinationStrategy.Value())
      {
        var (combo, count) := combinations[i];
        var patternDetails := PatternDetails(combo);
        var percentage := if totalMatches > 0 then (count as real / totalMatches as real) * 100.0 else 0.0;
        var item := R.ResultItem(patternDetails, |combo|, count, percentage, combinationStrategy.Value());
        assert item == R.ProcessEntry(combinations[i], patternNameToObj, totalMatches, combinationStrategy.Value());
        R.ProcessListSnoc(combinations, i, patternNameToObj, totalMatches, combinationStrategy.Value());
        processed := processed + [item];
      }
      assert combinations[..|combinations|] == combinations;
    }

    /** The details of the names of one combination that are known patterns, in order. */
    method PatternDetails(combo: seq<string>) returns (patternDetails: seq<R.PatternDetail>)
      ensures patternDetails == R.Details(combo, patternNameToObj)
    {
      patternDetails := [];
      for j := 0 to |combo|
        invariant patternDetails == R.Details(combo[..j], patternNameToObj)
      {
        var name := combo[j];
        R.DetailsAppend(combo[..j], [name], patternNameToObj);
        assert combo[..j + 1] == combo[..j] + [name];
        if name in patternNameToObj {
          var pattern := patternNameToObj[name];
          patternDetails := patternDetails + [R.PatternDetail(pattern.name, pattern.description, pattern.eventType.Value(), pattern.market)];
        }
      }
      assert combo[..|combo|] == combo;
    }

    /**
     * `_prepare_final_results_lazy`: group the items by size, build the block
     * of each size from its display candidates, then the overall lists and the
     * statistics. The valid-combinations count is passed but not used.
     */
    method PrepareFinalResultsLazy(combinations: seq<R.Entry>, totalMatches: int, validCombinationsCount: nat)
      returns (finalResults: R.FinalResults)
      ensures finalResults == R.FinalResultsOf(combinations, config.minEventsCombination, config.maxEventsCombination,
        config.maxResultsPerCategory, patternNameToObj, totalMatches, combinationStrategy.Value())
    {
      var k := config.maxResultsPerCategory;
      var bySize := GroupBySize(combinations);
      var organizedResults, allOccurredCandidates, allNeverOccurredCandidates := OrganizeSizes(combinations, bySize, totalMatches);
      var stats := R.StatsFromRaw(allOccurredCandidates, allNeverOccurredCandidates);
      var overallOccurred := ProcessCombinationList(R.DisplayCandidates(allOccurredCandidates, 2 * k), totalMatches);
      var overallNeverOccurred := ProcessCombinationList(R.Take(allNeverOccurredCandidates, k), totalMatches);
      finalResults := R.FinalResults(
        organizedResults,
        R.Take(overallNeverOccurred, k),
        R.Take(overallOccurred, k),
        R.PyTail(overallOccurred, k),
        stats);
    }

    /** The sizes loop of `_prepare_final_results_lazy`: one block per size, and the candidates of every size in turn. */
    method OrganizeSizes(combinations: seq<R.Entry>, bySize: map<nat, seq<R.Entry>>, totalMatches: int)
      returns (organizedResults: map<nat, R.SizeResults>, allOccurredCandidates: seq<R.Entry>, allNeverOccurredCandidates: seq<R.Entry>)
      requires BySize(combinations, bySize)
      ensures organizedResults == R.Organized(combinations, config.minEventsCombination, config.maxEventsCombination,
        config.maxResultsPerCategory, patternNameToObj, totalMatches, combinationStrategy.Value())
      ensures allOccurredCandidates == R.AllOccurredCandidates(combinations, config.minEventsCombination,
        config.maxEventsCombination + 1, config.maxResultsPerCategory)
      ensures allNeverOccurredCandidates == R.AllNeverCandidates(combinations, config.minEventsCombination,
        config.maxEventsCombination + 1, config.maxResultsPerCategory)
    {
      var k := config.maxResultsPerCategory;
      var strategy := combinationStrategy.Value();
      var table := patternNameToObj;
      var minSize := config.minEventsCombination;
      var maxSize := config.maxEventsCombination;
      organizedResults := map[];
      allOccurredCandidates := [];
      allNeverOccurredCandidates := [];
      var hi: nat := if maxSize + 1 < minSize then minSize else maxSize + 1;
      var size := minSize;
      while size < hi
        invariant minSize <= size <= hi
        invariant SizesDone(combinations, minSize, size, k, table, totalMatches, strategy,
          organizedResults, allOccurredCandidates, allNeverOccurredCandidates)
        decreases hi - size
      {
        organizedResults, allOccurredCandidates, allNeverOccurredCandidates, size :=
          SizeTurn(combinations, bySize, size, totalMatches, organizedResults, allOccurredCandidates, allNeverOccurredCandidates);
      }
      SizesEnd(combinations, minSize, maxSize, size, k, table, totalMatches, strategy,
        organizedResults, allOccurredCandidates, allNeverOccurredCandidates);
    }

    /** One turn of the sizes loop: the block of `size` goes in, its candidates are appended, and the loop moves to the next size. */
    method SizeTurn(combinations: seq<R.Entry>, bySize: map<nat, seq<R.Entry>>, size: nat, totalMatches: int,
                    organized: map<nat, R.SizeResults>, occurred: seq<R.Entry>, never: seq<R.Entry>)
      returns (organized': map<nat, R.SizeResults>, occurred': seq<R.Entry>, never': seq<R.Entry>, next: nat)
      requires BySize(combinations, bySize) && config.minEventsCombination <= size
      requires SizesDone(combinations, config.minEventsCombination, size, config.maxResultsPerCategory, patternNameToObj, totalMatches,
        combinationStrategy.Value(), organized, occurred, never)
      ensures next == size + 1
      ensures SizesDone(combinations, config.minEventsCombination, next, config.maxResultsPerCategory, patternNameToObj, totalMatches,
        combinationStrategy.Value(), organized', occurred', never')
    {
      var block, occurredCandidates, neverOccurredCandidates := SizeEntry(combinations, bySize, size, totalMatches);
      SizeAppend(combinations, config.minEventsCombination, size, config.maxResultsPerCategory, patternNameToObj, totalMatches,
        combinationStrategy.Value(), organized, occurred, never, block, occurredCandidates, neverOccurredCandidates);
      organized' := organized[size := block];
      occurred' := occurred + occurredCandidates;
      never' := never + neverOccurredCandidates;
      next := size + 1;
    }

    /** One turn of the sizes loop: the empty block for a size with no entries, otherwise the block of its entries. */
    method SizeEntry(combinations: seq<R.Entry>, bySize: map<nat, seq<R.Entry>>, size: nat, totalMatches: int)
      returns (block: R.SizeResults, occurredCandidates: seq<R.Entry>, neverOccurredCandidates: seq<R.Entry>)
      requires BySize(combinations, bySize)
      ensures block == R.SizeResultOf(combinations, size, config.maxResultsPerCategory, patternNameToObj, totalMatches, combinationStrategy.Value())
      ensures occurredCandidates == R.OccurredCandidates(combinations, size, config.maxResultsPerCategory)
      ensures neverOccurredCandidates == R.NeverCandidates(combinations, size, config.maxResultsPerCategory)
    {
      var k := config.maxResultsPerCategory;
      var strategy := combinationStrategy.Value();
      if size !in bySize {
        AbsentSize(combinations, size, k, patternNameToObj, totalMatches, strategy);
        block, occurredCandidates, neverOccurredCandidates := R.EmptySizeResults, [], [];
      } else {
        var sizeCombinations := bySize[size];
        PresentSize(combinations, size, sizeCombinations, k, patternNameToObj, totalMatches, strategy);
        block, occurredCandidates, neverOccurredCandidates := SizeBlock(sizeCombinations, totalMatches);
      }
    }

    /** The block of one size that has entries, and its display candidates. */
    method SizeBlock(sizeCombinations: seq<R.Entry>, totalMatches: int)
      returns (block: R.SizeResults, occurredCandidates: seq<R.Entry>, neverOccurredCandidates: seq<R.Entry>)
      ensures block == R.SizeBlockOf(sizeCombinations, config.maxResultsPerCategory, patternNameToObj, totalMatches, combinationStrategy.Value())
      ensures occurredCandidates == R.DisplayCandidates(R.Filter(sizeCombinations, R.Occurred), config.maxResultsPerCategory)
      ensures neverOccurredCandidates == R.Take(R.Filter(sizeCombinations, R.NeverOccurred), config.maxResultsPerCategory)
    {
      var k := config.maxResultsPerCategory;
      var occurredCombos := R.Filter(sizeCombinations, R.Occurred);
      var neverOccurredCombos := R.Filter(sizeCombinations, R.NeverOccurred);
      occurredCandidates := R.DisplayCandidates(occurredCombos, k);
      neverOccurredCandidates := R.Take(neverOccurredCombos, k);
      var processedOccurred := ProcessCombinationList(occurredCandidates, totalMatches);
      var processedNeverOccurred := ProcessCombinationList(neverOccurredCandidates, totalMatches);
      var processedOccurredSorted := R.SortBy(processedOccurred, R.ItemCount);
      block := R.SizeResults(
        R.Take(processedNeverOccurred, k),
        R.Take(processedOccurredSorted, k),
        R.Reverse(R.PyTail(processedOccurredSorted, k)),
        |sizeCombinations|,
        |occurredCombos|,
        |neverOccurredCombos|);
    }
  }
}
