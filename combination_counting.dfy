/**
 * What `PatternAnalyzer` counts: the active set of a match, the
 * combinations each strategy builds from it, the `"|"`-joined keys they are
 * counted under, the tally those keys add up to, and the slices the matches
 * are split into. The methods of `PatternAnalyzer` are proved to compute
 * exactly these values.
 */
module CombinationCounting {
  import opened Wrappers
  import opened Models
  import opened EventPatterns
  import opened Itertools
  import opened FiniteSums
  import Strings
  import ResultRanking

  /** `combination_strategy`; any value other than the first two selects the full strategy. */
  datatype Strategy = ByEventType | ByMarket | Full
  {
    function Value(): string
    {
      match this
      case ByEventType => "by_event_type"
      case ByMarket => "by_market"
      case Full => "full"
    }
  }

  /** Everything the count of one match depends on. */
  datatype Counting = Counting(
    patterns: seq<EventCondition>,
    table: map<string, EventCondition>,
    strategy: Strategy,
    minSize: nat,
    maxSize: nat)

  // ---------------------------------------------------------------------
  // The active set

  function NameOf(p: EventCondition): string
  {
    p.name
  }

  /**
   * The active set is the catalogue-ordered sublist of the names whose
   * condition holds: a name is in it iff some entry with that name holds
   * (an entry whose condition raises, `None` here, never contributes).
   */
  lemma {:induction false} ActiveSetSublist(pats: seq<EventCondition>, m: Match)
    ensures IsSubseq(Firing(pats, m), MapSeq(NameOf, pats))
    ensures forall n :: n in Firing(pats, m) <==>
      exists i :: 0 <= i < |pats| && pats[i].name == n && Holds(pats[i].condition, m) == Some(true)
  {
    if pats != [] {
      ActiveSetSublist(pats[1..], m);
      var names := MapSeq(NameOf, pats);
      assert names[1..] == MapSeq(NameOf, pats[1..]);
      var rest := Firing(pats[1..], m);
      var r := Firing(pats, m);
      if Holds(pats[0].condition, m) == Some(true) {
        assert r == [pats[0].name] + rest;
        assert r[0] == names[0] && r[1..] == rest;
      } else {
        assert r == rest;
      }
      assert IsSubseq(r, names);
      forall n ensures n in Firing(pats, m) <==>
        exists i :: 0 <= i < |pats| && pats[i].name == n && Holds(pats[i].condition, m) == Some(true)
      {
        if exists i :: 0 <= i < |pats| && pats[i].name == n && Holds(pats[i].condition, m) == Some(true) {
          var i :| 0 <= i < |pats| && pats[i].name == n && Holds(pats[i].condition, m) == Some(true);
          if i > 0 {
            assert pats[1..][i - 1] == pats[i];
          }
        }
        if n in rest {
          var i :| 0 <= i < |pats[1..]| && pats[1..][i].name == n && Holds(pats[1..][i].condition, m) == Some(true);
          assert pats[i + 1] == pats[1..][i];
        }
      }
    }
  }

  // ---------------------------------------------------------------------
  // Grouping the active names (by event type or by market)

  function TypeKey(p: EventCondition): EventType
  {
    p.eventType
  }

  function MarketKey(p: EventCondition): string
  {
    p.market
  }

  /** The group keys of the names found in the table, in order of first appearance (`list(groups.keys())`). */
  function GroupKeys<K(==)>(names: seq<string>, table: map<string, EventCondition>, key: EventCondition -> K): (r: seq<K>)
    ensures Distinct(r)
    decreases |names|
  {
    if names == [] then []
    else
      var init := GroupKeys(names[..|names| - 1], table, key);
      var n := names[|names| - 1];
      if n in table && key(table[n]) !in init then init + [key(table[n])] else init
  }

  /** The names of each group, in their order in `names`; names missing from the table are skipped. */
  function Groups<K(==)>(names: seq<string>, table: map<string, EventCondition>, key: EventCondition -> K): map<K, seq<string>>
    decreases |names|
  {
    if names == [] then map[]
    else
      var g := Groups(names[..|names| - 1], table, key);
      var n := names[|names| - 1];
      if n in table then g[key(table[n]) := Get(g, key(table[n]), []) + [n]] else g
  }

  /** The names that belong to group k. */
  function InGroup<K(==)>(table: map<string, EventCondition>, key: EventCondition -> K, k: K): string -> bool
  {
    (n: string) => n in table && key(table[n]) == k
  }

  /**
   * The groups are keyed by exactly the group keys, and each holds the names of
   * that group in order; every key is the key of some name.
   */
  lemma {:induction false} GroupsContents<K>(names: seq<string>, table: map<string, EventCondition>, key: EventCondition -> K)
    ensures forall k :: k in Groups(names, table, key) <==> k in GroupKeys(names, table, key)
    ensures forall k :: k in Groups(names, table, key) ==>
      Groups(names, table, key)[k] == ResultRanking.Filter(names, InGroup(table, key, k))
    ensures forall k :: k in GroupKeys(names, table, key) ==>
      exists n :: n in names && n in table && key(table[n]) == k
    ensures forall i :: 0 <= i < |names| && names[i] in table ==> key(table[names[i]]) in GroupKeys(names, table, key)
    decreases |names|
  {
    if names != [] {
      var init := names[..|names| - 1];
      var n := names[|names| - 1];
      GroupsContents(init, table, key);
      assert names == init + [n];
      forall k ensures ResultRanking.Filter(names, InGroup(table, key, k)) ==
        ResultRanking.Filter(init, InGroup(table, key, k)) + (if InGroup(table, key, k)(n) then [n] else [])
      {
        ResultRanking.FilterAppend(init, [n], InGroup(table, key, k));
        assert [n][1..] == [];
      }
      forall i | 0 <= i < |names| && names[i] in table ensures key(table[names[i]]) in GroupKeys(names, table, key) {
        if i < |init| {
          assert names[i] == init[i];
        }
      }
      forall k | k in GroupKeys(names, table, key) ensures exists x :: x in names && x in table && key(table[x]) == k {
        if k in GroupKeys(init, table, key) {
          var x :| x in init && x in table && key(table[x]) == k;
          assert x in names;
        } else {
          assert n in names;
        }
      }
      if n in table {
        var g := Groups(init, table, key);
        var kn := key(table[n]);
        assert InGroup(table, key, kn)(n);
        assert Groups(names, table, key)[kn] == Get(g, kn, []) + [n];
        if kn !in g {
          assert kn !in GroupKeys(init, table, key);
          assert ResultRanking.Filter(init, InGroup(table, key, kn)) == [] by {
            forall i | 0 <= i < |init| ensures !InGroup(table, key, kn)(init[i]) {
              if init[i] in table {
                assert key(table[init[i]]) in GroupKeys(init, table, key);
              }
            }
            FilterNone(init, InGroup(table, key, kn));
          }
        } else {
          assert g[kn] == ResultRanking.Filter(init, InGroup(table, key, kn));
        }
        assert Groups(names, table, key)[kn] == ResultRanking.Filter(names, InGroup(table, key, kn));
        forall k | k in Groups(names, table, key)
          ensures Groups(names, table, key)[k] == ResultRanking.Filter(names, InGroup(table, key, k))
        {
          if k != kn {
            assert !InGroup(table, key, k)(n);
          }
        }
      } else {
        forall k | k in Groups(names, table, key)
          ensures Groups(names, table, key)[k] == ResultRanking.Filter(names, InGroup(table, key, k))
        {
          assert !InGroup(table, key, k)(n);
        }
      }
    }
  }

  /** The filter is empty when no element passes. */
  lemma {:induction false} FilterNone<T>(xs: seq<T>, p: T -> bool)
    requires forall i :: 0 <= i < |xs| ==> !p(xs[i])
    ensures ResultRanking.Filter(xs, p) == []
  {
    if xs != [] {
      assert forall i :: 0 <= i < |xs[1..]| ==> xs[1..][i] == xs[i + 1];
      FilterNone(xs[1..], p);
    }
  }

  /** The candidate lists, one per chosen group (`[groups[k] for k in combo]`). */
  function Choices<K>(groups: map<K, seq<string>>, combo: seq<K>): (r: seq<seq<string>>)
    ensures |r| == |combo|
    ensures forall i :: 0 <= i < |combo| ==> r[i] == Get(groups, combo[i], [])
  {
    seq(|combo|, i requires 0 <= i < |combo| => Get(groups, combo[i], []))
  }

  /** For each combination of groups, the products of their name lists. */
  function ProductsOf<K>(groups: map<K, seq<string>>, combos: seq<seq<K>>): (r: seq<seq<seq<string>>>)
    ensures |r| == |combos|
    ensures forall j :: 0 <= j < |combos| ==> r[j] == Product(Choices(groups, combos[j]))
  {
    seq(|combos|, j requires 0 <= j < |combos| => Product(Choices(groups, combos[j])))
  }

  /** `_generate_combinations_by_event_type_from_occurring` / `..._by_market_...`, for key = event type / market. */
  function GroupedCombinations<K(==)>(names: seq<string>, size: nat, table: map<string, EventCondition>, key: EventCondition -> K): seq<seq<string>>
  {
    var keys := GroupKeys(names, table, key);
    if size > |keys| then []
    else Flatten(ProductsOf(Groups(names, table, key), Combinations(keys, size)))
  }

  lemma {:induction false} FlattenMember<T>(xss: seq<seq<T>>, t: T)
    requires t in Flatten(xss)
    ensures exists j :: 0 <= j < |xss| && t in xss[j]
  {
    if xss != [] {
      if t !in xss[0] {
        FlattenMember(xss[1..], t);
        var j :| 0 <= j < |xss[1..]| && t in xss[1..][j];
        assert xss[j + 1] == xss[1..][j];
      }
    }
  }

  /**
   * Every grouped tuple has `size` members, all active names found in the
   * table, and the members' groups are pairwise distinct (no two patterns of
   * the same event type, resp. market).
   */
  lemma GroupedTuple<K>(names: seq<string>, size: nat, table: map<string, EventCondition>, key: EventCondition -> K, t: seq<string>)
    requires t in GroupedCombinations(names, size, table, key)
    ensures |t| == size
    ensures forall i :: 0 <= i < |t| ==> t[i] in names && t[i] in table
    ensures forall i, j :: 0 <= i < j < |t| ==> key(table[t[i]]) != key(table[t[j]])
  {
    var keys := GroupKeys(names, table, key);
    var groups := Groups(names, table, key);
    var combos := Combinations(keys, size);
    var prods := ProductsOf(groups, combos);
    FlattenMember(prods, t);
    var j :| 0 <= j < |prods| && t in prods[j];
    var c := combos[j];
    CombinationsSound(keys, size, c);
    SubseqDistinct(c, keys);
    ProductMembership(Choices(groups, c), t);
    GroupsContents(names, table, key);
    forall i | 0 <= i < |t| ensures t[i] in names && t[i] in table && key(table[t[i]]) == c[i] {
      SubseqElements(c, keys, c[i]);
      assert t[i] in groups[c[i]];
      ResultRanking.FilterMembers(names, InGroup(table, key, c[i]));
    }
  }

  /** There are no grouped tuples larger than the number of groups present. */
  lemma GroupedTooLarge<K>(names: seq<string>, size: nat, table: map<string, EventCondition>, key: EventCondition -> K)
    requires size > |GroupKeys(names, table, key)|
    ensures GroupedCombinations(names, size, table, key) == []
  {
  }

  /**
   * When every pattern in the table is a goals pattern (as every active
   * catalogue entry is), there is at most one event type group, so the default
   * strategy yields nothing for sizes of 2 and more.
   */
  lemma {:induction false} SingleTypeNoPairs(names: seq<string>, size: nat, table: map<string, EventCondition>)
    requires forall n :: n in table ==> table[n].eventType == Goals
    requires size >= 2
    ensures GroupedCombinations(names, size, table, TypeKey) == []
  {
    GoalsOneType(names, table);
  }

  /** With only goals patterns in the table, the event type groups are at most the goals group. */
  lemma {:induction false} GoalsOneType(names: seq<string>, table: map<string, EventCondition>)
    requires forall n :: n in table ==> table[n].eventType == Goals
    ensures GroupKeys(names, table, TypeKey) == [] || GroupKeys(names, table, TypeKey) == [Goals]
    decreases |names|
  {
    if names != [] {
      GoalsOneType(names[..|names| - 1], table);
    }
  }

  // ---------------------------------------------------------------------
  // The full strategy

  /** `_generate_full_combinations_from_occurring`. */
  function FullCombinations(names: seq<string>, size: nat): seq<seq<string>>
  {
    if size > |names| then [] else Combinations(names, size)
  }

  /**
   * The full strategy yields exactly the size-`size` subsequences of the active
   * list, each once, in position-lexicographic order; none when `size` exceeds it.
   */
  lemma FullCombinationsSpec(names: seq<string>, size: nat)
    ensures FullCombinations(names, size) == Combinations(names, size)
    ensures size > |names| ==> FullCombinations(names, size) == []
    ensures forall c :: c in FullCombinations(names, size) <==> |c| == size && IsSubseq(c, names)
    ensures var ix := Combinations(Range(0, |names|), size);
      |FullCombinations(names, size)| == |ix| && |ix| == Binomial(|names|, size) &&
      LexSorted(ix) &&
      forall j :: 0 <= j < |ix| ==>
        (StrictlyIncreasing(ix[j]) &&
         (forall p :: 0 <= p < |ix[j]| ==> 0 <= ix[j][p] < |names|) &&
         FullCombinations(names, size)[j] == Pick(names, ix[j]))
  {
    if size > |names| {
      CombinationsBeyond(names, size);
    }
    forall c ensures c in FullCombinations(names, size) <==> |c| == size && IsSubseq(c, names) {
      CombinationsMembership(names, size, c);
    }
    CombinationsByPosition(names, size);
  }

  /** `_generate_valid_combinations`: dispatch on the strategy. */
  function ValidCombinations(strategy: Strategy, names: seq<string>, size: nat, table: map<string, EventCondition>): seq<seq<string>>
  {
    match strategy
    case ByEventType => GroupedCombinations(names, size, table, TypeKey)
    case ByMarket => GroupedCombinations(names, size, table, MarketKey)
    case Full => FullCombinations(names, size)
  }

  // ---------------------------------------------------------------------
  // Keys of a match and of a batch

  /** `"|".join(combo)` for each combination. */
  function JoinKeys(combos: seq<seq<string>>): (r: seq<string>)
    ensures |r| == |combos|
    ensures forall i :: 0 <= i < |combos| ==> r[i] == Strings.Join(combos[i], '|')
  {
    seq(|combos|, i requires 0 <= i < |combos| => Strings.Join(combos[i], '|'))
  }

  lemma JoinKeysSnoc(combos: seq<seq<string>>, j: nat)
    requires j < |combos|
    ensures JoinKeys(combos[..j + 1]) == JoinKeys(combos[..j]) + [Strings.Join(combos[j], '|')]
  {
  }

  /** The keys counted for one size: nothing when the active set is smaller than the size. */
  function KeysOfSize(c: Counting, active: seq<string>, size: nat): seq<string>
  {
    if |active| < size then [] else JoinKeys(ValidCombinations(c.strategy, active, size, c.table))
  }

  /** The keys counted for the sizes lo, ..., hi - 1, in that order. */
  function KeysOfSizes(c: Counting, active: seq<string>, lo: nat, hi: nat): seq<string>
    decreases hi
  {
    if hi <= lo then [] else KeysOfSizes(c, active, lo, hi - 1) + KeysOfSize(c, active, hi - 1)
  }

  /** The keys one match contributes: none when no pattern fired. */
  function MatchKeys(c: Counting, m: Match): seq<string>
  {
    var active := Firing(c.patterns, m);
    if active == [] then [] else KeysOfSizes(c, active, c.minSize, c.maxSize + 1)
  }

  /** `[y for x in xs for y in f(x)]`. */
  function ConcatMap<A, B>(f: A -> seq<B>, xs: seq<A>): seq<B>
    decreases |xs|
  {
    if xs == [] then [] else ConcatMap(f, xs[..|xs| - 1]) + f(xs[|xs| - 1])
  }

  lemma {:induction false} ConcatMapAppend<A, B>(f: A -> seq<B>, a: seq<A>, b: seq<A>)
    ensures ConcatMap(f, a + b) == ConcatMap(f, a) + ConcatMap(f, b)
    decreases |b|
  {
    if b == [] {
      assert a + b == a;
    } else {
      var init := b[..|b| - 1];
      assert (a + b)[..|a + b| - 1] == a + init;
      assert (a + b)[|a + b| - 1] == b[|b| - 1];
      ConcatMapAppend(f, a, init);
    }
  }

  /** The keys a list of matches contributes, match by match. */
  function BatchKeys(c: Counting, ms: seq<Match>): seq<string>
  {
    ConcatMap((m: Match) => MatchKeys(c, m), ms)
  }

  lemma BatchKeysAppend(c: Counting, a: seq<Match>, b: seq<Match>)
    ensures BatchKeys(c, a + b) == BatchKeys(c, a) + BatchKeys(c, b)
  {
    ConcatMapAppend((m: Match) => MatchKeys(c, m), a, b);
  }

  lemma BatchKeysSnoc(c: Counting, ms: seq<Match>, m: Match)
    ensures BatchKeys(c, ms + [m]) == BatchKeys(c, ms) + MatchKeys(c, m)
  {
    assert (ms + [m])[..|ms|] == ms;
  }

  /** `ConcatMap` over a flattened list is `ConcatMap` of the pieces. */
  lemma {:induction false} ConcatMapFlatten<A, B>(f: A -> seq<B>, g: seq<A> -> seq<B>, xss: seq<seq<A>>)
    requires forall xs :: g(xs) == ConcatMap(f, xs)
    ensures ConcatMap(g, xss) == ConcatMap(f, Flatten(xss))
    decreases |xss|
  {
    if xss != [] {
      var init := xss[..|xss| - 1];
      var last := xss[|xss| - 1];
      ConcatMapFlatten(f, g, init);
      assert ConcatMap(g, xss) == ConcatMap(g, init) + g(last);
      assert g(last) == ConcatMap(f, last);
      assert xss == init + [last];
      FlattenSnoc(init, last);
      ConcatMapAppend(f, Flatten(init), last);
    }
  }

  /** The keys of a list of sub-batches, sub-batch by sub-batch. */
  function ChunkKeys(c: Counting, batches: seq<seq<Match>>): seq<string>
  {
    ConcatMap((b: seq<Match>) => BatchKeys(c, b), batches)
  }

  lemma ChunkKeysAppend(c: Counting, a: seq<seq<Match>>, b: seq<seq<Match>>)
    ensures ChunkKeys(c, a + b) == ChunkKeys(c, a) + ChunkKeys(c, b)
  {
    ConcatMapAppend((b: seq<Match>) => BatchKeys(c, b), a, b);
  }

  /** Counting the sub-batches one by one counts the matches they were cut from. */
  lemma ChunkKeysFlatten(c: Counting, batches: seq<seq<Match>>)
    ensures ChunkKeys(c, batches) == BatchKeys(c, Flatten(batches))
  {
    ConcatMapFlatten((m: Match) => MatchKeys(c, m), (b: seq<Match>) => BatchKeys(c, b), batches);
  }

  /** Taking out any one sub-batch leaves the keys of the others. */
  lemma ChunkKeysRemove(c: Counting, batches: seq<seq<Match>>, j: nat)
    requires j < |batches|
    ensures multiset(ChunkKeys(c, batches)) ==
      multiset(BatchKeys(c, batches[j])) + multiset(ChunkKeys(c, batches[..j] + batches[j + 1..]))
  {
    var before := batches[..j];
    var after := batches[j + 1..];
    assert batches == before + [batches[j]] + after;
    ChunkKeysAppend(c, before + [batches[j]], after);
    ChunkKeysAppend(c, before, [batches[j]]);
    ChunkKeysAppend(c, before, after);
    assert ChunkKeys(c, [batches[j]]) == ChunkKeys(c, []) + BatchKeys(c, batches[j]) by {
      assert [batches[j]][..0] == [];
    }
  }

  /** A match adds one key for each combination generated from it, for each size with enough active names. */
  lemma {:induction false} MatchKeysCount(c: Counting, m: Match, lo: nat, hi: nat)
    ensures var active := Firing(c.patterns, m);
      |KeysOfSizes(c, active, lo, hi)| == SizesCount(c, active, lo, hi)
    decreases hi
  {
    if hi > lo {
      MatchKeysCount(c, m, lo, hi - 1);
    }
  }

  function SizesCount(c: Counting, active: seq<string>, lo: nat, hi: nat): nat
    decreases hi
  {
    if hi <= lo then 0
    else SizesCount(c, active, lo, hi - 1) + (if |active| < hi - 1 then 0 else |ValidCombinations(c.strategy, active, hi - 1, c.table)|)
  }

  /**
   * The joined key of a combination splits back into the combination, so
   * converting the tally's keys to tuples loses nothing, provided no pattern
   * name contains `|`.
   */
  lemma KeyRoundTrip(combo: seq<string>)
    requires combo != [] && Strings.Clean(combo, '|')
    ensures Strings.Split(Strings.Join(combo, '|'), '|') == combo
  {
    Strings.SplitJoin(combo, '|');
  }

  // ---------------------------------------------------------------------
  // Tallies

  /** The tally of a multiset of keys: each key mapped to its multiplicity. */
  function TallyOf(keys: multiset<string>): map<string, nat>
  {
    map k | k in keys :: keys[k]
  }

  /** `target[k] = target.get(k, 0) + count` for every key of `source`: the pointwise sum. */
  function AddTally(target: map<string, nat>, source: map<string, nat>): map<string, nat>
  {
    map k | k in target.Keys + source.Keys :: Get(target, k, 0) + Get(source, k, 0)
  }

  /** Counting one more key. */
  lemma TallyOfAdd(keys: multiset<string>, k: string)
    ensures TallyOf(keys + multiset{k}) == TallyOf(keys)[k := Get(TallyOf(keys), k, 0) + 1]
  {
  }

  /** `d[k] = d.get(k, 0) + 1` for each key in turn: the dictionary the counting loops build. */
  function Tally(keys: seq<string>): map<string, nat>
  {
    if keys == [] then map[]
    else
      var t := Tally(keys[..|keys| - 1]);
      var k := keys[|keys| - 1];
      t[k := Get(t, k, 0) + 1]
  }

  /** One more key in the counting loop. */
  lemma TallySnoc(keys: seq<string>, k: string)
    ensures Tally(keys + [k]) == Tally(keys)[k := Get(Tally(keys), k, 0) + 1]
  {
    assert (keys + [k])[..|keys|] == keys;
  }

  /** Counting keys one at a time gives their multiplicities, whatever the order they come in. */
  lemma {:induction false} TallyIsTallyOf(keys: seq<string>)
    ensures Tally(keys) == TallyOf(multiset(keys))
    decreases |keys|
  {
    if keys != [] {
      var init := keys[..|keys| - 1];
      var k := keys[|keys| - 1];
      TallyIsTallyOf(init);
      assert keys == init + [k];
      assert multiset(keys) == multiset(init) + multiset{k};
      TallyOfAdd(multiset(init), k);
    }
  }

  /**
   * Merging tallies is the tally of the union: the merged count of a batch
   * split in two is the count of the whole, so the split does not matter.
   */
  lemma TallyOfUnion(a: multiset<string>, b: multiset<string>)
    ensures AddTally(TallyOf(a), TallyOf(b)) == TallyOf(a + b)
  {
  }

  lemma AddTallyAssociative(x: map<string, nat>, y: map<string, nat>, z: map<string, nat>)
    ensures AddTally(AddTally(x, y), z) == AddTally(x, AddTally(y, z))
  {
    var l := AddTally(AddTally(x, y), z);
    var r := AddTally(x, AddTally(y, z));
    assert l.Keys == r.Keys;
    forall k | k in l ensures l[k] == r[k] {
      assert l[k] == Get(x, k, 0) + Get(y, k, 0) + Get(z, k, 0);
    }
  }

  lemma AddTallyCommutative(x: map<string, nat>, y: map<string, nat>)
    ensures AddTally(x, y) == AddTally(y, x)
  {
  }

  /** Merging into an empty dictionary copies the source. */
  lemma AddTallyEmpty(x: map<string, nat>)
    ensures AddTally(map[], x) == x
  {
  }

  /** Adding one more key of the source to the merge. */
  lemma AddTallyStep(target: map<string, nat>, source: map<string, nat>, k: string, v: nat)
    requires k !in source
    ensures AddTally(target, source[k := v]) == AddTally(target, source)[k := Get(AddTally(target, source), k, 0) + v]
  {
    var l := AddTally(target, source[k := v]);
    var r := AddTally(target, source)[k := Get(AddTally(target, source), k, 0) + v];
    assert l.Keys == r.Keys;
    forall j | j in l ensures l[j] == r[j] {
      if j != k {
        assert Get(source[k := v], j, 0) == Get(source, j, 0);
      }
    }
  }

  /** Two merges one after the other are the merge of the union. */
  lemma MergeTwice(g: map<string, nat>, a: multiset<string>, b: multiset<string>)
    ensures AddTally(AddTally(g, TallyOf(a)), TallyOf(b)) == AddTally(g, TallyOf(a + b))
  {
    AddTallyAssociative(g, TallyOf(a), TallyOf(b));
    TallyOfUnion(a, b);
  }

  /** A tally only holds keys that were counted, so every value is at least 1. */
  lemma TallyPositive(g: map<string, nat>, keys: multiset<string>)
    requires forall k :: k in g ==> g[k] >= 1
    ensures forall k :: k in AddTally(g, TallyOf(keys)) ==> AddTally(g, TallyOf(keys))[k] >= 1
  {
  }

  /** Counting two batches one after the other is counting their concatenation. */
  lemma BatchTallySplit(c: Counting, g: map<string, nat>, a: seq<Match>, b: seq<Match>)
    ensures AddTally(AddTally(g, TallyOf(multiset(BatchKeys(c, a)))), TallyOf(multiset(BatchKeys(c, b)))) ==
      AddTally(g, TallyOf(multiset(BatchKeys(c, a + b))))
  {
    BatchKeysAppend(c, a, b);
    AddTallyAssociative(g, TallyOf(multiset(BatchKeys(c, a))), TallyOf(multiset(BatchKeys(c, b))));
    TallyOfUnion(multiset(BatchKeys(c, a)), multiset(BatchKeys(c, b)));
  }

  /** The tally of the keys adds up to the number of keys (`sum(values())`). */
  lemma {:induction false} TallySum(keys: multiset<string>)
    ensures SumValues(TallyOf(keys)) == |keys|
    decreases |keys|
  {
    if keys != multiset{} {
      var k :| k in keys;
      var rest := keys - multiset{k};
      TallySum(rest);
      assert keys == rest + multiset{k};
      TallyOfAdd(rest, k);
      SumValuesUpdate(TallyOf(rest), k, Get(TallyOf(rest), k, 0) + 1);
    } else {
      assert TallyOf(keys) == map[];
    }
  }

  // ---------------------------------------------------------------------
  // Batches and sub-batches

  /** `[xs[i:i + w] for i in range(0, len(xs), w)]`. */
  function Chunks<T>(xs: seq<T>, w: nat): (r: seq<seq<T>>)
    requires w >= 1
    decreases |xs|
  {
    if xs == [] then []
    else if |xs| <= w then [xs]
    else [xs[..w]] + Chunks(xs[w..], w)
  }

  /** The slices, concatenated, are the list again; none is empty or wider than w. */
  lemma {:induction false} ChunksFlatten<T>(xs: seq<T>, w: nat)
    requires w >= 1
    ensures Flatten(Chunks(xs, w)) == xs
    ensures forall i :: 0 <= i < |Chunks(xs, w)| ==> 0 < |Chunks(xs, w)[i]| <= w
    decreases |xs|
  {
    if xs != [] {
      if |xs| <= w {
        assert Flatten([xs]) == xs + Flatten([xs][1..]);
      } else {
        var rest := Chunks(xs[w..], w);
        ChunksFlatten(xs[w..], w);
        assert ([xs[..w]] + rest)[1..] == rest;
        assert xs == xs[..w] + xs[w..];
      }
    }
  }

  /** The i-th chunk starts at i * w: the slices are exactly those the range steps through. */
  lemma {:induction false} ChunkAt<T>(xs: seq<T>, w: nat, i: nat)
    requires w >= 1 && i < |Chunks(xs, w)|
    ensures i * w < |xs|
    ensures Chunks(xs, w)[i] == xs[i * w .. if i * w + w <= |xs| then i * w + w else |xs|]
    decreases |xs|
  {
    if i > 0 {
      var rest := xs[w..];
      assert |xs| > w;
      assert Chunks(xs, w) == [xs[..w]] + Chunks(rest, w);
      assert Chunks(xs, w)[i] == Chunks(rest, w)[i - 1];
      ChunkAt(rest, w, i - 1);
      var a := (i - 1) * w;
      StepProduct(i, w);
      assert a + w == i * w;
      var e := if a + w <= |rest| then a + w else |rest|;
      SliceOfSuffix(xs, w, a, e);
    }
  }

  lemma SliceOfSuffix<T>(xs: seq<T>, w: nat, a: nat, e: nat)
    requires w <= |xs| && a <= e <= |xs| - w
    ensures xs[w..][a..e] == xs[a + w..e + w]
  {
  }

  lemma StepProduct(i: nat, w: nat)
    requires i >= 1
    ensures (i - 1) * w + w == i * w
  {
  }

  /** `max(1, n // d)`: the slice width. */
  function Width(n: nat, d: nat): (w: nat)
    requires d >= 1
    ensures w >= 1
  {
    if n / d >= 1 then n / d else 1
  }
}
