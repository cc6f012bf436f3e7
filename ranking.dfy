/**
 * The display side of `PatternAnalyzer`: turning tallied combinations into
 * result items, choosing which of them to show (the least and most frequent),
 * and the summary statistics. Everything here is a value computation; the
 * methods of `PatternAnalyzer` that build these values step by step are
 * proved equal to the functions below.
 */
module ResultRanking {
  import opened Wrappers
  import opened Models
  import opened EventPatterns
  import opened Itertools

  /** A counted combination: the tuple of pattern names and its occurrence count. */
  type Entry = (seq<string>, nat)

  datatype PatternDetail = PatternDetail(name: string, description: string, eventType: string, market: string)

  /** One processed combination, as `_process_combination_list` builds it. */
  datatype ResultItem = ResultItem(
    events: seq<PatternDetail>,
    combinationSize: nat,
    occurrenceCount: nat,
    percentage: real,
    strategy: string)

  /** The per-size block of `organized_results`. */
  datatype SizeResults = SizeResults(
    neverOccurred: seq<ResultItem>,
    leastOccurred: seq<ResultItem>,
    mostOccurred: seq<ResultItem>,
    totalCombinations: nat,
    occurredCount: nat,
    neverOccurredCount: nat)

  /** `_get_empty_size_results`. */
  const EmptySizeResults := SizeResults([], [], [], 0, 0, 0)

  datatype Stats = Stats(
    totalCombinationsChecked: nat,
    validCombinationsCount: nat,
    neverOccurredCount: nat,
    occurredCount: nat,
    minOccurrence: nat,
    maxOccurrence: nat,
    avgOccurrence: real)

  /** The dictionary `_prepare_final_results_lazy` returns. */
  datatype FinalResults = FinalResults(
    organized: map<nat, SizeResults>,
    neverOccurred: seq<ResultItem>,
    leastOccurred: seq<ResultItem>,
    mostOccurred: seq<ResultItem>,
    stats: Stats)

  // ---------------------------------------------------------------------
  // Slices, sorting and de-duplication

  /** `xs[:k]`. */
  function Take<T>(xs: seq<T>, k: nat): (r: seq<T>)
    ensures |r| == if k <= |xs| then k else |xs|
    ensures r == xs[..|r|]
  {
    if k <= |xs| then xs[..k] else xs
  }

  /** `xs[-k:]` for k >= 0: the last k elements, but the WHOLE list when k is 0 (`-0 == 0`). */
  function PyTail<T>(xs: seq<T>, k: nat): (r: seq<T>)
    ensures k == 0 ==> r == xs
    ensures k > 0 ==> |r| == (if k <= |xs| then k else |xs|)
    ensures r == xs[|xs| - |r|..]
  {
    if k == 0 || k >= |xs| then xs else xs[|xs| - k..]
  }

  function Reverse<T>(xs: seq<T>): (r: seq<T>)
    ensures |r| == |xs|
  {
    if xs == [] then [] else Reverse(xs[1..]) + [xs[0]]
  }

  /** Element i of the reversal is element |xs| - 1 - i of xs. */
  lemma {:induction false} ReverseAt<T>(xs: seq<T>)
    ensures forall i :: 0 <= i < |xs| ==> Reverse(xs)[i] == xs[|xs| - 1 - i]
  {
    if xs != [] {
      ReverseAt(xs[1..]);
    }
  }

  predicate SortedBy<T>(xs: seq<T>, key: T -> int)
  {
    forall i, j :: 0 <= i < j < |xs| ==> key(xs[i]) <= key(xs[j])
  }

  /** Insert x in front of the first element whose key is not smaller. */
  function InsertBy<T>(x: T, s: seq<T>, key: T -> int): (r: seq<T>)
    ensures |r| == |s| + 1
  {
    if s == [] then [x]
    else if key(x) <= key(s[0]) then [x] + s
    else [s[0]] + InsertBy(x, s[1..], key)
  }

  /** Insertion adds x and keeps every other element. */
  lemma {:induction false} InsertByPermutes<T>(x: T, s: seq<T>, key: T -> int)
    ensures multiset(InsertBy(x, s, key)) == multiset(s) + multiset{x}
  {
    if s != [] && key(x) > key(s[0]) {
      InsertByPermutes(x, s[1..], key);
      assert s == [s[0]] + s[1..];
    }
  }

  /** `sorted(xs, key=key)`: a stable sort (elements with equal keys keep their order). */
  function SortBy<T>(xs: seq<T>, key: T -> int): (r: seq<T>)
    ensures |r| == |xs|
  {
    if xs == [] then [] else InsertBy(xs[0], SortBy(xs[1..], key), key)
  }

  /** The sort is a permutation. */
  lemma {:induction false} SortByPermutes<T>(xs: seq<T>, key: T -> int)
    ensures multiset(SortBy(xs, key)) == multiset(xs)
  {
    if xs != [] {
      SortByPermutes(xs[1..], key);
      InsertByPermutes(xs[0], SortBy(xs[1..], key), key);
      assert xs == [xs[0]] + xs[1..];
    }
  }

  /** A lower bound on x and on every key of s bounds every key after insertion. */
  lemma {:induction false} InsertByAtLeast<T>(x: T, s: seq<T>, key: T -> int, b: int)
    requires b <= key(x)
    requires forall k :: 0 <= k < |s| ==> b <= key(s[k])
    ensures forall k :: 0 <= k < |InsertBy(x, s, key)| ==> b <= key(InsertBy(x, s, key)[k])
  {
    if s != [] && key(x) > key(s[0]) {
      forall k | 0 <= k < |s[1..]| ensures b <= key(s[1..][k]) {
        assert s[1..][k] == s[k + 1];
      }
      InsertByAtLeast(x, s[1..], key, b);
      var t := InsertBy(x, s[1..], key);
      forall k | 0 <= k < |t| + 1 ensures b <= key(([s[0]] + t)[k]) {
        if k > 0 { assert ([s[0]] + t)[k] == t[k - 1]; }
      }
    }
  }

  lemma {:induction false} InsertBySorted<T>(x: T, s: seq<T>, key: T -> int)
    requires SortedBy(s, key)
    ensures SortedBy(InsertBy(x, s, key), key)
  {
    if s != [] && key(x) > key(s[0]) {
      assert SortedBy(s[1..], key) by {
        forall i, j | 0 <= i < j < |s[1..]| ensures key(s[1..][i]) <= key(s[1..][j]) {
          assert s[1..][i] == s[i + 1] && s[1..][j] == s[j + 1];
        }
      }
      InsertBySorted(x, s[1..], key);
      forall k | 0 <= k < |s[1..]| ensures key(s[0]) <= key(s[1..][k]) {
        assert s[1..][k] == s[k + 1];
      }
      InsertByAtLeast(x, s[1..], key, key(s[0]));
      var t := InsertBy(x, s[1..], key);
      var r := [s[0]] + t;
      forall i, j | 0 <= i < j < |r| ensures key(r[i]) <= key(r[j]) {
        assert r[j] == t[j - 1];
        if i > 0 { assert r[i] == t[i - 1]; }
      }
    } else if s != [] {
      var r := [x] + s;
      forall i, j | 0 <= i < j < |r| ensures key(r[i]) <= key(r[j]) {
        assert r[j] == s[j - 1];
        if i > 0 { assert r[i] == s[i - 1]; } else if j > 1 { assert key(s[0]) <= key(s[j - 1]); }
      }
    }
  }

  /** The sort puts the keys in ascending order. */
  lemma {:induction false} SortBySorted<T>(xs: seq<T>, key: T -> int)
    ensures SortedBy(SortBy(xs, key), key)
  {
    if xs != [] {
      SortBySorted(xs[1..], key);
      InsertBySorted(xs[0], SortBy(xs[1..], key), key);
    }
  }

  /** The elements of xs whose key is c, in order. */
  function WithKey<T>(xs: seq<T>, key: T -> int, c: int): (r: seq<T>)
    ensures |r| <= |xs|
  {
    if xs == [] then []
    else (if key(xs[0]) == c then [xs[0]] else []) + WithKey(xs[1..], key, c)
  }

  /** Insertion skips only elements with a smaller key, so x lands behind nothing that shares its key. */
  lemma {:induction false} InsertByStable<T>(x: T, s: seq<T>, key: T -> int, c: int)
    ensures WithKey(InsertBy(x, s, key), key, c) ==
      (if key(x) == c then [x] else []) + WithKey(s, key, c)
  {
    if s != [] {
      if key(x) <= key(s[0]) {
        assert ([x] + s)[1..] == s;
      } else {
        InsertByStable(x, s[1..], key, c);
        assert ([s[0]] + InsertBy(x, s[1..], key))[1..] == InsertBy(x, s[1..], key);
      }
    }
  }

  /** Stability: for every key value, the elements carrying it appear in their original order. */
  lemma {:induction false} SortByStable<T>(xs: seq<T>, key: T -> int, c: int)
    ensures WithKey(SortBy(xs, key), key, c) == WithKey(xs, key, c)
  {
    if xs != [] {
      SortByStable(xs[1..], key, c);
      InsertByStable(xs[0], SortBy(xs[1..], key), key, c);
    }
  }

  /** `list(dict.fromkeys(xs))`: the first occurrence of each element, in order. */
  function Dedup<T(==)>(xs: seq<T>): (r: seq<T>)
    ensures |r| <= |xs|
    decreases |xs|
  {
    if xs == [] then []
    else
      var init := Dedup(xs[..|xs| - 1]);
      var last := xs[|xs| - 1];
      assert xs == xs[..|xs| - 1] + [last];
      if last in init then init else init + [last]
  }

  /** De-duplication keeps exactly the elements of xs. */
  lemma {:induction false} DedupMembers<T>(xs: seq<T>)
    ensures forall x :: x in Dedup(xs) <==> x in xs
    decreases |xs|
  {
    if xs != [] {
      DedupMembers(xs[..|xs| - 1]);
      assert xs == xs[..|xs| - 1] + [xs[|xs| - 1]];
    }
  }

  /** Every position of the de-duplicated list holds an element of xs. */
  lemma DedupAt<T>(xs: seq<T>)
    ensures forall i :: 0 <= i < |Dedup(xs)| ==> Dedup(xs)[i] in xs
  {
    DedupMembers(xs);
  }

  lemma {:induction false} DedupDistinct<T>(xs: seq<T>)
    ensures Distinct(Dedup(xs))
    decreases |xs|
  {
    if xs != [] {
      DedupDistinct(xs[..|xs| - 1]);
    }
  }

  /** Appending elements already present changes nothing. */
  lemma {:induction false} DedupAppendPresent<T>(xs: seq<T>, ys: seq<T>)
    requires forall y :: y in ys ==> y in xs
    ensures Dedup(xs + ys) == Dedup(xs)
    decreases |ys|
  {
    if ys != [] {
      var init := ys[..|ys| - 1];
      assert (xs + ys)[..|xs + ys| - 1] == xs + init;
      DedupAppendPresent(xs, init);
      DedupMembers(xs + init);
    } else {
      assert xs + ys == xs;
    }
  }

  /** De-duplicating a list without repeats changes nothing. */
  lemma {:induction false} DedupOfDistinct<T>(xs: seq<T>)
    requires Distinct(xs)
    ensures Dedup(xs) == xs
    decreases |xs|
  {
    if xs != [] {
      var init := xs[..|xs| - 1];
      DedupOfDistinct(init);
      assert xs[|xs| - 1] !in init;
      assert init + [xs[|xs| - 1]] == xs;
    }
  }

  // ---------------------------------------------------------------------
  // Display candidates

  function CountOf(e: Entry): int
  {
    e.1
  }

  /**
   * `_get_display_candidates` (width K) and `_get_overall_display_candidates`
   * (width 2K): sort by count, take `width` from each end, drop repeats.
   */
  function DisplayCandidates(entries: seq<Entry>, width: nat): (r: seq<Entry>)
  {
    if entries == [] then []
    else
      var sorted := SortBy(entries, CountOf);
      Dedup(Take(sorted, width) + PyTail(sorted, width))
  }

  /** The `width` first and `width` last elements, or the whole list when they overlap or `width` is 0. */
  function EndsOf<T>(sorted: seq<T>, width: nat): seq<T>
  {
    if width == 0 || 2 * width >= |sorted| then sorted
    else sorted[..width] + sorted[|sorted| - width..]
  }

  /**
   * With distinct entries the candidates are the whole sorted list when the two
   * ends overlap (or when the width is 0, since `xs[-0:]` is the whole list),
   * and otherwise the `width` smallest followed by the `width` largest.
   */
  lemma DisplayCandidatesShape(entries: seq<Entry>, width: nat)
    requires Distinct(entries)
    ensures DisplayCandidates(entries, width) == EndsOf(SortBy(entries, CountOf), width)
  {
    if entries != [] {
      SortByDistinct(entries, CountOf);
      EndsDedup(SortBy(entries, CountOf), width);
    }
  }

  /** The two ends of a list without repeats, with repeats dropped. */
  lemma EndsDedup<T>(sorted: seq<T>, width: nat)
    requires Distinct(sorted)
    ensures Dedup(Take(sorted, width) + PyTail(sorted, width)) == EndsOf(sorted, width)
  {
    if width == 0 {
      assert Take(sorted, width) + PyTail(sorted, width) == sorted;
      DedupOfDistinct(sorted);
    } else if width >= |sorted| {
      WideEnds(sorted, width);
    } else if 2 * width >= |sorted| {
      OverlappingEnds(sorted, width);
    } else {
      DisjointEnds(sorted, width);
    }
  }

  lemma WideEnds<T>(sorted: seq<T>, width: nat)
    requires Distinct(sorted) && 0 < width && |sorted| <= width
    ensures Dedup(Take(sorted, width) + PyTail(sorted, width)) == sorted
  {
    assert Take(sorted, width) == sorted && PyTail(sorted, width) == sorted;
    DedupOfDistinct(sorted);
    DedupAppendPresent(sorted, sorted);
  }

  lemma DisjointEnds<T>(sorted: seq<T>, width: nat)
    requires Distinct(sorted) && 0 < width && 2 * width < |sorted|
    ensures Dedup(Take(sorted, width) + PyTail(sorted, width)) == sorted[..width] + sorted[|sorted| - width..]
  {
    var n := |sorted|;
    assert Take(sorted, width) == sorted[..width];
    assert PyTail(sorted, width) == sorted[n - width..];
    EndsDistinct(sorted, width);
    DedupOfDistinct(sorted[..width] + sorted[n - width..]);
  }

  /** The first and the last `width` elements of a list without repeats, when they do not overlap, have no repeats. */
  lemma EndsDistinct<T>(sorted: seq<T>, width: nat)
    requires Distinct(sorted) && 2 * width < |sorted|
    ensures Distinct(sorted[..width] + sorted[|sorted| - width..])
  {
    var n := |sorted|;
    var both := sorted[..width] + sorted[n - width..];
    forall i, j | 0 <= i < j < |both| ensures both[i] != both[j] {
      var a := if i < width then i else n - width + (i - width);
      var b := if j < width then j else n - width + (j - width);
      assert both[i] == sorted[a] && both[j] == sorted[b];
    }
  }


  lemma OverlappingEnds<T>(sorted: seq<T>, width: nat)
    requires Distinct(sorted) && 0 < width < |sorted| <= 2 * width
    ensures Dedup(Take(sorted, width) + PyTail(sorted, width)) == sorted
  {
    var n := |sorted|;
    var head := sorted[..width];
    var rest := sorted[width..];
    var mid := sorted[n - width..width];
    assert Take(sorted, width) == head;
    assert PyTail(sorted, width) == mid + rest;
    assert sorted == head + rest;
    forall y | y in mid ensures y in head {
      var k :| 0 <= k < |mid| && mid[k] == y;
      assert head[n - width + k] == y;
    }
    DistinctSlices(sorted, head, rest, mid);
  }

  lemma DistinctSlices<T>(sorted: seq<T>, head: seq<T>, rest: seq<T>, mid: seq<T>)
    requires Distinct(sorted) && sorted == head + rest
    requires forall y :: y in mid ==> y in head
    ensures Dedup(head + (mid + rest)) == sorted
  {
    assert head + (mid + rest) == (head + mid) + rest;
    DedupOfDistinct(sorted);
    DedupAppendPresent(head, mid);
    DedupSplit(head, mid, rest);
  }

  /** De-duplication of `a + m + r` where `m` repeats `a` and `a + r` has no repeats. */
  lemma {:induction false} DedupSplit<T>(a: seq<T>, m: seq<T>, r: seq<T>)
    requires Distinct(a + r) && forall y :: y in m ==> y in a
    ensures Dedup((a + m) + r) == a + r
    decreases |r|
  {
    if r == [] {
      assert (a + m) + r == a + m && a + r == a;
      DedupAppendPresent(a, m);
      DedupOfDistinct(a);
    } else {
      var init := r[..|r| - 1];
      var last := r[|r| - 1];
      assert Distinct(a + init) by {
        forall i, j | 0 <= i < j < |a + init| ensures (a + init)[i] != (a + init)[j] {
          assert (a + init)[i] == (a + r)[i] && (a + init)[j] == (a + r)[j];
        }
      }
      DedupSplit(a, m, init);
      assert ((a + m) + r)[..|(a + m) + r| - 1] == (a + m) + init;
      assert last !in a + init by {
        forall k | 0 <= k < |a + init| ensures (a + init)[k] != last {
          assert (a + init)[k] == (a + r)[k] && last == (a + r)[|a + r| - 1];
        }
      }
      assert (a + init) + [last] == a + r;
    }
  }

  lemma SortByDistinct<T>(xs: seq<T>, key: T -> int)
    requires Distinct(xs)
    ensures Distinct(SortBy(xs, key))
  {
    SortByPermutes(xs, key);
    DistinctPermutation(xs, SortBy(xs, key));
  }

  lemma DistinctPermutation<T>(xs: seq<T>, ys: seq<T>)
    requires Distinct(xs) && multiset(xs) == multiset(ys)
    ensures Distinct(ys)
  {
    forall i, j | 0 <= i < j < |ys| ensures ys[i] != ys[j] {
      if ys[i] == ys[j] {
        var v := ys[i];
        assert multiset(ys)[v] >= 2 by {
          assert ys == ys[..i] + [v] + ys[i + 1..j] + [v] + ys[j + 1..];
        }
        MultiplicityOfDistinct(xs, v);
      }
    }
  }

  lemma {:induction false} MultiplicityOfDistinct<T>(xs: seq<T>, v: T)
    requires Distinct(xs)
    ensures multiset(xs)[v] <= 1
  {
    if xs != [] {
      var init := xs[..|xs| - 1];
      assert Distinct(init);
      MultiplicityOfDistinct(init, v);
      assert xs == init + [xs[|xs| - 1]];
      if xs[|xs| - 1] == v {
        assert v !in init;
      }
    }
  }

  // ---------------------------------------------------------------------
  // Processing combinations into result items

  function DetailOf(p: EventCondition): PatternDetail
  {
    PatternDetail(p.name, p.description, p.eventType.Value(), p.market)
  }

  /** The detail records of the names of `combo` that are in the table, in order; unknown names are skipped. */
  function Details(combo: seq<string>, table: map<string, EventCondition>): (r: seq<PatternDetail>)
    ensures |r| <= |combo|
  {
    if combo == [] then []
    else (if combo[0] in table then [DetailOf(table[combo[0]])] else []) + Details(combo[1..], table)
  }

  lemma {:induction false} DetailsAppend(a: seq<string>, b: seq<string>, table: map<string, EventCondition>)
    ensures Details(a + b, table) == Details(a, table) + Details(b, table)
  {
    if a == [] {
      assert a + b == b;
    } else {
      assert (a + b)[1..] == a[1..] + b;
      DetailsAppend(a[1..], b, table);
    }
  }

  /** When every name is known, there is one detail per name, in order. */
  lemma {:induction false} DetailsAllKnown(combo: seq<string>, table: map<string, EventCondition>)
    requires forall i :: 0 <= i < |combo| ==> combo[i] in table
    ensures |Details(combo, table)| == |combo|
    ensures forall i :: 0 <= i < |combo| ==> Details(combo, table)[i] == DetailOf(table[combo[i]])
  {
    if combo != [] {
      assert forall i :: 0 <= i < |combo[1..]| ==> combo[1..][i] == combo[i + 1];
      DetailsAllKnown(combo[1..], table);
    }
  }

  function ProcessEntry(e: Entry, table: map<string, EventCondition>, totalMatches: int, strategy: string): (r: ResultItem)
    ensures r.combinationSize == |e.0| && r.occurrenceCount == e.1
    ensures r.percentage == Percent(e.1, totalMatches)
    ensures 0 <= e.1 <= totalMatches ==> 0.0 <= r.percentage <= 100.0
  {
    ResultItem(Details(e.0, table), |e.0|, e.1, Percent(e.1, totalMatches), strategy)
  }

  /** `_process_combination_list`: one item per entry, in order. */
  function ProcessList(entries: seq<Entry>, table: map<string, EventCondition>, totalMatches: int, strategy: string): (r: seq<ResultItem>)
    ensures |r| == |entries|
    ensures forall i :: 0 <= i < |entries| ==> r[i] == ProcessEntry(entries[i], table, totalMatches, strategy)
  {
    seq(|entries|, i requires 0 <= i < |entries| => ProcessEntry(entries[i], table, totalMatches, strategy))
  }

  /** One more entry adds its item at the end. */
  lemma ProcessListSnoc(entries: seq<Entry>, i: nat, table: map<string, EventCondition>, totalMatches: int, strategy: string)
    requires i < |entries|
    ensures ProcessList(entries[..i + 1], table, totalMatches, strategy) ==
      ProcessList(entries[..i], table, totalMatches, strategy) + [ProcessEntry(entries[i], table, totalMatches, strategy)]
  {
    var l := ProcessList(entries[..i + 1], table, totalMatches, strategy);
    var r := ProcessList(entries[..i], table, totalMatches, strategy) + [ProcessEntry(entries[i], table, totalMatches, strategy)];
    assert |l| == |r|;
    forall j | 0 <= j < |l| ensures l[j] == r[j] {
      assert entries[..i + 1][j] == entries[j];
    }
  }

  function ItemCount(it: ResultItem): int
  {
    it.occurrenceCount
  }

  // ---------------------------------------------------------------------
  // Per-size results and the final dictionary

  function Filter<T>(xs: seq<T>, p: T -> bool): (r: seq<T>)
    ensures |r| <= |xs|
  {
    if xs == [] then [] else (if p(xs[0]) then [xs[0]] else []) + Filter(xs[1..], p)
  }

  /** Filter keeps only elements of xs that satisfy p. */
  lemma {:induction false} FilterMembers<T>(xs: seq<T>, p: T -> bool)
    ensures forall x :: x in Filter(xs, p) ==> x in xs && p(x)
  {
    if xs != [] {
      FilterMembers(xs[1..], p);
    }
  }

  lemma {:induction false} FilterComplement<T>(xs: seq<T>, p: T -> bool, q: T -> bool)
    requires forall x :: x in xs ==> (p(x) <==> !q(x))
    ensures |Filter(xs, p)| + |Filter(xs, q)| == |xs|
  {
    if xs != [] {
      FilterComplement(xs[1..], p, q);
    }
  }

  lemma {:induction false} FilterAppend<T>(a: seq<T>, b: seq<T>, p: T -> bool)
    ensures Filter(a + b, p) == Filter(a, p) + Filter(b, p)
  {
    if a == [] {
      assert a + b == b;
    } else {
      assert (a + b)[1..] == a[1..] + b;
      assert Filter(a + b, p) == (if p(a[0]) then [a[0]] else []) + Filter(a[1..] + b, p);
      FilterAppend(a[1..], b, p);
    }
  }

  function IsOfSize(size: nat): Entry -> bool
  {
    (e: Entry) => |e.0| == size
  }

  function Occurred(e: Entry): bool
  {
    e.1 > 0
  }

  function NeverOccurred(e: Entry): bool
  {
    e.1 == 0
  }

  /** The entries of one size that occurred, as `_get_display_candidates` selects them. */
  function OccurredCandidates(items: seq<Entry>, size: nat, k: nat): seq<Entry>
  {
    DisplayCandidates(Filter(Filter(items, IsOfSize(size)), Occurred), k)
  }

  /** The never-occurred entries of one size, up to k of them. */
  function NeverCandidates(items: seq<Entry>, size: nat, k: nat): seq<Entry>
  {
    Take(Filter(Filter(items, IsOfSize(size)), NeverOccurred), k)
  }

  /** The block for one size of `organized_results`. */
  function SizeResultOf(items: seq<Entry>, size: nat, k: nat, table: map<string, EventCondition>, totalMatches: int, strategy: string): SizeResults
  {
    var sized := Filter(items, IsOfSize(size));
    if sized == [] then EmptySizeResults else SizeBlockOf(sized, k, table, totalMatches, strategy)
  }

  /** The block of a size that has entries: up to k never-occurred, the k most and the k least frequent candidates. */
  function SizeBlockOf(sized: seq<Entry>, k: nat, table: map<string, EventCondition>, totalMatches: int, strategy: string): SizeResults
  {
    var occurred := Filter(sized, Occurred);
    var never := Filter(sized, NeverOccurred);
    var processedOccurred := ProcessList(DisplayCandidates(occurred, k), table, totalMatches, strategy);
    var processedNever := ProcessList(Take(never, k), table, totalMatches, strategy);
    var sorted := SortBy(processedOccurred, ItemCount);
    SizeResults(
      Take(processedNever, k),
      Take(sorted, k),
      Reverse(PyTail(sorted, k)),
      |sized|,
      |occurred|,
      |never|)
  }

  /** Every entry of a size is counted as occurred or as never occurred. */
  lemma SizeCountsAddUp(items: seq<Entry>, size: nat, k: nat, table: map<string, EventCondition>, totalMatches: int, strategy: string)
    ensures var r := SizeResultOf(items, size, k, table, totalMatches, strategy);
      r.occurredCount + r.neverOccurredCount == r.totalCombinations
    ensures (forall e :: e in items ==> |e.0| != size) ==>
      SizeResultOf(items, size, k, table, totalMatches, strategy) == EmptySizeResults
  {
    var sized := Filter(items, IsOfSize(size));
    FilterComplement(sized, Occurred, NeverOccurred);
    FilterMembers(items, IsOfSize(size));
    if sized != [] {
      assert sized[0] in items && |sized[0].0| == size;
    }
  }

  /**
   * `least_occurred` holds the smallest counts in ascending order, and `most_occurred`
   * the largest in descending order; no shown item is beaten by one left out.
   */
  /** Over a sorted list, the first k are the smallest and the last k, reversed, the largest in descending order. */
  lemma SortedEnds<T>(sorted: seq<T>, key: T -> int, k: nat)
    requires SortedBy(sorted, key)
    ensures var least := Take(sorted, k);
      var most := Reverse(PyTail(sorted, k));
      SortedBy(least, key) &&
      (forall i, j :: 0 <= i < j < |most| ==> key(most[i]) >= key(most[j])) &&
      (forall i, j :: 0 <= i < |least| <= j < |sorted| ==> key(least[i]) <= key(sorted[j])) &&
      (forall i, j :: 0 <= j < |sorted| - |most| && 0 <= i < |most| ==> key(most[i]) >= key(sorted[j]))
  {
    LeastEnd(sorted, key, k);
    MostEnd(sorted, key, k);
  }

  /** The first k of a sorted list are sorted and beat none of the rest. */
  lemma LeastEnd<T>(sorted: seq<T>, key: T -> int, k: nat)
    requires SortedBy(sorted, key)
    ensures var least := Take(sorted, k);
      SortedBy(least, key) &&
      (forall i, j :: 0 <= i < |least| <= j < |sorted| ==> key(least[i]) <= key(sorted[j]))
  {
    var least := Take(sorted, k);
    assert forall i :: 0 <= i < |least| ==> least[i] == sorted[i];
  }

  /** The last k of a sorted list, reversed, descend and are beaten by none of the rest. */
  lemma MostEnd<T>(sorted: seq<T>, key: T -> int, k: nat)
    requires SortedBy(sorted, key)
    ensures var most := Reverse(PyTail(sorted, k));
      (forall i, j :: 0 <= i < j < |most| ==> key(most[i]) >= key(most[j])) &&
      (forall i, j :: 0 <= j < |sorted| - |most| && 0 <= i < |most| ==> key(most[i]) >= key(sorted[j]))
  {
    var tail := PyTail(sorted, k);
    var most := Reverse(tail);
    var off := |sorted| - |tail|;
    ReverseAt(tail);
    assert forall i :: 0 <= i < |most| ==> most[i] == sorted[off + |tail| - 1 - i];
  }

  lemma LeastAndMost(items: seq<ResultItem>, k: nat)
    ensures var sorted := SortBy(items, ItemCount);
      var least := Take(sorted, k);
      var most := Reverse(PyTail(sorted, k));
      SortedBy(least, ItemCount) &&
      (forall i, j :: 0 <= i < j < |most| ==> most[i].occurrenceCount >= most[j].occurrenceCount) &&
      (forall i, j :: 0 <= i < |least| <= j < |sorted| ==> least[i].occurrenceCount <= sorted[j].occurrenceCount) &&
      (forall i, j :: 0 <= j < |sorted| - |most| && 0 <= i < |most| ==> most[i].occurrenceCount >= sorted[j].occurrenceCount)
  {
    SortBySorted(items, ItemCount);
    SortedEnds(SortBy(items, ItemCount), ItemCount, k);
  }

  function Sum(xs: seq<nat>): nat
  {
    if xs == [] then 0 else xs[0] + Sum(xs[1..])
  }

  function Min(xs: seq<nat>): (r: nat)
    requires xs != []
    ensures r in xs && forall i :: 0 <= i < |xs| ==> r <= xs[i]
  {
    if |xs| == 1 then xs[0]
    else
      var m := Min(xs[1..]);
      assert forall i :: 1 <= i < |xs| ==> xs[i] == xs[1..][i - 1];
      if xs[0] <= m then xs[0] else m
  }

  function Max(xs: seq<nat>): (r: nat)
    requires xs != []
    ensures r in xs && forall i :: 0 <= i < |xs| ==> r >= xs[i]
  {
    if |xs| == 1 then xs[0]
    else
      var m := Max(xs[1..]);
      assert forall i :: 1 <= i < |xs| ==> xs[i] == xs[1..][i - 1];
      if xs[0] >= m then xs[0] else m
  }

  function Counts(entries: seq<Entry>): (r: seq<nat>)
    ensures |r| == |entries|
    ensures forall i :: 0 <= i < |entries| ==> r[i] == entries[i].1
  {
    seq(|entries|, i requires 0 <= i < |entries| => entries[i].1)
  }

  /** `_calculate_stats_from_raw`: over the CANDIDATES only; all zero when none occurred. */
  function StatsFromRaw(occurred: seq<Entry>, never: seq<Entry>): (r: Stats)
    ensures r.totalCombinationsChecked == |occurred| + |never|
    ensures r.neverOccurredCount == |never|
    ensures occurred == [] ==>
      r.validCombinationsCount == 0 && r.occurredCount == 0 &&
      r.minOccurrence == 0 && r.maxOccurrence == 0 && r.avgOccurrence == 0.0
    ensures occurred != [] ==>
      r.occurredCount == |occurred| && r.validCombinationsCount == Sum(Counts(occurred))
  {
    if occurred == [] then Stats(|never|, 0, |never|, 0, 0, 0, 0.0)
    else
      var cs := Counts(occurred);
      Stats(|occurred| + |never|, Sum(cs), |never|, |occurred|, Min(cs), Max(cs), Sum(cs) as real / |occurred| as real)
  }

  lemma {:induction false} SumBounds(xs: seq<nat>, lo: nat, hi: nat)
    requires forall i :: 0 <= i < |xs| ==> lo <= xs[i] <= hi
    ensures lo * |xs| <= Sum(xs) <= hi * |xs|
  {
    if xs != [] {
      var n := |xs| - 1;
      assert forall i :: 0 <= i < |xs[1..]| ==> xs[1..][i] == xs[i + 1];
      SumBounds(xs[1..], lo, hi);
      assert lo * |xs| == lo * n + lo && hi * |xs| == hi * n + hi by {
        MulSucc(lo, n);
        MulSucc(hi, n);
      }
    }
  }

  lemma MulSucc(a: nat, n: nat)
    ensures a * (n + 1) == a * n + a
  {
  }

  lemma DivideBetween(lo: real, s: real, hi: real, n: real)
    requires n > 0.0 && lo * n <= s <= hi * n
    ensures lo <= s / n <= hi
  {
  }

  lemma CastProduct(a: nat, b: nat)
    ensures (a * b) as real == a as real * b as real
  {
  }

  lemma CountsAverage(lo: nat, total: nat, hi: nat, n: nat)
    requires n > 0 && lo * n <= total <= hi * n
    ensures lo as real <= total as real / n as real <= hi as real
  {
    CastProduct(lo, n);
    CastProduct(hi, n);
    DivideBetween(lo as real, total as real, hi as real, n as real);
  }

  lemma AverageOfCounts(cs: seq<nat>)
    requires cs != []
    ensures Min(cs) as real <= Sum(cs) as real / |cs| as real <= Max(cs) as real
  {
    SumBounds(cs, Min(cs), Max(cs));
    CountsAverage(Min(cs), Sum(cs), Max(cs), |cs|);
  }

  /**
   * When some candidate occurred, the minimum and the maximum are counts of
   * candidates that bound every other, and the average lies between them.
   */
  lemma StatsOfOccurred(occurred: seq<Entry>, never: seq<Entry>)
    requires occurred != []
    ensures var s := StatsFromRaw(occurred, never);
      (exists i :: 0 <= i < |occurred| && s.minOccurrence == occurred[i].1) &&
      (exists i :: 0 <= i < |occurred| && s.maxOccurrence == occurred[i].1) &&
      (forall i :: 0 <= i < |occurred| ==> s.minOccurrence <= occurred[i].1 <= s.maxOccurrence) &&
      s.minOccurrence as real <= s.avgOccurrence <= s.maxOccurrence as real
  {
    var cs := Counts(occurred);
    var i :| 0 <= i < |cs| && cs[i] == Min(cs);
    var j :| 0 <= j < |cs| && cs[j] == Max(cs);
    AverageOfCounts(cs);
  }

  /** The lists f(lo), f(lo+1), ..., f(hi-1), concatenated in that order. */
  function ConcatRange<T>(f: nat -> seq<T>, lo: nat, hi: nat): seq<T>
    decreases hi
  {
    if hi <= lo then [] else ConcatRange(f, lo, hi - 1) + f(hi - 1)
  }

  /** The candidates of each size, as one function of the size. */
  function CandidatesBySize(items: seq<Entry>, k: nat): nat -> seq<Entry>
  {
    (size: nat) => OccurredCandidates(items, size, k)
  }

  /** The candidate lists of sizes lo, lo+1, ..., hi-1, concatenated in that order. */
  function AllOccurredCandidates(items: seq<Entry>, lo: nat, hi: nat, k: nat): seq<Entry>
  {
    ConcatRange(CandidatesBySize(items, k), lo, hi)
  }

  function AllNeverCandidates(items: seq<Entry>, lo: nat, hi: nat, k: nat): seq<Entry>
    decreases hi
  {
    if hi <= lo then [] else AllNeverCandidates(items, lo, hi - 1, k) + NeverCandidates(items, hi - 1, k)
  }

  function Organized(items: seq<Entry>, minSize: nat, maxSize: nat, k: nat, table: map<string, EventCondition>, totalMatches: int, strategy: string): map<nat, SizeResults>
  {
    map s: nat | minSize <= s <= maxSize :: SizeResultOf(items, s, k, table, totalMatches, strategy)
  }

  /** `_prepare_final_results_lazy` on the items of the tally, in their dictionary order. */
  function FinalResultsOf(items: seq<Entry>, minSize: nat, maxSize: nat, k: nat, table: map<string, EventCondition>, totalMatches: int, strategy: string): FinalResults
  {
    var occ := AllOccurredCandidates(items, minSize, maxSize + 1, k);
    var never := AllNeverCandidates(items, minSize, maxSize + 1, k);
    var overallOccurred := ProcessList(DisplayCandidates(occ, 2 * k), table, totalMatches, strategy);
    var overallNever := ProcessList(Take(never, k), table, totalMatches, strategy);
    FinalResults(
      Organized(items, minSize, maxSize, k, table, totalMatches, strategy),
      Take(overallNever, k),
      Take(overallOccurred, k),
      PyTail(overallOccurred, k),
      StatsFromRaw(occ, never))
  }

  // ---------------------------------------------------------------------
  // Order and distinctness of the overall lists

  /** Sorting keeps exactly the elements. */
  lemma SortByMembers<T>(xs: seq<T>, key: T -> int)
    ensures forall e :: e in SortBy(xs, key) <==> e in xs
  {
    SortByPermutes(xs, key);
    assert forall e :: e in SortBy(xs, key) <==> e in multiset(SortBy(xs, key));
    assert forall e :: e in xs <==> e in multiset(xs);
  }

  /** The two ends of a list are elements of it. */
  lemma BothEndsMembers<T>(xs: seq<T>, width: nat)
    ensures forall e :: e in Take(xs, width) + PyTail(xs, width) ==> e in xs
  {
    var t, p := Take(xs, width), PyTail(xs, width);
    assert forall i :: 0 <= i < |t| ==> t[i] == xs[i];
    assert forall i :: 0 <= i < |p| ==> p[i] == xs[|xs| - |p| + i];
  }

  /** Every display candidate is one of the entries, and the candidates have no repeats. */
  lemma DisplayCandidatesFrom(entries: seq<Entry>, width: nat)
    ensures Distinct<Entry>(DisplayCandidates(entries, width))
    ensures forall i :: 0 <= i < |DisplayCandidates(entries, width)| ==> DisplayCandidates(entries, width)[i] in entries
  {
    if entries != [] {
      var sorted := SortBy(entries, CountOf);
      var both := Take(sorted, width) + PyTail(sorted, width);
      DedupDistinct(both);
      DedupAt(both);
      BothEndsMembers(sorted, width);
      SortByMembers(entries, CountOf);
      assert DisplayCandidates(entries, width) == Dedup(both);
    }
  }

  /** The candidates of one size are distinct entries of that size that occurred. */
  lemma OccurredCandidatesFrom(items: seq<Entry>, size: nat, k: nat)
    ensures Distinct<Entry>(OccurredCandidates(items, size, k))
    ensures forall i :: 0 <= i < |OccurredCandidates(items, size, k)| ==>
      OccurredCandidates(items, size, k)[i] in items && |OccurredCandidates(items, size, k)[i].0| == size &&
      OccurredCandidates(items, size, k)[i].1 > 0
  {
    var sized := Filter(items, IsOfSize(size));
    FilterMembers(items, IsOfSize(size));
    FilterMembers(sized, Occurred);
    DisplayCandidatesFrom(Filter(sized, Occurred), k);
  }

  /** Two lists without repeats and without a common element concatenate to one without repeats. */
  lemma DistinctConcat<T>(a: seq<T>, b: seq<T>)
    requires Distinct(a) && Distinct(b)
    requires forall i, j :: 0 <= i < |a| && 0 <= j < |b| ==> a[i] != b[j]
    ensures Distinct(a + b)
  {
    var ab := a + b;
    forall i, j | 0 <= i < j < |ab| ensures ab[i] != ab[j] {
      if j < |a| {
        assert ab[i] == a[i] && ab[j] == a[j];
      } else if i >= |a| {
        assert ab[i] == b[i - |a|] && ab[j] == b[j - |a|];
      } else {
        assert ab[i] == a[i] && ab[j] == b[j - |a|];
      }
    }
  }

  /** Entries of lengths in [lo, n) followed by entries of length n have lengths in [lo, n]. */
  lemma ConcatSizes(a: seq<Entry>, b: seq<Entry>, c: seq<Entry>, lo: nat, n: nat)
    requires c == a + b && lo <= n
    requires forall i :: 0 <= i < |a| ==> lo <= |a[i].0| < n && a[i].1 > 0
    requires forall j :: 0 <= j < |b| ==> |b[j].0| == n && b[j].1 > 0
    ensures forall i :: 0 <= i < |c| ==> lo <= |c[i].0| <= n && c[i].1 > 0
  {
    forall i | 0 <= i < |c| ensures lo <= |c[i].0| <= n && c[i].1 > 0 {
      if i < |a| {
        assert c[i] == a[i];
      } else {
        assert c[i] == b[i - |a|];
      }
    }
  }

  /** Distinct entries shorter than n followed by distinct entries of length n have no repeats. */
  lemma ConcatDistinct(a: seq<Entry>, b: seq<Entry>, c: seq<Entry>, n: nat)
    requires c == a + b
    requires Distinct<Entry>(a) && Distinct<Entry>(b)
    requires forall i :: 0 <= i < |a| ==> |a[i].0| < n
    requires forall j :: 0 <= j < |b| ==> |b[j].0| == n
    ensures Distinct<Entry>(c)
  {
    forall i, j | 0 <= i < |a| && 0 <= j < |b| ensures a[i] != b[j] {
      assert |a[i].0| < n == |b[j].0|;
    }
    DistinctConcat(a, b);
  }

  /** Two lists of elements of xs concatenate to one. */
  lemma ConcatWithin(a: seq<Entry>, b: seq<Entry>, c: seq<Entry>, xs: seq<Entry>)
    requires c == a + b
    requires forall i :: 0 <= i < |a| ==> a[i] in xs
    requires forall j :: 0 <= j < |b| ==> b[j] in xs
    ensures forall i :: 0 <= i < |c| ==> c[i] in xs
  {
    forall i | 0 <= i < |c| ensures c[i] in xs {
      if i < |a| {
        assert c[i] == a[i];
      } else {
        assert c[i] == b[i - |a|];
      }
    }
  }

  /** Blocks whose entries have the block's size concatenate to entries of sizes in [lo, hi). */
  lemma {:induction false} ConcatRangeSizes(f: nat -> seq<Entry>, lo: nat, hi: nat)
    requires forall s :: lo <= s < hi ==> forall i :: 0 <= i < |f(s)| ==> |f(s)[i].0| == s && f(s)[i].1 > 0
    ensures forall i :: 0 <= i < |ConcatRange(f, lo, hi)| ==>
      lo <= |ConcatRange(f, lo, hi)[i].0| < hi && ConcatRange(f, lo, hi)[i].1 > 0
    decreases hi
  {
    if hi > lo {
      var h: nat := hi - 1;
      ConcatRangeSizes(f, lo, h);
      ConcatSizes(ConcatRange(f, lo, h), f(h), ConcatRange(f, lo, hi), lo, h);
    }
  }

  /** Distinct blocks whose entries have the block's size concatenate to a list without repeats. */
  lemma {:induction false} ConcatRangeDistinct(f: nat -> seq<Entry>, lo: nat, hi: nat)
    requires forall s :: lo <= s < hi ==> Distinct<Entry>(f(s))
    requires forall s :: lo <= s < hi ==> forall i :: 0 <= i < |f(s)| ==> |f(s)[i].0| == s && f(s)[i].1 > 0
    ensures Distinct<Entry>(ConcatRange(f, lo, hi))
    decreases hi
  {
    if hi > lo {
      var h: nat := hi - 1;
      ConcatRangeDistinct(f, lo, h);
      ConcatRangeSizes(f, lo, h);
      ConcatDistinct(ConcatRange(f, lo, h), f(h), ConcatRange(f, lo, hi), h);
    }
  }

  /** Blocks of elements of xs concatenate to elements of xs. */
  lemma {:induction false} ConcatRangeWithin(f: nat -> seq<Entry>, lo: nat, hi: nat, xs: seq<Entry>)
    requires forall s :: lo <= s < hi ==> forall i :: 0 <= i < |f(s)| ==> f(s)[i] in xs
    ensures forall i :: 0 <= i < |ConcatRange(f, lo, hi)| ==> ConcatRange(f, lo, hi)[i] in xs
    decreases hi
  {
    if hi > lo {
      var h: nat := hi - 1;
      ConcatRangeWithin(f, lo, h, xs);
      ConcatWithin(ConcatRange(f, lo, h), f(h), ConcatRange(f, lo, hi), xs);
    }
  }

  /**
   * `all_occurred_candidates` has no repeats (within a size the candidates are
   * de-duplicated, and candidates of different sizes differ in length), and
   * every candidate is an entry of the tally that occurred, of a size in [lo, hi).
   */
  lemma AllOccurredCandidatesFrom(items: seq<Entry>, lo: nat, hi: nat, k: nat)
    ensures Distinct<Entry>(AllOccurredCandidates(items, lo, hi, k))
    ensures forall i :: 0 <= i < |AllOccurredCandidates(items, lo, hi, k)| ==>
      AllOccurredCandidates(items, lo, hi, k)[i] in items &&
      lo <= |AllOccurredCandidates(items, lo, hi, k)[i].0| < hi && AllOccurredCandidates(items, lo, hi, k)[i].1 > 0
  {
    var f := CandidatesBySize(items, k);
    forall s | lo <= s < hi
      ensures Distinct<Entry>(f(s))
      ensures forall i :: 0 <= i < |f(s)| ==> f(s)[i] in items && |f(s)[i].0| == s && f(s)[i].1 > 0
    {
      OccurredCandidatesFrom(items, s, k);
    }
    ConcatRangeSizes(f, lo, hi);
    ConcatRangeDistinct(f, lo, hi);
    ConcatRangeWithin(f, lo, hi, items);
  }

  /** The two ends of a sorted list are sorted, start with its first element and end with its last. */
  lemma EndsSorted<T>(sorted: seq<T>, width: nat, key: T -> int)
    requires SortedBy(sorted, key)
    ensures SortedBy(EndsOf(sorted, width), key)
    ensures |EndsOf(sorted, width)| > 0 <==> |sorted| > 0
    ensures |sorted| > 0 ==> EndsOf(sorted, width)[0] == sorted[0]
    ensures |sorted| > 0 ==> EndsOf(sorted, width)[|EndsOf(sorted, width)| - 1] == sorted[|sorted| - 1]
  {
    var n := |sorted|;
    if !(width == 0 || 2 * width >= n) {
      var ends := sorted[..width] + sorted[n - width..];
      assert forall i :: 0 <= i < width ==> ends[i] == sorted[i];
      assert forall i :: width <= i < 2 * width ==> ends[i] == sorted[n - 2 * width + i];
      SortedTwoParts(sorted, ends, width, key);
    }
  }

  /** The first `width` and the last `width` elements of a sorted list, in order, are sorted. */
  lemma SortedTwoParts<T>(sorted: seq<T>, ends: seq<T>, width: nat, key: T -> int)
    requires SortedBy(sorted, key) && |ends| == 2 * width <= |sorted|
    requires forall i :: 0 <= i < width ==> ends[i] == sorted[i]
    requires forall i :: width <= i < 2 * width ==> ends[i] == sorted[|sorted| - 2 * width + i]
    ensures SortedBy(ends, key)
  {
    var off := |sorted| - 2 * width;
    forall i, j | 0 <= i < j < |ends| ensures key(ends[i]) <= key(ends[j]) {
      var a := if i < width then i else off + i;
      var b := if j < width then j else off + j;
      assert ends[i] == sorted[a] && ends[j] == sorted[b] && a <= b;
    }
  }

  /** After sorting, the first key is the smallest and the last the largest. */
  lemma SortByBounds<T>(xs: seq<T>, key: T -> int)
    ensures forall i :: 0 <= i < |xs| ==> key(SortBy(xs, key)[0]) <= key(xs[i]) <= key(SortBy(xs, key)[|xs| - 1])
  {
    var sorted := SortBy(xs, key);
    SortBySorted(xs, key);
    SortByPermutes(xs, key);
    forall i | 0 <= i < |xs| ensures key(sorted[0]) <= key(xs[i]) <= key(sorted[|xs| - 1]) {
      assert xs[i] in multiset(sorted);
      var j :| 0 <= j < |sorted| && sorted[j] == xs[i];
    }
  }

  /** `xs[:k]` starts, and `xs[-k:]` ends, where xs does. */
  lemma TakeTailEnds<T>(xs: seq<T>, k: nat)
    ensures Take(xs, k) != [] ==> Take(xs, k)[0] == xs[0]
    ensures PyTail(xs, k) != [] ==> PyTail(xs, k)[|PyTail(xs, k)| - 1] == xs[|xs| - 1]
  {
  }

  /** The first elements of a sorted list are sorted. */
  lemma TakeSorted<T>(xs: seq<T>, k: nat, key: T -> int)
    requires SortedBy(xs, key)
    ensures SortedBy(Take(xs, k), key)
  {
    var t := Take(xs, k);
    assert forall i :: 0 <= i < |t| ==> t[i] == xs[i];
  }

  /** The last elements of a sorted list are sorted. */
  lemma TailSorted<T>(xs: seq<T>, k: nat, key: T -> int)
    requires SortedBy(xs, key)
    ensures SortedBy(PyTail(xs, k), key)
  {
    var t := PyTail(xs, k);
    var off := |xs| - |t|;
    assert forall i :: 0 <= i < |t| ==> t[i] == xs[off + i];
  }

  /**
   * Over distinct candidates, the overall display list is the two 2K ends of
   * the candidates sorted by count; its first K and its last K both ascend,
   * the first starting with the smallest count and the last ending with the
   * largest.
   */
  lemma OverallLists(occ: seq<Entry>, k: nat, table: map<string, EventCondition>, totalMatches: int, strategy: string)
    requires Distinct<Entry>(occ)
    ensures ProcessList(DisplayCandidates(occ, 2 * k), table, totalMatches, strategy) ==
      ProcessList(EndsOf(SortBy(occ, CountOf), 2 * k), table, totalMatches, strategy)
    ensures SortedBy(Take(ProcessList(DisplayCandidates(occ, 2 * k), table, totalMatches, strategy), k), ItemCount)
    ensures SortedBy(PyTail(ProcessList(DisplayCandidates(occ, 2 * k), table, totalMatches, strategy), k), ItemCount)
    ensures var least := Take(ProcessList(DisplayCandidates(occ, 2 * k), table, totalMatches, strategy), k);
      least != [] ==> forall i :: 0 <= i < |occ| ==> least[0].occurrenceCount <= occ[i].1
    ensures var most := PyTail(ProcessList(DisplayCandidates(occ, 2 * k), table, totalMatches, strategy), k);
      most != [] ==> forall i :: 0 <= i < |occ| ==> occ[i].1 <= most[|most| - 1].occurrenceCount
  {
    DisplayCandidatesShape(occ, 2 * k);
    var sorted := SortBy(occ, CountOf);
    SortBySorted(occ, CountOf);
    var ends := EndsOf(sorted, 2 * k);
    EndsSorted(sorted, 2 * k, CountOf);
    var overall := ProcessList(ends, table, totalMatches, strategy);
    assert SortedBy(overall, ItemCount) by {
      forall i, j | 0 <= i < j < |overall| ensures ItemCount(overall[i]) <= ItemCount(overall[j]) {
        assert CountOf(ends[i]) <= CountOf(ends[j]);
      }
    }
    TakeSorted(overall, k, ItemCount);
    TailSorted(overall, k, ItemCount);
    SortByBounds(occ, CountOf);
    if occ != [] {
      assert overall[0].occurrenceCount == ends[0].1 == sorted[0].1;
      assert overall[|overall| - 1].occurrenceCount == ends[|ends| - 1].1 == sorted[|sorted| - 1].1;
      TakeTailEnds(overall, k);
    }
  }

  /**
   * The overall lists of `_prepare_final_results_lazy`: the candidates of all
   * sizes are distinct occurred entries of the tally within the size range.
   * `least_occurred` is the first K of their sorted 2K ends, ascending from the
   * smallest count; `most_occurred` is the last K, also ascending (it is not
   * reversed, unlike the per-size lists) and ending with the largest count.
   */
  lemma FinalResultsOrder(items: seq<Entry>, minSize: nat, maxSize: nat, k: nat, table: map<string, EventCondition>, totalMatches: int, strategy: string)
    ensures var occ := AllOccurredCandidates(items, minSize, maxSize + 1, k);
      Distinct<Entry>(occ) && forall i :: 0 <= i < |occ| ==> occ[i] in items && minSize <= |occ[i].0| <= maxSize && occ[i].1 > 0
    ensures var occ := AllOccurredCandidates(items, minSize, maxSize + 1, k);
      var overall := ProcessList(EndsOf(SortBy(occ, CountOf), 2 * k), table, totalMatches, strategy);
      var r := FinalResultsOf(items, minSize, maxSize, k, table, totalMatches, strategy);
      r.leastOccurred == Take(overall, k) && r.mostOccurred == PyTail(overall, k) &&
      SortedBy(r.leastOccurred, ItemCount) && SortedBy(r.mostOccurred, ItemCount)
    ensures var occ := AllOccurredCandidates(items, minSize, maxSize + 1, k);
      var r := FinalResultsOf(items, minSize, maxSize, k, table, totalMatches, strategy);
      (r.leastOccurred != [] ==> forall i :: 0 <= i < |occ| ==> r.leastOccurred[0].occurrenceCount <= occ[i].1) &&
      (r.mostOccurred != [] ==> forall i :: 0 <= i < |occ| ==> occ[i].1 <= r.mostOccurred[|r.mostOccurred| - 1].occurrenceCount)
  {
    var occ := AllOccurredCandidates(items, minSize, maxSize + 1, k);
    AllOccurredCandidatesFrom(items, minSize, maxSize + 1, k);
    OverallLists(occ, k, table, totalMatches, strategy);
    var overall := ProcessList(DisplayCandidates(occ, 2 * k), table, totalMatches, strategy);
    var r := FinalResultsOf(items, minSize, maxSize, k, table, totalMatches, strategy);
    assert r.leastOccurred == Take(overall, k) && r.mostOccurred == PyTail(overall, k);
  }
}
