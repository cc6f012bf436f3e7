/**
 * The standalone generator of `analyzers/event_combinations.py`: every
 * k-combination of a list of event types for k in [minEvents, maxEvents],
 * and a filter that keeps the combinations spanning enough categories.
 */
module EventCombinations {
  import opened Wrappers
  import opened Itertools

  // ---------------------------------------------------------------------
  // Generation

  /** The combinations of the sizes lo, lo+1, ..., s-1, smallest size first. */
  function SizesBelow<T>(xs: seq<T>, lo: nat, s: int): seq<seq<T>>
    decreases s - lo
  {
    if s <= lo then [] else SizesBelow(xs, lo, s - 1) + Combinations(xs, s - 1)
  }

  /** The sum of C(n, k) for k in [lo, s). */
  function BinomialsBelow(n: nat, lo: nat, s: int): nat
    decreases s - lo
  {
    if s <= lo then 0 else BinomialsBelow(n, lo, s - 1) + Binomial(n, s - 1)
  }

  /** The output has one entry per k-combination, summed over the sizes. */
  lemma {:induction false} SizesBelowCount<T>(xs: seq<T>, lo: nat, s: int)
    ensures |SizesBelow(xs, lo, s)| == BinomialsBelow(|xs|, lo, s)
    decreases s - lo
  {
    if s > lo {
      SizesBelowCount(xs, lo, s - 1);
    }
  }

  /** The output holds exactly the subsequences whose length lies in [lo, s). */
  lemma {:induction false} SizesBelowMembership<T>(xs: seq<T>, lo: nat, s: int, c: seq<T>)
    ensures c in SizesBelow(xs, lo, s) <==> lo <= |c| < s && IsSubseq(c, xs)
    decreases s - lo
  {
    if s > lo {
      var a, b := SizesBelow(xs, lo, s - 1), Combinations(xs, s - 1);
      assert SizesBelow(xs, lo, s) == a + b;
      assert c in a + b <==> c in a || c in b;
      SizesBelowMembership(xs, lo, s - 1, c);
      CombinationsMembership(xs, s - 1, c);
    }
  }

  /** Every combination has a size in [lo, s). */
  predicate SizesWithin<T>(r: seq<seq<T>>, lo: int, s: int)
  {
    forall i :: 0 <= i < |r| ==> lo <= |r[i]| < s
  }

  /** The sizes never decrease along the list. */
  predicate SizesAscending<T>(r: seq<seq<T>>)
  {
    forall i, j :: 0 <= i < j < |r| ==> |r[i]| <= |r[j]|
  }

  /** Appending combinations of one size m, at least every earlier size, keeps the sizes ascending. */
  lemma AscendingSnoc<T>(a: seq<seq<T>>, b: seq<seq<T>>, lo: int, m: int)
    requires lo <= m && SizesWithin(a, lo, m) && SizesAscending(a)
    requires forall k :: 0 <= k < |b| ==> |b[k]| == m
    ensures SizesWithin(a + b, lo, m + 1) && SizesAscending(a + b)
  {
    var r := a + b;
    forall i | 0 <= i < |r| ensures lo <= |r[i]| < m + 1 {
      if i < |a| { assert r[i] == a[i]; } else { assert r[i] == b[i - |a|]; }
    }
    forall i, j | 0 <= i < j < |r| ensures |r[i]| <= |r[j]| {
      if j < |a| {
        assert r[i] == a[i] && r[j] == a[j];
      } else if i < |a| {
        assert r[i] == a[i] && r[j] == b[j - |a|];
      } else {
        assert r[i] == b[i - |a|] && r[j] == b[j - |a|];
      }
    }
  }

  /** The sizes appear in ascending order, and each lies in [lo, s). */
  lemma {:induction false} SizesBelowAscending<T>(xs: seq<T>, lo: nat, s: int)
    ensures SizesWithin(SizesBelow(xs, lo, s), lo, s)
    ensures SizesAscending(SizesBelow(xs, lo, s))
    decreases s - lo
  {
    if s > lo {
      SizesBelowAscending(xs, lo, s - 1);
      var a := SizesBelow(xs, lo, s - 1);
      var b := Combinations(xs, s - 1);
      forall k | 0 <= k < |b| ensures |b[k]| == s - 1 {
        CombinationsSound(xs, s - 1, b[k]);
      }
      assert SizesBelow(xs, lo, s) == a + b;
      AscendingSnoc(a, b, lo, s - 1);
    }
  }

  /** Every binomial of the sum vanishes when all sizes exceed n. */
  lemma {:induction false} BinomialsBelowBeyond(n: nat, lo: nat, s: int)
    requires n < lo
    ensures BinomialsBelow(n, lo, s) == 0
    decreases s - lo
  {
    if s > lo {
      BinomialsBelowBeyond(n, lo, s - 1);
      BinomialBeyond(n, s - 1);
    }
  }

  /** Nothing is produced when every size exceeds the number of event types. */
  lemma SizesBelowBeyond<T>(xs: seq<T>, lo: nat, s: int)
    requires |xs| < lo
    ensures SizesBelow(xs, lo, s) == []
  {
    SizesBelowCount(xs, lo, s);
    BinomialsBelowBeyond(|xs|, lo, s);
  }

  /**
   * `generate_combinations`: `None` stands for the `ValueError` that
   * `itertools.combinations` raises for a negative size, which happens
   * exactly when the range of sizes is non-empty and starts below 0.
   */
  function Generated(allEventTypes: seq<string>, minEvents: int, maxEvents: int): (r: Option<seq<seq<string>>>)
    ensures r.None? <==> minEvents < 0 && minEvents <= maxEvents
    ensures minEvents > maxEvents ==> r == Some([])
  {
    if minEvents > maxEvents then Some([])
    else if minEvents < 0 then None
    else Some(SizesBelow(allEventTypes, minEvents, maxEvents + 1))
  }

  /** Both listed promises of the generator: its members and its length. */
  lemma GeneratedFacts(allEventTypes: seq<string>, minEvents: nat, maxEvents: int, c: seq<string>)
    ensures Generated(allEventTypes, minEvents, maxEvents).Some?
    ensures c in Generated(allEventTypes, minEvents, maxEvents).value <==>
              minEvents <= |c| <= maxEvents && IsSubseq(c, allEventTypes)
    ensures |Generated(allEventTypes, minEvents, maxEvents).value| == BinomialsBelow(|allEventTypes|, minEvents, maxEvents + 1)
    ensures |allEventTypes| < minEvents ==> Generated(allEventTypes, minEvents, maxEvents).value == []
  {
    SizesBelowMembership(allEventTypes, minEvents, maxEvents + 1, c);
    SizesBelowCount(allEventTypes, minEvents, maxEvents + 1);
    if |allEventTypes| < minEvents {
      SizesBelowBeyond(allEventTypes, minEvents, maxEvents + 1);
    }
  }

  // ---------------------------------------------------------------------
  // Filtering

  /** The category of an event, `'unknown'` when it has none. */
  function CategoryOf(event: string, eventCategories: map<string, string>): string
  {
    Get(eventCategories, event, "unknown")
  }

  /** The set of categories the events of a combination fall into. */
  function CategoriesOf(combo: seq<string>, eventCategories: map<string, string>): (r: set<string>)
    ensures forall cat :: cat in r <==> exists i :: 0 <= i < |combo| && CategoryOf(combo[i], eventCategories) == cat
  {
    set i | 0 <= i < |combo| :: CategoryOf(combo[i], eventCategories)
  }

  /** Adding an event adds its category. */
  lemma CategoriesSnoc(combo: seq<string>, eventCategories: map<string, string>)
    requires combo != []
    ensures CategoriesOf(combo, eventCategories) ==
            CategoriesOf(combo[..|combo| - 1], eventCategories) + {CategoryOf(combo[|combo| - 1], eventCategories)}
  {
    var init := combo[..|combo| - 1];
    forall cat | cat in CategoriesOf(combo, eventCategories)
      ensures cat in CategoriesOf(init, eventCategories) + {CategoryOf(combo[|combo| - 1], eventCategories)}
    {
      var i :| 0 <= i < |combo| && CategoryOf(combo[i], eventCategories) == cat;
      if i < |init| {
        assert init[i] == combo[i];
      }
    }
    forall cat | cat in CategoriesOf(init, eventCategories) ensures cat in CategoriesOf(combo, eventCategories) {
      var i :| 0 <= i < |init| && CategoryOf(init[i], eventCategories) == cat;
      assert combo[i] == init[i];
    }
  }

  /** A combination has at most as many categories as events. */
  lemma {:induction false} CategoriesAtMost(combo: seq<string>, eventCategories: map<string, string>)
    ensures |CategoriesOf(combo, eventCategories)| <= |combo|
    decreases |combo|
  {
    if combo != [] {
      CategoriesAtMost(combo[..|combo| - 1], eventCategories);
      CategoriesSnoc(combo, eventCategories);
    }
  }

  /** The test of `filter_meaningful_combinations`. */
  predicate Meaningful(combo: seq<string>, eventCategories: map<string, string>, minEvents: int)
  {
    |CategoriesOf(combo, eventCategories)| >= minEvents - 1
  }

  /** A combination shorter than minEvents - 1 can never pass the filter. */
  lemma ShortNotMeaningful(combo: seq<string>, eventCategories: map<string, string>, minEvents: int)
    requires |combo| < minEvents - 1
    ensures !Meaningful(combo, eventCategories, minEvents)
  {
    CategoriesAtMost(combo, eventCategories);
  }

  /** The combinations that pass the filter, in their input order. */
  function Filtered(combos: seq<seq<string>>, eventCategories: map<string, string>, minEvents: int): seq<seq<string>>
  {
    if combos == [] then []
    else
      var last := combos[|combos| - 1];
      Filtered(combos[..|combos| - 1], eventCategories, minEvents) + (if Meaningful(last, eventCategories, minEvents) then [last] else [])
  }

  /** A combination is kept iff it is in the input and passes the test. */
  lemma {:induction false} FilteredMembership(combos: seq<seq<string>>, eventCategories: map<string, string>, minEvents: int, c: seq<string>)
    ensures c in Filtered(combos, eventCategories, minEvents) <==> c in combos && Meaningful(c, eventCategories, minEvents)
    decreases |combos|
  {
    if combos != [] {
      var init := combos[..|combos| - 1];
      FilteredMembership(init, eventCategories, minEvents, c);
      assert combos == init + [combos[|combos| - 1]];
    }
  }

  /** Every kept combination passes the test. */
  lemma {:induction false} FilteredAllMeaningful(combos: seq<seq<string>>, eventCategories: map<string, string>, minEvents: int)
    ensures forall i :: 0 <= i < |Filtered(combos, eventCategories, minEvents)| ==>
              Meaningful(Filtered(combos, eventCategories, minEvents)[i], eventCategories, minEvents)
    decreases |combos|
  {
    if combos != [] {
      FilteredAllMeaningful(combos[..|combos| - 1], eventCategories, minEvents);
    }
  }

  /** Snoc on the input sequence of the subsequence relation. */
  lemma {:induction false} SubseqSnoc<T>(c: seq<T>, xs: seq<T>, x: T, keep: bool)
    requires IsSubseq(c, xs)
    ensures IsSubseq(c + (if keep then [x] else []), xs + [x])
    decreases |xs|
  {
    if xs == [] {
      assert c == [];
      if keep {
        assert IsSubseq([x][1..], [x][1..]);
      }
    } else if c == [] {
      if keep {
        SubseqSnoc(c, xs[1..], x, keep);
        assert (xs + [x])[1..] == xs[1..] + [x];
      }
    } else {
      assert (xs + [x])[1..] == xs[1..] + [x];
      var c' := c + (if keep then [x] else []);
      assert c'[0] == c[0];
      if c[0] == xs[0] && IsSubseq(c[1..], xs[1..]) {
        SubseqSnoc(c[1..], xs[1..], x, keep);
        assert c'[1..] == c[1..] + (if keep then [x] else []);
      } else {
        SubseqSnoc(c, xs[1..], x, keep);
      }
    }
  }

  /** The kept combinations are a subsequence of the input: the filter keeps the order. */
  lemma {:induction false} FilteredSubseq(combos: seq<seq<string>>, eventCategories: map<string, string>, minEvents: int)
    ensures IsSubseq(Filtered(combos, eventCategories, minEvents), combos)
    decreases |combos|
  {
    if combos == [] {
    } else {
      var init := combos[..|combos| - 1];
      var last := combos[|combos| - 1];
      FilteredSubseq(init, eventCategories, minEvents);
      SubseqSnoc(Filtered(init, eventCategories, minEvents), init, last, Meaningful(last, eventCategories, minEvents));
      assert init + [last] == combos;
    }
  }

  /** Filtering twice is filtering once. */
  lemma {:induction false} FilteredIdempotent(combos: seq<seq<string>>, eventCategories: map<string, string>, minEvents: int)
    ensures Filtered(Filtered(combos, eventCategories, minEvents), eventCategories, minEvents) == Filtered(combos, eventCategories, minEvents)
    decreases |combos|
  {
    if combos != [] {
      var init := combos[..|combos| - 1];
      var last := combos[|combos| - 1];
      var f := Filtered(init, eventCategories, minEvents);
      FilteredIdempotent(init, eventCategories, minEvents);
      if Meaningful(last, eventCategories, minEvents) {
        var g := f + [last];
        assert g[..|g| - 1] == f && g[|g| - 1] == last;
        assert Filtered(g, eventCategories, minEvents) == Filtered(f, eventCategories, minEvents) + [last];
        assert Filtered(combos, eventCategories, minEvents) == g;
      } else {
        assert Filtered(combos, eventCategories, minEvents) == f;
      }
    }
  }

  // ---------------------------------------------------------------------
  // The class

  /** `EventCombinationGenerator`, with its two size bounds. */
  class EventCombinationGenerator {
    const minEvents: int
    const maxEvents: int

    constructor (minEvents: int := 3, maxEvents: int := 5)
      ensures this.minEvents == minEvents && this.maxEvents == maxEvents
    {
      this.minEvents := minEvents;
      this.maxEvents := maxEvents;
    }

    /** `generate_combinations`: the size loop around the loop over `itertools.combinations`. */
    method GenerateCombinations(allEventTypes: seq<string>) returns (r: Option<seq<seq<string>>>)
      ensures r == Generated(allEventTypes, minEvents, maxEvents)
    {
      if minEvents > maxEvents {
        return Some([]);
      }
      if minEvents < 0 {
        return None;
      }
      var allCombinations: seq<seq<string>> := [];
      var size := minEvents;
      while size <= maxEvents
        invariant minEvents <= size <= maxEvents + 1
        invariant allCombinations == SizesBelow(allEventTypes, minEvents, size)
        decreases maxEvents - size
      {
        allCombinations := AppendAll(allCombinations, Combinations(allEventTypes, size));
        size := size + 1;
      }
      r := Some(allCombinations);
    }

    /** `filter_meaningful_combinations`. */
    method FilterMeaningfulCombinations(combinations: seq<seq<string>>, eventCategories: map<string, string>)
      returns (meaningfulCombos: seq<seq<string>>)
      ensures meaningfulCombos == Filtered(combinations, eventCategories, minEvents)
    {
      meaningfulCombos := [];
      var i := 0;
      while i < |combinations|
        invariant 0 <= i <= |combinations|
        invariant meaningfulCombos == Filtered(combinations[..i], eventCategories, minEvents)
      {
        var combo := combinations[i];
        var categories := CollectCategories(combo, eventCategories);
        assert combinations[..i + 1][..i] == combinations[..i];
        if |categories| >= minEvents - 1 {
          meaningfulCombos := meaningfulCombos + [combo];
        }
        i := i + 1;
      }
      assert combinations[..|combinations|] == combinations;
    }
  }

  /** `for combo in ...: all_combinations.append(combo)`. */
  method AppendAll(acc: seq<seq<string>>, more: seq<seq<string>>) returns (r: seq<seq<string>>)
    ensures r == acc + more
  {
    r := acc;
    var j := 0;
    while j < |more|
      invariant 0 <= j <= |more|
      invariant r == acc + more[..j]
    {
      assert more[..j + 1] == more[..j] + [more[j]];
      r := r + [more[j]];
      j := j + 1;
    }
    assert more[..|more|] == more;
  }

  /** The inner loop of `filter_meaningful_combinations`: the set of categories of one combination. */
  method CollectCategories(combo: seq<string>, eventCategories: map<string, string>) returns (categories: set<string>)
    ensures categories == CategoriesOf(combo, eventCategories)
  {
    categories := {};
    var k := 0;
    while k < |combo|
      invariant 0 <= k <= |combo|
      invariant categories == CategoriesOf(combo[..k], eventCategories)
    {
      var category := Get(eventCategories, combo[k], "unknown");
      CategoriesSnoc(combo[..k + 1], eventCategories);
      assert combo[..k + 1][..k] == combo[..k];
      categories := categories + {category};
      k := k + 1;
    }
    assert combo[..|combo|] == combo;
  }
}
