/**
 * The two iteration primitives the analyzer is built on: `itertools.combinations`
 * (k-subsequences taken by position, in position-lexicographic order) and the
 * recursive Cartesian product `_product`.
 */
module Itertools {

  /** Concatenation of a sequence of sequences (`[x for xs in xss for x in xs]`). */
  function Flatten<T>(xss: seq<seq<T>>): (r: seq<T>)
  {
    if xss == [] then [] else xss[0] + Flatten(xss[1..])
  }

  lemma {:induction false} FlattenAppend<T>(a: seq<seq<T>>, b: seq<seq<T>>)
    ensures Flatten(a + b) == Flatten(a) + Flatten(b)
  {
    if a == [] {
      assert a + b == b;
    } else {
      assert (a + b)[1..] == a[1..] + b;
      FlattenAppend(a[1..], b);
    }
  }

  lemma FlattenSnoc<T>(init: seq<seq<T>>, last: seq<T>)
    ensures Flatten(init + [last]) == Flatten(init) + last
  {
    FlattenAppend(init, [last]);
    assert Flatten([last]) == last + Flatten([last][1..]);
    assert [last][1..] == [];
  }

  /** Every sequence of `cs` with `x` put in front. */
  function Prefixed<T>(x: T, cs: seq<seq<T>>): (r: seq<seq<T>>)
    ensures |r| == |cs|
    ensures forall i :: 0 <= i < |cs| ==> r[i] == [x] + cs[i]
  {
    seq(|cs|, i requires 0 <= i < |cs| => [x] + cs[i])
  }

  /** `c` is `xs` with some elements deleted, the rest kept in their order. */
  predicate IsSubseq<T(==)>(c: seq<T>, xs: seq<T>)
    decreases |xs|
  {
    if c == [] then true
    else if xs == [] then false
    else (c[0] == xs[0] && IsSubseq(c[1..], xs[1..])) || IsSubseq(c, xs[1..])
  }

  /** No element occurs twice. */
  predicate Distinct<T(==)>(xs: seq<T>)
  {
    forall i, j :: 0 <= i < j < |xs| ==> xs[i] != xs[j]
  }

  /** Deleting elements from a list without repeats leaves a list without repeats. */
  lemma {:induction false} SubseqDistinct<T>(c: seq<T>, xs: seq<T>)
    requires IsSubseq(c, xs) && Distinct(xs)
    ensures Distinct(c)
    decreases |xs|
  {
    if c != [] && xs != [] {
      assert Distinct(xs[1..]) by {
        forall i, j | 0 <= i < j < |xs[1..]| ensures xs[1..][i] != xs[1..][j] {
          assert xs[1..][i] == xs[i + 1] && xs[1..][j] == xs[j + 1];
        }
      }
      if c[0] == xs[0] && IsSubseq(c[1..], xs[1..]) {
        SubseqDistinct(c[1..], xs[1..]);
        forall j | 0 < j < |c| ensures c[0] != c[j] {
          assert c[j] == c[1..][j - 1];
          SubseqElements(c[1..], xs[1..], c[j]);
          var k :| 0 <= k < |xs[1..]| && xs[1..][k] == c[j];
          assert xs[k + 1] == c[j];
        }
        forall i, j | 0 < i < j < |c| ensures c[i] != c[j] {
          assert c[i] == c[1..][i - 1] && c[j] == c[1..][j - 1];
        }
      } else {
        SubseqDistinct(c, xs[1..]);
      }
    }
  }

  /** The binomial coefficient, by Pascal's rule. */
  function Binomial(n: nat, k: nat): nat
  {
    if k == 0 then 1 else if n == 0 then 0 else Binomial(n - 1, k - 1) + Binomial(n - 1, k)
  }

  lemma {:induction false} BinomialBeyond(n: nat, k: nat)
    requires k > n
    ensures Binomial(n, k) == 0
  {
    if n > 0 {
      BinomialBeyond(n - 1, k - 1);
      BinomialBeyond(n - 1, k);
    }
  }

  /**
   * `list(itertools.combinations(xs, k))`: the tuples that keep `xs[0]`
   * come first, followed by those that drop it.
   */
  function Combinations<T>(xs: seq<T>, k: nat): (r: seq<seq<T>>)
    ensures |r| == Binomial(|xs|, k)
    decreases |xs|
  {
    if k == 0 then [[]]
    else if xs == [] then []
    else Prefixed(xs[0], Combinations(xs[1..], k - 1)) + Combinations(xs[1..], k)
  }

  /** A k-combination of more than |xs| elements does not exist. */
  lemma CombinationsBeyond<T>(xs: seq<T>, k: nat)
    requires k > |xs|
    ensures Combinations(xs, k) == []
  {
    BinomialBeyond(|xs|, k);
  }

  /** Every tuple produced is a subsequence of the input. */
  lemma {:induction false} CombinationsSound<T>(xs: seq<T>, k: nat, c: seq<T>)
    requires c in Combinations(xs, k)
    ensures |c| == k && IsSubseq(c, xs)
    decreases |xs|
  {
    if k == 0 {
      assert c == [];
    } else {
      assert xs != [];
      var a := Prefixed(xs[0], Combinations(xs[1..], k - 1));
      if c in a {
        var i :| 0 <= i < |a| && a[i] == c;
        var tail := Combinations(xs[1..], k - 1)[i];
        CombinationsSound(xs[1..], k - 1, tail);
        assert c == [xs[0]] + tail && c[1..] == tail;
      } else {
        CombinationsSound(xs[1..], k, c);
      }
    }
  }

  /** Every subsequence of length k is produced. */
  lemma {:induction false} CombinationsComplete<T>(xs: seq<T>, k: nat, c: seq<T>)
    requires |c| == k && IsSubseq(c, xs)
    ensures c in Combinations(xs, k)
    decreases |xs|
  {
    if k == 0 {
      assert c == [];
    } else {
      assert xs != [];
      var a := Combinations(xs[1..], k - 1);
      var b := Combinations(xs[1..], k);
      var p := Prefixed(xs[0], a);
      assert Combinations(xs, k) == p + b;
      if c[0] == xs[0] && IsSubseq(c[1..], xs[1..]) {
        CombinationsComplete(xs[1..], k - 1, c[1..]);
        var i :| 0 <= i < |a| && a[i] == c[1..];
        assert c == [xs[0]] + c[1..];
        assert p[i] == c;
        assert (p + b)[i] == c;
      } else {
        assert IsSubseq(c, xs[1..]);
        CombinationsComplete(xs[1..], k, c);
        var i :| 0 <= i < |b| && b[i] == c;
        assert (p + b)[|p| + i] == c;
      }
    }
  }

  /** The tuples produced are exactly the length-k subsequences. */
  lemma CombinationsMembership<T>(xs: seq<T>, k: nat, c: seq<T>)
    ensures c in Combinations(xs, k) <==> |c| == k && IsSubseq(c, xs)
  {
    if c in Combinations(xs, k) {
      CombinationsSound(xs, k, c);
    }
    if |c| == k && IsSubseq(c, xs) {
      CombinationsComplete(xs, k, c);
    }
  }

  lemma {:induction false} SubseqElements<T>(c: seq<T>, xs: seq<T>, x: T)
    requires IsSubseq(c, xs) && x in c
    ensures x in xs
    decreases |xs|
  {
    if c[0] == xs[0] && IsSubseq(c[1..], xs[1..]) {
      if x != c[0] {
        SubseqElements(c[1..], xs[1..], x);
      }
    } else {
      SubseqElements(c, xs[1..], x);
    }
  }

  // ---------------------------------------------------------------------
  // Position-lexicographic order

  function MapSeq<A, B>(f: A -> B, s: seq<A>): (r: seq<B>)
    ensures |r| == |s|
    ensures forall i :: 0 <= i < |s| ==> r[i] == f(s[i])
  {
    seq(|s|, i requires 0 <= i < |s| => f(s[i]))
  }

  function MapEach<A, B>(f: A -> B, cs: seq<seq<A>>): (r: seq<seq<B>>)
    ensures |r| == |cs|
    ensures forall i :: 0 <= i < |cs| ==> r[i] == MapSeq(f, cs[i])
  {
    seq(|cs|, i requires 0 <= i < |cs| => MapSeq(f, cs[i]))
  }

  lemma MapEachAppend<A, B>(f: A -> B, a: seq<seq<A>>, b: seq<seq<A>>)
    ensures MapEach(f, a + b) == MapEach(f, a) + MapEach(f, b)
  {
    var l, r := MapEach(f, a + b), MapEach(f, a) + MapEach(f, b);
    assert |l| == |r|;
    forall i | 0 <= i < |l| ensures l[i] == r[i] {
      if i >= |a| {
        assert (a + b)[i] == b[i - |a|];
      }
    }
  }

  lemma MapEachPrefixed<A, B>(f: A -> B, x: A, cs: seq<seq<A>>)
    ensures MapEach(f, Prefixed(x, cs)) == Prefixed(f(x), MapEach(f, cs))
  {
    var l, r := MapEach(f, Prefixed(x, cs)), Prefixed(f(x), MapEach(f, cs));
    assert |l| == |r|;
    forall i | 0 <= i < |l| ensures l[i] == r[i] {
      assert MapSeq(f, [x] + cs[i]) == [f(x)] + MapSeq(f, cs[i]);
    }
  }

  /** Combinations only look at positions: renaming the elements commutes with them. */
  lemma {:induction false} CombinationsNatural<A, B>(f: A -> B, ys: seq<A>, k: nat)
    ensures Combinations(MapSeq(f, ys), k) == MapEach(f, Combinations(ys, k))
    decreases |ys|
  {
    var xs := MapSeq(f, ys);
    if k == 0 {
      assert MapSeq(f, []) == [];
    } else if ys != [] {
      assert xs[0] == f(ys[0]);
      assert xs[1..] == MapSeq(f, ys[1..]);
      CombinationsNatural(f, ys[1..], k - 1);
      CombinationsNatural(f, ys[1..], k);
      var a := Combinations(ys[1..], k - 1);
      var b := Combinations(ys[1..], k);
      MapEachAppend(f, Prefixed(ys[0], a), b);
      MapEachPrefixed(f, ys[0], a);
      assert Combinations(xs, k) == Prefixed(f(ys[0]), MapEach(f, a)) + MapEach(f, b);
    }
  }

  /** The integers lo, lo+1, ..., hi-1. */
  function Range(lo: int, hi: int): (r: seq<int>)
    ensures |r| == if lo <= hi then hi - lo else 0
    ensures forall i :: 0 <= i < |r| ==> r[i] == lo + i
    decreases hi - lo
  {
    if lo >= hi then [] else [lo] + Range(lo + 1, hi)
  }

  /** Strict lexicographic order on index tuples. */
  predicate LexLess(a: seq<int>, b: seq<int>)
  {
    |a| > 0 && |b| > 0 && (a[0] < b[0] || (a[0] == b[0] && LexLess(a[1..], b[1..])))
  }

  /** Every earlier tuple is lexicographically below every later one. */
  predicate LexSorted(r: seq<seq<int>>)
  {
    forall i, j :: 0 <= i < j < |r| ==> LexLess(r[i], r[j])
  }

  predicate StrictlyIncreasing(ix: seq<int>)
  {
    forall i, j :: 0 <= i < j < |ix| ==> ix[i] < ix[j]
  }

  lemma {:induction false} SubseqOfRangeIncreasing(c: seq<int>, lo: int, hi: int)
    requires IsSubseq(c, Range(lo, hi))
    ensures StrictlyIncreasing(c)
    ensures forall j :: 0 <= j < |c| ==> lo <= c[j] < hi
    decreases hi - lo
  {
    if c != [] {
      var xs := Range(lo, hi);
      assert xs[1..] == Range(lo + 1, hi);
      if c[0] == xs[0] && IsSubseq(c[1..], xs[1..]) {
        SubseqOfRangeIncreasing(c[1..], lo + 1, hi);
        assert forall j :: 0 < j < |c| ==> c[j] == c[1..][j - 1];
      } else {
        SubseqOfRangeIncreasing(c, lo + 1, hi);
      }
    }
  }

  /** The index tuples of `combinations(range(lo, hi), k)` come out in strictly increasing lexicographic order. */
  lemma {:induction false} RangeCombinationsSorted(lo: int, hi: int, k: nat)
    ensures LexSorted(Combinations(Range(lo, hi), k))
    decreases hi - lo
  {
    var xs := Range(lo, hi);
    if k > 0 && xs != [] {
      assert xs[0] == lo && xs[1..] == Range(lo + 1, hi);
      RangeCombinationsSorted(lo + 1, hi, k - 1);
      RangeCombinationsSorted(lo + 1, hi, k);
      var a := Combinations(Range(lo + 1, hi), k - 1);
      var b := Combinations(Range(lo + 1, hi), k);
      var r := Prefixed(lo, a) + b;
      forall i, j | 0 <= i < j < |r|
        ensures LexLess(r[i], r[j])
      {
        if j < |a| {
          assert r[i] == [lo] + a[i] && r[j] == [lo] + a[j];
          assert r[i][1..] == a[i] && r[j][1..] == a[j];
          assert LexLess(a[i], a[j]);
        } else if i < |a| {
          var y := b[j - |a|];
          assert r[j] == y && y in b;
          CombinationsSound(xs[1..], k, y);
          SubseqOfRangeIncreasing(y, lo + 1, hi);
          assert |y| > 0 && y[0] >= lo + 1;
          assert r[i] == [lo] + a[i] && r[i][0] == lo;
        } else {
          assert r[i] == b[i - |a|] && r[j] == b[j - |a|];
          assert LexLess(b[i - |a|], b[j - |a|]);
        }
      }
      assert Combinations(xs, k) == r;
    }
  }

  /** The elements of `xs` at the positions `ix`. */
  function Pick<T>(xs: seq<T>, ix: seq<int>): (r: seq<T>)
    requires forall j :: 0 <= j < |ix| ==> 0 <= ix[j] < |xs|
    ensures |r| == |ix|
    ensures forall j :: 0 <= j < |ix| ==> r[j] == xs[ix[j]]
  {
    seq(|ix|, j requires 0 <= j < |ix| => xs[ix[j]])
  }

  /**
   * Position-lexicographic order: the j-th tuple of `combinations(xs, k)` is
   * `xs` read at the j-th index tuple, and the index tuples are strictly increasing
   * and sorted lexicographically.
   */
  lemma CombinationsByPosition<T>(xs: seq<T>, k: nat)
    ensures var ix := Combinations(Range(0, |xs|), k);
      var r := Combinations(xs, k);
      |r| == |ix| &&
      (forall j :: 0 <= j < |ix| ==> StrictlyIncreasing(ix[j])) &&
      LexSorted(ix) &&
      (forall j :: 0 <= j < |ix| ==>
        (forall p :: 0 <= p < |ix[j]| ==> 0 <= ix[j][p] < |xs|) && r[j] == Pick(xs, ix[j]))
  {
    var n := |xs|;
    var ix := Combinations(Range(0, n), k);
    RangeCombinationsSorted(0, n, k);
    forall j | 0 <= j < |ix|
      ensures StrictlyIncreasing(ix[j]) && forall p :: 0 <= p < |ix[j]| ==> 0 <= ix[j][p] < n
    {
      CombinationsSound(Range(0, n), k, ix[j]);
      SubseqOfRangeIncreasing(ix[j], 0, n);
    }
    if n == 0 {
      assert Range(0, n) == [] && xs == [];
      if k == 0 {
        assert Pick(xs, ix[0]) == [];
      }
    } else {
      var f := (i: int) => if 0 <= i < n then xs[i] else xs[0];
      assert MapSeq(f, Range(0, n)) == xs;
      CombinationsNatural(f, Range(0, n), k);
      forall j | 0 <= j < |ix|
        ensures Combinations(xs, k)[j] == Pick(xs, ix[j])
      {
        assert MapSeq(f, ix[j]) == Pick(xs, ix[j]);
      }
    }
  }

  // ---------------------------------------------------------------------
  // Cartesian product

  /** Each element of `first`, in order, put in front of every tuple of `rest`. */
  function ProductWith<T>(first: seq<T>, rest: seq<seq<T>>): (r: seq<seq<T>>)
    ensures |r| == |first| * |rest|
  {
    if first == [] then [] else Prefixed(first[0], rest) + ProductWith(first[1..], rest)
  }

  /** The product of the lengths of the lists. */
  function LengthProduct<T>(lists: seq<seq<T>>): nat
  {
    if lists == [] then 1 else |lists[0]| * LengthProduct(lists[1..])
  }

  /** `list(_product(*lists))`: the recursive Cartesian product; `()` alone for no list. */
  function Product<T>(lists: seq<seq<T>>): (r: seq<seq<T>>)
    ensures |r| == LengthProduct(lists)
  {
    if lists == [] then [[]] else ProductWith(lists[0], Product(lists[1..]))
  }

  /** The tuple at position i * |rest| + j pairs `first[i]` with `rest[j]`: odometer order. */
  lemma {:induction false} ProductWithAt<T>(first: seq<T>, rest: seq<seq<T>>, i: nat, j: nat)
    requires i < |first| && j < |rest|
    ensures i * |rest| + j < |ProductWith(first, rest)|
    ensures ProductWith(first, rest)[i * |rest| + j] == [first[i]] + rest[j]
  {
    if i > 0 {
      ProductWithAt(first[1..], rest, i - 1, j);
      assert i * |rest| + j == |rest| + ((i - 1) * |rest| + j);
    }
  }

  /** `_product` yields, in order, one tuple per choice: the first list's element is the slowest digit. */
  lemma ProductOrder<T>(lists: seq<seq<T>>, i: nat, j: nat)
    requires lists != [] && i < |lists[0]| && j < |Product(lists[1..])|
    ensures var rest := Product(lists[1..]);
      i * |rest| + j < |Product(lists)| &&
      Product(lists)[i * |rest| + j] == [lists[0][i]] + rest[j]
  {
    ProductWithAt(lists[0], Product(lists[1..]), i, j);
  }

  lemma {:induction false} ProductWithMembership<T>(first: seq<T>, rest: seq<seq<T>>, t: seq<T>)
    ensures t in ProductWith(first, rest) <==> |t| > 0 && t[0] in first && t[1..] in rest
  {
    if first != [] {
      ProductWithMembership(first[1..], rest, t);
      var a := Prefixed(first[0], rest);
      if t in a {
        var i :| 0 <= i < |a| && a[i] == t;
        assert t[1..] == rest[i];
      }
      if |t| > 0 && t[0] == first[0] && t[1..] in rest {
        var i :| 0 <= i < |rest| && rest[i] == t[1..];
        assert a[i] == t;
      }
    }
  }

  /** A tuple is produced iff it has one element per list and its i-th element is drawn from the i-th list. */
  lemma {:induction false} ProductMembership<T>(lists: seq<seq<T>>, t: seq<T>)
    ensures t in Product(lists) <==> |t| == |lists| && forall i :: 0 <= i < |t| ==> t[i] in lists[i]
    decreases |lists|
  {
    if lists == [] {
    } else {
      ProductWithMembership(lists[0], Product(lists[1..]), t);
      if |t| > 0 {
        ProductMembership(lists[1..], t[1..]);
        if |t| == |lists| && forall i :: 0 <= i < |t| ==> t[i] in lists[i] {
          assert forall i :: 0 <= i < |t[1..]| ==> t[1..][i] == t[i + 1];
        }
        if t in Product(lists) {
          forall i | 0 <= i < |t|
            ensures t[i] in lists[i]
          {
            if i > 0 {
              assert t[i] == t[1..][i - 1];
            }
          }
        }
      }
    }
  }
}
