/**
 * Generic list operations that the TypeScript code gets from `Array.prototype`
 * (`filter`, `map`, `flatMap`) and from `Array.from(new Set(...))`, each
 * specified by what it computes, plus the lemmas the store and the views use.
 */
module Seqs {

  /** `a` is obtained from `b` by deleting elements: order is preserved. */
  predicate IsSubseq<T(==)>(a: seq<T>, b: seq<T>)
    decreases |b|
  {
    if b == [] then a == []
    else (a != [] && a[0] == b[0] && IsSubseq(a[1..], b[1..])) || IsSubseq(a, b[1..])
  }

  predicate NoDup<T(==)>(s: seq<T>) {
    forall i, j :: 0 <= i < j < |s| ==> s[i] != s[j]
  }

  /** `xs.filter(p)`: the elements satisfying `p`, in their original order. */
  function Filter<T(==)>(xs: seq<T>, p: T -> bool): (r: seq<T>)
    ensures |r| <= |xs|
    ensures forall i :: 0 <= i < |r| ==> r[i] in xs && p(r[i])
    ensures forall i :: 0 <= i < |xs| && p(xs[i]) ==> xs[i] in r
  {
    if xs == [] then []
    else if p(xs[0]) then [xs[0]] + Filter(xs[1..], p)
    else Filter(xs[1..], p)
  }

  /** `xs.map(x => p(x) ? f(x) : x)`: same length, each position rewritten iff `p` holds there. */
  function MapWhere<T>(xs: seq<T>, p: T -> bool, f: T -> T): (r: seq<T>)
    ensures |r| == |xs|
    ensures forall i :: 0 <= i < |xs| ==> r[i] == if p(xs[i]) then f(xs[i]) else xs[i]
  {
    if xs == [] then []
    else [if p(xs[0]) then f(xs[0]) else xs[0]] + MapWhere(xs[1..], p, f)
  }

  /** Index of the first occurrence of `x` in `xs`. */
  function FirstIndex<T(==)>(xs: seq<T>, x: T): (k: nat)
    requires x in xs
    ensures k < |xs| && xs[k] == x
    ensures forall j :: 0 <= j < k ==> xs[j] != x
  {
    if xs[0] == x then 0 else 1 + FirstIndex(xs[1..], x)
  }

  /**
   * The elements of `xs` that are not in `seen`, each once, in the order of
   * their first occurrence: the iteration order of a JavaScript `Set` built
   * from `xs` after the elements of `seen` were inserted.
   */
  function DedupFrom<T(==)>(xs: seq<T>, seen: set<T>): (r: seq<T>)
    ensures NoDup(r)
    ensures forall i :: 0 <= i < |r| ==> r[i] in xs && r[i] !in seen
    ensures forall i :: 0 <= i < |xs| && xs[i] !in seen ==> xs[i] in r
  {
    if xs == [] then []
    else if xs[0] in seen then DedupFrom(xs[1..], seen)
    else [xs[0]] + DedupFrom(xs[1..], seen + {xs[0]})
  }

  /** `Array.from(new Set(xs))`. */
  function Dedup<T(==)>(xs: seq<T>): (r: seq<T>)
    ensures NoDup(r)
    ensures forall i :: 0 <= i < |r| ==> r[i] in xs
    ensures forall i :: 0 <= i < |xs| ==> xs[i] in r
  {
    DedupFrom(xs, {})
  }

  /** `xs.flatMap(x => f(x))`: every element of every part, and nothing else. */
  function FlatMap<T, U>(xs: seq<T>, f: T -> seq<U>): (r: seq<U>)
    ensures forall i, k :: 0 <= i < |xs| && 0 <= k < |f(xs[i])| ==> f(xs[i])[k] in r
    ensures forall m :: 0 <= m < |r| ==> exists i :: 0 <= i < |xs| && r[m] in f(xs[i])
  {
    if xs == [] then []
    else
      var rest := FlatMap(xs[1..], f);
      assert forall i, k :: 1 <= i < |xs| && 0 <= k < |f(xs[i])| ==> f(xs[i])[k] in rest by {
        forall i, k | 1 <= i < |xs| && 0 <= k < |f(xs[i])| ensures f(xs[i])[k] in rest {
          assert xs[i] == xs[1..][i - 1];
        }
      }
      var r := f(xs[0]) + rest;
      assert forall m :: 0 <= m < |r| ==> exists i :: 0 <= i < |xs| && r[m] in f(xs[i]) by {
        forall m | 0 <= m < |r| ensures exists i :: 0 <= i < |xs| && r[m] in f(xs[i]) {
          if m < |f(xs[0])| {
            assert r[m] in f(xs[0]);
          } else {
            assert r[m] == rest[m - |f(xs[0])|];
            var i :| 0 <= i < |xs[1..]| && rest[m - |f(xs[0])|] in f(xs[1..][i]);
            assert xs[1..][i] == xs[i + 1];
          }
        }
      }
      r
  }

  lemma {:induction false} FilterIsSubseq<T>(xs: seq<T>, p: T -> bool)
    ensures IsSubseq(Filter(xs, p), xs)
  {
    if xs != [] {
      FilterIsSubseq(xs[1..], p);
      if p(xs[0]) {
        assert ([xs[0]] + Filter(xs[1..], p))[1..] == Filter(xs[1..], p);
      }
    }
  }

  /** A filter that rejects nothing is the identity. */
  lemma {:induction false} FilterKeepsAll<T>(xs: seq<T>, p: T -> bool)
    requires forall x :: x in xs ==> p(x)
    ensures Filter(xs, p) == xs
  {
    if xs != [] {
      FilterKeepsAll(xs[1..], p);
      assert xs == [xs[0]] + xs[1..];
    }
  }

  /** What a filter keeps and what the complementary filter keeps add up to the whole list. */
  lemma {:induction false} FilterSplitsLength<T>(xs: seq<T>, p: T -> bool, q: T -> bool)
    requires forall x :: q(x) == !p(x)
    ensures |Filter(xs, p)| + |Filter(xs, q)| == |xs|
  {
    if xs != [] {
      FilterSplitsLength(xs[1..], p, q);
    }
  }

  /** Filtering with a weaker predicate keeps at least as many elements. */
  lemma {:induction false} FilterMonotone<T>(xs: seq<T>, p: T -> bool, q: T -> bool)
    requires forall x :: p(x) ==> q(x)
    ensures |Filter(xs, p)| <= |Filter(xs, q)|
  {
    if xs != [] {
      FilterMonotone(xs[1..], p, q);
    }
  }

  /** Filtering a concatenation filters each part. */
  lemma {:induction false} FilterAppend<T>(xs: seq<T>, ys: seq<T>, p: T -> bool)
    ensures Filter(xs + ys, p) == Filter(xs, p) + Filter(ys, p)
  {
    if xs == [] {
      assert xs + ys == ys;
    } else {
      assert (xs + ys)[0] == xs[0];
      assert (xs + ys)[1..] == xs[1..] + ys;
      FilterAppend(xs[1..], ys, p);
    }
  }

  /** A filter of a list without duplicates has none either. */
  lemma {:induction false} FilterKeepsNoDup<T>(xs: seq<T>, p: T -> bool)
    requires NoDup(xs)
    ensures NoDup(Filter(xs, p))
  {
    if xs != [] {
      assert NoDup(xs[1..]) by {
        forall i, j | 0 <= i < j < |xs[1..]| ensures xs[1..][i] != xs[1..][j] {
          assert xs[1..][i] == xs[i + 1] && xs[1..][j] == xs[j + 1];
        }
      }
      FilterKeepsNoDup(xs[1..], p);
      var rest := Filter(xs[1..], p);
      if p(xs[0]) {
        assert xs[0] !in rest by {
          forall i | 0 <= i < |rest| ensures rest[i] != xs[0] {
            var k :| 0 <= k < |xs[1..]| && xs[1..][k] == rest[i];
            assert xs[k + 1] == rest[i];
          }
        }
        var r := [xs[0]] + rest;
        forall i, j | 0 <= i < j < |r| ensures r[i] != r[j] {
          if i > 0 {
            assert r[i] == rest[i - 1] && r[j] == rest[j - 1];
          } else {
            assert r[j] == rest[j - 1];
          }
        }
      }
    }
  }

  /**
   * Where one list satisfies `p` only at positions where another of the same
   * length does, it keeps no more elements; and fewer when the other
   * satisfies `p` somewhere it does not.
   */
  lemma {:induction false} FilterPointwiseFewer<T>(xs: seq<T>, ys: seq<T>, p: T -> bool)
    requires |xs| == |ys|
    requires forall i :: 0 <= i < |ys| && p(ys[i]) ==> p(xs[i])
    ensures |Filter(ys, p)| <= |Filter(xs, p)|
    ensures (exists i :: 0 <= i < |xs| && p(xs[i]) && !p(ys[i])) ==> |Filter(ys, p)| < |Filter(xs, p)|
  {
    if xs != [] {
      assert forall i :: 0 <= i < |ys[1..]| && p(ys[1..][i]) ==> p(xs[1..][i]) by {
        forall i | 0 <= i < |ys[1..]| && p(ys[1..][i]) ensures p(xs[1..][i]) {
          assert ys[1..][i] == ys[i + 1] && xs[1..][i] == xs[i + 1];
        }
      }
      FilterPointwiseFewer(xs[1..], ys[1..], p);
      if exists i :: 0 <= i < |xs| && p(xs[i]) && !p(ys[i]) {
        var i :| 0 <= i < |xs| && p(xs[i]) && !p(ys[i]);
        if i > 0 {
          assert xs[1..][i - 1] == xs[i] && ys[1..][i - 1] == ys[i];
        }
      }
    }
  }

  /** Rewriting twice is rewriting once when the rewrite is idempotent and does not change `p`. */
  lemma MapWhereIdempotent<T>(xs: seq<T>, p: T -> bool, f: T -> T)
    requires forall x :: p(x) ==> p(f(x)) && f(f(x)) == f(x)
    ensures MapWhere(MapWhere(xs, p, f), p, f) == MapWhere(xs, p, f)
  {
    var once := MapWhere(xs, p, f);
    var twice := MapWhere(once, p, f);
    forall i | 0 <= i < |xs| ensures twice[i] == once[i] {
      if p(xs[i]) {
        assert p(f(xs[i]));
      }
    }
  }

  /** A rewrite whose predicate holds nowhere is the identity. */
  lemma MapWhereNowhere<T>(xs: seq<T>, p: T -> bool, f: T -> T)
    requires forall i :: 0 <= i < |xs| ==> !p(xs[i])
    ensures MapWhere(xs, p, f) == xs
  {
  }

  /** Every element of `r` occurs in `xs`, and earlier elements of `r` occur first earlier in `xs`. */
  predicate InFirstOccurrenceOrder<T(==)>(r: seq<T>, xs: seq<T>) {
    forall i, j :: 0 <= i < j < |r| ==>
      r[i] in xs && r[j] in xs && FirstIndex(xs, r[i]) < FirstIndex(xs, r[j])
  }

  /** Past a different head, the first occurrence is one further than in the tail. */
  lemma FirstIndexPastHead<T>(xs: seq<T>, x: T)
    requires xs != [] && x in xs[1..] && x != xs[0]
    ensures x in xs && FirstIndex(xs, x) == 1 + FirstIndex(xs[1..], x)
  {
  }

  /** An order that holds in the tail, of elements other than the head, holds in the whole list, also with the head in front. */
  lemma ConsKeepsFirstOccurrenceOrder<T>(xs: seq<T>, r: seq<T>)
    requires xs != [] && xs[0] !in r
    requires InFirstOccurrenceOrder(r, xs[1..])
    requires forall i :: 0 <= i < |r| ==> r[i] in xs[1..]
    ensures InFirstOccurrenceOrder(r, xs)
    ensures InFirstOccurrenceOrder([xs[0]] + r, xs)
  {
    forall i | 0 <= i < |r| ensures r[i] in xs && FirstIndex(xs, r[i]) == 1 + FirstIndex(xs[1..], r[i]) {
      FirstIndexPastHead(xs, r[i]);
    }
    var h := [xs[0]] + r;
    forall i, j | 0 <= i < j < |h| ensures h[i] in xs && h[j] in xs && FirstIndex(xs, h[i]) < FirstIndex(xs, h[j]) {
      assert h[j] == r[j - 1];
      if i > 0 {
        assert h[i] == r[i - 1];
      }
    }
  }

  /** Elements that come earlier in a deduplicated list occur first earlier in the input. */
  lemma {:induction false} DedupFromFirstOccurrenceOrder<T>(xs: seq<T>, seen: set<T>)
    ensures InFirstOccurrenceOrder(DedupFrom(xs, seen), xs)
  {
    if xs != [] {
      var seen' := if xs[0] in seen then seen else seen + {xs[0]};
      var r' := DedupFrom(xs[1..], seen');
      DedupFromFirstOccurrenceOrder(xs[1..], seen');
      assert xs[0] !in r';
      ConsKeepsFirstOccurrenceOrder(xs, r');
    }
  }

  /** `Array.from(new Set(xs))` lists the distinct elements in first-occurrence order. */
  lemma DedupFirstOccurrenceOrder<T>(xs: seq<T>)
    ensures InFirstOccurrenceOrder(Dedup(xs), xs)
  {
    DedupFromFirstOccurrenceOrder(xs, {});
    assert Dedup(xs) == DedupFrom(xs, {});
  }
}
