/** Sequence operations shared by the catalog, wishlist and order code:
    JavaScript's `Array.prototype.filter`, `includes`, `find`/`findIndex`
    and `Array.from(new Set(xs))`, with the facts about them that the
    rest of the model relies on. */
module Seqs {

  /** `xs.filter(keep)`: the elements that satisfy `keep`, in order. */
  function Filter<T>(s: seq<T>, keep: T -> bool): (r: seq<T>)
    ensures |r| <= |s|
    ensures forall x :: x in r ==> x in s && keep(x)
  {
    if s == [] then []
    else if keep(s[0]) then [s[0]] + Filter(s[1..], keep)
    else Filter(s[1..], keep)
  }

  /** `a` is obtained from `b` by deleting elements (order kept). */
  ghost predicate IsSubseq<T>(a: seq<T>, b: seq<T>)
    decreases |b|
  {
    if a == [] then true
    else if b == [] then false
    else if a[0] == b[0] then IsSubseq(a[1..], b[1..])
    else IsSubseq(a, b[1..])
  }

  /** No element occurs twice. */
  predicate NoDup<T(==)>(s: seq<T>)
  {
    forall i, j :: 0 <= i < j < |s| ==> s[i] != s[j]
  }

  /** Index of the first element satisfying `hit`, or -1 (`findIndex`). */
  function FindIndex<T>(s: seq<T>, hit: T -> bool): (k: int)
    ensures -1 <= k < |s|
    ensures k == -1 <==> forall i :: 0 <= i < |s| ==> !hit(s[i])
    ensures k >= 0 ==> hit(s[k]) && forall i :: 0 <= i < k ==> !hit(s[i])
  {
    if s == [] then -1
    else if hit(s[0]) then 0
    else
      var k := FindIndex(s[1..], hit);
      if k == -1 then -1 else k + 1
  }

  lemma {:induction false} FilterMember<T>(s: seq<T>, keep: T -> bool, x: T)
    ensures x in Filter(s, keep) <==> x in s && keep(x)
  {
    if s != [] {
      FilterMember(s[1..], keep, x);
      assert x in s <==> x == s[0] || x in s[1..];
    }
  }

  lemma {:induction false} FilterIsSubseq<T>(s: seq<T>, keep: T -> bool)
    ensures IsSubseq(Filter(s, keep), s)
  {
    if s != [] {
      FilterIsSubseq(s[1..], keep);
      if keep(s[0]) {
        assert Filter(s, keep)[1..] == Filter(s[1..], keep);
      } else {
        SubseqDropHead(Filter(s, keep), s);
      }
    }
  }

  /** Helper for the non-kept head: a subsequence of the tail is one of the whole. */
  lemma {:induction false} SubseqDropHead<T>(a: seq<T>, b: seq<T>)
    requires b != [] && IsSubseq(a, b[1..])
    ensures IsSubseq(a, b)
    decreases |a| + |b|, 1
  {
    if a != [] && a[0] == b[0] {
      SubseqTail(a, b[1..]);
    }
  }

  /** Dropping the head of a subsequence keeps it a subsequence. */
  lemma {:induction false} SubseqTail<T>(a: seq<T>, b: seq<T>)
    requires a != [] && IsSubseq(a, b)
    ensures IsSubseq(a[1..], b)
    decreases |a| + |b| + 1, 0
  {
    if a[0] == b[0] {
      if a[1..] != [] {
        SubseqDropHead(a[1..], b);
      }
    } else {
      SubseqTail(a, b[1..]);
      if a[1..] != [] {
        SubseqDropHead(a[1..], b);
      }
    }
  }

  /** Filter with an always-true predicate is the identity. */
  lemma {:induction false} FilterAll<T>(s: seq<T>, keep: T -> bool)
    requires forall x :: x in s ==> keep(x)
    ensures Filter(s, keep) == s
  {
    if s != [] {
      FilterAll(s[1..], keep);
    }
  }

  /** Two filters in a row are one filter with the conjunction. */
  lemma {:induction false} FilterFilter<T>(s: seq<T>, p: T -> bool, q: T -> bool, pq: T -> bool)
    requires forall x :: pq(x) == (p(x) && q(x))
    ensures Filter(Filter(s, p), q) == Filter(s, pq)
  {
    if s != [] {
      FilterFilter(s[1..], p, q, pq);
    }
  }

  /** Filtering keeps duplicate-freedom. */
  lemma {:induction false} FilterNoDup<T>(s: seq<T>, keep: T -> bool)
    requires NoDup(s)
    ensures NoDup(Filter(s, keep))
  {
    if s != [] {
      FilterNoDup(s[1..], keep);
      FilterMember(s[1..], keep, s[0]);
    }
  }

  /** `Array.from(new Set(s))`: the distinct elements in first-occurrence order. */
  function Dedup<T(==)>(s: seq<T>): (r: seq<T>)
  {
    DedupInto([], s)
  }

  /** Walks `rest` left to right, appending each element not yet in `seen`. */
  function DedupInto<T(==)>(seen: seq<T>, rest: seq<T>): (r: seq<T>)
    ensures |seen| <= |r| && r[..|seen|] == seen
    decreases |rest|
  {
    if rest == [] then seen
    else if rest[0] in seen then DedupInto(seen, rest[1..])
    else DedupInto(seen + [rest[0]], rest[1..])
  }

  /** Position of the first occurrence of `x` in `s`. */
  function FirstIndex<T(==)>(s: seq<T>, x: T): (k: nat)
    requires x in s
    ensures k < |s| && s[k] == x && x !in s[..k]
  {
    if s[0] == x then 0 else FirstIndex(s[1..], x) + 1
  }

  lemma {:induction false} DedupIntoFacts<T>(seen: seq<T>, rest: seq<T>)
    requires NoDup(seen)
    ensures NoDup(DedupInto(seen, rest))
    ensures forall x :: x in DedupInto(seen, rest) <==> x in seen || x in rest
    decreases |rest|
  {
    if rest != [] {
      if rest[0] in seen {
        DedupIntoFacts(seen, rest[1..]);
      } else {
        DedupIntoFacts(seen + [rest[0]], rest[1..]);
      }
      forall x ensures x in rest <==> x == rest[0] || x in rest[1..] {
        assert rest == [rest[0]] + rest[1..];
      }
    }
  }

  lemma DedupIntoMember<T>(seen: seq<T>, rest: seq<T>, x: T)
    requires NoDup(seen)
    ensures x in DedupInto(seen, rest) <==> x in seen || x in rest
  {
    DedupIntoFacts(seen, rest);
  }

  /** The distinct values are duplicate-free and have the same element set. */
  lemma DedupFacts<T>(s: seq<T>)
    ensures NoDup(Dedup(s))
    ensures forall x :: x in Dedup(s) <==> x in s
  {
    DedupIntoFacts([], s);
  }

  /** Every element of `DedupInto(seen, rest)` beyond `seen` occurs in `rest`
      before every later one: first-occurrence order. */
  lemma {:induction false} DedupIntoOrder<T>(seen: seq<T>, rest: seq<T>, i: nat, j: nat)
    requires NoDup(seen)
    requires |seen| <= i < j < |DedupInto(seen, rest)|
    ensures DedupInto(seen, rest)[i] in rest && DedupInto(seen, rest)[j] in rest
    ensures FirstIndex(rest, DedupInto(seen, rest)[i]) < FirstIndex(rest, DedupInto(seen, rest)[j])
    decreases |rest|
  {
    var r := DedupInto(seen, rest);
    DedupIntoFacts(seen, rest);
    if rest == [] {
      assert false;
    } else if rest[0] in seen {
      DedupIntoFacts(seen, rest[1..]);
      DedupIntoOrder(seen, rest[1..], i, j);
    } else {
      var seen' := seen + [rest[0]];
      assert NoDup(seen') by {
        forall a, b | 0 <= a < b < |seen'| ensures seen'[a] != seen'[b] {
          if b == |seen| { assert seen'[a] in seen; }
        }
      }
      DedupIntoFacts(seen', rest[1..]);
      assert r == DedupInto(seen', rest[1..]);
      assert r[..|seen'|] == seen';
      assert r[|seen|] == seen'[|seen|] == rest[0];
      if i == |seen| {
        // r[i] is rest[0]; r[j] is a later, different element
        assert r[j] != rest[0] by { assert r[i] == rest[0]; }
        assert r[j] !in seen';
        DedupIntoMember(seen', rest[1..], r[j]);
        assert r[j] in rest[1..];
        FirstIndexTail(rest, r[j]);
      } else {
        DedupIntoOrder(seen', rest[1..], i, j);
        FirstIndexTail(rest, r[i]);
        FirstIndexTail(rest, r[j]);
      }
    }
  }

  lemma FirstIndexTail<T>(s: seq<T>, x: T)
    requires s != [] && x != s[0] && x in s[1..]
    ensures x in s && FirstIndex(s, x) == FirstIndex(s[1..], x) + 1
  {
  }

  /** The distinct values appear in the order of their first occurrence. */
  lemma DedupOrder<T>(s: seq<T>, i: nat, j: nat)
    requires i < j < |Dedup(s)|
    ensures Dedup(s)[i] in s && Dedup(s)[j] in s
    ensures FirstIndex(s, Dedup(s)[i]) < FirstIndex(s, Dedup(s)[j])
  {
    DedupIntoOrder([], s, i, j);
  }

  /** A filter keeps every copy of a kept element and no copy of a dropped one. */
  lemma {:induction false} FilterMultiset<T>(s: seq<T>, keep: T -> bool, x: T)
    ensures multiset(Filter(s, keep))[x] == if keep(x) then multiset(s)[x] else 0
  {
    if s != [] {
      FilterMultiset(s[1..], keep, x);
      assert s == [s[0]] + s[1..];
    }
  }

  /** Filters that agree everywhere give the same result. */
  lemma {:induction false} FilterExt<T>(s: seq<T>, p: T -> bool, q: T -> bool)
    requires forall x :: p(x) == q(x)
    ensures Filter(s, p) == Filter(s, q)
  {
    if s != [] {
      FilterExt(s[1..], p, q);
    }
  }

  /** The filter `v => v !== x`. */
  function NotEqual<T(==)>(x: T): T -> bool
  {
    (v: T) => v != x
  }

  /** `s.filter(v => v !== x)`: every occurrence of `x` removed, the rest kept in order. */
  function Without<T(==)>(s: seq<T>, x: T): (r: seq<T>)
    ensures x !in r
    ensures forall v :: v in r ==> v in s
    ensures forall v :: v in s && v != x ==> v in r
    ensures IsSubseq(r, s)
    ensures r == Filter(s, NotEqual(x))
  {
    FilterIsSubseq(s, NotEqual(x));
    forall v | v in s ensures v in Filter(s, NotEqual(x)) <==> v != x {
      FilterMember(s, NotEqual(x), v);
    }
    Filter(s, NotEqual(x))
  }

  /** One `if (cond) xs = xs.filter(keep)` of a filter chain. */
  datatype Step<!T> = Step(active: bool, keep: T -> bool)

  /** The chain applied in order: inactive steps are skipped. */
  function Pipeline<T>(s: seq<T>, steps: seq<Step<T>>): seq<T>
    decreases |steps|
  {
    if steps == [] then s
    else Pipeline(if steps[0].active then Filter(s, steps[0].keep) else s, steps[1..])
  }

  /** `x` satisfies every active step. */
  predicate PassesAll<T>(steps: seq<Step<T>>, x: T)
  {
    forall i :: 0 <= i < |steps| && steps[i].active ==> steps[i].keep(x)
  }

  function PassesAllOf<T>(steps: seq<Step<T>>): T -> bool
  {
    (x: T) => PassesAll(steps, x)
  }

  /** A chain of filters is one filter by the conjunction of its active steps. */
  lemma {:induction false} PipelineIsFilter<T>(s: seq<T>, steps: seq<Step<T>>)
    ensures Pipeline(s, steps) == Filter(s, PassesAllOf(steps))
    decreases |steps|
  {
    if steps == [] {
      FilterAll(s, PassesAllOf(steps));
    } else {
      var s' := if steps[0].active then Filter(s, steps[0].keep) else s;
      PipelineIsFilter(s', steps[1..]);
      forall x ensures PassesAll(steps, x) == ((steps[0].active ==> steps[0].keep(x)) && PassesAll(steps[1..], x)) {
        if (steps[0].active ==> steps[0].keep(x)) && PassesAll(steps[1..], x) {
          forall i | 0 <= i < |steps| && steps[i].active ensures steps[i].keep(x) {
            if i > 0 {
              assert steps[1..][i - 1] == steps[i];
            }
          }
        }
      }
      if steps[0].active {
        FilterFilter(s, steps[0].keep, PassesAllOf(steps[1..]), PassesAllOf(steps));
      } else {
        FilterExt(s, PassesAllOf(steps[1..]), PassesAllOf(steps));
      }
    }
  }

  /** What the chain keeps: exactly the elements passing every active step,
      in their original order. */
  lemma PipelineFacts<T>(s: seq<T>, steps: seq<Step<T>>)
    ensures IsSubseq(Pipeline(s, steps), s)
    ensures forall x :: x in Pipeline(s, steps) <==> x in s && PassesAll(steps, x)
  {
    PipelineIsFilter(s, steps);
    FilterIsSubseq(s, PassesAllOf(steps));
    forall x ensures x in Pipeline(s, steps) <==> x in s && PassesAll(steps, x) {
      FilterMember(s, PassesAllOf(steps), x);
    }
  }

  /** `k` is the index `find`/`findIndex` stops at. */
  predicate FirstMatch<T>(s: seq<T>, hit: T -> bool, k: int)
  {
    0 <= k < |s| && hit(s[k]) && forall i :: 0 <= i < k ==> !hit(s[i])
  }

  /** Filtering distributes over concatenation. */
  lemma {:induction false} FilterConcat<T>(a: seq<T>, b: seq<T>, keep: T -> bool)
    ensures Filter(a + b, keep) == Filter(a, keep) + Filter(b, keep)
  {
    if a != [] {
      assert (a + b)[0] == a[0];
      assert (a + b)[1..] == a[1..] + b;
      FilterConcat(a[1..], b, keep);
      if keep(a[0]) {
        assert Filter(a + b, keep) == [a[0]] + Filter(a[1..] + b, keep);
        assert Filter(a, keep) == [a[0]] + Filter(a[1..], keep);
      } else {
        assert Filter(a + b, keep) == Filter(a[1..] + b, keep);
      }
    } else {
      assert a + b == b;
    }
  }
}
