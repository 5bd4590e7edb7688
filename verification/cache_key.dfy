/**
 * `generateCacheKey(prefix, params)` of src/lib/cache.ts: the parameter names
 * sorted by the default `Array.prototype.sort` order, each rendered as
 * `name=value`, joined by `&` and put after `prefix:`.
 *
 * The parameters object is a list of (name, rendered value) pairs with
 * distinct names, in the object's own key order.
 */
module CacheKey {
  import opened Base

  /** One property of the parameters object: its name and its value as a template literal renders it. */
  type Param = (string, string)

  /** The default string order of `sort()`: lexicographic by character. */
  predicate Below(a: string, b: string) {
    if |a| == 0 then |b| > 0
    else if |b| == 0 then false
    else a[0] < b[0] || (a[0] == b[0] && Below(a[1..], b[1..]))
  }

  lemma {:induction false} BelowIrreflexive(a: string)
    ensures !Below(a, a)
  {
    if |a| > 0 {
      BelowIrreflexive(a[1..]);
    }
  }

  lemma {:induction false} BelowTransitive(a: string, b: string, c: string)
    requires Below(a, b) && Below(b, c)
    ensures Below(a, c)
  {
    if |a| > 0 && |b| > 0 && |c| > 0 && a[0] == b[0] == c[0] {
      BelowTransitive(a[1..], b[1..], c[1..]);
    }
  }

  lemma {:induction false} BelowTotal(a: string, b: string)
    requires a != b
    ensures Below(a, b) || Below(b, a)
  {
    if |a| > 0 && |b| > 0 && a[0] == b[0] {
      assert a == [a[0]] + a[1..] && b == [b[0]] + b[1..];
      BelowTotal(a[1..], b[1..]);
    }
  }

  lemma BelowAsymmetric(a: string, b: string)
    requires Below(a, b)
    ensures !Below(b, a)
  {
    if Below(b, a) {
      BelowTransitive(a, b, a);
      BelowIrreflexive(a);
    }
  }

  /** Names strictly ascend along the list. */
  predicate SortedByName(ps: seq<Param>) {
    forall i, j :: 0 <= i < j < |ps| ==> Below(ps[i].0, ps[j].0)
  }

  /** No name occurs twice, as in any JavaScript object. */
  predicate DistinctNames(ps: seq<Param>) {
    forall i, j :: 0 <= i < j < |ps| ==> ps[i].0 != ps[j].0
  }

  /** Puts `p` into its place in a sorted list that lacks its name. */
  function Insert(p: Param, ps: seq<Param>): (r: seq<Param>)
    requires SortedByName(ps)
    requires forall q :: q in ps ==> q.0 != p.0
    ensures SortedByName(r)
    ensures multiset(r) == multiset(ps) + multiset{p}
    ensures forall q :: q in r <==> q == p || q in ps
  {
    if |ps| == 0 then [p]
    else if Below(p.0, ps[0].0) then
      assert forall j :: 0 < j < |ps| ==> Below(p.0, ps[j].0) by {
        forall j | 0 < j < |ps| {
          BelowTransitive(p.0, ps[0].0, ps[j].0);
        }
      }
      [p] + ps
    else
      BelowTotal(p.0, ps[0].0);
      var rest := Insert(p, ps[1..]);
      assert forall q :: q in rest ==> Below(ps[0].0, q.0);
      assert ps == [ps[0]] + ps[1..];
      [ps[0]] + rest
  }

  /** `Object.keys(params).sort()`, carrying each name's value along. */
  function SortByName(ps: seq<Param>): (r: seq<Param>)
    requires DistinctNames(ps)
    ensures SortedByName(r)
    ensures multiset(r) == multiset(ps)
  {
    if |ps| == 0 then []
    else
      var rest := SortByName(ps[1..]);
      assert forall q :: q in rest ==> q in multiset(ps[1..]);
      assert ps == [ps[0]] + ps[1..];
      Insert(ps[0], rest)
  }

  /** Two ascending lists with the same elements start with the same element. */
  lemma SortedSameHead(p: seq<Param>, q: seq<Param>)
    requires SortedByName(p) && SortedByName(q)
    requires multiset(p) == multiset(q) && |p| > 0
    ensures |q| > 0 && p[0] == q[0]
  {
    assert p[0] in multiset(p);
    assert p[0] in q;
    var j :| 0 <= j < |q| && q[j] == p[0];
    assert q[0] in multiset(q);
    assert q[0] in p;
    var i :| 0 <= i < |p| && p[i] == q[0];
    if i > 0 && j > 0 {
      BelowAsymmetric(p[0].0, q[0].0);
    }
  }

  lemma MultisetTails(p: seq<Param>, q: seq<Param>)
    requires |p| > 0 && |q| > 0 && p[0] == q[0]
    requires multiset(p) == multiset(q)
    ensures multiset(p[1..]) == multiset(q[1..])
  {
    assert p == [p[0]] + p[1..] && q == [q[0]] + q[1..];
    assert multiset(p[1..]) == multiset(p) - multiset{p[0]};
    assert multiset(q[1..]) == multiset(q) - multiset{q[0]};
  }

  /** A strictly ascending list is determined by its elements. */
  lemma {:induction false} SortedUnique(p: seq<Param>, q: seq<Param>)
    requires SortedByName(p) && SortedByName(q)
    requires multiset(p) == multiset(q)
    ensures p == q
  {
    if |p| > 0 {
      SortedSameHead(p, q);
      MultisetTails(p, q);
      SortedUnique(p[1..], q[1..]);
      assert p == [p[0]] + p[1..] && q == [q[0]] + q[1..];
    } else {
      assert |multiset(q)| == 0;
    }
  }

  function RenderParam(p: Param): string {
    p.0 + "=" + p.1
  }

  function RenderParams(ps: seq<Param>): (r: seq<string>)
    ensures |r| == |ps|
    ensures forall i :: 0 <= i < |ps| ==> r[i] == RenderParam(ps[i])
  {
    if |ps| == 0 then [] else [RenderParam(ps[0])] + RenderParams(ps[1..])
  }

  /** `generateCacheKey(prefix, params)` */
  function GenerateCacheKey(prefix: string, params: seq<Param>): (key: string)
    requires DistinctNames(params)
    ensures StartsWith(key, prefix + ":")
  {
    StartsWithConcat(prefix + ":", Join(RenderParams(SortByName(params)), "&"));
    prefix + ":" + Join(RenderParams(SortByName(params)), "&")
  }

  /**
   * The key is the prefix, a colon, and the `name=value` renderings in
   * ascending name order joined by `&` — for any ascending arrangement of the
   * parameters, independently of how the sort is carried out.
   */
  lemma KeyIsSortedRendering(prefix: string, params: seq<Param>, sorted: seq<Param>)
    requires DistinctNames(params)
    requires SortedByName(sorted) && multiset(sorted) == multiset(params)
    ensures GenerateCacheKey(prefix, params) == prefix + ":" + Join(RenderParams(sorted), "&")
  {
    SortedUnique(SortByName(params), sorted);
  }

  /** Two parameters written in descending name order are rendered swapped. */
  lemma SwappedPairKey(prefix: string, a: Param, b: Param)
    requires Below(b.0, a.0)
    ensures DistinctNames([a, b]) && GenerateCacheKey(prefix, [a, b]) == prefix + ":" + Join([RenderParam(b), RenderParam(a)], "&")
  {
    var sorted := [b, a];
    assert DistinctNames([a, b]) by {
      BelowIrreflexive(a.0);
    }
    assert SortedByName(sorted) && multiset(sorted) == multiset([a, b]);
    assert RenderParams(sorted) == [RenderParam(b), RenderParam(a)];
    KeyIsSortedRendering(prefix, [a, b], sorted);
  }

  /** Sorting an already ascending list changes nothing. */
  lemma SortSorted(ps: seq<Param>)
    requires DistinctNames(ps) && SortedByName(ps)
    ensures SortByName(ps) == ps
  {
    SortedUnique(SortByName(ps), ps);
  }

  /** The key does not depend on the order in which the object's properties were written. */
  lemma KeyOrderIndependent(prefix: string, p: seq<Param>, q: seq<Param>)
    requires DistinctNames(p) && DistinctNames(q)
    requires multiset(p) == multiset(q)
    ensures GenerateCacheKey(prefix, p) == GenerateCacheKey(prefix, q)
  {
    KeyIsSortedRendering(prefix, q, SortByName(p));
  }

  /** An empty parameters object gives the bare prefix and colon. */
  lemma KeyWithoutParams(prefix: string)
    ensures GenerateCacheKey(prefix, []) == prefix + ":"
  {
  }
}
