/** Loops that walk a list and append to another: what they keep, in which order. */
module Filters {
  import opened Wrappers

  // What f makes of the elements of s that it keeps, in order.
  function FilterMap<T, U>(f: T -> Option<U>, s: seq<T>): (r: seq<U>)
    ensures |r| <= |s|
  {
    if s == [] then []
    else
      var y := f(s[|s| - 1]);
      FilterMap(f, s[..|s| - 1]) + if y.Some? then [y.value] else []
  }

  function FlatMap<T, U>(f: T -> seq<U>, s: seq<T>): seq<U> {
    if s == [] then [] else FlatMap(f, s[..|s| - 1]) + f(s[|s| - 1])
  }

  // The set of what f makes of the elements.
  function UnionMap<T, U>(f: T -> set<U>, s: seq<T>): set<U> {
    if s == [] then {} else UnionMap(f, s[..|s| - 1]) + f(s[|s| - 1])
  }

  // One more element.
  lemma Prefix<T>(s: seq<T>, i: nat)
    requires i < |s|
    ensures s[..i + 1][..i] == s[..i] && s[..i + 1] == s[..i] + [s[i]]
  {
  }

  lemma FilterNone<T, U>(f: T -> Option<U>)
    ensures FilterMap(f, []) == []
  {
  }

  lemma FilterMore<T, U>(f: T -> Option<U>, s: seq<T>, i: nat)
    requires i < |s|
    ensures FilterMap(f, s[..i + 1]) == FilterMap(f, s[..i]) + if f(s[i]).Some? then [f(s[i]).value] else []
  {
    Prefix(s, i);
  }

  lemma FlatNone<T, U>(f: T -> seq<U>)
    ensures FlatMap(f, []) == []
  {
  }

  lemma FlatMore<T, U>(f: T -> seq<U>, s: seq<T>, i: nat)
    requires i < |s|
    ensures FlatMap(f, s[..i + 1]) == FlatMap(f, s[..i]) + f(s[i])
  {
    Prefix(s, i);
  }

  // The positions that f keeps, in order.
  ghost predicate Marks<T, U>(f: T -> Option<U>, s: seq<T>, at: seq<nat>) {
    && |at| == |FilterMap(f, s)|
    && (forall k | 0 <= k < |at| :: at[k] < |s| && f(s[at[k]]) == Some(FilterMap(f, s)[k]))
    && (forall j, k | 0 <= j < k < |at| :: at[j] < at[k])
    && (forall i: nat | i < |s| && f(s[i]).Some? :: i in at)
  }

  lemma MarksMore<T, U>(f: T -> Option<U>, s: seq<T>, before: seq<nat>)
    requires s != [] && Marks(f, s[..|s| - 1], before)
    ensures Marks(f, s, before + if f(s[|s| - 1]).Some? then [|s| - 1] else [])
  {
    hide FilterMap;
    var n := |s| - 1;
    var at := before + if f(s[n]).Some? then [n] else [];
    FilterMore(f, s, n);
    assert s[..n + 1] == s;
    assert forall k | 0 <= k < |before| :: s[..n][before[k]] == s[before[k]];
    forall i: nat | i < |s| && f(s[i]).Some? ensures i in at {
      if i < n {
        assert s[..n][i] == s[i];
        assert i in before;
      } else {
        assert at[|before|] == i;
      }
    }
  }

  /** FilterMap keeps the order and drops only what f drops: its elements come from strictly increasing
      positions, and every position f keeps is among them. */
  lemma Origins<T, U>(f: T -> Option<U>, s: seq<T>) returns (at: seq<nat>)
    ensures |at| == |FilterMap(f, s)|
    ensures forall k | 0 <= k < |at| :: at[k] < |s| && f(s[at[k]]) == Some(FilterMap(f, s)[k])
    ensures forall j, k | 0 <= j < k < |at| :: at[j] < at[k]
    ensures forall i: nat | i < |s| && f(s[i]).Some? :: i in at
  {
    at := Marked(f, s);
  }

  lemma {:induction false} Marked<T, U>(f: T -> Option<U>, s: seq<T>) returns (at: seq<nat>)
    ensures Marks(f, s, at)
  {
    if s == [] {
      at := [];
    } else {
      var before := Marked(f, s[..|s| - 1]);
      MarksMore(f, s, before);
      at := before + if f(s[|s| - 1]).Some? then [|s| - 1] else [];
    }
  }

  // The elements of the first, in their order, are elements of the second.
  ghost predicate InOrder<T>(sub: seq<T>, s: seq<T>) {
    exists at: seq<nat> :: PicksOut(sub, s, at)
  }

  ghost predicate PicksOut<T>(sub: seq<T>, s: seq<T>, at: seq<nat>) {
    && |at| == |sub|
    && (forall k | 0 <= k < |at| :: at[k] < |s| && s[at[k]] == sub[k])
    && (forall j, k | 0 <= j < k < |at| :: at[j] < at[k])
  }

  /** A loop that keeps some elements as they are: it keeps exactly those, in their order. */
  lemma Selection<T>(f: T -> Option<T>, s: seq<T>)
    requires forall x | x in s && f(x).Some? :: f(x).value == x
    ensures InOrder(FilterMap(f, s), s)
    ensures forall x :: x in FilterMap(f, s) <==> x in s && f(x).Some?
  {
    var at := Origins(f, s);
    assert PicksOut(FilterMap(f, s), s, at);
    forall x ensures x in FilterMap(f, s) <==> x in s && f(x).Some? {
      if x in FilterMap(f, s) { var _ := Origin(f, s, x); }
      if x in s && f(x).Some? { Kept(f, s, x); }
    }
  }

  /** When every element is either kept or refused, nothing is lost and nothing counted twice. */
  lemma {:induction false} Conserved<T, U, V>(f: T -> Option<U>, g: T -> Option<V>, s: seq<T>)
    requires forall x | x in s :: f(x).Some? <==> g(x).None?
    ensures |FilterMap(f, s)| + |FilterMap(g, s)| == |s|
  {
    if s != [] { Conserved(f, g, s[..|s| - 1]); }
  }

  // Where an element of the result comes from.
  lemma Origin<T, U>(f: T -> Option<U>, s: seq<T>, y: U) returns (x: T)
    requires y in FilterMap(f, s)
    ensures x in s && f(x) == Some(y)
  {
    var at := Origins(f, s);
    var k :| 0 <= k < |at| && FilterMap(f, s)[k] == y;
    x := s[at[k]];
  }

  lemma Kept<T, U>(f: T -> Option<U>, s: seq<T>, x: T)
    requires x in s && f(x).Some?
    ensures f(x).value in FilterMap(f, s)
  {
    var at := Origins(f, s);
    var i: nat :| i < |s| && s[i] == x;
    var k :| 0 <= k < |at| && at[k] == i;
    assert f(s[at[k]]) == Some(FilterMap(f, s)[k]);
  }

  lemma {:induction false} InFlat<T, U>(f: T -> seq<U>, s: seq<T>, y: U)
    ensures y in FlatMap(f, s) <==> exists x | x in s :: y in f(x)
  {
    if s != [] {
      InFlat(f, s[..|s| - 1], y);
      assert s == s[..|s| - 1] + [s[|s| - 1]];
    }
  }

  lemma InFilter<T, U>(f: T -> Option<U>, s: seq<T>, y: U)
    ensures y in FilterMap(f, s) <==> exists x | x in s :: f(x) == Some(y)
  {
    if y in FilterMap(f, s) { var _ := Origin(f, s, y); }
    if x :| x in s && f(x) == Some(y) { Kept(f, s, x); }
  }

  lemma {:induction false} InUnion<T, U>(f: T -> set<U>, s: seq<T>, y: U)
    ensures y in UnionMap(f, s) <==> exists x | x in s :: y in f(x)
  {
    if s != [] {
      InUnion(f, s[..|s| - 1], y);
      assert s == s[..|s| - 1] + [s[|s| - 1]];
    }
  }

  /* ----- Lists gathered into a map ----- */

  // The last of the list that is made into something of that name.
  ghost predicate LastMade<G, K, H>(list: seq<G>, make: G -> Option<H>, name: H -> K, k: K, i: nat) {
    && i < |list| && make(list[i]).Some? && name(make(list[i]).value) == k
    && forall j | i < j < |list| && make(list[j]).Some? :: name(make(list[j]).value) != k
  }

  /** The map holds what the list is made into, each under its name, and nothing else; of two with the
      same name, the later. */
  ghost predicate Holds<G, K, H>(m: map<K, H>, list: seq<G>, make: G -> Option<H>, name: H -> K) {
    && (forall i | 0 <= i < |list| && make(list[i]).Some? :: name(make(list[i]).value) in m)
    && (forall k | k in m :: exists i: nat :: LastMade(list, make, name, k, i) && m[k] == make(list[i]).value)
  }

  function Put<K, H>(m: map<K, H>, made: Option<H>, name: H -> K): map<K, H> {
    if made.Some? then m[name(made.value) := made.value] else m
  }

  lemma HoldsMore<G, K, H>(m: map<K, H>, list: seq<G>, make: G -> Option<H>, name: H -> K, i: nat)
    requires i < |list| && Holds(m, list[..i], make, name)
    ensures Holds(Put(m, make(list[i]), name), list[..i + 1], make, name)
  {
    var m', now := Put(m, make(list[i]), name), list[..i + 1];
    assert now == list[..i] + [list[i]];
    forall k | k in m' ensures exists j: nat :: LastMade(now, make, name, k, j) && m'[k] == make(now[j]).value
    {
      if make(list[i]).Some? && name(make(list[i]).value) == k {
        assert LastMade(now, make, name, k, i);
      } else {
        var j: nat :| LastMade(list[..i], make, name, k, j) && m[k] == make(list[..i][j]).value;
        assert LastMade(now, make, name, k, j);
      }
    }
  }

  /** Where names differ, each translation is there as it is. */
  lemma HoldsEach<G, K, H>(m: map<K, H>, list: seq<G>, make: G -> Option<H>, name: H -> K, i: nat)
    requires Holds(m, list, make, name) && i < |list| && make(list[i]).Some?
    requires forall j | 0 <= j < |list| && j != i && make(list[j]).Some? :: name(make(list[j]).value) != name(make(list[i]).value)
    ensures var h := make(list[i]).value; name(h) in m && m[name(h)] == h
  {
    var k := name(make(list[i]).value);
    var j: nat :| LastMade(list, make, name, k, j) && m[k] == make(list[j]).value;
  }
}
