/** Sorting, as sort.Slice and sort.Strings are used: by a strict total order, so that the result
    depends only on what is sorted and not on the order it came in. */
module Ordering {

  // A strict total order on the elements of a domain.
  ghost predicate Orders<T(!new)>(less: (T, T) -> bool, dom: set<T>) {
    && (forall a | a in dom :: !less(a, a))
    && (forall a, b | a in dom && b in dom :: a == b || less(a, b) || less(b, a))
    && (forall a, b, c | a in dom && b in dom && c in dom :: less(a, b) && less(b, c) ==> less(a, c))
  }

  ghost predicate Within<T(!new)>(s: seq<T>, dom: set<T>) {
    forall x | x in s :: x in dom
  }

  predicate Sorted<T>(s: seq<T>, less: (T, T) -> bool) {
    forall i, j | 0 <= i < j < |s| :: !less(s[j], s[i])
  }

  function Insert<T>(x: T, s: seq<T>, less: (T, T) -> bool): (r: seq<T>)
    ensures multiset(r) == multiset(s) + multiset{x}
  {
    if s == [] || less(x, s[0]) then [x] + s
    else
      assert s == [s[0]] + s[1..];
      [s[0]] + Insert(x, s[1..], less)
  }

  function Sort<T>(s: seq<T>, less: (T, T) -> bool): (r: seq<T>)
    ensures multiset(r) == multiset(s)
  {
    if s == [] then []
    else
      assert s == [s[0]] + s[1..];
      Insert(s[0], Sort(s[1..], less), less)
  }

  lemma {:induction false} InsertSorts<T(!new)>(x: T, s: seq<T>, less: (T, T) -> bool, dom: set<T>)
    requires Orders(less, dom) && Within([x] + s, dom) && Sorted(s, less)
    ensures Sorted(Insert(x, s, less), less)
  {
    if s != [] && !less(x, s[0]) {
      InsertSorts(x, s[1..], less, dom);
      var r := Insert(x, s[1..], less);
      forall y | y in r ensures !less(y, s[0]) {
        assert y in multiset(r);
        assert y == x || y in s[1..];
      }
    }
  }

  lemma {:induction false} SortSorts<T(!new)>(s: seq<T>, less: (T, T) -> bool, dom: set<T>)
    requires Orders(less, dom) && Within(s, dom)
    ensures Sorted(Sort(s, less), less) && Within(Sort(s, less), dom)
  {
    forall x | x in Sort(s, less) ensures x in dom {
      assert x in multiset(Sort(s, less));
    }
    if s != [] {
      SortSorts(s[1..], less, dom);
      InsertSorts(s[0], Sort(s[1..], less), less, dom);
    }
  }

  lemma HeadsEqual<T(!new)>(a: seq<T>, b: seq<T>, less: (T, T) -> bool, dom: set<T>)
    requires Orders(less, dom) && Within(a, dom) && Within(b, dom)
    requires Sorted(a, less) && Sorted(b, less) && a != [] && b != [] && b[0] in a && a[0] in b
    ensures a[0] == b[0]
  {
    assert a[0] in dom && b[0] in dom;
  }

  /** Two sorted arrangements of the same elements are the same sequence. */
  lemma {:induction false} SortedUnique<T(!new)>(a: seq<T>, b: seq<T>, less: (T, T) -> bool, dom: set<T>)
    requires Orders(less, dom) && Within(a, dom) && Within(b, dom)
    requires Sorted(a, less) && Sorted(b, less) && multiset(a) == multiset(b)
    ensures a == b
  {
    hide Orders;
    assert |multiset(a)| == |a| && |multiset(b)| == |b|;
    if a != [] {
      assert a[0] in multiset(b) && b[0] in multiset(a);
      HeadsEqual(a, b, less, dom);
      assert a == [a[0]] + a[1..] && b == [b[0]] + b[1..];
      assert multiset(a[1..]) == multiset(a) - multiset{a[0]};
      assert multiset(b[1..]) == multiset(b) - multiset{b[0]};
      SortedUnique(a[1..], b[1..], less, dom);
    }
  }

  /** Sorting forgets the order of its input. */
  lemma SortForgetsOrder<T(!new)>(a: seq<T>, b: seq<T>, less: (T, T) -> bool, dom: set<T>)
    requires Orders(less, dom) && Within(a, dom) && multiset(a) == multiset(b)
    ensures Sort(a, less) == Sort(b, less)
  {
    forall x | x in b ensures x in dom {
      assert x in multiset(b);
    }
    SortSorts(a, less, dom);
    SortSorts(b, less, dom);
    SortedUnique(Sort(a, less), Sort(b, less), less, dom);
  }

  /* ----- Strings, byte by byte ----- */

  predicate LexLess(a: string, b: string) {
    b != "" && (a == "" || a[0] < b[0] || (a[0] == b[0] && LexLess(a[1..], b[1..])))
  }

  // The strings agree before `k`, and there the first has the smaller character.
  predicate PartAt(a: string, b: string, k: nat) {
    k < |a| && k < |b| && a[..k] == b[..k] && a[k] < b[k]
  }

  lemma PartLater(a: string, b: string, k: nat)
    requires a != "" && b != "" && a[0] == b[0]
    ensures PartAt(a[1..], b[1..], k) <==> PartAt(a, b, k + 1)
  {
    if k < |a| - 1 && k < |b| - 1 {
      assert a[..k + 1] == [a[0]] + a[1..][..k] && b[..k + 1] == [b[0]] + b[1..][..k];
      assert a[..k + 1][1..] == a[1..][..k] && b[..k + 1][1..] == b[1..][..k];
    }
  }

  lemma AlikeBefore(a: string, b: string, k: nat)
    requires a != "" && b != ""
    ensures PartAt(a, b, k) && k > 0 ==> a[0] == b[0]
  {
    if PartAt(a, b, k) && k > 0 {
      assert a[..k][0] == b[..k][0];
    }
  }

  /** The order of a dictionary: one string is the beginning of the other, or they part at a character
      where the first has the smaller one. */
  lemma {:induction false} LexMeaning(a: string, b: string)
    ensures LexLess(a, b) <==> a < b || exists k :: PartAt(a, b, k)
  {
    if a == "" || b == "" {
    } else if a[0] == b[0] {
      LexMeaning(a[1..], b[1..]);
      assert a < b <==> a[1..] < b[1..];
      forall k: nat ensures PartAt(a[1..], b[1..], k) <==> PartAt(a, b, k + 1) { PartLater(a, b, k); }
      assert !PartAt(a, b, 0);
      if k: nat :| PartAt(a, b, k) { assert PartAt(a[1..], b[1..], k - 1); }
      if k: nat :| PartAt(a[1..], b[1..], k) { assert PartAt(a, b, k + 1); }
    } else {
      assert PartAt(a, b, 0) <==> a[0] < b[0];
      forall k: nat ensures PartAt(a, b, k) ==> k == 0 { AlikeBefore(a, b, k); }
    }
  }

  lemma {:induction false} LexIrreflexive(a: string)
    ensures !LexLess(a, a)
  {
    if a != "" { LexIrreflexive(a[1..]); }
  }

  lemma {:induction false} LexConnected(a: string, b: string)
    ensures a == b || LexLess(a, b) || LexLess(b, a)
  {
    if a != "" && b != "" && a[0] == b[0] {
      LexConnected(a[1..], b[1..]);
      if a[1..] == b[1..] { assert a == [a[0]] + a[1..] && b == [b[0]] + b[1..]; }
    }
  }

  lemma {:induction false} LexTransitive(a: string, b: string, c: string)
    requires LexLess(a, b) && LexLess(b, c)
    ensures LexLess(a, c)
  {
    if a != "" && a[0] == b[0] == c[0] { LexTransitive(a[1..], b[1..], c[1..]); }
  }

  lemma LexTotal(dom: set<string>)
    ensures Orders(LexLess, dom)
  {
    forall a ensures !LexLess(a, a) { LexIrreflexive(a); }
    forall a, b ensures a == b || LexLess(a, b) || LexLess(b, a) { LexConnected(a, b); }
    forall a, b, c | LexLess(a, b) && LexLess(b, c) ensures LexLess(a, c) { LexTransitive(a, b, c); }
  }

  /** Collecting the members of a set in any order and sorting them: the one sorted list of them. */
  method SortedNames(names: set<string>) returns (list: seq<string>)
    ensures (set n | n in list) == names && |list| == |names|
    ensures forall i, j | 0 <= i < j < |list| :: LexLess(list[i], list[j])
  {
    list := [];
    var todo := names;
    while todo != {}
      invariant todo <= names && multiset(list) == multiset(names - todo)
    {
      var n :| n in todo;
      assert names - (todo - {n}) == (names - todo) + {n};
      todo := todo - {n};
      list := list + [n];
    }
    assert names - todo == names;
    ghost var before := list;
    list := Sort(list, LexLess);
    LexTotal(names);
    forall x | x in before ensures x in names {
      assert x in multiset(before);
    }
    SortSorts(before, LexLess, names);
    assert |multiset(list)| == |multiset(names)|;
    NoRepeats(list, names);
  }

  lemma NoRepeats(list: seq<string>, names: set<string>)
    requires multiset(list) == multiset(names) && Sorted(list, LexLess)
    ensures (set n | n in list) == names
    ensures forall i, j | 0 <= i < j < |list| :: LexLess(list[i], list[j])
  {
    forall n ensures n in list <==> n in names {
      assert n in list <==> n in multiset(list);
    }
    forall i, j | 0 <= i < j < |list| ensures LexLess(list[i], list[j]) {
      LexConnected(list[i], list[j]);
      TwiceThere(list, i, j);
      assert multiset(list)[list[i]] <= 1;
    }
  }

  lemma TwiceThere<T>(s: seq<T>, i: nat, j: nat)
    requires i < j < |s|
    ensures s[i] == s[j] ==> multiset(s)[s[i]] >= 2
  {
    assert s == s[..i] + [s[i]] + s[i + 1..j] + [s[j]] + s[j + 1..];
  }
}
