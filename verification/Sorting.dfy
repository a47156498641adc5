/** Sorting by a total order: what the library's sort.Slice promises when no two elements tie. */
module Sorting {

  ghost predicate TotalOrder<T(!new)>(le: (T, T) -> bool) {
    && (forall x, y :: le(x, y) || le(y, x))
    && (forall x, y, z :: le(x, y) && le(y, z) ==> le(x, z))
  }

  function Insert<T>(le: (T, T) -> bool, x: T, s: seq<T>): seq<T> {
    if s == [] || le(x, s[0]) then [x] + s else [s[0]] + Insert(le, x, s[1..])
  }

  function Sort<T>(le: (T, T) -> bool, s: seq<T>): seq<T> {
    if s == [] then [] else Insert(le, s[0], Sort(le, s[1..]))
  }

  ghost predicate Ordered<T>(le: (T, T) -> bool, s: seq<T>) {
    forall i, k :: 0 <= i < k < |s| ==> le(s[i], s[k])
  }

  /** No two different elements are equivalent under the order. */
  ghost predicate TieFree<T>(le: (T, T) -> bool, s: seq<T>) {
    forall x, y :: x in s && y in s && le(x, y) && le(y, x) ==> x == y
  }

  lemma {:induction false} InsertPermutes<T>(le: (T, T) -> bool, x: T, s: seq<T>)
    ensures multiset(Insert(le, x, s)) == multiset(s) + multiset{x}
  {
    if s != [] && !le(x, s[0]) {
      InsertPermutes(le, x, s[1..]);
      assert s == [s[0]] + s[1..];
    }
  }

  lemma {:induction false} SortPermutes<T>(le: (T, T) -> bool, s: seq<T>)
    ensures multiset(Sort(le, s)) == multiset(s)
  {
    if s != [] {
      SortPermutes(le, s[1..]);
      InsertPermutes(le, s[0], Sort(le, s[1..]));
      assert s == [s[0]] + s[1..];
    }
  }

  lemma SameElements<T>(s: seq<T>, t: seq<T>)
    requires multiset(s) == multiset(t)
    ensures |s| == |t| && forall x :: x in s <==> x in t
  {
    assert |multiset(s)| == |multiset(t)|;
    forall x ensures x in s <==> x in t {
      assert x in s <==> x in multiset(s);
      assert x in t <==> x in multiset(t);
    }
  }

  lemma OrderedCons<T>(le: (T, T) -> bool, x: T, s: seq<T>)
    requires Ordered(le, s) && forall y :: y in s ==> le(x, y)
    ensures Ordered(le, [x] + s)
  {
    var t := [x] + s;
    forall i, k | 0 <= i < k < |t| ensures le(t[i], t[k]) {
      assert t[k] == s[k - 1];
      if i > 0 {
        assert t[i] == s[i - 1];
      }
    }
  }

  lemma {:induction false} InsertOrders<T(!new)>(le: (T, T) -> bool, x: T, s: seq<T>)
    requires TotalOrder(le) && Ordered(le, s)
    ensures Ordered(le, Insert(le, x, s))
  {
    if s == [] {
    } else if le(x, s[0]) {
      assert forall y :: y in s ==> y == s[0] || le(s[0], y);
      OrderedCons(le, x, s);
    } else {
      var more := Insert(le, x, s[1..]);
      InsertOrders(le, x, s[1..]);
      InsertPermutes(le, x, s[1..]);
      forall y | y in more ensures le(s[0], y) {
        assert y in multiset(s[1..]) + multiset{x};
      }
      OrderedCons(le, s[0], more);
    }
  }

  lemma {:induction false} SortOrders<T(!new)>(le: (T, T) -> bool, s: seq<T>)
    requires TotalOrder(le)
    ensures Ordered(le, Sort(le, s))
  {
    if s != [] {
      SortOrders(le, s[1..]);
      InsertOrders(le, s[0], Sort(le, s[1..]));
    }
  }

  /** Without ties there is one ordered arrangement, so nothing depends on how the elements came in. */
  lemma {:induction false} OrderedIsUnique<T(!new)>(le: (T, T) -> bool, s: seq<T>, t: seq<T>)
    requires TotalOrder(le) && multiset(s) == multiset(t)
    requires Ordered(le, s) && Ordered(le, t) && TieFree(le, s)
    ensures s == t
  {
    SameElements(s, t);
    if s != [] {
      var (x, y) := (s[0], t[0]);
      SmallestFirst(le, s, y);
      SmallestFirst(le, t, x);
      assert x == y;
      WithoutFirst(s);
      WithoutFirst(t);
      OrderedIsUnique(le, s[1..], t[1..]);
      assert s == [x] + s[1..] && t == [x] + t[1..];
    }
  }

  lemma SmallestFirst<T>(le: (T, T) -> bool, s: seq<T>, x: T)
    requires Ordered(le, s) && x in s
    ensures x == s[0] || le(s[0], x)
  {
  }

  lemma WithoutFirst<T>(s: seq<T>)
    requires s != []
    ensures multiset(s[1..]) == multiset(s) - multiset{s[0]} && forall x :: x in s[1..] ==> x in s
  {
    assert s == [s[0]] + s[1..];
  }

  /** Sorting any two permutations of a list without ties gives the same list. */
  lemma SortIgnoresOrder<T(!new)>(le: (T, T) -> bool, s: seq<T>, t: seq<T>)
    requires TotalOrder(le) && multiset(s) == multiset(t) && TieFree(le, s)
    ensures Sort(le, s) == Sort(le, t)
  {
    SortOrders(le, s);
    SortOrders(le, t);
    SortPermutes(le, s);
    SortPermutes(le, t);
    SameElements(s, Sort(le, s));
    OrderedIsUnique(le, Sort(le, s), Sort(le, t));
  }

  ghost predicate NoRepeats<T>(s: seq<T>) {
    forall i, k :: 0 <= i < k < |s| ==> s[i] != s[k]
  }

  lemma {:induction false} OnceAtMost<T>(s: seq<T>, x: T)
    requires NoRepeats(s)
    ensures multiset(s)[x] <= 1
  {
    if s != [] {
      var last := |s| - 1;
      OnceAtMost(s[..last], x);
      assert s == s[..last] + [s[last]];
      assert s[last] !in s[..last];
    }
  }

  lemma NoRepeatsPermute<T>(s: seq<T>, t: seq<T>)
    requires NoRepeats(s) && multiset(s) == multiset(t)
    ensures NoRepeats(t)
  {
    forall i, k | 0 <= i < k < |t| ensures t[i] != t[k] {
      OnceAtMost(s, t[i]);
      assert t == t[..k] + [t[k]] + t[k + 1..] && t[i] in t[..k];
    }
  }

  function Map<T, U>(f: T -> U, s: seq<T>): seq<U> {
    seq(|s|, i requires 0 <= i < |s| => f(s[i]))
  }

  lemma MapOfConcat<T, U>(f: T -> U, s: seq<T>, t: seq<T>)
    ensures Map(f, s + t) == Map(f, s) + Map(f, t)
  {
  }

  lemma MapOfSplice<T, U>(f: T -> U, front: seq<T>, x: T, back: seq<T>)
    ensures multiset(Map(f, front + ([x] + back))) == multiset(Map(f, front + back)) + multiset{f(x)}
  {
    MapOfConcat(f, front, [x] + back);
    MapOfConcat(f, [x], back);
    MapOfConcat(f, front, back);
    assert Map(f, [x]) == [f(x)];
  }

  lemma MapOfCons<T, U>(f: T -> U, s: seq<T>)
    requires s != []
    ensures multiset(Map(f, s)) == multiset(Map(f, s[1..])) + multiset{f(s[0])}
  {
    assert Map(f, s) == [f(s[0])] + Map(f, s[1..]);
  }

  lemma TakeOut<T>(s: seq<T>, x: T) returns (front: seq<T>, back: seq<T>)
    requires x in s
    ensures s == front + ([x] + back) && multiset(front + back) == multiset(s) - multiset{x}
  {
    var k :| 0 <= k < |s| && s[k] == x;
    front, back := s[..k], s[k + 1..];
    assert s == front + ([x] + back);
    assert multiset(s) == multiset(front) + multiset{x} + multiset(back);
  }

  /** Mapping commutes with permuting. */
  lemma {:induction false} MapPermutes<T, U>(f: T -> U, s: seq<T>, t: seq<T>)
    requires multiset(s) == multiset(t)
    ensures multiset(Map(f, s)) == multiset(Map(f, t))
  {
    SameElements(s, t);
    if s != [] {
      var (x, more) := (s[0], s[1..]);
      var front, back := TakeOut(t, x);
      WithoutFirst(s);
      MapPermutes(f, more, front + back);
      MapOfCons(f, s);
      MapOfSplice(f, front, x, back);
    }
  }
}
