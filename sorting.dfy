/** Python's `sorted(xs, key=k)` and `xs.sort(key=k)`: a stable sort on a real
    key.  The insertion sort below is stable (`SortByStable`), and two ordered
    lists that keep the same elements of every key in the same order are equal
    (`StableSortUnique`), so it yields exactly the list the source gets. */
module Sorting {

  predicate SortedBy<T>(s: seq<T>, key: T -> real) {
    forall i, j :: 0 <= i < j < |s| ==> key(s[i]) <= key(s[j])
  }

  /** Puts `x` in front of the first element whose key is not below its own, so
      that `x` stays ahead of the later elements with an equal key. */
  function Insert<T>(x: T, s: seq<T>, key: T -> real): (r: seq<T>)
    ensures |r| == |s| + 1
    ensures multiset(r) == multiset(s) + multiset{x}
    ensures SortedBy(s, key) ==> SortedBy(r, key)
  {
    if s == [] then [x]
    else if key(x) <= key(s[0]) then
      ConsSorted(x, s, key);
      [x] + s
    else
      var t := Insert(x, s[1..], key);
      assert s == [s[0]] + s[1..];
      InsertedAfterHead(x, s, key, t);
      ConsSorted(s[0], t, key);
      [s[0]] + t
  }

  /** An ordered list stays ordered when an element no greater than its head
      is put in front. */
  lemma ConsSorted<T>(h: T, t: seq<T>, key: T -> real)
    ensures SortedBy(t, key) && (t != [] ==> key(h) <= key(t[0])) ==> SortedBy([h] + t, key)
  {
    if SortedBy(t, key) && (t != [] ==> key(h) <= key(t[0])) {
      forall i, j | 0 <= i < j < |[h] + t|
        ensures key(([h] + t)[i]) <= key(([h] + t)[j])
      {
        if i == 0 && j > 1 {
          assert ([h] + t)[j] == t[j - 1];
        }
      }
    }
  }

  /** Every element of `t`, a rearrangement of `x` and the tail of `s`, has a
      key no smaller than the head of `s` when `s` is in order and `x` is not
      ahead of that head. */
  lemma InsertedAfterHead<T>(x: T, s: seq<T>, key: T -> real, t: seq<T>)
    requires s != [] && key(s[0]) < key(x)
    requires multiset(t) == multiset(s[1..]) + multiset{x}
    ensures SortedBy(s, key) ==> forall e :: e in t ==> key(s[0]) <= key(e)
  {
    if SortedBy(s, key) {
      forall e | e in t
        ensures key(s[0]) <= key(e)
      {
        assert e in multiset(t);
        if e != x {
          assert e in s[1..];
          var i :| 0 <= i < |s[1..]| && s[1..][i] == e;
          assert s[i + 1] == e;
        }
      }
    }
  }

  /** A stable sort: the result is ordered by the key and is a permutation of
      the input. */
  function SortBy<T>(s: seq<T>, key: T -> real): (r: seq<T>)
    ensures |r| == |s|
    ensures multiset(r) == multiset(s)
    ensures SortedBy(r, key)
  {
    if s == [] then []
    else
      assert s == [s[0]] + s[1..];
      Insert(s[0], SortBy(s[1..], key), key)
  }

  /** The elements of `s` whose key is `v`, in their order in `s`. */
  function Ties<T>(s: seq<T>, key: T -> real, v: real): (r: seq<T>)
    ensures |r| <= |s|
  {
    if s == [] then [] else (if key(s[0]) == v then [s[0]] else []) + Ties(s[1..], key, v)
  }

  /** The head of a list is one of its ties. */
  lemma TiesOfHead<T>(s: seq<T>, key: T -> real)
    requires s != []
    ensures Ties(s, key, key(s[0])) != []
  {
  }

  /** The first tie of key `v`, if any, is an element of `s` of key `v` that
      no element of a smaller index and the same key precedes. */
  lemma {:induction false} TiesHead<T>(s: seq<T>, key: T -> real, v: real)
    requires Ties(s, key, v) != []
    ensures exists i :: 0 <= i < |s| && s[i] == Ties(s, key, v)[0] && key(s[i]) == v
  {
    if key(s[0]) != v {
      TiesHead(s[1..], key, v);
      var i :| 0 <= i < |s[1..]| && s[1..][i] == Ties(s[1..], key, v)[0] && key(s[1..][i]) == v;
      assert s[i + 1] == s[1..][i];
    } else {
      assert s[0] == Ties(s, key, v)[0];
    }
  }

  lemma TiesCons<T>(x: T, s: seq<T>, key: T -> real, v: real)
    ensures Ties([x] + s, key, v) == (if key(x) == v then [x] else []) + Ties(s, key, v)
  {
    assert ([x] + s)[1..] == s;
  }

  /** `Insert` puts `x` behind no element of its own key. */
  lemma {:induction false} InsertTies<T>(x: T, s: seq<T>, key: T -> real, v: real)
    ensures Ties(Insert(x, s, key), key, v) == (if key(x) == v then [x] else []) + Ties(s, key, v)
  {
    if s != [] && key(s[0]) < key(x) {
      InsertTies(x, s[1..], key, v);
      InsertPast(x, s, key, v);
    } else if s != [] {
      assert Insert(x, s, key) == [x] + s;
      TiesCons(x, s, key, v);
    }
  }

  lemma InsertPast<T>(x: T, s: seq<T>, key: T -> real, v: real)
    requires s != [] && key(s[0]) < key(x)
    requires Ties(Insert(x, s[1..], key), key, v) == (if key(x) == v then [x] else []) + Ties(s[1..], key, v)
    ensures Ties(Insert(x, s, key), key, v) == (if key(x) == v then [x] else []) + Ties(s, key, v)
  {
    var t := Insert(x, s[1..], key);
    assert Insert(x, s, key) == [s[0]] + t;
    assert s == [s[0]] + s[1..];
    TiesPrepend(s[0], t, s[1..], key, v, if key(x) == v then [x] else []);
  }

  /** Putting an element of another key in front of two lists keeps what
      relates their ties. */
  lemma TiesPrepend<T>(h: T, t: seq<T>, u: seq<T>, key: T -> real, v: real, pre: seq<T>)
    requires Ties(t, key, v) == pre + Ties(u, key, v)
    requires key(h) == v ==> pre == []
    ensures Ties([h] + t, key, v) == pre + Ties([h] + u, key, v)
  {
    TiesCons(h, t, key, v);
    TiesCons(h, u, key, v);
  }

  /** Stability: for every key, the elements of that key leave the sort in
      the order they entered it. */
  lemma {:induction false} SortByStable<T>(s: seq<T>, key: T -> real, v: real)
    ensures Ties(SortBy(s, key), key, v) == Ties(s, key, v)
  {
    if s != [] {
      SortByStable(s[1..], key, v);
      InsertTies(s[0], SortBy(s[1..], key), key, v);
    }
  }

  /** An ordered list is fixed by its elements of each key and their order:
      any two stable sorts of one list agree. */
  lemma {:induction false} StableSortUnique<T>(a: seq<T>, b: seq<T>, key: T -> real)
    requires SortedBy(a, key) && SortedBy(b, key)
    requires forall v :: Ties(a, key, v) == Ties(b, key, v)
    ensures a == b
    decreases |a| + |b|
  {
    if a != [] && b != [] {
      var ka, kb := key(a[0]), key(b[0]);
      TiesCons(a[0], a[1..], key, ka);
      TiesCons(b[0], b[1..], key, kb);
      assert a == [a[0]] + a[1..] && b == [b[0]] + b[1..];
      assert kb <= ka by {
        TiesHead(b, key, ka);
      }
      assert ka <= kb by {
        TiesHead(a, key, kb);
      }
      assert a[0] == Ties(a, key, ka)[0] == Ties(b, key, kb)[0] == b[0];
      forall w
        ensures Ties(a[1..], key, w) == Ties(b[1..], key, w)
      {
        TiesCons(a[0], a[1..], key, w);
        TiesCons(b[0], b[1..], key, w);
        var p := if ka == w then [a[0]] else [];
        assert Ties(a[1..], key, w) == (p + Ties(a[1..], key, w))[|p|..];
      }
      StableSortUnique(a[1..], b[1..], key);
    } else if a != [] {
      TiesOfHead(a, key);
      assert false;
    } else if b != [] {
      TiesOfHead(b, key);
      assert false;
    }
  }

  /** Any stable sort of `s` by `key`, such as Python's, gives `SortBy(s, key)`. */
  lemma StableSortIsSortBy<T>(s: seq<T>, r: seq<T>, key: T -> real)
    requires SortedBy(r, key) && forall v :: Ties(r, key, v) == Ties(s, key, v)
    ensures r == SortBy(s, key)
  {
    forall v
      ensures Ties(r, key, v) == Ties(SortBy(s, key), key, v)
    {
      SortByStable(s, key, v);
    }
    StableSortUnique(r, SortBy(s, key), key);
  }

  /** After sorting, the first element carries the least key of the input. */
  lemma SortedHeadIsLeast<T>(s: seq<T>, key: T -> real)
    requires s != []
    ensures SortBy(s, key)[0] in s
    ensures forall x :: x in s ==> key(SortBy(s, key)[0]) <= key(x)
  {
    var r := SortBy(s, key);
    assert r[0] in multiset(r);
    forall x | x in s
      ensures key(r[0]) <= key(x)
    {
      assert x in multiset(s);
      assert x in r;
      var i :| 0 <= i < |r| && r[i] == x;
    }
  }

  /** A list already in key order is left as it is. */
  lemma {:induction false} SortBySorted<T>(s: seq<T>, key: T -> real)
    requires SortedBy(s, key)
    ensures SortBy(s, key) == s
  {
    if s != [] {
      SortBySorted(s[1..], key);
      assert SortBy(s[1..], key) == s[1..];
      if |s| > 1 {
        assert key(s[0]) <= key(s[1..][0]);
      }
      assert s == [s[0]] + s[1..];
    }
  }

  /** Sorting only rearranges: every element of the result comes from the input. */
  lemma SortByMembers<T>(s: seq<T>, key: T -> real)
    ensures forall x :: x in SortBy(s, key) ==> x in s
  {
    var r := SortBy(s, key);
    forall x | x in r
      ensures x in s
    {
      assert x in multiset(r);
    }
  }

  /** The earliest element with the least key. */
  function FirstLeast<T>(s: seq<T>, key: T -> real): (x: T)
    requires s != []
    ensures x in s && forall y :: y in s ==> key(x) <= key(y)
  {
    if |s| == 1 then s[0]
    else
      var w := FirstLeast(s[1..], key);
      assert forall y :: y in s ==> y == s[0] || y in s[1..];
      if key(w) < key(s[0]) then w else s[0]
  }

  /** The stable sort puts the earliest element of least key first. */
  lemma {:induction false} SortByHead<T>(s: seq<T>, key: T -> real)
    requires s != []
    ensures SortBy(s, key)[0] == FirstLeast(s, key)
  {
    if |s| > 1 {
      SortByHead(s[1..], key);
    }
  }
}
