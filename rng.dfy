/** Python's module-level `random` generator, as an explicit stream of draws.
    The generator is a position in a supplied stream of naturals; each call
    consumes the draws it needs.  `randbelow(n)` is modelled as the next draw
    modulo `n`, and `random()` as the next draw's low 53 bits over 2^53 (the
    form of every value CPython's `random()` returns).  Which stream a seed
    produces is a parameter of the model, not Mersenne Twister. */
module Random {

  const TwoTo53: nat := 0x20_0000_0000_0000

  /** `randbelow(n)` on the draw at `pos`. */
  function Below(s: nat -> nat, pos: nat, n: nat): (r: nat)
    requires n > 0
    ensures r < n
  {
    s(pos) % n
  }

  /** `random()` on the draw at `pos`. */
  function Unit(s: nat -> nat, pos: nat): (u: real)
    ensures 0.0 <= u < 1.0
  {
    (s(pos) % TwoTo53) as real / TwoTo53 as real
  }

  /** `random.choice(xs)`: the element at the next `randbelow(len(xs))`. */
  function Choice<T>(s: nat -> nat, pos: nat, xs: seq<T>): (x: T)
    requires xs != []
    ensures x in xs
  {
    xs[Below(s, pos, |xs|)]
  }

  predicate NoDuplicates<T(==)>(xs: seq<T>) {
    forall i, j :: 0 <= i < j < |xs| ==> xs[i] != xs[j]
  }

  /** The pool left after drawing slot `j`: the last live element moves into
      the slot and the pool shrinks by one. */
  function Remove<T>(pool: seq<T>, j: nat): (r: seq<T>)
    requires j < |pool|
    ensures |r| == |pool| - 1
    ensures forall a :: 0 <= a < |r| ==> r[a] == pool[if a == j then |pool| - 1 else a]
  {
    pool[j := pool[|pool| - 1]][..|pool| - 1]
  }

  /** `random.sample(pool, k)` by CPython's pool method: pick
      `pool[randbelow(n - i)]`, then move the last live element into its slot. */
  function Sample<T>(pool: seq<T>, k: nat, s: nat -> nat, pos: nat): (r: seq<T>)
    requires k <= |pool|
    ensures |r| == k
    ensures forall i :: 0 <= i < |r| ==> r[i] in pool
    decreases k
  {
    if k == 0 then []
    else
      var j := Below(s, pos, |pool|);
      var t := Sample(Remove(pool, j), k - 1, s, pos + 1);
      assert forall i :: 0 <= i < |t| ==> t[i] in pool by {
        forall i | 0 <= i < |t|
          ensures t[i] in pool
        {
          var a :| 0 <= a < |Remove(pool, j)| && Remove(pool, j)[a] == t[i];
        }
      }
      [pool[j]] + t
  }

  /** Sampling from a pool without duplicates picks distinct elements. */
  lemma {:induction false} SampleDistinct<T>(pool: seq<T>, k: nat, s: nat -> nat, pos: nat)
    requires k <= |pool|
    requires NoDuplicates(pool)
    ensures NoDuplicates(Sample(pool, k, s, pos))
    decreases k
  {
    if k > 0 {
      var j := Below(s, pos, |pool|);
      var rest := Remove(pool, j);
      RemoveNoDuplicates(pool, j);
      SampleDistinct(rest, k - 1, s, pos + 1);
      var t := Sample(rest, k - 1, s, pos + 1);
      forall i | 0 <= i < |t|
        ensures t[i] != pool[j]
      {
        var a :| 0 <= a < |rest| && rest[a] == t[i];
      }
      ConsNoDuplicates(pool[j], t);
    }
  }

  lemma ConsNoDuplicates<T>(x: T, t: seq<T>)
    requires NoDuplicates(t) && forall i :: 0 <= i < |t| ==> t[i] != x
    ensures NoDuplicates([x] + t)
  {
    var r := [x] + t;
    forall a, b | 0 <= a < b < |r|
      ensures r[a] != r[b]
    {
      assert r[b] == t[b - 1];
      if a > 0 {
        assert r[a] == t[a - 1];
      }
    }
  }

  /** The pool left after a draw keeps no duplicates, and no longer holds
      the drawn element. */
  lemma RemoveNoDuplicates<T>(pool: seq<T>, j: nat)
    requires j < |pool|
    requires NoDuplicates(pool)
    ensures NoDuplicates(Remove(pool, j))
    ensures forall a :: 0 <= a < |pool| - 1 ==> Remove(pool, j)[a] != pool[j]
  {
    var n := |pool|;
    var q := Remove(pool, j);
    forall a, b | 0 <= a < b < |q|
      ensures q[a] != q[b]
    {
      var ia := if a == j then n - 1 else a;
      var ib := if b == j then n - 1 else b;
      assert q[a] == pool[ia] && q[b] == pool[ib] && ia != ib;
    }
  }

  /** `range(n)` as the list of its positions. */
  function Range(n: nat): (r: seq<int>)
    ensures |r| == n
    ensures forall i :: 0 <= i < n ==> r[i] == i
  {
    seq(n, i => i)
  }

  lemma RangeNoDuplicates(n: nat)
    ensures NoDuplicates(Range(n))
  {
  }

  /** Positions `random.sample(range(n), k)` returns: distinct and below `n`. */
  lemma SampleRange(n: nat, k: nat, s: nat -> nat, pos: nat)
    requires k <= n
    ensures NoDuplicates(Sample(Range(n), k, s, pos))
    ensures forall x :: x in Sample(Range(n), k, s, pos) ==> 0 <= x < n
  {
    var pool := Range(n);
    RangeNoDuplicates(n);
    SampleDistinct(pool, k, s, pos);
    var r := Sample(pool, k, s, pos);
    forall x | x in r
      ensures 0 <= x < n
    {
      var i :| 0 <= i < |r| && r[i] == x;
    }
  }

  /** The generator's state: the stream it follows and how much of it has been
      consumed. */
  class Rng {
    const stream: nat -> nat
    var pos: nat

    constructor (stream: nat -> nat)
      ensures this.stream == stream && pos == 0
    {
      this.stream := stream;
      pos := 0;
    }

    /** `randbelow(n)`. */
    method NextBelow(n: nat) returns (r: nat)
      requires n > 0
      modifies this
      ensures r == Below(stream, old(pos), n) && pos == old(pos) + 1
    {
      r := stream(pos) % n;
      pos := pos + 1;
    }

    /** `random.sample(pool, k)`. */
    method NextSample<T>(pool: seq<T>, k: nat) returns (r: seq<T>)
      requires k <= |pool|
      modifies this
      ensures r == Sample(pool, k, stream, old(pos)) && pos == old(pos) + k
    {
      r := Sample(pool, k, stream, pos);
      pos := pos + k;
    }

    /** `random()`. */
    method NextUnit() returns (u: real)
      modifies this
      ensures u == Unit(stream, old(pos)) && pos == old(pos) + 1
    {
      u := (stream(pos) % TwoTo53) as real / TwoTo53 as real;
      pos := pos + 1;
    }
  }
}
