/** Small shared vocabulary: optional values, results, and the handful of
    Python numeric and slicing conventions that the rest of the model relies on
    (round-half-to-even `round`, truncating `int()`, and `s[:k]` / `s[k:]` with
    Python's treatment of negative and out-of-range bounds). */
module Common {

  datatype Option<T> = None | Some(value: T)

  datatype Result<T, E> = Ok(value: T) | Err(error: E)

  function Max(a: int, b: int): int { if a < b then b else a }

  function Min(a: int, b: int): int { if a < b then a else b }

  function MaxR(a: real, b: real): real { if a < b then b else a }

  function MinR(a: real, b: real): real { if a < b then a else b }

  /** Python's `round(x)` on a float: the nearest integer, ties go to the even one. */
  function RoundHalfEven(x: real): (r: int)
    ensures -(1.0 / 2.0) <= r as real - x <= 1.0 / 2.0
    ensures (r as real - x == 1.0 / 2.0 || x - r as real == 1.0 / 2.0) ==> r % 2 == 0
  {
    var f := x.Floor;
    var d := x - f as real;
    if d < 1.0 / 2.0 then f
    else if d > 1.0 / 2.0 then f + 1
    else if f % 2 == 0 then f
    else f + 1
  }

  /** An integer is its own rounding. */
  lemma RoundOfInteger(n: int)
    ensures RoundHalfEven(n as real) == n
  {
  }

  /** Rounding picks the integer closest to `x`: no integer is strictly nearer. */
  lemma RoundIsNearest(x: real, m: int)
    ensures Abs(RoundHalfEven(x) as real - x) <= Abs(m as real - x)
  {
    var r := RoundHalfEven(x);
    if m < r {
      assert m as real <= r as real - 1.0;
    } else if m > r {
      assert m as real >= r as real + 1.0;
    }
  }

  function Abs(x: real): real { if x < 0.0 then -x else x }

  /** Python's `int(x)` on a float: truncation toward zero. */
  function Trunc(x: real): (r: int)
    ensures x >= 0.0 ==> 0 <= r && r as real <= x < r as real + 1.0
    ensures x < 0.0 ==> r <= 0 && r as real - 1.0 < x <= r as real
  {
    if x >= 0.0 then x.Floor else -((-x).Floor)
  }

  /** Python's `s[:k]`. */
  function Take<T>(s: seq<T>, k: int): (r: seq<T>)
    ensures 0 <= k <= |s| ==> r == s[..k]
    ensures k > |s| ==> r == s
    ensures k < 0 ==> r == s[..Max(0, |s| + k)]
  {
    if k >= 0 then s[..Min(k, |s|)] else s[..Max(0, |s| + k)]
  }

  /** Python's `s[k:]`. */
  function Drop<T>(s: seq<T>, k: int): (r: seq<T>)
    ensures 0 <= k <= |s| ==> r == s[k..]
    ensures k > |s| ==> r == []
    ensures k < 0 ==> r == s[Max(0, |s| + k)..]
  {
    if k >= 0 then s[Min(k, |s|)..] else s[Max(0, |s| + k)..]
  }

  /** Taking a prefix and dropping it split the sequence back into itself. */
  lemma TakeDropSplit<T>(s: seq<T>, k: int)
    ensures Take(s, k) + Drop(s, k) == s
  {
  }

  /** `[x for x in s if f(x)]`. */
  function Filter<T>(s: seq<T>, f: T -> bool): (r: seq<T>)
    ensures |r| <= |s|
    ensures forall i :: 0 <= i < |r| ==> r[i] in s && f(r[i])
    ensures forall i :: 0 <= i < |s| && f(s[i]) ==> s[i] in r
    ensures (forall i :: 0 <= i < |s| ==> !f(s[i])) ==> r == []
  {
    if s == [] then [] else (if f(s[0]) then [s[0]] else []) + Filter(s[1..], f)
  }

  /** `xs or ys` on lists: `ys` when `xs` is empty. */
  function OrElse<T>(xs: seq<T>, ys: seq<T>): seq<T> {
    if xs == [] then ys else xs
  }
}
