/** The Python string operations the system leans on, written out: `lower`,
    `strip`, `in` (substring), `split`, `join`, `replace`, `str(int)` and the
    `int()` / `float()` conversions of a string. */
module Text {
  import opened Common

  // ---------------------------------------------------------------------------
  // Case folding
  // ---------------------------------------------------------------------------

  /** Upper-case letters that `str.lower` changes: ASCII A-Z and the Latin-1
      capitals U+00C0..U+00DE except the multiplication sign U+00D7. */
  predicate IsUpper(c: char) {
    ('A' <= c <= 'Z') || ('À' <= c <= 'Þ' && c != '×')
  }

  function LowerChar(c: char): (r: char)
    ensures !IsUpper(r)
    ensures !IsUpper(c) ==> r == c
  {
    if IsUpper(c) then (c as int + 32) as char else c
  }

  function Lower(s: string): (r: string)
    ensures |r| == |s|
    ensures forall i :: 0 <= i < |s| ==> r[i] == LowerChar(s[i])
  {
    if s == [] then [] else [LowerChar(s[0])] + Lower(s[1..])
  }

  /** A string of lower-case ASCII letters and spaces is its own lower case. */
  lemma LowerOfLowerCase(s: string)
    requires forall i :: 0 <= i < |s| ==> 'a' <= s[i] <= 'z' || s[i] == ' '
    ensures Lower(s) == s
  {
  }

  lemma {:induction false} LowerIdempotent(s: string)
    ensures Lower(Lower(s)) == Lower(s)
  {
    if s != [] {
      LowerIdempotent(s[1..]);
      assert Lower(s)[1..] == Lower(s[1..]);
    }
  }

  lemma {:induction false} LowerConcat(a: string, b: string)
    ensures Lower(a + b) == Lower(a) + Lower(b)
  {
    if a != [] {
      assert (a + b)[1..] == a[1..] + b;
      LowerConcat(a[1..], b);
    }
  }

  // ---------------------------------------------------------------------------
  // Whitespace and strip
  // ---------------------------------------------------------------------------

  /** The characters `str.isspace` accepts (and hence `str.strip()` removes). */
  predicate IsSpace(c: char) {
    c == ' ' || ('\t' <= c <= '\r') || ('\U{1C}' <= c <= '\U{1F}') || c == '\U{85}'
    || c == '\U{A0}' || c == '\U{1680}' || ('\U{2000}' <= c <= '\U{200A}')
    || c == '\U{2028}' || c == '\U{2029}' || c == '\U{202F}' || c == '\U{205F}' || c == '\U{3000}'
  }

  function TrimStart(s: string): (r: string)
    ensures |r| <= |s| && r == s[|s| - |r|..]
    ensures r == [] || !IsSpace(r[0])
    ensures forall k :: 0 <= k < |s| - |r| ==> IsSpace(s[k])
  {
    if s != [] && IsSpace(s[0]) then TrimStart(s[1..]) else s
  }

  function TrimEnd(s: string): (r: string)
    ensures |r| <= |s| && r == s[..|r|]
    ensures r == [] || !IsSpace(r[|r| - 1])
    ensures forall k :: |r| <= k < |s| ==> IsSpace(s[k])
  {
    if s != [] && IsSpace(s[|s| - 1]) then TrimEnd(s[..|s| - 1]) else s
  }

  /** Python's `s.strip()`. */
  function Strip(s: string): (r: string)
  {
    TrimEnd(TrimStart(s))
  }

  /** `strip` keeps a slice of its input and removes only whitespace around it. */
  lemma StripSlice(s: string)
    ensures var i := |s| - |TrimStart(s)|;
      i + |Strip(s)| <= |s| && Strip(s) == s[i..i + |Strip(s)|]
  {
    var t := TrimStart(s);
    var r := TrimEnd(t);
    SliceOfSuffixPrefix(s, t, r, |s| - |t|);
  }

  /** A character a string lacks is missing from its strip too. */
  lemma StripKeepsChar(s: string, c: char)
    requires c !in s
    ensures c !in Strip(s)
  {
    StripSlice(s);
  }

  lemma SliceOfSuffixPrefix(s: string, t: string, r: string, i: nat)
    requires i <= |s| && t == s[i..] && |r| <= |t| && r == t[..|r|]
    ensures i + |r| <= |s| && r == s[i..i + |r|]
  {
    SliceOfSuffix(s, i, |r|);
  }

  lemma SliceOfSuffix(s: string, i: nat, n: nat)
    requires i + n <= |s|
    ensures s[i..][..n] == s[i..i + n]
  {
  }

  /** What `strip` drops on either side of that slice is whitespace. */
  lemma StripDropsSpaces(s: string)
    ensures var i := |s| - |TrimStart(s)|;
      && (forall k :: 0 <= k < i ==> IsSpace(s[k]))
      && (forall k :: i + |Strip(s)| <= k < |s| ==> IsSpace(s[k]))
  {
    var t := TrimStart(s);
    SpacesOfSuffix(s, t, |s| - |t|, |TrimEnd(t)|);
  }

  lemma SpacesOfSuffix(s: string, t: string, i: nat, n: nat)
    requires i <= |s| && t == s[i..] && n <= |t|
    requires forall k :: n <= k < |t| ==> IsSpace(t[k])
    ensures forall k :: i + n <= k < |s| ==> IsSpace(s[k])
  {
    forall k | i + n <= k < |s|
      ensures IsSpace(s[k])
    {
      assert s[k] == t[k - i];
    }
  }

  /** What `strip` keeps has no whitespace at either end. */
  lemma StripEnds(s: string)
    ensures Strip(s) == [] || (!IsSpace(Strip(s)[0]) && !IsSpace(Strip(s)[|Strip(s)| - 1]))
  {
    var t := TrimStart(s);
    var r := TrimEnd(t);
    if r != [] {
      assert r[0] == t[0];
    }
  }

  /** Stripping twice is stripping once. */
  lemma StripSpec(s: string)
    ensures Strip(Strip(s)) == Strip(s)
  {
    StripEnds(s);
    StripNoSpace(Strip(s));
  }

  // ---------------------------------------------------------------------------
  // Substring test (Python's `frag in s`)
  // ---------------------------------------------------------------------------

  predicate StartsWith(s: string, p: string) {
    |p| <= |s| && s[..|p|] == p
  }

  predicate Contains(s: string, pat: string)
    decreases |s|
  {
    StartsWith(s, pat) || (s != [] && Contains(s[1..], pat))
  }

  /** `pat` occurs in `s` starting at position `i`. */
  predicate OccursAt(s: string, pat: string, i: int) {
    0 <= i && i + |pat| <= |s| && s[i..i + |pat|] == pat
  }

  /** The recursive test is the usual "occurs at some position" definition. */
  lemma {:induction false} ContainsIff(s: string, pat: string)
    ensures Contains(s, pat) <==> exists i :: OccursAt(s, pat, i)
    decreases |s|
  {
    if StartsWith(s, pat) {
      assert OccursAt(s, pat, 0);
    } else if s != [] {
      ContainsIff(s[1..], pat);
      if exists i :: OccursAt(s[1..], pat, i) {
        var i :| OccursAt(s[1..], pat, i);
        assert OccursAt(s, pat, i + 1) by { assert s[i + 1..i + 1 + |pat|] == s[1..][i..i + |pat|]; }
      }
      OccursAtZero(s, pat);
      forall i | OccursAt(s, pat, i) ensures OccursAt(s[1..], pat, i - 1) {
        assert s[1..][i - 1..i - 1 + |pat|] == s[i..i + |pat|];
      }
    } else {
      OccursAtZero(s, pat);
    }
  }

  lemma OccursAtZero(s: string, pat: string)
    ensures OccursAt(s, pat, 0) == StartsWith(s, pat)
  {
    if |pat| <= |s| {
      assert s[0..|pat|] == s[..|pat|];
    }
  }

  /** A fragment found in a part is found in any string that contains the part. */
  lemma ContainsInConcat(a: string, b: string, pat: string)
    requires Contains(b, pat)
    ensures Contains(a + b, pat) && Contains(b + a, pat)
  {
    ContainsIff(b, pat);
    var i :| OccursAt(b, pat, i);
    assert OccursAt(a + b, pat, |a| + i) by { assert (a + b)[|a| + i..|a| + i + |pat|] == b[i..i + |pat|]; }
    assert OccursAt(b + a, pat, i) by { assert (b + a)[i..i + |pat|] == b[i..i + |pat|]; }
    ContainsIff(a + b, pat);
    ContainsIff(b + a, pat);
  }

  // ---------------------------------------------------------------------------
  // split / join on one separator character
  // ---------------------------------------------------------------------------

  /** Python's `s.split(sep)` for a one-character separator: always at least
      one piece, and consecutive separators give empty pieces. */
  function Split(s: string, sep: char): (r: seq<string>)
    ensures |r| >= 1
    ensures forall p :: p in r ==> sep !in p
    decreases |s|
  {
    if sep !in s then [s]
    else
      var i := IndexOf(s, sep);
      [s[..i]] + Split(s[i + 1..], sep)
  }

  function IndexOf(s: string, c: char): (i: nat)
    requires c in s
    ensures i < |s| && s[i] == c && c !in s[..i]
  {
    if s[0] == c then 0 else 1 + IndexOf(s[1..], c)
  }

  lemma IndexOfUnique(s: string, c: char, j: nat)
    requires j < |s| && s[j] == c && c !in s[..j]
    ensures c in s && IndexOf(s, c) == j
  {
    var i := IndexOf(s, c);
    forall k | 0 <= k < j ensures s[k] != c {
      assert s[..j][k] == s[k];
    }
    forall k | 0 <= k < i ensures s[k] != c {
      assert s[..i][k] == s[k];
    }
  }

  /** Python's `sep.join(parts)`. */
  function Join(parts: seq<string>, sep: string): string
  {
    if parts == [] then []
    else if |parts| == 1 then parts[0]
    else parts[0] + sep + Join(parts[1..], sep)
  }

  /** Splitting undoes joining when no piece holds the separator ... */
  lemma {:induction false} SplitJoin(parts: seq<string>, sep: char)
    requires |parts| >= 1
    requires forall p :: p in parts ==> sep !in p
    ensures Split(Join(parts, [sep]), sep) == parts
    decreases |parts|
  {
    if |parts| > 1 {
      var s := Join(parts, [sep]);
      var rest := Join(parts[1..], [sep]);
      assert s == parts[0] + [sep] + rest;
      assert sep in s by { assert s[|parts[0]|] == sep; }
      assert s[..|parts[0]|] == parts[0];
      IndexOfUnique(s, sep, |parts[0]|);
      var i := IndexOf(s, sep);
      assert s[i + 1..] == rest;
      SplitJoin(parts[1..], sep);
    }
  }

  /** ... and joining undoes splitting. */
  lemma {:induction false} JoinSplit(s: string, sep: char)
    ensures Join(Split(s, sep), [sep]) == s
    decreases |s|
  {
    if sep in s {
      var i := IndexOf(s, sep);
      var t := s[i + 1..];
      var rest := Split(t, sep);
      JoinSplit(t, sep);
      JoinAtSeparator(s, i, sep, rest);
    }
  }

  /** One step of `JoinSplit`: the piece before the first separator, joined
      with pieces that rebuild the text after it, rebuilds the whole text. */
  lemma JoinAtSeparator(s: string, i: nat, sep: char, rest: seq<string>)
    requires i < |s| && s[i] == sep
    requires |rest| >= 1 && Join(rest, [sep]) == s[i + 1..]
    ensures Join([s[..i]] + rest, [sep]) == s
  {
    JoinCons(s[..i], rest, [sep]);
    Around(s, i);
  }

  /** Joining a list of two or more pieces puts the separator after the first. */
  lemma JoinCons(p: string, rest: seq<string>, sep: string)
    requires |rest| >= 1
    ensures Join([p] + rest, sep) == p + sep + Join(rest, sep)
  {
    var ps := [p] + rest;
    assert ps[0] == p && ps[1..] == rest;
  }

  /** A string is what comes before position `i`, the character there and
      what follows. */
  lemma Around(s: string, i: nat)
    requires i < |s|
    ensures s == s[..i] + [s[i]] + s[i + 1..]
  {
  }

  // ---------------------------------------------------------------------------
  // replace
  // ---------------------------------------------------------------------------

  /** Python's `s.replace(pat, rep)` for a non-empty pattern: occurrences are
      replaced left to right without overlapping. */
  function Replace(s: string, pat: string, rep: string): string
    requires |pat| > 0
    decreases |s|
  {
    if StartsWith(s, pat) then rep + Replace(s[|pat|..], pat, rep)
    else if s == [] then []
    else [s[0]] + Replace(s[1..], pat, rep)
  }

  /** Replacing a single character by another keeps the length and leaves no
      occurrence of the old character. */
  lemma {:induction false} ReplaceCharSpec(s: string, a: char, b: char)
    requires a != b
    ensures |Replace(s, [a], [b])| == |s|
    ensures a !in Replace(s, [a], [b])
    ensures forall k :: 0 <= k < |s| ==> Replace(s, [a], [b])[k] == (if s[k] == a then b else s[k])
    decreases |s|
  {
    if s != [] {
      ReplaceCharSpec(s[1..], a, b);
    }
  }

  /** After replacing a two-character pattern by a non-empty string that
      shares no character with it, the pattern no longer occurs. */
  lemma {:induction false} ReplacePairRemoves(s: string, pat: string, rep: string)
    requires |pat| == 2 && |rep| >= 1
    requires pat[0] !in rep && pat[1] !in rep
    ensures !Contains(Replace(s, pat, rep), pat)
    decreases |s|
  {
    if StartsWith(s, pat) {
      ReplacePairRemoves(s[2..], pat, rep);
      NoPatternAcross(rep, Replace(s[2..], pat, rep), pat);
    } else if s != [] {
      var r := Replace(s, pat, rep);
      var t := Replace(s[1..], pat, rep);
      ReplacePairRemoves(s[1..], pat, rep);
      assert r == [s[0]] + t;
      assert r[1..] == t;
      assert !StartsWith(r, pat) by {
        if StartsWith(s[1..], pat) {
          assert t[0] == rep[0];
          assert rep[0] in rep;
        } else if s[1..] != [] {
          ReplaceHead(s[1..], pat, rep);
          assert s[..2] == [s[0], s[1]];
        }
      }
    }
  }

  /** What `Replace` emits first when the pattern does not start the string. */
  lemma ReplaceHead(s: string, pat: string, rep: string)
    requires |pat| > 0
    requires s != [] && !StartsWith(s, pat)
    ensures Replace(s, pat, rep) != [] && Replace(s, pat, rep)[0] == s[0]
  {
  }

  /** A two-character pattern cannot straddle a prefix free of its letters. */
  lemma {:induction false} NoPatternAcross(a: string, b: string, pat: string)
    requires |pat| == 2 && pat[0] !in a && pat[1] !in a
    requires !Contains(b, pat)
    ensures !Contains(a + b, pat)
    decreases |a|
  {
    if a != [] {
      NoPatternAcross(a[1..], b, pat);
      assert (a + b)[1..] == a[1..] + b;
      assert a[0] in a;
      assert !StartsWith(a + b, pat) by { assert (a + b)[0] == a[0]; }
      assert Contains(a + b, pat) == (StartsWith(a + b, pat) || Contains((a + b)[1..], pat));
    } else {
      assert a + b == b;
    }
  }

  // ---------------------------------------------------------------------------
  // Integers as text: str(int) and int(str)
  // ---------------------------------------------------------------------------

  predicate IsDigit(c: char) { '0' <= c <= '9' }

  function DigitValue(c: char): nat
    requires IsDigit(c)
  {
    c as int - '0' as int
  }

  function DigitChar(d: nat): (c: char)
    requires d < 10
    ensures IsDigit(c) && DigitValue(c) == d
  {
    ('0' as int + d) as char
  }

  /** Decimal value of a run of digits, most significant first. */
  function DigitsValue(ds: string): nat
    requires forall k :: 0 <= k < |ds| ==> IsDigit(ds[k])
  {
    if ds == [] then 0 else DigitsValue(ds[..|ds| - 1]) * 10 + DigitValue(ds[|ds| - 1])
  }

  function NatToDigits(n: nat): (r: string)
    ensures |r| >= 1 && forall k :: 0 <= k < |r| ==> IsDigit(r[k])
  {
    if n < 10 then [DigitChar(n)] else NatToDigits(n / 10) + [DigitChar(n % 10)]
  }

  /** Python's `str(n)` for an int. */
  function IntToString(n: int): string
  {
    if n < 0 then "-" + NatToDigits(-n) else NatToDigits(n)
  }

  lemma {:induction false} NatToDigitsValue(n: nat)
    ensures DigitsValue(NatToDigits(n)) == n
  {
    if n >= 10 {
      var r := NatToDigits(n);
      NatToDigitsValue(n / 10);
      assert r[..|r| - 1] == NatToDigits(n / 10);
    }
  }

  /** The digit runs `int()` accepts: digits, with single underscores allowed
      between two digits. */
  predicate DigitRun(t: string) {
    |t| >= 1 && IsDigit(t[0]) && IsDigit(t[|t| - 1])
    && forall k :: 0 <= k < |t| ==> (IsDigit(t[k]) || (t[k] == '_' && k + 1 < |t| && IsDigit(t[k + 1])))
  }

  function RemoveUnderscores(t: string): string
  {
    if t == [] then [] else (if t[0] == '_' then [] else [t[0]]) + RemoveUnderscores(t[1..])
  }

  lemma {:induction false} RemoveUnderscoresDigits(t: string)
    requires forall k :: 0 <= k < |t| ==> (IsDigit(t[k]) || t[k] == '_')
    ensures forall k :: 0 <= k < |RemoveUnderscores(t)| ==> IsDigit(RemoveUnderscores(t)[k])
  {
    if t != [] {
      RemoveUnderscoresDigits(t[1..]);
    }
  }

  lemma {:induction false} RemoveUnderscoresNone(t: string)
    requires forall k :: 0 <= k < |t| ==> IsDigit(t[k])
    ensures RemoveUnderscores(t) == t
  {
    if t != [] {
      RemoveUnderscoresNone(t[1..]);
    }
  }

  lemma DigitRunChars(t: string)
    requires DigitRun(t)
    ensures forall k :: 0 <= k < |t| ==> (IsDigit(t[k]) || t[k] == '_')
  {
    forall k | 0 <= k < |t| ensures IsDigit(t[k]) || t[k] == '_' {
      assert IsDigit(t[k]) || (t[k] == '_' && k + 1 < |t| && IsDigit(t[k + 1]));
    }
  }

  function DigitRunValue(t: string): nat
    requires DigitRun(t)
  {
    DigitRunChars(t);
    RemoveUnderscoresDigits(t);
    DigitsValue(RemoveUnderscores(t))
  }

  /** Python's `int(s)` on a string (ASCII digits): surrounding whitespace is
      ignored, one optional sign, then a digit run. */
  function ParseInt(s: string): (r: Option<int>)
  {
    var t := Strip(s);
    if t != [] && (t[0] == '+' || t[0] == '-') then
      var body := t[1..];
      if DigitRun(body) then Some(if t[0] == '-' then -(DigitRunValue(body) as int) else DigitRunValue(body) as int) else None
    else if DigitRun(t) then Some(DigitRunValue(t))
    else None
  }

  /** A plain run of digits is a digit run whose value is its decimal value. */
  lemma DigitsAreRun(ds: string)
    requires |ds| >= 1 && AllDigits(ds)
    ensures DigitRun(ds) && DigitRunValue(ds) == DigitsValue(ds)
  {
    RemoveUnderscoresNone(ds);
  }

  /** `int(str(n)) == n`. */
  lemma ParseIntOfString(n: int)
    ensures ParseInt(IntToString(n)) == Some(n)
  {
    var s := IntToString(n);
    var m: nat := if n < 0 then -n else n;
    var ds := NatToDigits(m);
    assert !IsSpace(ds[|ds| - 1]);
    assert s[|s| - 1] == ds[|ds| - 1];
    StripNoSpace(s);
    NatToDigitsValue(m);
    DigitsAreRun(ds);
    if n < 0 {
      assert s[1..] == ds;
      assert s[0] == '-';
    } else {
      assert s == ds;
      assert s[0] != '+' && s[0] != '-';
    }
  }

  /** A string with no whitespace at its ends is unchanged by `strip`. */
  lemma StripNoSpace(s: string)
    requires s == [] || (!IsSpace(s[0]) && !IsSpace(s[|s| - 1]))
    ensures Strip(s) == s
  {
  }

  // ---------------------------------------------------------------------------
  // float(str): plain decimals
  // ---------------------------------------------------------------------------

  predicate AllDigits(t: string) { forall k :: 0 <= k < |t| ==> IsDigit(t[k]) }

  function Pow10(n: nat): (r: nat)
    ensures r >= 1
  {
    if n == 0 then 1 else 10 * Pow10(n - 1)
  }

  /** Value of an unsigned decimal `ddd`, `ddd.ddd`, `ddd.` or `.ddd`. */
  function UnsignedDecimal(t: string): (r: Option<real>)
    ensures r.Some? ==> r.value >= 0.0
  {
    if '.' in t then
      var i := IndexOf(t, '.');
      var a := t[..i];
      var b := t[i + 1..];
      if AllDigits(a) && AllDigits(b) && |a| + |b| >= 1 then Some(PointValue(a, b))
      else None
    else if |t| >= 1 && AllDigits(t) then Some(DigitsValue(t) as real)
    else None
  }

  /** The value of `a.b` for digit runs `a` and `b`: the integer part plus
      the fraction scaled by a power of ten. */
  function PointValue(a: string, b: string): (r: real)
    requires AllDigits(a) && AllDigits(b)
    ensures r >= 0.0
  {
    DigitsValue(a) as real + DigitsValue(b) as real / Pow10(|b|) as real
  }

  /** Python's `float(s)` restricted to plain decimal notation. */
  function ParseDecimal(s: string): (r: Option<real>)
  {
    SignedDecimal(Strip(s))
  }

  /** A stripped decimal: one optional sign, then an unsigned decimal. */
  function SignedDecimal(t: string): (r: Option<real>)
  {
    if t != [] && t[0] == '-' then Negated(UnsignedDecimal(t[1..]))
    else if t != [] && t[0] == '+' then UnsignedDecimal(t[1..])
    else UnsignedDecimal(t)
  }

  function Negated(v: Option<real>): (r: Option<real>)
    ensures r.Some? <==> v.Some?
    ensures r.Some? ==> r.value == -v.value
  {
    match v
    case Some(x) => Some(-x)
    case None => None
  }

  /** A digit is neither whitespace, a sign nor a decimal point. */
  lemma DigitIsPlain(c: char)
    requires IsDigit(c)
    ensures !IsSpace(c) && c != '.' && c != '+' && c != '-'
  {
  }

  /** A non-empty run of digits reads as its value. */
  lemma UnsignedDecimalOfDigits(ds: string)
    requires |ds| >= 1 && AllDigits(ds)
    ensures UnsignedDecimal(ds) == Some(DigitsValue(ds) as real)
  {
    forall k | 0 <= k < |ds|
      ensures ds[k] != '.'
    {
      DigitIsPlain(ds[k]);
    }
  }

  /** The decimal point of `a.b` is the first one when `a` has none. */
  lemma PointAt(t: string, a: string, b: string)
    requires t == a + ['.'] + b && '.' !in a
    ensures '.' in t && IndexOf(t, '.') == |a| && t[..|a|] == a && t[|a| + 1..] == b
  {
    assert t[|a|] == '.';
    assert t[..|a|] == a;
    IndexOfUnique(t, '.', |a|);
    assert t[|a| + 1..] == b;
  }

  /** Digits, a point, digits: the integer part plus the scaled fraction. */
  lemma PointSplit(t: string, a: string, b: string)
    requires t == a + ['.'] + b && AllDigits(a) && AllDigits(b) && |a| + |b| >= 1
    ensures UnsignedDecimal(t) == Some(PointValue(a, b))
  {
    forall k | 0 <= k < |a| ensures a[k] != '.' { DigitIsPlain(a[k]); }
    PointAt(t, a, b);
  }

  lemma ParseNegative(s: string, v: real)
    requires |s| >= 1 && s[0] == '-' && Strip(s) == s && UnsignedDecimal(s[1..]) == Some(v)
    ensures ParseDecimal(s) == Some(-v)
  {
    SignedNegative(s, v);
  }

  lemma SignedNegative(t: string, v: real)
    requires |t| >= 1 && t[0] == '-' && UnsignedDecimal(t[1..]) == Some(v)
    ensures SignedDecimal(t) == Some(-v)
  {
  }

  lemma ParseUnsigned(s: string, v: real)
    requires |s| >= 1 && s[0] != '-' && s[0] != '+' && Strip(s) == s && UnsignedDecimal(s) == Some(v)
    ensures ParseDecimal(s) == Some(v)
  {
    SignedUnsigned(s, v);
  }

  lemma SignedUnsigned(t: string, v: real)
    requires |t| >= 1 && t[0] != '-' && t[0] != '+' && UnsignedDecimal(t) == Some(v)
    ensures SignedDecimal(t) == Some(v)
  {
  }

  lemma ParseNegativeDigits(s: string, k: nat)
    requires |s| >= 2 && s[0] == '-' && AllDigits(s[1..]) && DigitsValue(s[1..]) == k
    ensures ParseDecimal(s) == Some(-(k as real))
  {
    var ds := s[1..];
    DigitIsPlain(ds[|ds| - 1]);
    assert s[|s| - 1] == ds[|ds| - 1];
    StripNoSpace(s);
    UnsignedDecimalOfDigits(ds);
    ParseNegative(s, k as real);
  }

  lemma NegatedReal(n: int, k: nat)
    requires k == -n
    ensures -(k as real) == n as real
  {
  }

  lemma ParseDecimalOfNegative(n: int)
    requires n < 0
    ensures ParseDecimal(IntToString(n)) == Some(n as real)
  {
    var k: nat := -n;
    var ds := NegativeString(n, k);
    NatToDigitsValue(k);
    NegativeDigitsRead(IntToString(n), ds, n, k);
  }

  lemma NegativeDigitsRead(s: string, ds: string, n: int, k: nat)
    requires n < 0 && k == -n && s == ['-'] + ds
    requires |ds| >= 1 && AllDigits(ds) && DigitsValue(ds) == k
    ensures ParseDecimal(s) == Some(n as real)
  {
    MinusDigits(s, ds, k);
    NegatedSome(ParseDecimal(s), n, k);
  }

  lemma NegatedSome(o: Option<real>, n: int, k: nat)
    requires k == -n && o == Some(-(k as real))
    ensures o == Some(n as real)
  {
    NegatedReal(n, k);
  }

  /** `str(n)` of a negative number is a minus sign before the digits of `-n`. */
  lemma NegativeString(n: int, k: nat) returns (ds: string)
    requires n < 0 && k == -n
    ensures ds == NatToDigits(k) && IntToString(n) == ['-'] + ds
    ensures |ds| >= 1 && AllDigits(ds)
  {
    ds := NatToDigits(k);
  }

  /** A minus sign then a run of digits reads as the negated value. */
  lemma MinusDigits(s: string, ds: string, k: nat)
    requires s == ['-'] + ds
    requires |ds| >= 1 && AllDigits(ds) && DigitsValue(ds) == k
    ensures ParseDecimal(s) == Some(-(k as real))
  {
    assert s[1..] == ds;
    ParseNegativeDigits(s, k);
  }

  lemma ParseDecimalOfNatural(n: nat)
    ensures ParseDecimal(IntToString(n)) == Some(n as real)
  {
    var ds := NatToDigits(n);
    DigitIsPlain(ds[0]);
    DigitIsPlain(ds[|ds| - 1]);
    StripNoSpace(ds);
    NatToDigitsValue(n);
    UnsignedDecimalOfDigits(ds);
    ParseUnsigned(ds, n as real);
  }

  /** `float(str(n)) == n` for every integer. */
  lemma ParseDecimalOfInt(n: int)
    ensures ParseDecimal(IntToString(n)) == Some(n as real)
  {
    if n < 0 {
      ParseDecimalOfNegative(n);
    } else {
      ParseDecimalOfNatural(n);
    }
  }
}
