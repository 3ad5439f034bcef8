/** The string functions of Go's standard library that the plugin calls:
    `strings.Split`, `strings.TrimSpace`, `strings.ToLower`, `strconv.Itoa` and
    `strconv.Atoi`. Strings are `seq<char>`. */
module Text {
  import opened Basics

  // ---------------------------------------------------------------------------
  // Occurrences and strings.Split
  // ---------------------------------------------------------------------------

  /** `sep` occurs in `s` starting at position `j`. */
  predicate OccursAt(s: string, sep: string, j: nat) {
    j + |sep| <= |s| && s[j..j + |sep|] == sep
  }

  /** `sep` occurs nowhere in `s`. */
  predicate Free(s: string, sep: string) {
    forall j: nat :: j < |s| ==> !OccursAt(s, sep, j)
  }

  /** The first occurrence of `sep` in `s` at or after `from` (Go's `strings.Index`). */
  function IndexFrom(s: string, sep: string, from: nat): (r: Option<nat>)
    requires |sep| > 0 && from <= |s|
    ensures r.Some? ==> from <= r.value && OccursAt(s, sep, r.value)
    ensures r.Some? ==> forall j: nat :: from <= j < r.value ==> !OccursAt(s, sep, j)
    ensures r.None? ==> forall j: nat :: from <= j < |s| ==> !OccursAt(s, sep, j)
    decreases |s| - from
  {
    if from + |sep| > |s| then None
    else if s[from..from + |sep|] == sep then Some(from)
    else IndexFrom(s, sep, from + 1)
  }

  function Index(s: string, sep: string): Option<nat>
    requires |sep| > 0
  {
    IndexFrom(s, sep, 0)
  }

  /** Go's `strings.Split(s, sep)` for a non-empty separator: cut at each
      occurrence of `sep`, scanning left to right. */
  function Split(s: string, sep: string): seq<string>
    requires |sep| > 0
    decreases |s|
  {
    match Index(s, sep)
    case None => [s]
    case Some(i) => [s[..i]] + Split(s[i + |sep|..], sep)
  }

  /** The `%q` rendering of a string without quotes, backslashes or
      unprintable characters: the string between double quotes. */
  function Quoted(s: string): string {
    "\"" + s + "\""
  }

  /** Go's `strings.Join`. */
  function Join(parts: seq<string>, sep: string): string {
    if |parts| == 0 then ""
    else if |parts| == 1 then parts[0]
    else parts[0] + sep + Join(parts[1..], sep)
  }

  /** Split always yields at least one piece, and joining the pieces back
      with the separator gives the input. */
  lemma {:induction false} JoinSplit(s: string, sep: string)
    requires |sep| > 0
    ensures |Split(s, sep)| >= 1
    ensures Join(Split(s, sep), sep) == s
    decreases |s|
  {
    var idx := Index(s, sep);
    if idx.Some? {
      var i := idx.value;
      var rest := s[i + |sep|..];
      var tail := Split(rest, sep);
      assert Split(s, sep) == [s[..i]] + tail;
      JoinSplit(rest, sep);
      JoinCons(s[..i], tail, sep);
      assert s[..i] + sep + rest == s by {
        assert OccursAt(s, sep, i);
        ConcatSlices(s, i, i + |sep|);
      }
    }
  }

  lemma ConcatSlices(s: string, i: nat, j: nat)
    requires i <= j <= |s|
    ensures s == s[..i] + s[i..j] + s[j..]
  {
  }

  /** No piece of a split contains the separator. */
  lemma {:induction false} SplitPiecesFree(s: string, sep: string)
    requires |sep| > 0
    ensures forall p :: p in Split(s, sep) ==> Free(p, sep)
    decreases |s|
  {
    var idx := Index(s, sep);
    if idx.Some? {
      var i := idx.value;
      var rest := s[i + |sep|..];
      SplitPiecesFree(rest, sep);
      assert Split(s, sep) == [s[..i]] + Split(rest, sep);
      PrefixBeforeFirstIsFree(s, sep, i);
    } else {
      assert Split(s, sep) == [s];
    }
  }

  /** The text before the first occurrence of a separator contains no occurrence of it. */
  lemma PrefixBeforeFirstIsFree(s: string, sep: string, i: nat)
    requires |sep| > 0 && i <= |s|
    requires forall j: nat :: j < i ==> !OccursAt(s, sep, j)
    ensures Free(s[..i], sep)
  {
    forall j: nat | j < i ensures !OccursAt(s[..i], sep, j) {
      if j + |sep| <= i {
        assert s[..i][j..j + |sep|] == s[j..j + |sep|];
        assert !OccursAt(s, sep, j);
      }
    }
  }

  /** A slice of a string without the separator has none either. */
  lemma FreeSlice(q: string, sep: string, a: nat, b: nat)
    requires Free(q, sep) && a <= b <= |q|
    ensures Free(q[a..b], sep)
  {
    forall j: nat | j < b - a ensures !OccursAt(q[a..b], sep, j) {
      if j + |sep| <= b - a {
        var x := q[a..b][j..j + |sep|];
        var y := q[a + j..a + j + |sep|];
        forall k | 0 <= k < |sep| ensures x[k] == y[k] {
          assert q[a..b][j + k] == q[a + j + k];
        }
        assert x == y;
        assert !OccursAt(q, sep, a + j);
      }
    }
  }

  /** The first piece of a split is everything before the first occurrence of
      the separator, or the whole string when it does not occur. */
  lemma SplitFirst(s: string, sep: string)
    requires |sep| > 0
    ensures Index(s, sep).None? ==> Split(s, sep) == [s]
    ensures Index(s, sep).Some? ==> Split(s, sep)[0] == s[..Index(s, sep).value]
    ensures Split(s, sep)[0] == s || OccursAt(s, sep, |Split(s, sep)[0]|)
    ensures s[..|Split(s, sep)[0]|] == Split(s, sep)[0]
  {
  }

  /** For a one-character separator, splitting a join of separator-free pieces
      gives the pieces back. */
  lemma {:induction false} SplitJoin(parts: seq<string>, c: char)
    requires |parts| >= 1
    requires forall p :: p in parts ==> c !in p
    ensures Split(Join(parts, [c]), [c]) == parts
    decreases |parts|
  {
    var s := Join(parts, [c]);
    if |parts| == 1 {
      NoCharIndex(parts[0], c);
    } else {
      var rest := Join(parts[1..], [c]);
      assert s == parts[0] + [c] + rest;
      assert OccursAt(s, [c], |parts[0]|) by {
        assert s[|parts[0]|..|parts[0]| + 1] == [c];
      }
      forall j: nat | j < |parts[0]| ensures !OccursAt(s, [c], j) {
        assert s[j] == parts[0][j];
        assert parts[0][j] in parts[0];
      }
      FirstOccurrence(s, [c], |parts[0]|);
      assert s[|parts[0]| + 1..] == rest;
      assert s[..|parts[0]|] == parts[0];
      SplitJoin(parts[1..], c);
    }
  }

  lemma NoCharIndex(p: string, c: char)
    requires c !in p
    ensures Index(p, [c]).None?
  {
    forall j: nat | j < |p| ensures !OccursAt(p, [c], j) {
      assert p[j..j + 1] == [p[j]];
      assert p[j] in p;
    }
  }

  lemma FirstOccurrence(s: string, sep: string, i: nat)
    requires |sep| > 0 && OccursAt(s, sep, i)
    requires forall j: nat :: j < i ==> !OccursAt(s, sep, j)
    ensures Index(s, sep) == Some(i)
  {
  }

  // ---------------------------------------------------------------------------
  // strings.TrimSpace
  // ---------------------------------------------------------------------------

  /** Go's `unicode.IsSpace`: the Unicode White_Space property. */
  predicate IsSpace(c: char) {
    var u := c as int;
    (0x09 <= u <= 0x0D) || u == 0x20 || u == 0x85 || u == 0xA0 || u == 0x1680
    || (0x2000 <= u <= 0x200A) || u == 0x2028 || u == 0x2029 || u == 0x202F
    || u == 0x205F || u == 0x3000
  }

  /** Drops the leading white space. */
  function TrimLeft(s: string): string {
    if |s| > 0 && IsSpace(s[0]) then TrimLeft(s[1..]) else s
  }

  /** Drops the trailing white space. */
  function TrimRight(s: string): string {
    if |s| > 0 && IsSpace(s[|s| - 1]) then TrimRight(s[..|s| - 1]) else s
  }

  /** `TrimLeft` keeps a suffix, drops only white space, and leaves no
      white space at the start. */
  lemma {:induction false} TrimLeftShape(s: string)
    ensures |TrimLeft(s)| <= |s| && TrimLeft(s) == s[|s| - |TrimLeft(s)|..]
    ensures forall k :: 0 <= k < |s| - |TrimLeft(s)| ==> IsSpace(s[k])
    ensures TrimLeft(s) == [] || !IsSpace(TrimLeft(s)[0])
    decreases |s|
  {
    if |s| > 0 && IsSpace(s[0]) {
      TrimLeftShape(s[1..]);
      assert s[1..][|s| - 1 - |TrimLeft(s)|..] == s[|s| - |TrimLeft(s)|..];
      forall k | 0 <= k < |s| - |TrimLeft(s)| ensures IsSpace(s[k]) {
        if k > 0 {
          assert s[1..][k - 1] == s[k];
        }
      }
    }
  }

  /** `TrimRight` keeps a prefix, drops only white space, and leaves no
      white space at the end. */
  lemma {:induction false} TrimRightShape(s: string)
    ensures |TrimRight(s)| <= |s| && TrimRight(s) == s[..|TrimRight(s)|]
    ensures forall k :: |TrimRight(s)| <= k < |s| ==> IsSpace(s[k])
    ensures TrimRight(s) == [] || !IsSpace(TrimRight(s)[|TrimRight(s)| - 1])
    decreases |s|
  {
    if |s| > 0 && IsSpace(s[|s| - 1]) {
      TrimRightShape(s[..|s| - 1]);
      assert s[..|s| - 1][..|TrimRight(s)|] == s[..|TrimRight(s)|];
      forall k | |TrimRight(s)| <= k < |s| ensures IsSpace(s[k]) {
        if k < |s| - 1 {
          assert s[..|s| - 1][k] == s[k];
        }
      }
    }
  }

  /** Go's `strings.TrimSpace`. */
  function TrimSpace(s: string): string {
    TrimRight(TrimLeft(s))
  }

  /** A string that neither starts nor ends with white space is its own trim. */
  lemma TrimSpaceOfTrimmed(s: string)
    requires s == [] || (!IsSpace(s[0]) && !IsSpace(s[|s| - 1]))
    ensures TrimSpace(s) == s
  {
  }

  /** Trimming is idempotent, and it only ever removes white space at the ends. */
  lemma TrimSpaceShape(s: string)
    ensures TrimSpace(TrimSpace(s)) == TrimSpace(s)
    ensures exists i: nat, j: nat :: i <= j <= |s| && TrimSpace(s) == s[i..j]
  {
    var l := TrimLeft(s);
    TrimLeftShape(s);
    TrimRightShape(l);
    var t := TrimRight(l);
    if t != [] {
      assert t[0] == l[0];
      assert !IsSpace(l[0]);
    }
    TrimSpaceOfTrimmed(t);
    var i := |s| - |l|;
    assert t == s[i..i + |t|];
  }

  // ---------------------------------------------------------------------------
  // strings.ToLower
  // ---------------------------------------------------------------------------

  /** Go's `unicode.ToLower` on the characters whose lower case is ASCII: the
      ASCII capitals, U+0130 (capital I with dot above, to `i`) and U+212A
      (Kelvin sign, to `k`). Every other character is left as it is. */
  function LowerChar(c: char): char {
    if 'A' <= c <= 'Z' then (c as int + 32) as char
    else if c == '\U{0130}' then 'i'
    else if c == '\U{212A}' then 'k'
    else c
  }

  /** `strings.ToLower`, exact on every character whose lower case is ASCII. */
  function ToLower(s: string): (r: string)
    ensures |r| == |s|
    ensures forall k :: 0 <= k < |s| ==> r[k] == LowerChar(s[k])
  {
    if s == [] then [] else [LowerChar(s[0])] + ToLower(s[1..])
  }

  lemma ToLowerIdempotent(s: string)
    ensures ToLower(ToLower(s)) == ToLower(s)
  {
  }

  // ---------------------------------------------------------------------------
  // strconv.Itoa and strconv.Atoi
  // ---------------------------------------------------------------------------

  const MinInt64: int := -0x8000_0000_0000_0000
  const MaxInt64: int := 0x7FFF_FFFF_FFFF_FFFF

  predicate IsDigit(c: char) { '0' <= c <= '9' }

  predicate AllDigits(s: string) { forall k :: 0 <= k < |s| ==> IsDigit(s[k]) }

  function DigitChar(d: nat): (c: char)
    requires d < 10
    ensures IsDigit(c)
  {
    ('0' as int + d) as char
  }

  function DigitValue(c: char): nat
    requires IsDigit(c)
  {
    c as int - '0' as int
  }

  /** The decimal value of a string of digits, most significant first. */
  function DigitsValue(s: string): nat
    requires AllDigits(s)
  {
    if s == [] then 0 else DigitsValue(s[..|s| - 1]) * 10 + DigitValue(s[|s| - 1])
  }

  /** `strconv.Itoa` on a non-negative number: its shortest decimal spelling. */
  function Itoa(n: nat): (r: string)
    ensures |r| > 0 && AllDigits(r)
  {
    if n < 10 then [DigitChar(n)] else Itoa(n / 10) + [DigitChar(n % 10)]
  }

  /** `strconv.Itoa` on any integer. */
  function IntToString(i: int): string {
    if i < 0 then "-" + Itoa(-i) else Itoa(i)
  }

  /** Reading back a decimal spelling gives the number. */
  lemma {:induction false} DigitsValueOfItoa(n: nat)
    ensures DigitsValue(Itoa(n)) == n
  {
    if n >= 10 {
      var s := Itoa(n);
      assert s[..|s| - 1] == Itoa(n / 10);
      DigitsValueOfItoa(n / 10);
    }
  }

  /** Distinct numbers have distinct decimal spellings. */
  lemma ItoaInjective(a: nat, b: nat)
    requires Itoa(a) == Itoa(b)
    ensures a == b
  {
    DigitsValueOfItoa(a);
    DigitsValueOfItoa(b);
  }

  /** `strconv.Atoi`: an optional sign and one or more decimal digits, within
      the range of a 64-bit `int`; anything else is a syntax or range error. */
  function Atoi(s: string): (r: Result<int, string>)
    ensures |s| == 0 ==> r.Err?
    ensures r.Ok? ==> MinInt64 <= r.value <= MaxInt64
  {
    if |s| == 0 then Err("invalid syntax")
    else
      var digits := if s[0] == '-' || s[0] == '+' then s[1..] else s;
      if |digits| == 0 || !AllDigits(digits) then Err("invalid syntax")
      else
        var n: int := DigitsValue(digits);
        var v := if s[0] == '-' then -n else n;
        if MinInt64 <= v <= MaxInt64 then Ok(v) else Err("value out of range")
  }

  /** Atoi reads back what Itoa writes, for every 64-bit integer. */
  lemma AtoiOfIntToString(i: int)
    requires MinInt64 <= i <= MaxInt64
    ensures Atoi(IntToString(i)) == Ok(i)
  {
    if i < 0 {
      DigitsValueOfItoa(-i);
      assert IntToString(i)[1..] == Itoa(-i);
    } else {
      DigitsValueOfItoa(i);
      assert Itoa(i)[0] != '-' && Itoa(i)[0] != '+';
    }
  }

  // ---------------------------------------------------------------------------
  // Cutting at a separator character
  // ---------------------------------------------------------------------------

  /** When two strings both have the form `head + [c] + rest` with no `c` in
      either head, the heads agree and so do the rests. */
  lemma SplitAtChar(a: string, x: string, b: string, y: string, c: char)
    requires a + [c] + x == b + [c] + y
    requires c !in a && c !in b
    ensures a == b && x == y
  {
    var s := a + [c] + x;
    CharAfterFree(a, c, x);
    CharAfterFree(b, c, y);
    assert a == s[..|a|];
    assert x == s[|a| + 1..];
  }

  /** In `a + [c] + x` with no `c` in `a`, position `|a|` is the first `c`. */
  /** The part of `s` before the first `c`, or all of `s` when it has none. */
  function BeforeChar(s: string, c: char): (r: string)
    ensures r <= s && c !in r
    ensures |r| < |s| ==> s[|r|] == c
  {
    if s == [] then []
    else if s[0] == c then []
    else [s[0]] + BeforeChar(s[1..], c)
  }

  lemma {:induction false} BeforeCharOf(a: string, c: char, x: string)
    requires c !in a
    ensures BeforeChar(a + [c] + x, c) == a
  {
    if a != [] {
      assert (a + [c] + x)[1..] == a[1..] + [c] + x;
      BeforeCharOf(a[1..], c, x);
    }
  }

  lemma {:induction false} BeforeCharAbsent(a: string, c: char)
    requires c !in a
    ensures BeforeChar(a, c) == a
  {
    if a != [] {
      assert a[0] in a;
      BeforeCharAbsent(a[1..], c);
      assert [a[0]] + a[1..] == a;
    }
  }

  lemma CharAfterFree(a: string, c: char, x: string)
    requires c !in a
    ensures (a + [c] + x)[|a|] == c
    ensures forall k :: 0 <= k < |a| ==> (a + [c] + x)[k] != c
  {
    forall k | 0 <= k < |a| ensures (a + [c] + x)[k] != c {
      assert (a + [c] + x)[k] == a[k];
      assert a[k] in a;
    }
  }

  lemma JoinCons(x: string, tail: seq<string>, sep: string)
    requires |tail| >= 1
    ensures Join([x] + tail, sep) == x + sep + Join(tail, sep)
  {
    assert ([x] + tail)[1..] == tail;
  }
}
