/** String primitives the backend and the frontend rely on: JavaScript's
    whitespace class and `trim`, ASCII lower-casing (the database's ILIKE and
    Python's `lower` on the seed branch codes), substring search, Python's
    `split` on one separator, decimal rendering and parsing of naturals, and
    JavaScript's code-unit string order. */
module Text {
  import opened Base

  /** The characters JavaScript's `\s` and `String.prototype.trim` treat as white space. */
  predicate IsJsSpace(c: char) {
    ('\t' <= c <= '\r') || c == ' ' || c == '\U{00A0}' || c == '\U{1680}'
    || ('\U{2000}' <= c <= '\U{200A}') || c == '\U{2028}' || c == '\U{2029}'
    || c == '\U{202F}' || c == '\U{205F}' || c == '\U{3000}' || c == '\U{FEFF}'
  }

  predicate AllSpace(s: string) {
    forall i :: 0 <= i < |s| ==> IsJsSpace(s[i])
  }

  function TrimStart(s: string): (r: string)
    ensures |r| <= |s| && r == s[|s| - |r|..]
    ensures r == [] || !IsJsSpace(r[0])
  {
    if s != [] && IsJsSpace(s[0]) then TrimStart(s[1..]) else s
  }

  function TrimEnd(s: string): (r: string)
    ensures |r| <= |s| && r == s[..|r|]
    ensures r == [] || !IsJsSpace(r[|r| - 1])
  {
    if s != [] && IsJsSpace(s[|s| - 1]) then TrimEnd(s[..|s| - 1]) else s
  }

  /** `String.prototype.trim`. */
  function Trim(s: string): string {
    TrimEnd(TrimStart(s))
  }

  /** `!s.trim()` in the forms and `text.trim() === ''` in the API client. */
  predicate IsBlank(s: string) {
    Trim(s) == []
  }

  lemma AllSpaceHeadTail(s: string)
    requires s != []
    ensures AllSpace(s) <==> IsJsSpace(s[0]) && AllSpace(s[1..])
  {
    if IsJsSpace(s[0]) && AllSpace(s[1..]) {
      forall i | 0 <= i < |s| ensures IsJsSpace(s[i]) {
        if i > 0 { assert s[i] == s[1..][i - 1]; }
      }
    }
  }

  lemma AllSpaceInitLast(s: string)
    requires s != []
    ensures AllSpace(s) <==> AllSpace(s[..|s| - 1]) && IsJsSpace(s[|s| - 1])
  {
    var t := s[..|s| - 1];
    if AllSpace(t) && IsJsSpace(s[|s| - 1]) {
      forall i | 0 <= i < |s| ensures IsJsSpace(s[i]) {
        if i < |s| - 1 { assert s[i] == t[i]; }
      }
    }
  }

  lemma {:induction false} TrimStartEmptyIff(s: string)
    ensures TrimStart(s) == [] <==> AllSpace(s)
  {
    if s != [] {
      AllSpaceHeadTail(s);
      if IsJsSpace(s[0]) {
        TrimStartEmptyIff(s[1..]);
      }
    }
  }

  lemma {:induction false} TrimEndEmptyIff(s: string)
    ensures TrimEnd(s) == [] <==> AllSpace(s)
  {
    if s != [] {
      AllSpaceInitLast(s);
      if IsJsSpace(s[|s| - 1]) {
        TrimEndEmptyIff(s[..|s| - 1]);
      }
    }
  }

  /** A text with one character that is not white space is not blank. */
  lemma NotBlankAt(s: string, j: nat)
    requires j < |s| && !IsJsSpace(s[j])
    ensures !IsBlank(s)
  {
    BlankIff(s);
  }

  /** A string is blank exactly when every character of it is white space. */
  lemma BlankIff(s: string)
    ensures IsBlank(s) <==> AllSpace(s)
  {
    var t := TrimStart(s);
    TrimStartEmptyIff(s);
    TrimEndEmptyIff(t);
    if AllSpace(s) {
      assert t == [];
    } else {
      assert t != [] && !IsJsSpace(t[0]);
      assert !AllSpace(t);
    }
  }

  function LowerChar(c: char): char {
    if 'A' <= c <= 'Z' then (c as int + 32) as char else c
  }

  /** ASCII lower-casing, character by character. */
  function Lower(s: string): (r: string)
    ensures |r| == |s|
    ensures forall i :: 0 <= i < |s| ==> r[i] == LowerChar(s[i])
  {
    seq(|s|, i requires 0 <= i < |s| => LowerChar(s[i]))
  }

  /** `needle` occurs in `hay` as a contiguous block. */
  function Contains(hay: string, needle: string): bool
    decreases |hay|
  {
    needle <= hay || (hay != [] && Contains(hay[1..], needle))
  }

  /** `needle` sits in `hay` starting at index `i`. */
  predicate OccursAt(hay: string, needle: string, i: int) {
    0 <= i && i + |needle| <= |hay| && hay[i..i + |needle|] == needle
  }

  /** Dropping the first character of `hay` moves every occurrence one place left. */
  lemma OccursShift(hay: string, needle: string, i: nat)
    requires hay != []
    ensures OccursAt(hay[1..], needle, i) <==> OccursAt(hay, needle, i + 1)
  {
    if i + 1 + |needle| <= |hay| {
      assert hay[1..][i..i + |needle|] == hay[i + 1..i + 1 + |needle|];
    }
  }

  /** The recursive search agrees with "there is a position where the needle sits". */
  lemma {:induction false} ContainsIff(hay: string, needle: string)
    ensures Contains(hay, needle) <==> exists i :: OccursAt(hay, needle, i)
    decreases |hay|
  {
    if needle <= hay {
      assert OccursAt(hay, needle, 0);
    } else if hay != [] {
      ContainsIff(hay[1..], needle);
      if Contains(hay[1..], needle) {
        var i :| OccursAt(hay[1..], needle, i);
        OccursShift(hay, needle, i);
      }
      if exists i :: OccursAt(hay, needle, i) {
        var i :| OccursAt(hay, needle, i);
        if i > 0 {
          OccursShift(hay, needle, i - 1);
        }
      }
    }
  }

  /** ILIKE '%needle%': a case-insensitive occurrence (wildcards in the needle left aside). */
  predicate ContainsInsensitive(hay: string, needle: string) {
    Contains(Lower(hay), Lower(needle))
  }

  /** The text before the first `sep` (all of `s` when there is none). */
  function TakeUntil(s: string, sep: char): (r: string)
    ensures r <= s && sep !in r
    ensures |r| < |s| ==> s[|r|] == sep
  {
    if s == [] || s[0] == sep then [] else [s[0]] + TakeUntil(s[1..], sep)
  }

  /** Python's `s.split(sep)` for a one-character separator. */
  function Split(s: string, sep: char): (r: seq<string>)
    ensures |r| >= 1
    ensures r[0] == TakeUntil(s, sep)
    decreases |s|
  {
    var head := TakeUntil(s, sep);
    if |head| == |s| then [s] else [head] + Split(s[|head| + 1..], sep)
  }

  /** When `s` is `p + [sep] + rest` and `p` has no separator, the second piece is the text
      of `rest` up to its first separator. */
  lemma {:induction false} SplitSecond(p: string, sep: char, rest: string)
    requires sep !in p
    ensures |Split(p + [sep] + rest, sep)| >= 2
    ensures Split(p + [sep] + rest, sep)[1] == TakeUntil(rest, sep)
  {
    var s := p + [sep] + rest;
    TakeUntilPrefix(p, sep, rest);
    assert s[|p| + 1..] == rest;
  }

  lemma {:induction false} TakeUntilPrefix(p: string, sep: char, rest: string)
    requires sep !in p
    ensures TakeUntil(p + [sep] + rest, sep) == p
  {
    if p != [] {
      assert (p + [sep] + rest)[1..] == p[1..] + [sep] + rest;
      TakeUntilPrefix(p[1..], sep, rest);
    }
  }

  function Digit(d: int): (c: char)
    requires 0 <= d < 10
    ensures IsDigit(c) && DigitValue(c) == d
  {
    ('0' as int + d) as char
  }

  predicate IsDigit(c: char) { '0' <= c <= '9' }

  function DigitValue(c: char): int
    requires IsDigit(c)
  {
    c as int - '0' as int
  }

  /** `Number.prototype.toString()` on a natural, and Python's `str` on one. */
  function NatToString(n: nat): (r: string)
    ensures |r| >= 1
    ensures forall i :: 0 <= i < |r| ==> IsDigit(r[i])
  {
    if n < 10 then [Digit(n)] else NatToString(n / 10) + [Digit(n % 10)]
  }

  /** The value of a non-empty run of decimal digits; anything else is rejected. */
  function ParseNat(s: string): (r: Option<nat>)
    ensures r.Some? <==> s != [] && forall i :: 0 <= i < |s| ==> IsDigit(s[i])
  {
    if s == [] then None
    else if !IsDigit(s[|s| - 1]) then None
    else if |s| == 1 then Some(DigitValue(s[0]))
    else match ParseNat(s[..|s| - 1])
      case None => None
      case Some(v) => Some(v * 10 + DigitValue(s[|s| - 1]))
  }

  /** Reading back a rendered natural gives the natural. */
  lemma {:induction false} ParseNatToString(n: nat)
    ensures ParseNat(NatToString(n)) == Some(n)
  {
    if n >= 10 {
      ParseNatToString(n / 10);
      var s := NatToString(n);
      assert s[..|s| - 1] == NatToString(n / 10);
    }
  }

  /** JavaScript's `a < b` on strings (code-unit order; a proper prefix is smaller). */
  predicate LexLess(a: string, b: string) {
    if a == [] then b != []
    else if b == [] then false
    else if a[0] != b[0] then a[0] < b[0]
    else LexLess(a[1..], b[1..])
  }

  /** JavaScript's `a <= b` on strings. */
  predicate LexLessEq(a: string, b: string) {
    a == b || LexLess(a, b)
  }

  /** On equal-length heads the order is decided by the heads, then by the tails. */
  lemma {:induction false} LexLessConcat(x: string, y: string, u: string, v: string)
    requires |x| == |u|
    ensures LexLess(x + y, u + v) <==> LexLess(x, u) || (x == u && LexLess(y, v))
  {
    if x == [] {
      assert x + y == y && u + v == v;
    } else {
      assert (x + y)[0] == x[0] && (u + v)[0] == u[0];
      assert (x + y)[1..] == x[1..] + y && (u + v)[1..] == u[1..] + v;
      if x[0] == u[0] {
        LexLessConcat(x[1..], y, u[1..], v);
        assert x == u <==> x[1..] == u[1..] by {
          if x[1..] == u[1..] { assert x == [x[0]] + x[1..]; assert u == [u[0]] + u[1..]; }
        }
      } else {
        assert x != u;
      }
    }
  }

  lemma {:induction false} LexLessIrreflexive(a: string)
    ensures !LexLess(a, a)
  {
    if a != [] { LexLessIrreflexive(a[1..]); }
  }
}
