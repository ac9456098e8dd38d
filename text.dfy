/**
 * The few operations of Go's `strings` and `strconv` packages that the commands use:
 * prefix tests, substring search, ASCII case mapping, `TrimSpace`, `Split` on a
 * one-character separator, `Join` and `Atoi`.
 */
module Text {
  import opened Wrappers

  predicate IsPrefix(prefix: string, s: string) {
    |prefix| <= |s| && s[..|prefix|] == prefix
  }

  /** strings.Contains */
  predicate Contains(s: string, sub: string)
    decreases |s|
  {
    IsPrefix(sub, s) || (|s| > 0 && Contains(s[1..], sub))
  }

  function LowerChar(c: char): char {
    if 'A' <= c <= 'Z' then (c as int + 32) as char else c
  }

  function UpperChar(c: char): char {
    if 'a' <= c <= 'z' then (c as int - 32) as char else c
  }

  /** strings.ToLower, for the ASCII letters. */
  function Lower(s: string): (r: string)
    ensures |r| == |s|
    ensures forall i :: 0 <= i < |s| ==> r[i] == LowerChar(s[i])
  {
    seq(|s|, i requires 0 <= i < |s| => LowerChar(s[i]))
  }

  /** strings.ToUpper, for the ASCII letters. */
  function Upper(s: string): (r: string)
    ensures |r| == |s|
    ensures forall i :: 0 <= i < |s| ==> r[i] == UpperChar(s[i])
  {
    seq(|s|, i requires 0 <= i < |s| => UpperChar(s[i]))
  }

  /** Two characters that are equal or the same ASCII letter in the two cases. */
  predicate SameLetter(a: char, b: char) {
    || a == b
    || ('A' <= a <= 'Z' && b as int == a as int + 32)
    || ('A' <= b <= 'Z' && a as int == b as int + 32)
  }

  /** strings.EqualFold, for the ASCII letters. */
  predicate SameIgnoringCase(s: string, t: string) {
    |s| == |t| && forall i :: 0 <= i < |s| ==> SameLetter(s[i], t[i])
  }

  /**
   * Lowering leaves no upper-case letter, lowering twice is lowering once, and two texts
   * lower to the same text exactly when they differ only in the case of their letters.
   */
  lemma LowerFoldsCase(s: string, t: string)
    ensures forall i :: 0 <= i < |Lower(s)| ==> !('A' <= Lower(s)[i] <= 'Z')
    ensures Lower(Lower(s)) == Lower(s)
    ensures Lower(s) == Lower(t) <==> SameIgnoringCase(s, t)
  {
    assert Lower(Lower(s)) == Lower(s) by {
      forall i | 0 <= i < |s| ensures Lower(Lower(s))[i] == Lower(s)[i] { }
    }
    if SameIgnoringCase(s, t) {
      forall i | 0 <= i < |s| ensures Lower(s)[i] == Lower(t)[i] { }
    }
    if Lower(s) == Lower(t) {
      forall i | 0 <= i < |s| ensures SameLetter(s[i], t[i]) {
        assert LowerChar(s[i]) == LowerChar(t[i]);
      }
    }
  }

  /**
   * Raising leaves no lower-case letter, raising twice is raising once, and two texts
   * raise to the same text exactly when they differ only in the case of their letters.
   */
  lemma UpperFoldsCase(s: string, t: string)
    ensures forall i :: 0 <= i < |Upper(s)| ==> !('a' <= Upper(s)[i] <= 'z')
    ensures Upper(Upper(s)) == Upper(s)
    ensures Upper(s) == Upper(t) <==> SameIgnoringCase(s, t)
  {
    assert Upper(Upper(s)) == Upper(s) by {
      forall i | 0 <= i < |s| ensures Upper(Upper(s))[i] == Upper(s)[i] { }
    }
    if SameIgnoringCase(s, t) {
      forall i | 0 <= i < |s| ensures Upper(s)[i] == Upper(t)[i] { }
    }
    if Upper(s) == Upper(t) {
      forall i | 0 <= i < |s| ensures SameLetter(s[i], t[i]) {
        assert UpperChar(s[i]) == UpperChar(t[i]);
      }
    }
  }

  /** unicode.IsSpace: the Latin-1 white space and the Unicode White_Space characters. */
  predicate IsSpace(c: char) {
    var n := c as int;
    n == 0x20 || (0x09 <= n <= 0x0D) || n == 0x85 || n == 0xA0 || n == 0x1680
    || (0x2000 <= n <= 0x200A) || n == 0x2028 || n == 0x2029 || n == 0x202F || n == 0x205F || n == 0x3000
  }

  predicate AllSpace(s: string) {
    forall i {:trigger IsSpace(s[i])} :: 0 <= i < |s| ==> IsSpace(s[i])
  }

  function TrimLeft(s: string): (r: string)
    ensures |r| <= |s| && r == s[|s| - |r|..]
    ensures AllSpace(s[..|s| - |r|])
    ensures r != [] ==> !IsSpace(r[0])
    decreases |s|
  {
    if s != [] && IsSpace(s[0]) then
      var r := TrimLeft(s[1..]);
      assert s[1..][|s[1..]| - |r|..] == s[|s| - |r|..];
      AllSpaceAppend([s[0]], s[1..][..|s[1..]| - |r|]);
      assert [s[0]] + s[1..][..|s[1..]| - |r|] == s[..|s| - |r|];
      r
    else s
  }

  /** The last character. */
  function Last(s: string): char
    requires s != []
  {
    s[|s| - 1]
  }

  function TrimRight(s: string): (r: string)
    ensures |r| <= |s| && r == s[..|r|]
    ensures AllSpace(s[|r|..])
    ensures r != [] ==> !IsSpace(Last(r))
    decreases |s|
  {
    if s != [] && IsSpace(Last(s)) then
      var t := s[..|s| - 1];
      var r := TrimRight(t);
      assert t[..|r|] == s[..|r|];
      AllSpaceAppend(t[|r|..], [Last(s)]);
      assert t[|r|..] + [Last(s)] == s[|r|..];
      r
    else s
  }

  lemma AllSpaceAppend(a: string, b: string)
    requires AllSpace(a) && AllSpace(b)
    ensures AllSpace(a + b)
  {
  }

  /**
   * `r` is `s` with white space cut off on both ends: the slice of `s` from `i`, with
   * only white space before and after it, and neither starting nor ending with white
   * space.
   */
  predicate TrimmedFrom(s: string, i: nat, r: string) {
    && i + |r| <= |s| && r == s[i..i + |r|]
    && AllSpace(s[..i]) && AllSpace(s[i + |r|..])
    && (r != [] ==> !IsSpace(r[0]) && !IsSpace(Last(r)))
  }

  /** strings.TrimSpace: what remains of `s` once the white space on both ends is cut off. */
  function TrimSpace(s: string): (r: string)
    ensures TrimmedFrom(s, TrimStart(s), r)
  {
    var left := TrimLeft(s);
    var r := TrimRight(left);
    TrimmedSlice(s, TrimStart(s), left, r);
    r
  }

  /** The number of white-space characters at the start of `s`. */
  function TrimStart(s: string): (i: nat)
    ensures i <= |s| && AllSpace(s[..i])
  {
    |s| - |TrimLeft(s)|
  }

  /** A prefix `r` of the suffix `left` of `s` that starts at `i` is the slice of `s` at `i`. */
  lemma TrimmedSlice(s: string, i: nat, left: string, r: string)
    requires i <= |s| && left == s[i..] && |r| <= |left| && r == left[..|r|]
    requires AllSpace(s[..i]) && AllSpace(left[|r|..])
    requires left != [] ==> !IsSpace(left[0])
    requires r != [] ==> !IsSpace(Last(r))
    ensures TrimmedFrom(s, i, r)
  {
    assert s[i + |r|..] == left[|r|..];
    if r != [] {
      assert r[0] == left[0];
    }
  }

  /** Trimming leaves nothing exactly when the text is white space throughout. */
  lemma TrimSpaceEmptyIff(s: string)
    ensures TrimSpace(s) == [] <==> AllSpace(s)
  {
    var r := TrimSpace(s);
    var i := TrimStart(s);
    if r == [] {
      assert i == |s|;
      forall k | 0 <= k < |s| ensures IsSpace(s[k]) {
        assert s[k] == s[..i][k];
      }
    } else {
      assert s[i] == r[0];
    }
  }

  /** The number of occurrences of `c` in `s`. */
  function Count(s: string, c: char): nat
    decreases |s|
  {
    if s == [] then 0 else (if s[0] == c then 1 else 0) + Count(s[1..], c)
  }

  /** strings.Split with a one-character separator: the pieces between the separators. */
  function Split(s: string, sep: char): (parts: seq<string>)
    ensures |parts| >= 1
    decreases |s|
  {
    if s == [] then [""]
    else
      var rest := Split(s[1..], sep);
      if s[0] == sep then [""] + rest else [[s[0]] + rest[0]] + rest[1..]
  }

  /** strings.Join */
  function Join(parts: seq<string>, sep: string): string
    decreases |parts|
  {
    if |parts| == 0 then ""
    else if |parts| == 1 then parts[0]
    else parts[0] + sep + Join(parts[1..], sep)
  }

  /** Splitting yields one piece more than there are separators, and no piece holds one. */
  lemma {:induction false} SplitCount(s: string, sep: char)
    ensures |Split(s, sep)| == Count(s, sep) + 1
    ensures forall k :: 0 <= k < |Split(s, sep)| ==> sep !in Split(s, sep)[k]
    decreases |s|
  {
    if s != [] {
      SplitCount(s[1..], sep);
      var rest := Split(s[1..], sep);
      if s[0] != sep {
        var parts := Split(s, sep);
        forall k | 0 <= k < |parts| ensures sep !in parts[k] {
          if k == 0 {
            assert parts[0] == [s[0]] + rest[0];
          } else {
            assert parts[k] == rest[k];
          }
        }
      }
    }
  }

  /** Joining the pieces with the separator gives back the text that was split. */
  lemma {:induction false} JoinSplit(s: string, sep: char)
    ensures Join(Split(s, sep), [sep]) == s
    decreases |s|
  {
    if s != [] {
      JoinSplit(s[1..], sep);
      var rest := Split(s[1..], sep);
      if s[0] == sep {
        assert Split(s, sep) == [""] + rest;
        assert ([""] + rest)[1..] == rest;
      } else {
        var parts := Split(s, sep);
        assert parts[1..] == rest[1..];
        if |rest| == 1 {
          assert parts == [[s[0]] + rest[0]];
        } else {
          assert parts[0] == [s[0]] + rest[0];
        }
      }
    }
  }

  /** Two prefixes of the same string: the shorter is a prefix of the longer. */
  lemma PrefixesOfOneString(p: string, q: string, s: string)
    requires IsPrefix(p, s) && IsPrefix(q, s) && |p| <= |q|
    ensures IsPrefix(p, q)
  {
    assert q[..|p|] == s[..|q|][..|p|];
  }

  /** A string without the separator is its own single piece. */
  lemma SplitWithout(s: string, sep: char)
    requires sep !in s
    ensures Split(s, sep) == [s]
    decreases |s|
  {
    if s != [] {
      assert sep !in s[1..];
      SplitWithout(s[1..], sep);
      assert [s[0]] + s[1..] == s;
    }
  }

  /**
   * When there is a separator, the last piece is the text after the last one: the string
   * ends with the separator followed by that piece.
   */
  lemma {:induction false} SplitLastField(s: string, sep: char)
    requires |Split(s, sep)| >= 2
    ensures var parts := Split(s, sep); var last := parts[|parts| - 1];
      && |last| + 1 <= |s|
      && s[|s| - |last| - 1..] == [sep] + last
      && sep !in last
    decreases |s|
  {
    var parts := Split(s, sep);
    SplitCount(s, sep);
    var rest := Split(s[1..], sep);
    if |rest| >= 2 {
      SplitLastField(s[1..], sep);
      assert parts[|parts| - 1] == rest[|rest| - 1];
      assert s[1..][|s| - 1 - |rest[|rest| - 1]| - 1..] == s[|s| - |rest[|rest| - 1]| - 1..];
    } else {
      SplitCount(s[1..], sep);
      assert s[0] == sep;
      JoinSplit(s[1..], sep);
      assert rest == [s[1..]];
      assert parts == [""] + rest;
      assert s == [sep] + s[1..];
    }
  }

  predicate IsDigit(c: char) {
    '0' <= c <= '9'
  }

  predicate AllDigits(s: string) {
    forall i :: 0 <= i < |s| ==> IsDigit(s[i])
  }

  /** The value of a string of decimal digits, most significant first. */
  function DigitsValue(s: string): nat
    requires AllDigits(s)
    decreases |s|
  {
    if s == [] then 0 else DigitsValue(s[..|s| - 1]) * 10 + (s[|s| - 1] as int - '0' as int)
  }

  const MinInt64: int := -0x8000_0000_0000_0000
  const MaxInt64: int := 0x7FFF_FFFF_FFFF_FFFF

  /** The text after an optional leading sign. */
  function Unsigned(s: string): string {
    if s != [] && (s[0] == '+' || s[0] == '-') then s[1..] else s
  }

  predicate NumberSyntax(s: string) {
    Unsigned(s) != [] && AllDigits(Unsigned(s))
  }

  /** The value of a well-formed number: its digits, negated after a minus sign. */
  function SignedValue(s: string): int
    requires NumberSyntax(s)
  {
    var magnitude: int := DigitsValue(Unsigned(s));
    if s[0] == '-' then -magnitude else magnitude
  }

  /**
   * strconv.Atoi on a 64-bit platform: an optional sign followed by at least one decimal
   * digit, whose value fits the `int` type; anything else is an error.
   */
  function Atoi(s: string): (r: Option<int>)
    ensures r.Some? <==> NumberSyntax(s) && MinInt64 <= SignedValue(s) <= MaxInt64
    ensures r.Some? ==> r.value == SignedValue(s)
  {
    if !NumberSyntax(s) then None
    else
      var v := SignedValue(s);
      if MinInt64 <= v <= MaxInt64 then Some(v) else None
  }

  function DigitChar(d: nat): char
    requires d < 10
  {
    ('0' as int + d) as char
  }

  /** The decimal digits of `n`, without leading zeros ("0" for zero). */
  function NatDigits(n: nat): (s: string)
    ensures s != [] && AllDigits(s)
    decreases n
  {
    if n < 10 then [DigitChar(n)] else NatDigits(n / 10) + [DigitChar(n % 10)]
  }

  /** strconv.Itoa */
  function Itoa(v: int): string {
    if v < 0 then "-" + NatDigits(-v) else NatDigits(v)
  }

  lemma {:induction false} NatDigitsValue(n: nat)
    ensures DigitsValue(NatDigits(n)) == n
    decreases n
  {
    var s := NatDigits(n);
    if n >= 10 {
      NatDigitsValue(n / 10);
      assert s[..|s| - 1] == NatDigits(n / 10);
    }
  }

  /** Atoi reads back every `int` that Itoa writes. */
  lemma AtoiItoa(v: int)
    requires MinInt64 <= v <= MaxInt64
    ensures Atoi(Itoa(v)) == Some(v)
  {
    var s := Itoa(v);
    if v < 0 {
      NatDigitsValue(-v);
      assert Unsigned(s) == NatDigits(-v);
    } else {
      NatDigitsValue(v);
      assert Unsigned(s) == NatDigits(v);
    }
  }
}
