/**
 * The few Python `str` operations the filter relies on: `str.isspace`, `str.strip`,
 * `str.lower` (for ASCII), `str.split` on a one-character separator, and `int(str)`
 * for plain decimal numerals.
 */
module PyText {
  import opened Wrappers

  /** The characters for which Python's `str.isspace()` holds. */
  predicate IsSpace(c: char) {
    || c == ' '
    || ('\t' <= c <= '\r')
    || ('\U{1C}' <= c <= '\U{1F}')
    || c == '\U{85}' || c == '\U{A0}' || c == '\U{1680}'
    || ('\U{2000}' <= c <= '\U{200A}')
    || c == '\U{2028}' || c == '\U{2029}' || c == '\U{202F}' || c == '\U{205F}' || c == '\U{3000}'
  }

  predicate AllSpace(s: string) {
    forall k | 0 <= k < |s| :: IsSpace(s[k])
  }

  /** `s.lstrip()`: drops the leading whitespace and nothing else. */
  function TrimStart(s: string): (r: string)
    ensures |r| <= |s| && r == s[|s| - |r|..]
    ensures AllSpace(s[..|s| - |r|])
    ensures r != [] ==> !IsSpace(r[0])
  {
    if s != [] && IsSpace(s[0]) then TrimStart(s[1..]) else s
  }

  /** `s.rstrip()`: drops the trailing whitespace and nothing else. */
  function TrimEnd(s: string): (r: string)
    ensures |r| <= |s| && r == s[..|r|]
    ensures AllSpace(s[|r|..])
    ensures r != [] ==> !IsSpace(r[|r| - 1])
  {
    if s != [] && IsSpace(s[|s| - 1]) then
      var r := TrimEnd(s[..|s| - 1]);
      assert s[|r|..] == s[..|s| - 1][|r|..] + [s[|s| - 1]];
      r
    else
      s
  }

  /** `r` is `s` with `i` characters of whitespace removed in front and only whitespace removed behind. */
  ghost predicate StrippedAt(s: string, r: string, i: int) {
    0 <= i <= |s| - |r| && s[i..i + |r|] == r && AllSpace(s[..i]) && AllSpace(s[i + |r|..])
  }

  /** `s.strip()`: the text between the leading and the trailing whitespace. */
  function Strip(s: string): string {
    TrimEnd(TrimStart(s))
  }

  /**
   * `Strip` removes whitespace only, from both ends, until neither end is whitespace; the
   * result is empty exactly when `s` is all whitespace.
   */
  lemma StripProperties(s: string)
    ensures exists i :: StrippedAt(s, Strip(s), i)
    ensures var r := Strip(s); r != [] ==> !IsSpace(r[0]) && !IsSpace(r[|r| - 1])
    ensures Strip(s) == [] <==> AllSpace(s)
  {
    var t := TrimStart(s);
    var r := TrimEnd(t);
    TrimBothOf(s, t, r);
    assert r == Strip(s);
  }

  /** What `Strip` guarantees, for any `t` and `r` with the properties of `TrimStart(s)` and `TrimEnd(t)`. */
  lemma TrimBothOf(s: string, t: string, r: string)
    requires |t| <= |s| && t == s[|s| - |t|..] && AllSpace(s[..|s| - |t|]) && (t != [] ==> !IsSpace(t[0]))
    requires |r| <= |t| && r == t[..|r|] && AllSpace(t[|r|..])
    ensures StrippedAt(s, r, |s| - |t|)
    ensures r != [] ==> !IsSpace(r[0])
    ensures r == [] <==> AllSpace(s)
  {
    TrimBothAt(s, t, r);
    TrimBothFirst(t, r);
    if r == [] {
      assert t[|r|..] == t;
      TrimBothEmpty(s, t);
    } else {
      TrimBothNonEmpty(s, r, |s| - |t|);
    }
  }

  lemma TrimBothFirst(t: string, r: string)
    requires t != [] ==> !IsSpace(t[0])
    requires |r| <= |t| && r == t[..|r|]
    ensures r != [] ==> !IsSpace(r[0])
  {
    if r != [] {
      assert r[0] == t[0];
    }
  }

  lemma TrimBothNonEmpty(s: string, r: string, i: int)
    requires StrippedAt(s, r, i) && r != [] && !IsSpace(r[0])
    ensures !AllSpace(s)
  {
    assert s[i] == r[0];
  }

  lemma TrimBothAt(s: string, t: string, r: string)
    requires |t| <= |s| && t == s[|s| - |t|..] && AllSpace(s[..|s| - |t|])
    requires |r| <= |t| && r == t[..|r|] && AllSpace(t[|r|..])
    ensures StrippedAt(s, r, |s| - |t|)
  {
    var i := |s| - |t|;
    assert s[i..i + |r|] == t[..|r|];
    assert s[i + |r|..] == t[|r|..];
  }

  lemma TrimBothEmpty(s: string, t: string)
    requires |t| <= |s| && t == s[|s| - |t|..] && AllSpace(s[..|s| - |t|]) && AllSpace(t)
    ensures AllSpace(s)
  {
    AllSpaceConcat(s[..|s| - |t|], t);
    assert s == s[..|s| - |t|] + t;
  }

  lemma AllSpaceConcat(a: string, b: string)
    requires AllSpace(a) && AllSpace(b)
    ensures AllSpace(a + b)
  {
    forall k | 0 <= k < |a + b| ensures IsSpace((a + b)[k]) {
      if k < |a| { assert (a + b)[k] == a[k]; } else { assert (a + b)[k] == b[k - |a|]; }
    }
  }

  /** Lower-cases the ASCII letters; every other character is left as it is. */
  function LowerChar(c: char): char {
    if 'A' <= c <= 'Z' then (c as int + 32) as char else c
  }

  /** `s.lower().startswith(prefix)` for a lower-case ASCII `prefix`. */
  predicate LowerStartsWith(s: string, prefix: string) {
    |prefix| <= |s| && forall k | 0 <= k < |prefix| :: LowerChar(s[k]) == prefix[k]
  }

  function Count(s: string, c: char): (n: nat)
    ensures n <= |s|
    ensures n == 0 <==> c !in s
  {
    if s == [] then 0 else (if s[0] == c then 1 else 0) + Count(s[1..], c)
  }

  /** The inverse of `Split`: the parts glued together with `sep` between neighbours. */
  function Join(parts: seq<string>, sep: char): string
    requires |parts| >= 1
  {
    if |parts| == 1 then parts[0] else parts[0] + [sep] + Join(parts[1..], sep)
  }

  /**
   * `s.split(sep)` for a one-character separator: the maximal separator-free pieces,
   * one more than there are separators (so `"".split("x") == [""]`).
   */
  function Split(s: string, sep: char): seq<string> {
    if s == [] then [[]]
    else
      var rest := Split(s[1..], sep);
      if s[0] == sep then [[]] + rest else [[s[0]] + rest[0]] + rest[1..]
  }

  /** `Split` gives one piece more than there are separators. */
  lemma {:induction false} SplitLength(s: string, sep: char)
    ensures |Split(s, sep)| == Count(s, sep) + 1
  {
    if s != [] {
      SplitLength(s[1..], sep);
    }
  }

  /** No piece of `Split` holds the separator. */
  lemma {:induction false} SplitPieces(s: string, sep: char)
    ensures forall p <- Split(s, sep) :: sep !in p
  {
    if s != [] {
      SplitPieces(s[1..], sep);
      SplitLength(s[1..], sep);
      var rest := Split(s[1..], sep);
      var parts := Split(s, sep);
      if s[0] != sep {
        assert parts == [[s[0]] + rest[0]] + rest[1..];
        forall p <- parts ensures sep !in p {
          if p != parts[0] {
            assert p in rest[1..];
          }
        }
      }
    }
  }

  /** Joining the pieces of `Split` gives back `s`. */
  lemma {:induction false} JoinSplit(s: string, sep: char)
    ensures |Split(s, sep)| >= 1 && Join(Split(s, sep), sep) == s
  {
    SplitLength(s, sep);
    if s != [] {
      JoinSplit(s[1..], sep);
      var rest := Split(s[1..], sep);
      var parts := Split(s, sep);
      assert s == [s[0]] + s[1..];
      if s[0] == sep {
        assert parts[1..] == rest;
      } else {
        assert parts[1..] == rest[1..];
        if |rest| > 1 {
          assert Join(rest, sep) == rest[0] + [sep] + Join(rest[1..], sep);
        }
      }
    }
  }

  lemma {:induction false} SplitWithoutSeparator(s: string, sep: char)
    requires sep !in s
    ensures Split(s, sep) == [s]
  {
    if s != [] {
      assert sep !in s[1..];
      SplitWithoutSeparator(s[1..], sep);
      assert s == [s[0]] + s[1..];
    }
  }

  lemma {:induction false} SplitAtFirstSeparator(p: string, sep: char, t: string)
    requires sep !in p
    ensures Split(p + [sep] + t, sep) == [p] + Split(t, sep)
  {
    var s := p + [sep] + t;
    if p == [] {
      assert s[0] == sep && s[1..] == t;
    } else {
      assert s[0] == p[0] != sep;
      assert s[1..] == p[1..] + [sep] + t;
      assert sep !in p[1..];
      SplitAtFirstSeparator(p[1..], sep, t);
      var rest := Split(s[1..], sep);
      assert rest[0] == p[1..] && rest[1..] == Split(t, sep);
      assert Split(s, sep) == [[s[0]] + rest[0]] + rest[1..];
      assert [s[0]] + rest[0] == p;
    }
  }

  /** Splitting undoes joining, so `Split` is the unique decomposition into separator-free parts. */
  lemma {:induction false} SplitJoin(parts: seq<string>, sep: char)
    requires |parts| >= 1
    requires forall p <- parts :: sep !in p
    ensures Split(Join(parts, sep), sep) == parts
  {
    if |parts| == 1 {
      SplitWithoutSeparator(parts[0], sep);
    } else {
      assert parts[0] in parts;
      forall p <- parts[1..] ensures sep !in p { assert p in parts; }
      SplitAtFirstSeparator(parts[0], sep, Join(parts[1..], sep));
      SplitJoin(parts[1..], sep);
      assert parts == [parts[0]] + parts[1..];
    }
  }

  predicate IsDigit(c: char) {
    '0' <= c <= '9'
  }

  predicate AllDigits(s: string) {
    forall k | 0 <= k < |s| :: IsDigit(s[k])
  }

  function DigitsValue(s: string): nat
    requires AllDigits(s)
  {
    if s == [] then 0 else DigitsValue(s[..|s| - 1]) * 10 + (s[|s| - 1] as int - '0' as int)
  }

  /**
   * The ASCII information separators U+001C..U+001F. `str.isspace()` holds for them, but
   * `int()` turns only non-ASCII whitespace into spaces and then skips C whitespace, so
   * one of them anywhere in the text makes `int()` fail.
   */
  predicate IsInformationSeparator(c: char) {
    '\U{1C}' <= c <= '\U{1F}'
  }

  predicate HasInformationSeparator(s: string) {
    exists k | 0 <= k < |s| :: IsInformationSeparator(s[k])
  }

  /**
   * `int(s)` for a decimal numeral: surrounding whitespace, an optional sign, then one or more
   * digits, with no limit on the number of digits.
   */
  function ParseInt(s: string): Option<int>
  {
    var t := Strip(s);
    var signed := t != [] && (t[0] == '+' || t[0] == '-');
    var digits := if signed then t[1..] else t;
    if !HasInformationSeparator(s) && digits != [] && AllDigits(digits) then
      var v: int := DigitsValue(digits);
      Some(if signed && t[0] == '-' then -v else v)
    else
      None
  }

  /** Text holding an information separator never parses, although `Strip` removes it. */
  lemma InformationSeparatorRejected(s: string, k: int)
    requires 0 <= k < |s| && IsInformationSeparator(s[k])
    ensures ParseInt(s).None?
  {
  }

  /** Python's `str(n)` for a natural number. */
  function Decimal(n: nat): (r: string)
    ensures r != [] && AllDigits(r)
    ensures DigitsValue(r) == n
    decreases n
  {
    var last := ('0' as int + n % 10) as char;
    if n < 10 then
      assert [last][..0] == [];
      [last]
    else
      var r := Decimal(n / 10) + [last];
      assert r[..|r| - 1] == Decimal(n / 10);
      r
  }

  lemma StripUnpadded(s: string)
    requires s != [] && !IsSpace(s[0]) && !IsSpace(s[|s| - 1])
    ensures Strip(s) == s
  {
  }

  /**
   * Python's `str(n)`, in the model for an integer of any size (CPython refuses numbers of
   * more than `sys.int_max_str_digits` digits): a minus sign before the digits of a negative number.
   */
  function Str(n: int): (r: string)
    ensures r != [] && 'x' !in r
  {
    if n < 0 then
      var d := Decimal(-n);
      assert forall k | 0 <= k < |d| :: IsDigit(d[k]);
      "-" + d
    else
      var d := Decimal(n);
      assert forall k | 0 <= k < |d| :: IsDigit(d[k]);
      d
  }

  /** In the model, `int(str(n)) == n` for every integer, negative ones included. */
  lemma ParseIntStr(n: int)
    ensures ParseInt(Str(n)) == Some(n)
  {
    var t := Str(n);
    if n < 0 {
      var d := Decimal(-n);
      assert t == "-" + d;
      StripUnpadded(t);
      assert IsDigit(d[|d| - 1]);
      assert t[1..] == d;
    } else {
      ParseIntDecimal(n);
    }
  }

  /** `int(str(n)) == n`. */
  lemma ParseIntDecimal(n: nat)
    ensures ParseInt(Decimal(n)) == Some(n)
  {
    var d := Decimal(n);
    StripUnpadded(d);
    assert IsDigit(d[0]);
    assert Strip(d) == d && d[0] != '+' && d[0] != '-';
  }
}
