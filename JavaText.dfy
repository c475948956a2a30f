/**
 * The java.lang behaviour the handlers depend on: String.startsWith,
 * String.split with a single-character separator, Long.parseLong and
 * Integer.parseInt as wrapped by ConversionHelper (a default on failure),
 * and the narrowing cast from long to int.
 */
module JavaText {
  import opened Wrappers

  const LONG_MIN: int := -0x8000_0000_0000_0000
  const LONG_MAX: int := 0x7FFF_FFFF_FFFF_FFFF
  const INT_MIN: int := -0x8000_0000
  const INT_MAX: int := 0x7FFF_FFFF

  predicate IsInt(x: int) { INT_MIN <= x <= INT_MAX }

  predicate IsLong(x: int) { LONG_MIN <= x <= LONG_MAX }

  /** String.startsWith */
  predicate StartsWith(s: string, prefix: string)
    ensures StartsWith(s, prefix) <==> exists rest :: s == prefix + rest
  {
    assert |prefix| <= |s| ==> s == s[..|prefix|] + s[|prefix|..];
    |prefix| <= |s| && s[..|prefix|] == prefix
  }

  // ---------------------------------------------------------------------
  // String.split(c) for a separator that is a single, non-special character

  /** Every token between separators, empty ones included (count of c plus one). */
  function RawSplit(s: string, c: char): (r: seq<string>)
    ensures |r| >= 1
    decreases |s|
  {
    if |s| == 0 then [""]
    else if s[0] == c then [""] + RawSplit(s[1..], c)
    else
      var rest := RawSplit(s[1..], c);
      [[s[0]] + rest[0]] + rest[1..]
  }

  /** The tokens glued back together with the separator between them. */
  function Join(ts: seq<string>, c: char): string
    decreases |ts|
  {
    if |ts| == 0 then ""
    else if |ts| == 1 then ts[0]
    else ts[0] + [c] + Join(ts[1..], c)
  }

  /** Removes the empty tokens at the end of the list, as split(regex) does with limit 0. */
  function DropTrailingEmpty(ts: seq<string>): (r: seq<string>)
    ensures r <= ts
    ensures |r| > 0 ==> r[|r| - 1] != ""
    ensures forall i :: |r| <= i < |ts| ==> ts[i] == ""
    decreases |ts|
  {
    if |ts| > 0 && ts[|ts| - 1] == "" then DropTrailingEmpty(ts[..|ts| - 1]) else ts
  }

  /**
   * String.split: when the separator does not occur the whole string is the
   * only token (so "" splits into [""]); otherwise the raw tokens with the
   * trailing empty ones dropped (so "a_" splits into ["a"] and "_" into []).
   */
  function Split(s: string, c: char): (r: seq<string>)
    ensures c !in s ==> r == [s]
    ensures forall i :: 0 <= i < |r| ==> c !in r[i]
    ensures r <= RawSplit(s, c)
    ensures forall i :: |r| <= i < |RawSplit(s, c)| ==> RawSplit(s, c)[i] == ""
    ensures c in s && |r| > 0 ==> r[|r| - 1] != ""
  {
    RawSplitNoSeparator(s, c);
    if c !in s then [s] else DropTrailingEmpty(RawSplit(s, c))
  }

  lemma {:induction false} RawSplitNoSeparator(s: string, c: char)
    ensures forall i :: 0 <= i < |RawSplit(s, c)| ==> c !in RawSplit(s, c)[i]
    ensures c !in s ==> RawSplit(s, c) == [s]
    decreases |s|
  {
    if |s| > 0 {
      RawSplitNoSeparator(s[1..], c);
      var rest := RawSplit(s[1..], c);
      if s[0] != c {
        assert c !in [s[0]] + rest[0];
        forall i | 0 <= i < |RawSplit(s, c)| ensures c !in RawSplit(s, c)[i] {
          if i > 0 { assert RawSplit(s, c)[i] == rest[i]; }
        }
        if c !in s {
          assert c !in s[1..];
          assert [s[0]] + s[1..] == s;
        }
      }
    }
  }

  /** Joining the raw tokens with the separator restores the string. */
  lemma {:induction false} JoinRawSplit(s: string, c: char)
    ensures Join(RawSplit(s, c), c) == s
    decreases |s|
  {
    if |s| > 0 {
      JoinRawSplit(s[1..], c);
      var rest := RawSplit(s[1..], c);
      if s[0] == c {
        assert RawSplit(s, c)[1..] == rest;
        assert s == [c] + s[1..];
      } else {
        var r := RawSplit(s, c);
        if |rest| == 1 {
          assert r == [[s[0]] + rest[0]];
          assert s == [s[0]] + s[1..];
        } else {
          assert r[1..] == rest[1..];
          assert Join(rest, c) == rest[0] + [c] + Join(rest[1..], c);
          assert Join(r, c) == [s[0]] + rest[0] + [c] + Join(rest[1..], c);
          assert s == [s[0]] + s[1..];
        }
      }
    }
  }

  /** A separator splits the raw tokens: those of the part before it, then those of the part after it. */
  lemma {:induction false} RawSplitConcat(a: string, c: char, b: string)
    ensures RawSplit(a + [c] + b, c) == RawSplit(a, c) + RawSplit(b, c)
    decreases |a|
  {
    var s := a + [c] + b;
    if |a| == 0 {
      assert s == [c] + b;
      assert s[1..] == b;
    } else {
      assert s[0] == a[0];
      assert s[1..] == a[1..] + [c] + b;
      RawSplitConcat(a[1..], c, b);
      if a[0] != c {
        var rest := RawSplit(a[1..], c);
        assert RawSplit(s, c)[0] == [a[0]] + rest[0];
      }
    }
  }

  /**
   * Joining the raw tokens with the separator gives the string back, and
   * the raw tokens are exactly the split tokens followed by empty ones.
   */
  lemma SplitCharacterisation(s: string, c: char)
    ensures Join(RawSplit(s, c), c) == s
    ensures RawSplit(s, c) == Split(s, c) + seq(|RawSplit(s, c)| - |Split(s, c)|, _ => "")
  {
    JoinRawSplit(s, c);
    var raw := RawSplit(s, c);
    var r := Split(s, c);
    var tail := seq(|raw| - |r|, _ => "");
    assert |r + tail| == |raw|;
    forall i | 0 <= i < |raw| ensures raw[i] == (r + tail)[i] {
      if i < |r| { assert r[i] == raw[i]; }
    }
  }

  // ---------------------------------------------------------------------
  // Decimal numbers

  predicate IsDigit(ch: char) { '0' <= ch <= '9' }

  predicate AllDigits(s: string) { forall i :: 0 <= i < |s| ==> IsDigit(s[i]) }

  function DigitValue(ch: char): nat
    requires IsDigit(ch)
  {
    ch as int - '0' as int
  }

  /** The value of a string of decimal digits, most significant first. */
  function DigitsValue(s: string): nat
    requires AllDigits(s)
    decreases |s|
  {
    if |s| == 0 then 0 else DigitsValue(s[..|s| - 1]) * 10 + DigitValue(s[|s| - 1])
  }

  /**
   * Java's parseLong / parseInt on ASCII input: an optional '+' or '-',
   * then at least one decimal digit, and a value in [lo, hi]; anything else
   * is a NumberFormatException, None here.
   */
  function ParseInteger(s: string, lo: int, hi: int): (r: Option<int>)
    ensures r.Some? ==> lo <= r.value <= hi
  {
    if |s| == 0 then None
    else
      var digits := if s[0] == '-' || s[0] == '+' then s[1..] else s;
      if |digits| == 0 || !AllDigits(digits) then None
      else
        var magnitude: int := DigitsValue(digits);
        var v := if s[0] == '-' then -magnitude else magnitude;
        if lo <= v <= hi then Some(v) else None
  }

  /** ConversionHelper.getLong(s, default): the parsed long, or the default for null or a non-number. */
  function GetLong(s: Option<string>, default: int): (r: int)
    ensures s.Some? && ParseInteger(s.value, LONG_MIN, LONG_MAX).Some? ==>
      r == ParseInteger(s.value, LONG_MIN, LONG_MAX).value && IsLong(r)
    ensures s.None? || ParseInteger(s.value, LONG_MIN, LONG_MAX).None? ==> r == default
  {
    match s
    case None => default
    case Some(t) => ParseInteger(t, LONG_MIN, LONG_MAX).GetOr(default)
  }

  /** ConversionHelper.getInt(s, default): the parsed int, or the default for null or a non-number. */
  function GetInt(s: Option<string>, default: int): (r: int)
    ensures s.Some? && ParseInteger(s.value, INT_MIN, INT_MAX).Some? ==>
      r == ParseInteger(s.value, INT_MIN, INT_MAX).value && IsInt(r)
    ensures s.None? || ParseInteger(s.value, INT_MIN, INT_MAX).None? ==> r == default
  {
    match s
    case None => default
    case Some(t) => ParseInteger(t, INT_MIN, INT_MAX).GetOr(default)
  }

  /** The decimal spelling of a natural number, as Long.toString writes it. */
  function Decimal(n: nat): (r: string)
    ensures |r| >= 1 && AllDigits(r)
  {
    var d := ['0' + ((n % 10) as char)];
    if n < 10 then d else Decimal(n / 10) + d
  }

  lemma {:induction false} DecimalValue(n: nat)
    ensures DigitsValue(Decimal(n)) == n
  {
    var r := Decimal(n);
    assert DigitValue(r[|r| - 1]) == n % 10;
    if n >= 10 {
      DecimalValue(n / 10);
      assert r[..|r| - 1] == Decimal(n / 10);
    }
  }

  /** Parsing the decimal spelling of a number gives the number back when it is in range, and fails otherwise. */
  lemma ParseDecimal(n: nat, lo: int, hi: int)
    ensures ParseInteger(Decimal(n), lo, hi) == if lo <= n <= hi then Some(n) else None
  {
    DecimalValue(n);
  }

  /** The same for a minus sign followed by the digits: the negated number, when in range. */
  lemma ParseNegativeDecimal(n: nat, lo: int, hi: int)
    ensures ParseInteger("-" + Decimal(n), lo, hi) == if lo <= -(n as int) <= hi then Some(-(n as int)) else None
  {
    var s := "-" + Decimal(n);
    assert s[0] == '-' && s[1..] == Decimal(n);
    DecimalValue(n);
  }

  /** Empty text and a lone sign are not numbers. */
  lemma ParseRejectsNoDigits(s: string, lo: int, hi: int)
    requires s == "" || s == "-" || s == "+"
    ensures ParseInteger(s, lo, hi) == None
  {
  }

  /** Any character other than a digit, except a sign in front, makes the text no number. */
  lemma ParseRejectsNonDigit(s: string, i: nat, lo: int, hi: int)
    requires i < |s| && !IsDigit(s[i])
    requires i > 0 || (s[0] != '-' && s[0] != '+')
    ensures ParseInteger(s, lo, hi) == None
  {
    if s[0] == '-' || s[0] == '+' {
      assert s[1..][i - 1] == s[i];
    }
  }

  /** The narrowing cast (int) x of a long: the int congruent to x modulo 2^32. */
  function ToInt(x: int): (r: int)
    ensures IsInt(r)
    ensures (x - r) % 0x1_0000_0000 == 0
  {
    var m := x % 0x1_0000_0000;
    if m > INT_MAX then m - 0x1_0000_0000 else m
  }

  lemma ToIntKeepsInts(x: int)
    requires IsInt(x)
    ensures ToInt(x) == x
  {
  }
}
