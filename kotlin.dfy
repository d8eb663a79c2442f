/**
 * The few pieces of the Kotlin runtime the player relies on: fixed-width
 * integers, the conversion of whole seconds to whole milliseconds done by
 * `Long.seconds.inWholeMilliseconds`, decimal rendering of integers in string
 * templates, and `String.split` on a single delimiter.
 */
module Kotlin {
  import opened Wrappers

  const Int32Min: int := -0x8000_0000
  const Int32Max: int := 0x7fff_ffff
  const Int64Min: int := -0x8000_0000_0000_0000
  const Int64Max: int := 0x7fff_ffff_ffff_ffff

  /** Kotlin's `Int`. */
  type Int32 = x: int | Int32Min <= x <= Int32Max
  /** Kotlin's `Long`. */
  type Int64 = x: int | Int64Min <= x <= Int64Max

  /** A `Long` addition, which wraps around on overflow. */
  function WrappingAdd(a: Int64, b: Int64): (r: Int64)
    ensures Int64Min <= a + b <= Int64Max ==> r == a + b
    ensures (r - (a + b)) % 0x1_0000_0000_0000_0000 == 0
  {
    (a + b - Int64Min) % 0x1_0000_0000_0000_0000 + Int64Min
  }

  /**
   * The largest magnitude of a finite `kotlin.time.Duration` stored in
   * milliseconds; a duration of this many milliseconds or more is infinite.
   */
  const DurationMaxMillis: int := Int64Max / 2

  /**
   * `value.seconds.inWholeMilliseconds` for a `Long` value: exact while the
   * duration is finite, saturating to `Long.MAX_VALUE` / `Long.MIN_VALUE` once
   * the duration is infinite.
   */
  function SecondsToWholeMillis(value: Int64): (r: Int64)
    ensures -DurationMaxMillis < value * 1000 < DurationMaxMillis ==> r == value * 1000
    ensures value * 1000 >= DurationMaxMillis ==> r == Int64Max
    ensures value * 1000 <= -DurationMaxMillis ==> r == Int64Min
    ensures value > 0 ==> r > 0
    ensures value < 0 ==> r < 0
    ensures value == 0 ==> r == 0
  {
    var ms := value * 1000;
    if ms >= DurationMaxMillis then Int64Max
    else if ms <= -DurationMaxMillis then Int64Min
    else ms
  }

  // ---------------------------------------------------------------------
  // Decimal rendering (string templates such as "$idx:$id")
  // ---------------------------------------------------------------------

  predicate IsDigit(c: char) {
    '0' <= c <= '9'
  }

  function DigitChar(d: nat): (c: char)
    requires d < 10
    ensures IsDigit(c)
  {
    ('0' as int + d) as char
  }

  /** The decimal digits of `n`, most significant first, without leading zeros. */
  function NatToString(n: nat): (r: string)
    ensures |r| >= 1
    ensures forall i :: 0 <= i < |r| ==> IsDigit(r[i])
    ensures |r| > 1 ==> r[0] != '0'
  {
    if n < 10 then [DigitChar(n)] else NatToString(n / 10) + [DigitChar(n % 10)]
  }

  /** `n.toString()` for an integer: a minus sign, then the digits of the magnitude. */
  function IntToString(n: int): (r: string)
    ensures |r| >= 1
    ensures forall i :: 0 <= i < |r| ==> IsDigit(r[i]) || (i == 0 && r[i] == '-')
  {
    if n < 0 then "-" + NatToString(-n) else NatToString(n)
  }

  /** Reads a non-empty run of decimal digits. */
  function ParseNat(s: string): (r: Option<nat>)
    ensures r.Some? ==> |s| >= 1
    decreases |s|
  {
    if |s| == 0 || !IsDigit(s[|s| - 1]) then None
    else
      var last := s[|s| - 1] as int - '0' as int;
      if |s| == 1 then Some(last)
      else
        match ParseNat(s[..|s| - 1])
        case None => None
        case Some(p) => Some(p * 10 + last)
  }

  /** Reads an optionally negative decimal integer. */
  function ParseInt(s: string): Option<int> {
    if |s| > 0 && s[0] == '-' then
      match ParseNat(s[1..])
      case None => None
      case Some(p) => Some(0 - p as int)
    else
      match ParseNat(s)
      case None => None
      case Some(p) => Some(p as int)
  }

  lemma {:induction false} ParseNatToString(n: nat)
    ensures ParseNat(NatToString(n)) == Some(n)
  {
    var s := NatToString(n);
    if n >= 10 {
      ParseNatToString(n / 10);
      assert s[..|s| - 1] == NatToString(n / 10);
    }
  }

  /** Rendering an integer in decimal loses nothing: the text reads back as the same integer. */
  lemma IntToStringRoundTrip(n: int)
    ensures ParseInt(IntToString(n)) == Some(n)
  {
    if n < 0 {
      ParseNatToString(-n);
      assert IntToString(n)[1..] == NatToString(-n);
    } else {
      ParseNatToString(n);
    }
  }

  /** Distinct integers render to distinct strings. */
  lemma IntToStringInjective(m: int, n: int)
    requires IntToString(m) == IntToString(n)
    ensures m == n
  {
    IntToStringRoundTrip(m);
    IntToStringRoundTrip(n);
  }

  // ---------------------------------------------------------------------
  // String.split with one delimiter, List.getOrNull
  // ---------------------------------------------------------------------

  /**
   * `s.split(sep)` with no limit: the maximal pieces of `s` between
   * occurrences of `sep`, keeping empty pieces ("" splits to [""]).
   */
  function Split(s: string, sep: char): (parts: seq<string>)
    ensures |parts| >= 1
    ensures forall k :: 0 <= k < |parts| ==> sep !in parts[k]
    decreases |s|
  {
    if |s| == 0 then [""]
    else
      var rest := Split(s[1..], sep);
      if s[0] == sep then [""] + rest
      else [[s[0]] + rest[0]] + rest[1..]
  }

  /** `parts.joinToString(sep)`. */
  function Join(parts: seq<string>, sep: char): string
    requires |parts| >= 1
  {
    if |parts| == 1 then parts[0] else parts[0] + [sep] + Join(parts[1..], sep)
  }

  /** Splitting keeps every character: joining the pieces with the delimiter gives `s` back. */
  lemma {:induction false} JoinSplit(s: string, sep: char)
    ensures Join(Split(s, sep), sep) == s
    decreases |s|
  {
    if |s| > 0 {
      var rest := Split(s[1..], sep);
      JoinSplit(s[1..], sep);
      if s[0] == sep {
        assert Split(s, sep)[1..] == rest;
      } else {
        var parts := Split(s, sep);
        assert parts[1..] == rest[1..];
        if |rest| > 1 {
          assert Join(rest, sep) == rest[0] + [sep] + Join(rest[1..], sep);
        }
      }
    }
  }

  lemma {:induction false} SplitWithoutDelimiter(s: string, sep: char)
    requires sep !in s
    ensures Split(s, sep) == [s]
    decreases |s|
  {
    if |s| > 0 {
      SplitWithoutDelimiter(s[1..], sep);
      assert [s[0]] + s[1..] == s;
    }
  }

  /** A split yields more than one piece exactly when the delimiter occurs. */
  lemma {:induction false} SplitHasPiecesIffDelimiter(s: string, sep: char)
    ensures |Split(s, sep)| > 1 <==> sep in s
    decreases |s|
  {
    if |s| > 0 {
      SplitHasPiecesIffDelimiter(s[1..], sep);
      assert s == [s[0]] + s[1..];
      assert sep in s <==> s[0] == sep || sep in s[1..];
    }
  }

  /** A string made of two delimiter-free pieces joined by the delimiter splits back into them. */
  lemma {:induction false} SplitPair(a: string, b: string, sep: char)
    requires sep !in a && sep !in b
    ensures Split(a + [sep] + b, sep) == [a, b]
    decreases |a|
  {
    if |a| == 0 {
      assert a + [sep] + b == [sep] + b;
      assert ([sep] + b)[1..] == b;
      SplitWithoutDelimiter(b, sep);
    } else {
      assert (a + [sep] + b)[1..] == a[1..] + [sep] + b;
      SplitPair(a[1..], b, sep);
      assert [a[0]] + a[1..] == a;
    }
  }

  /** `list.getOrNull(i)`. */
  function GetOrNull<T>(list: seq<T>, i: int): (r: Option<T>)
    ensures r.Some? <==> 0 <= i < |list|
    ensures r.Some? ==> r.value == list[i]
  {
    if 0 <= i < |list| then Some(list[i]) else None
  }
}
