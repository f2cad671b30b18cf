/**
 * The parts of Kotlin's and the JVM's string library that the plugin relies on:
 * whitespace, `trim`, `isBlank`, `split`, `replaceFirstChar`, case conversion,
 * `toIntOrNull`, `Int.toString` and the 32-bit truncation of `Long.toInt`.
 * Case conversion is modelled on ASCII letters only.
 */
module KotlinText {
  import opened Wrappers

  /** `Char.isWhitespace()` on the JVM: `Character.isWhitespace(c) || Character.isSpaceChar(c)`. */
  predicate IsWhitespace(c: char) {
    || c == '\t' || c == '\n' || c == '\U{B}' || c == '\U{C}' || c == '\r'
    || ('\U{1C}' <= c <= '\U{1F}')
    || c == ' ' || c == '\U{A0}' || c == '\U{1680}' || ('\U{2000}' <= c <= '\U{200A}')
    || c == '\U{2028}' || c == '\U{2029}' || c == '\U{202F}' || c == '\U{205F}' || c == '\U{3000}'
  }

  /** Number of leading characters of `s` that `drop` accepts. */
  function LeadingCount(s: string, drop: char -> bool): (n: nat)
    ensures n <= |s|
    ensures forall k :: 0 <= k < n ==> drop(s[k])
    ensures n < |s| ==> !drop(s[n])
  {
    if s == [] || !drop(s[0]) then 0 else 1 + LeadingCount(s[1..], drop)
  }

  /** Number of trailing characters of `s` that `drop` accepts. */
  function TrailingCount(s: string, drop: char -> bool): (n: nat)
    ensures n <= |s|
    ensures forall k :: |s| - n <= k < |s| ==> drop(s[k])
    ensures n < |s| ==> !drop(s[|s| - n - 1])
  {
    if s == [] || !drop(s[|s| - 1]) then 0 else 1 + TrailingCount(s[..|s| - 1], drop)
  }

  /**
   * `CharSequence.trim(predicate)`: the longest middle part of `s` that neither
   * starts nor ends with a character `drop` accepts.
   */
  function TrimBy(s: string, drop: char -> bool): (r: string)
    ensures r == "" <==> forall k :: 0 <= k < |s| ==> drop(s[k])
    ensures r != "" ==> !drop(r[0]) && !drop(r[|r| - 1])
    ensures |r| <= |s|
  {
    var a := LeadingCount(s, drop);
    var t := s[a..];
    var b := TrailingCount(t, drop);
    assert a < |s| ==> t != [] && !drop(t[0]);
    t[..|t| - b]
  }

  /** `String.trim()`. */
  function Trim(s: string): string {
    TrimBy(s, IsWhitespace)
  }

  /** `CharSequence.isBlank()`. */
  predicate IsBlank(s: string) {
    forall k :: 0 <= k < |s| ==> IsWhitespace(s[k])
  }

  lemma TrimEmptyIffBlank(s: string)
    ensures Trim(s) == "" <==> IsBlank(s)
  {
  }

  /** A string with no whitespace at either end is its own `trim()`. */
  lemma TrimUnchanged(s: string)
    requires s == "" || (!IsWhitespace(s[0]) && !IsWhitespace(s[|s| - 1]))
    ensures Trim(s) == s
  {
    if s != "" {
      assert LeadingCount(s, IsWhitespace) == 0;
      assert TrailingCount(s, IsWhitespace) == 0;
    }
  }

  function LowerChar(c: char): char {
    if 'A' <= c <= 'Z' then (c as int + 32) as char else c
  }

  function UpperChar(c: char): char {
    if 'a' <= c <= 'z' then (c as int - 32) as char else c
  }

  /** `String.lowercase()` (ASCII letters only). */
  function Lower(s: string): (r: string)
    ensures |r| == |s| && forall k :: 0 <= k < |s| ==> r[k] == LowerChar(s[k])
  {
    seq(|s|, k requires 0 <= k < |s| => LowerChar(s[k]))
  }

  /** `String.uppercase()` (ASCII letters only). */
  function Upper(s: string): (r: string)
    ensures |r| == |s| && forall k :: 0 <= k < |s| ==> r[k] == UpperChar(s[k])
  {
    seq(|s|, k requires 0 <= k < |s| => UpperChar(s[k]))
  }

  /** Strings made of upper-case ASCII letters and other non-letters survive a trip through lower case. */
  predicate NoLowerLetters(s: string) {
    forall k :: 0 <= k < |s| ==> !('a' <= s[k] <= 'z')
  }

  lemma UpperOfLower(s: string)
    requires NoLowerLetters(s)
    ensures Upper(Lower(s)) == s && Upper(s) == s
  {
  }

  /** `String.replaceFirstChar { it.uppercase() }`. */
  function CapitalizeFirst(s: string): (r: string)
    ensures |r| == |s|
    ensures s != "" ==> r[0] == UpperChar(s[0]) && r[1..] == s[1..]
  {
    if s == "" then s else [UpperChar(s[0])] + s[1..]
  }

  predicate StartsWith(s: string, prefix: string) {
    |prefix| <= |s| && s[..|prefix|] == prefix
  }

  predicate EndsWith(s: string, suffix: string) {
    |suffix| <= |s| && s[|s| - |suffix|..] == suffix
  }

  /** Appending to a `StringBuilder` piece by piece or all at once gives the same text. */
  lemma AppendAssoc<T>(a: seq<T>, b: seq<T>, c: seq<T>)
    ensures (a + b) + c == a + (b + c)
  {
  }

  lemma PrefixOfAppend(a: string, b: string)
    ensures StartsWith(a + b, a)
  {
    assert (a + b)[..|a|] == a;
  }

  lemma PrefixTrans(a: string, b: string, c: string)
    requires StartsWith(a, b) && StartsWith(b, c)
    ensures StartsWith(a, c)
  {
    assert a[..|c|] == a[..|b|][..|c|];
  }

  lemma SuffixOfAppend(a: string, b: string)
    ensures EndsWith(a + b, b)
  {
    assert (a + b)[|a + b| - |b|..] == b;
  }

  /** Number of occurrences of `c` in `s`. */
  function CountChar(s: string, c: char): nat {
    if s == [] then 0 else (if s[0] == c then 1 else 0) + CountChar(s[1..], c)
  }

  lemma {:induction false} CountCharAppend(a: string, b: string, c: char)
    ensures CountChar(a + b, c) == CountChar(a, c) + CountChar(b, c)
  {
    if a != [] {
      assert (a + b)[1..] == a[1..] + b;
      CountCharAppend(a[1..], b, c);
    } else {
      assert a + b == b;
    }
  }

  lemma {:induction false} CountCharZero(s: string, c: char)
    ensures CountChar(s, c) == 0 <==> forall k :: 0 <= k < |s| ==> s[k] != c
  {
    if s != [] {
      CountCharZero(s[1..], c);
      assert forall k :: 1 <= k < |s| ==> s[k] == s[1..][k - 1];
    }
  }

  /** Index of the first `c` in `s`, or `|s|` when there is none. */
  function IndexOf(s: string, c: char): (i: nat)
    ensures i <= |s|
    ensures i < |s| ==> s[i] == c
    ensures forall k :: 0 <= k < i ==> s[k] != c
  {
    if s == [] then 0 else if s[0] == c then 0 else 1 + IndexOf(s[1..], c)
  }

  /**
   * `String.split(d)` with a one-character delimiter: the parts between the
   * occurrences of `d`, empty parts included, in order.
   */
  function Split(s: string, d: char): (parts: seq<string>)
    decreases |s|
  {
    var i := IndexOf(s, d);
    if i == |s| then [s] else [s[..i]] + Split(s[i + 1..], d)
  }

  /** Splitting on every occurrence yields one more part than there are delimiters. */
  lemma {:induction false} SplitLength(s: string, d: char)
    ensures |Split(s, d)| == CountChar(s, d) + 1
    decreases |s|
  {
    var i := IndexOf(s, d);
    assert s == s[..i] + s[i..];
    CountCharAppend(s[..i], s[i..], d);
    CountCharZero(s[..i], d);
    if i == |s| {
      assert s[i..] == [];
    } else {
      assert s[i..] == [d] + s[i + 1..];
      CountCharAppend([d], s[i + 1..], d);
      SplitLength(s[i + 1..], d);
    }
  }

  /** Exactly two parts: the text before and after the one and only delimiter. */
  lemma SplitTwo(s: string, d: char)
    requires CountChar(s, d) == 1
    ensures IndexOf(s, d) < |s|
    ensures Split(s, d) == [s[..IndexOf(s, d)], s[IndexOf(s, d) + 1..]]
  {
    var i := IndexOf(s, d);
    SplitLength(s, d);
    if i == |s| {
      CountCharZero(s, d);
      assert false;
    }
    SplitLength(s[i + 1..], d);
    assert |Split(s[i + 1..], d)| == 1 by {
      assert s == s[..i] + ([d] + s[i + 1..]);
      CountCharAppend(s[..i], [d] + s[i + 1..], d);
      CountCharAppend([d], s[i + 1..], d);
      CountCharZero(s[..i], d);
    }
  }

  // ---------------------------------------------------------------------------
  // Integers
  // ---------------------------------------------------------------------------

  const INT_MIN: int := -0x8000_0000
  const INT_MAX: int := 0x7FFF_FFFF

  /** The JVM's 32-bit `Int` range. */
  predicate IsInt32(i: int) {
    INT_MIN <= i <= INT_MAX
  }

  /** `Long.toInt()` and `BigDecimal.intValue()`: keep the low-order 32 bits, two's complement. */
  function Wrap32(i: int): (r: int)
    ensures IsInt32(r)
    ensures IsInt32(i) ==> r == i
  {
    var m := i % 0x1_0000_0000;
    if m > INT_MAX then m - 0x1_0000_0000 else m
  }

  predicate IsDigit(c: char) {
    '0' <= c <= '9'
  }

  predicate AllDigits(s: string) {
    forall k :: 0 <= k < |s| ==> IsDigit(s[k])
  }

  function DigitValue(c: char): nat
    requires IsDigit(c)
  {
    c as int - '0' as int
  }

  function DigitChar(d: nat): (c: char)
    requires d < 10
    ensures IsDigit(c) && DigitValue(c) == d
  {
    ('0' as int + d) as char
  }

  /** The value of a non-empty run of decimal digits. */
  function DecimalValue(s: string): nat
    requires AllDigits(s)
  {
    if s == [] then 0 else DecimalValue(s[..|s| - 1]) * 10 + DigitValue(s[|s| - 1])
  }

  /** Decimal digits of a natural number, without leading zeros. */
  function NatToString(n: nat): (s: string)
    ensures s != "" && AllDigits(s)
  {
    if n < 10 then [DigitChar(n)] else NatToString(n / 10) + [DigitChar(n % 10)]
  }

  /** `Boolean.toString()`. */
  function BoolToString(b: bool): string {
    if b then "true" else "false"
  }

  /** `Int.toString()`. */
  function IntToString(i: int): (s: string)
    ensures s != ""
  {
    if i < 0 then "-" + NatToString(-i) else NatToString(i)
  }

  /**
   * `String.toIntOrNull()`: an optional `+` or `-` sign followed by at least one
   * decimal digit, whose value fits in 32 bits; otherwise absent.
   */
  function ParseInt(s: string): (r: Option<int>)
    ensures r.Some? ==> IsInt32(r.value)
    ensures r.Some? ==> s != "" && AllDigits(if s[0] == '-' || s[0] == '+' then s[1..] else s)
  {
    if s == "" then None
    else if s[0] == '-' || s[0] == '+' then
      var body := s[1..];
      if body == "" || !AllDigits(body) then None
      else
        var n: int := DecimalValue(body);
        var v := if s[0] == '-' then -n else n;
        if IsInt32(v) then Some(v) else None
    else if !AllDigits(s) then None
    else
      var v := DecimalValue(s);
      if IsInt32(v) then Some(v) else None
  }

  lemma {:induction false} DecimalValueOfNatToString(n: nat)
    ensures DecimalValue(NatToString(n)) == n
  {
    if n >= 10 {
      var s := NatToString(n / 10) + [DigitChar(n % 10)];
      assert s[..|s| - 1] == NatToString(n / 10);
      DecimalValueOfNatToString(n / 10);
    }
  }

  /** `toIntOrNull` reads back what `Int.toString` prints. */
  lemma ParseIntToString(i: int)
    requires IsInt32(i)
    ensures ParseInt(IntToString(i)) == Some(i)
  {
    if i < 0 {
      var s := IntToString(i);
      assert s[1..] == NatToString(-i);
      DecimalValueOfNatToString(-i);
    } else {
      DecimalValueOfNatToString(i);
    }
  }
}
