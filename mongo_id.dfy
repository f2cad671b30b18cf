/**
 * `MongoIdGenerator`: MongoDB ObjectIds as 24 lower-case hex digits (a 4-byte
 * timestamp, 5 random bytes, a 3-byte counter) and the format check applied
 * to IDs.  The clock and the random source are inputs.
 */
module MongoId {

  /** A JVM `Byte`: signed, eight bits. */
  type JByte = b: int | -128 <= b < 128

  /** What `random.nextBytes(ByteArray(5))` fills in. */
  type RandomBlock = s: seq<JByte> | |s| == 5 witness [0, 0, 0, 0, 0]

  const COUNTER_MODULUS: int := 0x100_0000
  const UINT32_MODULUS: int := 0x1_0000_0000

  // ---------------------------------------------------------------------------
  // Hexadecimal digits
  // ---------------------------------------------------------------------------

  predicate IsLowerHexChar(c: char) {
    '0' <= c <= '9' || 'a' <= c <= 'f'
  }

  /** The characters `isValid` admits: decimal digits and `a`-`f` in either case. */
  predicate IsHexChar(c: char) {
    '0' <= c <= '9' || 'a' <= c <= 'f' || 'A' <= c <= 'F'
  }

  function HexDigit(d: nat): (c: char)
    requires d < 16
    ensures IsLowerHexChar(c)
  {
    if d < 10 then ('0' as int + d) as char else ('a' as int + d - 10) as char
  }

  function HexDigitValue(c: char): (d: nat)
    requires IsHexChar(c)
    ensures d < 16
  {
    if '0' <= c <= '9' then c as int - '0' as int
    else if 'a' <= c <= 'f' then c as int - 'a' as int + 10
    else c as int - 'A' as int + 10
  }

  function Pow16(n: nat): (p: nat)
    ensures p >= 1
  {
    if n == 0 then 1 else 16 * Pow16(n - 1)
  }

  /** `String.format("%0<width>x", v)` for a value that fits in `width` digits. */
  function Hex(v: nat, width: nat): (s: string)
    requires v < Pow16(width)
    ensures |s| == width
    ensures forall k :: 0 <= k < |s| ==> IsLowerHexChar(s[k])
  {
    if width == 0 then "" else Hex(v / 16, width - 1) + [HexDigit(v % 16)]
  }

  /** The value of a string of hex digits, most significant first. */
  function HexValue(s: string): nat
    requires forall k :: 0 <= k < |s| ==> IsHexChar(s[k])
  {
    if s == "" then 0 else HexValue(s[..|s| - 1]) * 16 + HexDigitValue(s[|s| - 1])
  }

  /** Reading back a printed value gives the value. */
  lemma {:induction false} HexRoundTrip(v: nat, width: nat)
    requires v < Pow16(width)
    ensures HexValue(Hex(v, width)) == v
  {
    if width > 0 {
      var s := Hex(v, width);
      assert s[..|s| - 1] == Hex(v / 16, width - 1);
      HexRoundTrip(v / 16, width - 1);
      assert HexDigitValue(HexDigit(v % 16)) == v % 16;
    }
  }

  /** Two values printed at the same width give the same digits only if they are equal. */
  lemma HexInjective(a: nat, b: nat, width: nat)
    requires a < Pow16(width) && b < Pow16(width)
    requires Hex(a, width) == Hex(b, width)
    ensures a == b
  {
    HexRoundTrip(a, width);
    HexRoundTrip(b, width);
  }

  lemma Pow16Values()
    ensures Pow16(2) == 0x100 && Pow16(6) == COUNTER_MODULUS && Pow16(8) == UINT32_MODULUS
  {
    assert Pow16(2) == 0x100;
    assert Pow16(4) == 0x1_0000;
    assert Pow16(6) == 0x100_0000;
    assert Pow16(8) == 0x1_0000_0000;
  }

  // ---------------------------------------------------------------------------
  // The ObjectId layout
  // ---------------------------------------------------------------------------

  /** `b.toInt() and 0xFF`: the byte read as unsigned. */
  function Unsigned(b: JByte): (u: nat)
    ensures u < 0x100
    ensures b >= 0 ==> u == b
  {
    b % 0x100
  }

  /** The random part: two hex digits per byte, in order. */
  function BytesHex(bytes: seq<JByte>): (s: string)
    ensures |s| == 2 * |bytes|
    ensures forall k :: 0 <= k < |s| ==> IsLowerHexChar(s[k])
  {
    Pow16Values();
    if bytes == [] then "" else BytesHex(bytes[..|bytes| - 1]) + Hex(Unsigned(bytes[|bytes| - 1]), 2)
  }

  /**
   * The ID `generate` builds: the timestamp `%08x` (an `Int`, printed as its
   * unsigned 32-bit pattern), each random byte `%02x`, the counter `%06x`.
   */
  function ObjectId(timestamp: int, block: RandomBlock, counter: nat): (id: string)
    requires counter < COUNTER_MODULUS
    ensures |id| == 24
    ensures forall k :: 0 <= k < |id| ==> IsLowerHexChar(id[k])
    ensures id[..8] == Hex(timestamp % UINT32_MODULUS, 8)
    ensures id[8..18] == BytesHex(block)
    ensures id[18..] == Hex(counter, 6)
  {
    Pow16Values();
    Hex(timestamp % UINT32_MODULUS, 8) + BytesHex(block) + Hex(counter, 6)
  }

  /** `isValid`: 24 characters, each a hex digit in either case. */
  predicate IsValid(id: string) {
    |id| == 24 && forall k :: 0 <= k < |id| ==> IsHexChar(id[k])
  }

  /** Every generated ID passes the check. */
  lemma ObjectIdIsValid(timestamp: int, block: RandomBlock, counter: nat)
    requires counter < COUNTER_MODULUS
    ensures IsValid(ObjectId(timestamp, block, counter))
  {
  }

  /** IDs built from different counter values differ, whatever the clock and random bytes. */
  lemma CounterSeparates(t1: int, b1: RandomBlock, c1: nat, t2: int, b2: RandomBlock, c2: nat)
    requires c1 < COUNTER_MODULUS && c2 < COUNTER_MODULUS && c1 != c2
    ensures ObjectId(t1, b1, c1) != ObjectId(t2, b2, c2)
  {
    Pow16Values();
    if ObjectId(t1, b1, c1) == ObjectId(t2, b2, c2) {
      HexInjective(c1, c2, 6);
    }
  }

  /** The format check on the examples of the test suite. */
  lemma IsValidExamples()
    ensures IsValid("507f1f77bcfaa64afcaa6c5d")
    ensures IsValid("507F1F77BCFAA64AFCAA6C5D")
    ensures !IsValid("123")
    ensures !IsValid("12345678901234567890123456789")
    ensures !IsValid("12345678901234567890123g")
    ensures !IsValid("xyz123456789012345678901")
  {
    assert !IsHexChar("12345678901234567890123g"[23]);
    assert !IsHexChar("xyz123456789012345678901"[0]);
  }

  /** The counter after `k` steps from `c`. */
  function Advance(c: int, k: nat): (r: nat)
    ensures r < COUNTER_MODULUS
  {
    (c + k) % COUNTER_MODULUS
  }

  /** One more step from `k` steps is `k + 1` steps. */
  lemma AdvanceStep(c: int, k: nat)
    ensures Advance(Advance(c, k), 1) == Advance(c, k + 1)
  {
    var m := COUNTER_MODULUS;
    var q := (c + k) / m;
    assert c + k == q * m + Advance(c, k);
    if Advance(c, k) + 1 == m {
      assert c + k + 1 == (q + 1) * m;
    } else {
      assert c + k + 1 == q * m + (Advance(c, k) + 1);
    }
  }

  /** Fewer than 2^24 consecutive steps never revisit a counter value. */
  lemma AdvanceDistinct(c: int, i: nat, j: nat)
    requires i < j && j - i < COUNTER_MODULUS
    ensures Advance(c, i) != Advance(c, j)
  {
    var m := COUNTER_MODULUS;
    var qi, qj := (c + i) / m, (c + j) / m;
    assert c + i == qi * m + Advance(c, i);
    assert c + j == qj * m + Advance(c, j);
    assert 0 < j - i < m;
  }

  // ---------------------------------------------------------------------------
  // The generator
  // ---------------------------------------------------------------------------

  /** `MongoIdGenerator`, with its counter; the random source supplies each call's bytes. */
  class MongoIdGenerator {
    var counter: int

    ghost predicate Valid()
      reads this
    {
      0 <= counter < COUNTER_MODULUS
    }

    /** The counter starts at `random.nextInt(0xFFFFFF)`, given here as `initial`. */
    constructor(initial: int)
      requires 0 <= initial < 0xFF_FFFF
      ensures Valid() && counter == initial
    {
      counter := initial;
    }

    /**
     * `generate()`: advance the counter by one modulo 2^24 and print the
     * clock's seconds (truncated to an `Int`), the random bytes and the counter.
     */
    method Generate(epochSecond: int, randomBytes: RandomBlock) returns (id: string)
      requires Valid()
      modifies this
      ensures Valid()
      ensures counter == Advance(old(counter), 1)
      ensures id == ObjectId(epochSecond, randomBytes, counter)
    {
      Pow16Values();
      var timestamp := epochSecond % UINT32_MODULUS;
      counter := (counter + 1) % COUNTER_MODULUS;
      var builder := Hex(timestamp, 8);
      for i := 0 to |randomBytes|
        invariant builder == Hex(timestamp, 8) + BytesHex(randomBytes[..i])
      {
        assert randomBytes[..i + 1][..i] == randomBytes[..i];
        builder := builder + Hex(Unsigned(randomBytes[i]), 2);
      }
      assert randomBytes[..|randomBytes|] == randomBytes;
      builder := builder + Hex(counter, 6);
      id := builder;
    }

    /**
     * `generate(count)`: `count` successive IDs, none for a count of zero or
     * less; call `k` reads `clock(k)` and `random(k)`.
     */
    method GenerateMany(count: int, clock: nat -> int, random: nat -> RandomBlock) returns (ids: seq<string>)
      requires Valid()
      modifies this
      ensures Valid()
      ensures |ids| == if count <= 0 then 0 else count
      ensures counter == Advance(old(counter), |ids|)
      ensures forall k :: 0 <= k < |ids| ==> ids[k] == ObjectId(clock(k), random(k), Advance(old(counter), k + 1))
    {
      ids := [];
      var n := if count <= 0 then 0 else count;
      ghost var c0 := counter;
      while |ids| < n
        invariant Valid()
        invariant |ids| <= n
        invariant counter == Advance(c0, |ids|)
        invariant forall k :: 0 <= k < |ids| ==> ids[k] == ObjectId(clock(k), random(k), Advance(c0, k + 1))
        decreases n - |ids|
      {
        var k := |ids|;
        var id := Generate(clock(k), random(k));
        AdvanceStep(c0, k);
        ids := ids + [id];
      }
    }
  }

  /** A batch of at most 2^24 IDs has no repeats, so one hundred IDs are one hundred distinct IDs. */
  lemma BatchDistinct(ids: seq<string>, c0: int, clock: nat -> int, random: nat -> RandomBlock)
    requires |ids| <= COUNTER_MODULUS
    requires forall k :: 0 <= k < |ids| ==> ids[k] == ObjectId(clock(k), random(k), Advance(c0, k + 1))
    ensures forall i, j :: 0 <= i < j < |ids| ==> ids[i] != ids[j]
  {
    forall i, j | 0 <= i < j < |ids|
      ensures ids[i] != ids[j]
    {
      AdvanceDistinct(c0, i + 1, j + 1);
      CounterSeparates(clock(i), random(i), Advance(c0, i + 1), clock(j), random(j), Advance(c0, j + 1));
    }
  }
}
