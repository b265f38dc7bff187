/**
  Payload bytes, nibble and bit reads, and the two Java text conversions the
  decoders rely on: `"" + n` (decimal string of an int) and `String.getBytes()`
  on ASCII text.
 */
module Bytes {

  /** One payload byte, as its unsigned value. Java's bytes are signed, but every
      read is masked, so the unsigned view is exact (see JavaHighNibbleAgrees,
      JavaLowNibbleAgrees and JavaMasksAgree). */
  newtype Byte = b: int | 0 <= b < 256

  /** `(b >> 4) & 0xf`, read arithmetically (see JavaHighNibbleAgrees). */
  function HighNibble(b: Byte): (n: nat)
    ensures n < 16
  {
    b as int / 16
  }

  /** `b & 0xf`, read arithmetically. */
  function LowNibble(b: Byte): (n: nat)
    ensures n < 16
  {
    b as int % 16
  }

  /** `(b & mask) != 0` for a single-bit mask (a power of two), read arithmetically. */
  predicate HasBit(b: Byte, mask: nat)
    requires mask > 0
  {
    (b as int / mask) % 2 == 1
  }

  /** Java widens a byte to int by sign extension. */
  function JavaWiden(b: Byte): bv32
  {
    if b < 0x80 then b as bv32 else (b as bv8 as bv32) | 0xFFFF_FF00
  }

  /** Java's arithmetic right shift `x >> k` on a 32-bit int. */
  function JavaShiftRight(x: bv32, k: nat): bv32
    requires k < 32
  {
    if x & 0x8000_0000 == 0 then x >> k else (x >> k) | !(0xFFFF_FFFF >> k)
  }

  lemma ShiftIsDiv(x: bv8)
    ensures (x >> 4) as int == x as int / 16
  {
  }

  lemma MaskIsMod(x: bv8)
    ensures (x & 0xF) as int == x as int % 16
  {
    var y := (x >> 4) << 4;
    assert x & 0xF == x - y;
    assert y as int == 16 * ((x >> 4) as int);
    ShiftIsDiv(x);
    assert y <= x;
    assert (x - y) as int == x as int - y as int;
  }

  lemma WidenedHighNibble(b: Byte)
    ensures JavaShiftRight(JavaWiden(b), 4) & 0xF == (b as bv8 >> 4) as bv32
  {
  }

  lemma WidenedLowNibble(b: Byte)
    ensures JavaWiden(b) & 0xF == (b as bv8 & 0xF) as bv32
  {
  }

  /** `(b >> 4) & 0xf` on the signed, widened Java value is HighNibble. */
  lemma JavaHighNibbleAgrees(b: Byte)
    ensures (JavaShiftRight(JavaWiden(b), 4) & 0xF) as int == HighNibble(b)
  {
    var h := b as bv8 >> 4;
    WidenedHighNibble(b);
    ShiftIsDiv(b as bv8);
    assert (h as bv32) as int == h as int;
  }

  /** `b & 0xf` on the signed, widened Java value is LowNibble. */
  lemma JavaLowNibbleAgrees(b: Byte)
    ensures (JavaWiden(b) & 0xF) as int == LowNibble(b)
  {
    var l := b as bv8 & 0xF;
    WidenedLowNibble(b);
    MaskIsMod(b as bv8);
    assert (l as bv32) as int == l as int;
  }

  lemma JavaMask1(b: Byte) ensures (JavaWiden(b) & 0x02 != 0) <==> HasBit(b, 2) { assert JavaWiden(b) & 0x02 == (b as bv8 & 0x02) as bv32; }
  lemma JavaMask3(b: Byte) ensures (JavaWiden(b) & 0x08 != 0) <==> HasBit(b, 8) { assert JavaWiden(b) & 0x08 == (b as bv8 & 0x08) as bv32; }
  lemma JavaMask4(b: Byte) ensures (JavaWiden(b) & 0x10 != 0) <==> HasBit(b, 16) { assert JavaWiden(b) & 0x10 == (b as bv8 & 0x10) as bv32; }
  lemma JavaMask5(b: Byte) ensures (JavaWiden(b) & 0x20 != 0) <==> HasBit(b, 32) { assert JavaWiden(b) & 0x20 == (b as bv8 & 0x20) as bv32; }
  lemma JavaMask6(b: Byte) ensures (JavaWiden(b) & 0x40 != 0) <==> HasBit(b, 64) { assert JavaWiden(b) & 0x40 == (b as bv8 & 0x40) as bv32; }
  lemma JavaMask7(b: Byte) ensures (JavaWiden(b) & 0x80 != 0) <==> HasBit(b, 128) { assert JavaWiden(b) & 0x80 == (b as bv8 & 0x80) as bv32; }

  /** Every single-bit mask the decoders apply to a widened Java byte agrees with HasBit. */
  lemma JavaMasksAgree(b: Byte)
    ensures (JavaWiden(b) & 0x02 != 0) <==> HasBit(b, 2)
    ensures (JavaWiden(b) & 0x08 != 0) <==> HasBit(b, 8)
    ensures (JavaWiden(b) & 0x10 != 0) <==> HasBit(b, 16)
    ensures (JavaWiden(b) & 0x20 != 0) <==> HasBit(b, 32)
    ensures (JavaWiden(b) & 0x40 != 0) <==> HasBit(b, 64)
    ensures (JavaWiden(b) & 0x80 != 0) <==> HasBit(b, 128)
  {
    JavaMask1(b);
    JavaMask3(b);
    JavaMask4(b);
    JavaMask5(b);
    JavaMask6(b);
    JavaMask7(b);
  }

  // ----- decimal text: Java's `"" + n` -----

  predicate IsDigit(c: char)
  {
    '0' <= c <= '9'
  }

  function Digit(d: nat): (c: char)
    requires d < 10
    ensures IsDigit(c) && c as int - '0' as int == d
  {
    (48 + d) as char
  }

  /** Decimal digits of n, most significant first, without leading zeros. */
  function NatString(n: nat): (s: string)
    ensures 1 <= |s|
    ensures forall i :: 0 <= i < |s| ==> IsDigit(s[i])
    ensures n < 10 <==> |s| == 1
    decreases n
  {
    if n < 10 then [Digit(n)] else NatString(n / 10) + [Digit(n % 10)]
  }

  /** Java's `"" + i` for an int. */
  function IntString(i: int): (s: string)
    ensures 1 <= |s|
    ensures i < 0 <==> s[0] == '-'
  {
    if i < 0 then "-" + NatString(-i) else NatString(i)
  }

  /** Reads a string of decimal digits back; the inverse of NatString. */
  function DigitsValue(s: string): nat
  {
    if s == [] then 0
    else DigitsValue(s[..|s| - 1]) * 10 + (if IsDigit(s[|s| - 1]) then s[|s| - 1] as int - '0' as int else 0)
  }

  /** Reads an optionally signed decimal string back; the inverse of IntString. */
  function IntValue(s: string): int
  {
    if s != [] && s[0] == '-' then -(DigitsValue(s[1..]) as int) else DigitsValue(s)
  }

  lemma {:induction false} NatStringRoundTrip(n: nat)
    ensures DigitsValue(NatString(n)) == n
    decreases n
  {
    if n >= 10 {
      var s := NatString(n);
      assert s[..|s| - 1] == NatString(n / 10);
      NatStringRoundTrip(n / 10);
    }
  }

  lemma IntStringRoundTrip(i: int)
    ensures IntValue(IntString(i)) == i
  {
    if i < 0 {
      assert IntString(i)[1..] == NatString(-i);
      NatStringRoundTrip(-i);
    } else {
      NatStringRoundTrip(i);
    }
  }

  /** Different ints print differently, so comparing the printed text compares the ints. */
  lemma IntStringInjective(i: int, j: int)
    ensures IntString(i) == IntString(j) <==> i == j
  {
    IntStringRoundTrip(i);
    IntStringRoundTrip(j);
  }

  // ----- String.getBytes() on ASCII text -----

  predicate IsAscii(s: string)
  {
    forall i :: 0 <= i < |s| ==> s[i] as int < 128
  }

  /** `s.getBytes()` for ASCII text: one byte per character, same code. */
  function Ascii(s: string): (r: seq<Byte>)
    requires IsAscii(s)
    ensures |r| == |s|
  {
    if s == [] then [] else [s[0] as int as Byte] + Ascii(s[1..])
  }

  /** `new String(bytes)` for single-byte text: the inverse of Ascii. */
  function Text(r: seq<Byte>): (s: string)
    ensures |s| == |r|
  {
    if r == [] then [] else [r[0] as int as char] + Text(r[1..])
  }

  lemma {:induction false} TextOfAscii(s: string)
    requires IsAscii(s)
    ensures Text(Ascii(s)) == s
  {
    if s != [] {
      TextOfAscii(s[1..]);
    }
  }

  lemma AsciiInjective(s: string, t: string)
    requires IsAscii(s) && IsAscii(t)
    ensures Ascii(s) == Ascii(t) <==> s == t
  {
    TextOfAscii(s);
    TextOfAscii(t);
  }

  /** r is the ASCII encoding of s, character by character. */
  predicate Spells(r: seq<Byte>, s: string)
  {
    |r| == |s| && forall i :: 0 <= i < |s| ==> s[i] as int < 128 && r[i] as int == s[i] as int
  }

  /** A byte string that spells s is `s.getBytes()`. */
  lemma {:induction false} SpellsAscii(r: seq<Byte>, s: string)
    requires Spells(r, s)
    ensures IsAscii(s) && r == Ascii(s)
  {
    if s != [] {
      assert Spells(r[1..], s[1..]) by {
        forall i | 0 <= i < |s[1..]| ensures r[1..][i] as int == s[1..][i] as int {
          assert r[1..][i] == r[i + 1];
        }
      }
      SpellsAscii(r[1..], s[1..]);
    }
  }

  lemma IntStringIsAscii(i: int)
    ensures IsAscii(IntString(i))
  {
  }

  /** `("" + i).getBytes()` */
  function IntBytes(i: int): seq<Byte>
  {
    IntStringIsAscii(i);
    Ascii(IntString(i))
  }

  /** The bytes read back as the int they print. */
  lemma IntBytesRoundTrip(i: int)
    ensures IntValue(Text(IntBytes(i))) == i
  {
    IntStringIsAscii(i);
    IntStringRoundTrip(i);
    TextOfAscii(IntString(i));
  }

  lemma IntBytesInjective(i: int, j: int)
    ensures IntBytes(i) == IntBytes(j) <==> i == j
  {
    IntStringIsAscii(i);
    IntStringIsAscii(j);
    AsciiInjective(IntString(i), IntString(j));
    IntStringInjective(i, j);
  }
}
