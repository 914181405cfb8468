/**
 Fixed-width integers as bit patterns: the shifts, ors and masks with which a
 guest packs a pointer and a length into an i64 and the host takes them apart.
 */
module Bits {
  import opened Arithmetic

  const TWO31: nat := 0x8000_0000
  const TWO32: nat := 0x1_0000_0000
  const TWO63: nat := 0x8000_0000_0000_0000
  const TWO64: nat := 0x1_0000_0000_0000_0000

  /** The bit pattern of a 32-bit integer. */
  type i32 = x: nat | x < TWO32

  /** The bit pattern of a 64-bit integer. */
  type u64 = x: nat | x < TWO64

  /** A 64-bit integer as a signed number. */
  type i64 = x: int | -(TWO63 as int) <= x < TWO63

  function Pow2(k: nat): (p: nat)
    ensures 0 < p
  {
    if k == 0 then 1 else 2 * Pow2(k - 1)
  }

  /** Bitwise or. */
  function Or(a: nat, b: nat): nat {
    if a == 0 && b == 0 then 0
    else (if a % 2 == 1 || b % 2 == 1 then 1 else 0) + 2 * Or(a / 2, b / 2)
  }

  /** Bitwise and. */
  function And(a: nat, b: nat): nat {
    if a == 0 || b == 0 then 0
    else (if a % 2 == 1 && b % 2 == 1 then 1 else 0) + 2 * And(a / 2, b / 2)
  }

  function Add32(a: i32, b: i32): i32 {
    (a + b) % TWO32
  }

  function Shl64(a: u64, k: nat): u64 {
    (a * Pow2(k)) % TWO64
  }

  function ToSigned(x: u64): i64 {
    if x < TWO63 then x else x - TWO64
  }

  function ToUnsigned(x: i64): u64 {
    if x >= 0 then x else x + TWO64
  }

  /** Arithmetic shift right: rounds towards minus infinity. */
  function Sar(x: i64, k: nat): int {
    x / Pow2(k)
  }

  /** Truncation to 32 bits (`as u32`). */
  function ToU32(x: int): i32 {
    x % TWO32
  }

  /** Guest: `i64.or (i64.shl (i64.extend_i32_u ptr) 32) (i64.extend_i32_u len)`. */
  function Pack(ptr: i32, len: i32): i64 {
    OrIsSum(ptr, len);
    ToSigned(Or(Shl64(ptr, 32), len))
  }

  /** Host: `(packed >> 32) as u32`. */
  function UnpackPtr(packed: i64): i32 {
    ToU32(Sar(packed, 32))
  }

  /** Host: `(packed & 0xFFFF_FFFF) as u32`. */
  function UnpackLen(packed: i64): i32 {
    ToU32(And(ToUnsigned(packed), 0xFFFF_FFFF))
  }

  lemma {:induction false} OrDisjoint(a: nat, k: nat, b: nat)
    requires b < Pow2(k)
    ensures Or(a * Pow2(k), b) == a * Pow2(k) + b
  {
    if k == 0 {
      OrZero(a);
    } else {
      var h := Pow2(k - 1);
      assert a * Pow2(k) == 2 * (a * h);
      OrDisjoint(a, k - 1, b / 2);
    }
  }

  lemma {:induction false} OrZero(a: nat)
    ensures Or(a, 0) == a
  {
    if a == 0 {
    } else {
      OrZero(a / 2);
    }
  }

  lemma {:induction false} AndMask(a: nat, k: nat)
    ensures And(a, Pow2(k) - 1) == a % Pow2(k)
  {
    if k == 0 {
    } else if a == 0 {
    } else {
      AndMask(a / 2, k - 1);
      var h := Pow2(k - 1);
      assert Pow2(k) == 2 * h;
      assert (2 * h - 1) / 2 == h - 1 && (2 * h - 1) % 2 == 1;
      HalfMod(a, h);
    }
  }

  lemma HalfMod(a: nat, h: nat)
    requires 0 < h
    ensures a % (2 * h) == a % 2 + 2 * (a / 2 % h)
  {
    var q, r := a / 2 / h, a / 2 % h;
    assert a / 2 == q * h + r;
    assert a == q * (2 * h) + (a % 2 + 2 * r);
    DivModUnique(a, 2 * h, q, a % 2 + 2 * r);
  }

  lemma Pow2Of32()
    ensures Pow2(32) == TWO32
  {
    assert Pow2(8) == 256;
    assert Pow2(16) == 256 * Pow2(8);
    assert Pow2(24) == 256 * Pow2(16);
    assert Pow2(32) == 256 * Pow2(24);
  }

  /** Packing is addition of the shifted pointer, as an unsigned pattern. */
  lemma OrIsSum(ptr: i32, len: i32)
    ensures Or(Shl64(ptr, 32), len) == ptr * TWO32 + len < TWO64
  {
    hide Or, Pow2;
    Pow2Of32();
    OrDisjoint(ptr, 32, len);
  }

  lemma PackValue(ptr: i32, len: i32)
    ensures Pack(ptr, len) == ToSigned(ptr * TWO32 + len)
  {
    hide Or, Pow2;
    OrIsSum(ptr, len);
  }

  /** The shift recovers the pointer from either signed reading of the pattern. */
  lemma ShiftBack(ptr: i32, len: i32)
    ensures (ptr * TWO32 + len) / TWO32 == ptr
    ensures (ptr * TWO32 + len - TWO64) / TWO32 == ptr - TWO32
    ensures ToU32(ptr - TWO32) == ptr
    ensures (ptr * TWO32 + len) % TWO32 == len
  {
  }

  /**
   The host recovers pointer and length from every packed value, also when the
   pointer has its top bit set and the packed value is therefore negative.
   */
  lemma UnpackInvertsPack(ptr: i32, len: i32)
    ensures UnpackPtr(Pack(ptr, len)) == ptr && UnpackLen(Pack(ptr, len)) == len
    ensures Pack(ptr, len) < 0 <==> TWO31 <= ptr
  {
    PackValue(ptr, len);
    hide Or, And, Pow2, Pack, ToU32;
    Pow2Of32();
    ShiftBack(ptr, len);
    var bits := ptr * TWO32 + len;
    AndMask(bits, 32);
    SmallU32(len);
    SmallU32(ptr);
  }

  lemma SmallU32(x: i32)
    ensures ToU32(x) == x
  {
  }
}
