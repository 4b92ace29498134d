/** Single-bit arithmetic on register bytes.
    A register byte of the MCP23017 is modelled as a `bv8`. The Python code computes the same
    values on unbounded integers (`data | (1 << index)`, `data & ~(1 << index)`); for a byte
    and an index 0..7 those never leave 0..255, as `SetBitValue` and `ClearBitValue` state. */
module Bits {

  type Byte = bv8

  /** A pin index within one 8-bit port. */
  predicate IsIndex(i: int) {
    0 <= i < 8
  }

  /** 2 to the power `n`, the integer value of `1 << n`. */
  function Pow2(n: nat): nat
  {
    if n == 0 then 1 else 2 * Pow2(n - 1)
  }

  /** `1 << index`, written out for the eight indices */
  function Mask(i: int): Byte
    requires IsIndex(i)
  {
    match i
    case 0 => 0x01
    case 1 => 0x02
    case 2 => 0x04
    case 3 => 0x08
    case 4 => 0x10
    case 5 => 0x20
    case 6 => 0x40
    case 7 => 0x80
  }

  /** `data >> index & 1`: the value, 0 or 1, of bit `i` of `b` */
  function BitOf(b: Byte, i: int): (bit: int)
    requires IsIndex(i)
    ensures bit == 0 || bit == 1
  {
    if b & Mask(i) == 0 then 0 else 1
  }

  /** `BitOf` is the source's shift-and-mask: `data >> index & 1`. */
  lemma BitOfIsShift(b: Byte, i: int)
    requires IsIndex(i)
    ensures BitOf(b, i) == ((b >> i) & 1) as int
  {
  }

  predicate TestBit(b: Byte, i: int)
    requires IsIndex(i)
  {
    BitOf(b, i) == 1
  }

  /** `data | (1 << index)` */
  function SetBit(b: Byte, i: int): (r: Byte)
    requires IsIndex(i)
    ensures TestBit(r, i)
    ensures forall j :: IsIndex(j) && j != i ==> TestBit(r, j) == TestBit(b, j)
  {
    b | Mask(i)
  }

  /** `data & ~(1 << index)` */
  function ClearBit(b: Byte, i: int): (r: Byte)
    requires IsIndex(i)
    ensures !TestBit(r, i)
    ensures forall j :: IsIndex(j) && j != i ==> TestBit(r, j) == TestBit(b, j)
  {
    b & !Mask(i)
  }

  /** Bit `i` set when `v` holds and cleared otherwise, as `set_pin_output_state` branches. */
  function WriteBit(b: Byte, i: int, v: bool): (r: Byte)
    requires IsIndex(i)
    ensures TestBit(r, i) == v
    ensures forall j :: IsIndex(j) && j != i ==> TestBit(r, j) == TestBit(b, j)
  {
    if v then SetBit(b, i) else ClearBit(b, i)
  }

  /** The bits of mask `m` set (`v`) or cleared (`!v`) in `b`. */
  function Masked(b: Byte, m: Byte, v: bool): Byte {
    if v then b | m else b & !m
  }

  /** Writing the value a bit already has leaves the byte as it was. */
  lemma WriteBitUnchanged(b: Byte, i: int, v: bool)
    requires IsIndex(i) && TestBit(b, i) == v
    ensures WriteBit(b, i, v) == b
  {
  }

  /** Of two writes to the same bit only the second one matters. */
  lemma WriteBitLastWins(b: Byte, i: int, v: bool, w: bool)
    requires IsIndex(i)
    ensures WriteBit(WriteBit(b, i, v), i, w) == WriteBit(b, i, w)
  {
  }

  /** Writes to two different bits of one byte commute. */
  lemma WriteBitCommutes(b: Byte, i: int, v: bool, k: int, w: bool)
    requires IsIndex(i) && IsIndex(k) && i != k
    ensures WriteBit(WriteBit(b, i, v), k, w) == WriteBit(WriteBit(b, k, w), i, v)
  {
    WriteBitIsMasked(b, i, v);
    WriteBitIsMasked(b, k, w);
    WriteBitIsMasked(WriteBit(b, i, v), k, w);
    WriteBitIsMasked(WriteBit(b, k, w), i, v);
    MasksDisjoint(i, k);
    MaskedCommute(b, Mask(i), v, Mask(k), w);
  }

  lemma WriteBitIsMasked(b: Byte, i: int, v: bool)
    requires IsIndex(i)
    ensures WriteBit(b, i, v) == Masked(b, Mask(i), v)
  {
  }

  lemma MasksDisjoint(i: int, k: int)
    requires IsIndex(i) && IsIndex(k) && i != k
    ensures Mask(i) & Mask(k) == 0
  {
  }

  lemma MaskedCommute(b: Byte, m: Byte, v: bool, n: Byte, w: bool)
    requires m & n == 0
    ensures Masked(Masked(b, m, v), n, w) == Masked(Masked(b, n, w), m, v)
  {
    if v && w {
      SetSetCommute(b, m, n);
    } else if v {
      SetClearCommute(b, m, n);
    } else if w {
      SetClearCommute(b, n, m);
    } else {
      ClearClearCommute(b, m, n);
    }
  }

  lemma SetSetCommute(b: Byte, m: Byte, n: Byte)
    ensures Masked(Masked(b, m, true), n, true) == Masked(Masked(b, n, true), m, true)
  {
  }

  lemma SetClearCommute(b: Byte, m: Byte, n: Byte)
    requires m & n == 0
    ensures Masked(Masked(b, m, true), n, false) == Masked(Masked(b, n, false), m, true)
  {
    assert (b | m) & !n == (b & !n) | m;
  }

  lemma ClearClearCommute(b: Byte, m: Byte, n: Byte)
    ensures Masked(Masked(b, m, false), n, false) == Masked(Masked(b, n, false), m, false)
  {
  }

  /** `1 << index` is 2^index. */
  lemma MaskIsPow2(i: int)
    requires IsIndex(i)
    ensures Mask(i) as int == Pow2(i)
    ensures Mask(i) != 0 && Mask(i) & (Mask(i) - 1) == 0
  {
    assert Pow2(0) == 1 && Pow2(1) == 2 && Pow2(2) == 4 && Pow2(3) == 8;
    assert Pow2(4) == 16 && Pow2(5) == 32 && Pow2(6) == 64 && Pow2(7) == 128;
  }

  /** `data | (1 << index)` adds 2^index exactly when that bit was clear, and stays below 256. */
  lemma SetBitValue(b: Byte, i: int)
    requires IsIndex(i)
    ensures SetBit(b, i) as int == b as int + (if TestBit(b, i) then 0 else Pow2(i))
    ensures SetBit(b, i) as int < 256
  {
    MaskIsPow2(i);
    OrSingleBitValue(b, Mask(i));
  }

  /** `data & ~(1 << index)` subtracts 2^index exactly when that bit was set, and stays non-negative. */
  lemma ClearBitValue(b: Byte, i: int)
    requires IsIndex(i)
    ensures ClearBit(b, i) as int == b as int - (if TestBit(b, i) then Pow2(i) else 0)
    ensures 0 <= ClearBit(b, i) as int
  {
    MaskIsPow2(i);
    AndNotSingleBitValue(b, Mask(i));
  }

  lemma OrSingleBitValue(b: Byte, m: Byte)
    requires m != 0 && m & (m - 1) == 0
    ensures (b | m) as int == b as int + (if b & m == 0 then m as int else 0)
  {
  }

  lemma AndNotSingleBitValue(b: Byte, m: Byte)
    requires m != 0 && m & (m - 1) == 0
    ensures (b & !m) as int == b as int - (if b & m == 0 then 0 else m as int)
  {
    if b & m != 0 {
      assert (b & !m) | m == b;
      assert (b & !m) & m == 0;
      OrSingleBitValue(b & !m, m);
    }
  }
}
