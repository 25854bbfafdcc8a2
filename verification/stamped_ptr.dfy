/** A raw pointer and a 16-bit stamp packed into one 64-bit word (stamped_ptr.h). */
module StampedPtrs {

  const STAMPS: nat := 0x1_0000                       // 2^kFreeBits
  const POINTERS: nat := 0x1_0000_0000_0000           // 2^kFreeBitsShift
  const WORDS: nat := 0x1_0000_0000_0000_0000         // 2^64
  const UPPER_HALF: nat := 0x8000_0000_0000           // bit 47
  const FREE_BITS_MASK: nat := 0xFFFF_0000_0000_0000

  type Word = w: nat | w < WORDS

  /** A canonical address repeats bit 47 in all of the sixteen bits above it. */
  type Address = p: nat | p < UPPER_HALF || FREE_BITS_MASK + UPPER_HALF <= p < WORDS

  const NULL: Address := 0

  datatype StampedPtr = StampedPtr(ptr: Address, stamp: nat) {
    predicate IsNull() { ptr == NULL }

    function IncrementStamp(): StampedPtr { StampedPtr(ptr, stamp + 1) }
  }

  // The bits a mask keeps and the bits it adds never overlap here, so "and with
  // the complement" is a remainder and "or" is a sum.

  function ClearFreeBits(w: Word): Word { w % POINTERS }

  function SetFreeBits(w: Word): Word { ClearFreeBits(w) + FREE_BITS_MASK }

  function GetBit47(w: Word): nat { w / UPPER_HALF % 2 }

  lemma Bit47IsTheUpperHalf(w: Word)
    ensures GetBit47(w) != 0 <==> ClearFreeBits(w) >= UPPER_HALF
  {
    var half := UPPER_HALF;
    var q, r := w / POINTERS, w % POINTERS;
    var top := if r >= half then 1 else 0;
    assert w == (2 * q + top) * half + (r - top * half);
    DivideBy(w, half, 2 * q + top, r - top * half);
  }

  lemma DivideBy(x: nat, d: nat, q: nat, r: nat)
    requires d > 0 && x == q * d + r && r < d
    ensures x / d == q && x % d == r
  {
    var q', r' := x / d, x % d;
    assert x == q' * d + r' && 0 <= r' < d;
    if q' > q {
      MultiplyUp(q + 1, q', d);
      assert false;
    } else if q' < q {
      MultiplyUp(q' + 1, q, d);
      assert false;
    }
  }

  lemma MultiplyUp(a: nat, b: nat, d: nat)
    requires a <= b
    ensures a * d <= b * d
  {
    assert (b - a) * d == b * d - a * d;
  }

  function ToCanonicalForm(w: Word): Address {
    Bit47IsTheUpperHalf(w);
    if GetBit47(w) != 0 then SetFreeBits(w) else ClearFreeBits(w)
  }

  /** Shifting left by 48 drops all but the low sixteen bits of the stamp. */
  function ShiftStamp(stamp: nat): Word { stamp * POINTERS % WORDS }

  function Pack(p: StampedPtr): Word {
    AddsUp(p.stamp);
    ClearFreeBits(p.ptr) + ShiftStamp(p.stamp)
  }

  function Unpack(w: Word): StampedPtr {
    StampedPtr(ToCanonicalForm(w), w / POINTERS)
  }

  /** What a stamped pointer becomes once it has been through a packed word. */
  function Truncate(p: StampedPtr): StampedPtr {
    StampedPtr(p.ptr, p.stamp % STAMPS)
  }

  lemma AddsUp(stamp: nat)
    ensures ShiftStamp(stamp) == stamp % STAMPS * POINTERS
  {
    var q, r := stamp / STAMPS, stamp % STAMPS;
    assert stamp * POINTERS == q * WORDS + r * POINTERS;
    DivideBy(stamp * POINTERS, WORDS, q, r * POINTERS);
  }

  lemma CanonicalFormKeepsTheLowBits(w: Word)
    ensures ClearFreeBits(ToCanonicalForm(w)) == ClearFreeBits(w)
  {
    var r := ClearFreeBits(w);
    DivideBy(r, POINTERS, 0, r);
    DivideBy(r + FREE_BITS_MASK, POINTERS, STAMPS - 1, r);
  }

  /** A canonical address is what its low 48 bits stand for. */
  lemma CanonicalFormOfAnAddress(p: Address, w: Word)
    requires ClearFreeBits(w) == ClearFreeBits(p)
    ensures ToCanonicalForm(w) == p
  {
    Bit47IsTheUpperHalf(w);
    if p < UPPER_HALF {
      DivideBy(p, POINTERS, 0, p);
    } else {
      DivideBy(p, POINTERS, STAMPS - 1, p - FREE_BITS_MASK);
    }
  }

  /** Every 64-bit word survives unpacking and packing. */
  lemma PackUnpack(w: Word)
    ensures Pack(Unpack(w)) == w
  {
    AddsUp(w / POINTERS);
    CanonicalFormKeepsTheLowBits(w);
  }

  /** A canonical pointer survives packing; the stamp survives modulo 2^16. */
  lemma UnpackPack(p: StampedPtr)
    ensures Unpack(Pack(p)) == Truncate(p)
  {
    AddsUp(p.stamp);
    DivideBy(Pack(p), POINTERS, p.stamp % STAMPS, ClearFreeBits(p.ptr));
    CanonicalFormOfAnAddress(p.ptr, Pack(p));
  }

  /** Comparing packed words compares the pointers and the stamps modulo 2^16. */
  lemma PackedEquality(p: StampedPtr, w: Word)
    ensures w == Pack(p) <==> Unpack(w) == Truncate(p)
  {
    UnpackPack(p);
    PackUnpack(w);
  }

  /** While stamps stay below 2^16, comparing words is comparing pairs. */
  lemma PackedEqualityIsExact(p: StampedPtr, q: StampedPtr)
    ensures Pack(p) == Pack(q) <==> p.ptr == q.ptr && p.stamp % STAMPS == q.stamp % STAMPS
    ensures p.stamp < STAMPS && q.stamp < STAMPS ==> (Pack(p) == Pack(q) <==> p == q)
  {
    PackedEquality(p, Pack(q));
    UnpackPack(q);
  }

  /** The packed atomic. `spurious` is the weak compare-exchange's licence to fail. */
  class AtomicStampedPtr {
    var packed: Word

    constructor (p: StampedPtr)
      ensures Value() == Truncate(p)
    {
      UnpackPack(p);
      packed := Pack(p);
    }

    function Value(): StampedPtr
      reads this
    {
      Unpack(packed)
    }

    method Store(p: StampedPtr)
      modifies this
      ensures Value() == Truncate(p)
    {
      UnpackPack(p);
      packed := Pack(p);
    }

    method Load() returns (p: StampedPtr)
      ensures p == Value()
    {
      p := Unpack(packed);
    }

    method Exchange(target: StampedPtr) returns (previous: StampedPtr)
      modifies this
      ensures previous == old(Value()) && Value() == Truncate(target)
    {
      UnpackPack(target);
      previous := Unpack(packed);
      packed := Pack(target);
    }

    method CompareExchangeWeak(expected: StampedPtr, desired: StampedPtr, spurious: bool)
      returns (succeeded: bool, witnessed: StampedPtr)
      modifies this
      ensures succeeded == (!spurious && old(Value()) == Truncate(expected))
      ensures succeeded ==> Value() == Truncate(desired) && witnessed == expected
      ensures !succeeded ==> Value() == old(Value()) && witnessed == Value()
    {
      PackedEquality(expected, packed);
      UnpackPack(desired);
      succeeded := !spurious && packed == Pack(expected);
      if succeeded {
        packed := Pack(desired);
        witnessed := expected;
      } else {
        witnessed := Unpack(packed);
      }
    }
  }
}
