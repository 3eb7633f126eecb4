// One bit per piece, most significant bit first (src/core/bitfield.hpp).
// Managers work with the set of indices a bitfield stands for; this module
// relates that set to the packed bytes.
module Bitfields {
  import opened Types

  // ----- bits of a byte -----

  // b >> k
  function Shift(b: nat, k: nat): nat
  {
    if k == 0 then b else Shift(b, k - 1) / 2
  }

  // bit j of a byte, bit 0 being the most significant
  predicate Bit(b: Byte, j: nat)
    requires j < 8
  {
    Shift(b, 7 - j) % 2 == 1
  }

  // the number whose first n bits are f(0), f(1), ...
  function FromBits(f: nat -> bool, n: nat): (v: nat)
    ensures v < Pow2(n)
  {
    if n == 0 then 0 else 2 * FromBits(f, n - 1) + (if f(n - 1) then 1 else 0)
  }

  function Pow2(n: nat): nat
  {
    if n == 0 then 1 else 2 * Pow2(n - 1)
  }

  function ByteOf(f: nat -> bool): Byte
  {
    assert Pow2(2) == 4 && Pow2(4) == 16 && Pow2(6) == 64 && Pow2(8) == 256;
    FromBits(f, 8)
  }

  lemma {:induction false} ShiftBound(b: nat, k: nat, n: nat)
    requires k <= n && b < Pow2(n)
    ensures Shift(b, k) < Pow2(n - k)
  {
    if k == 0 {
    } else {
      ShiftBound(b, k - 1, n);
      assert Pow2(n - k + 1) == 2 * Pow2(n - k);
    }
  }

  lemma {:induction false} ShiftFromBits(f: nat -> bool, k: nat)
    requires k <= 8
    ensures Shift(FromBits(f, 8), k) == FromBits(f, 8 - k)
  {
    if k == 0 {
    } else {
      ShiftFromBits(f, k - 1);
    }
  }

  lemma BitOfByte(f: nat -> bool, j: nat)
    requires j < 8
    ensures Bit(ByteOf(f), j) == f(j)
  {
    hide Pow2;
    ShiftFromBits(f, 7 - j);
  }

  lemma {:induction false} TopBits(b: Byte, f: nat -> bool, n: nat)
    requires n <= 8 && forall j :: 0 <= j < 8 ==> f(j) == Bit(b, j)
    ensures Shift(b, 8 - n) == FromBits(f, n)
  {
    if n == 0 {
      assert Pow2(2) == 4 && Pow2(4) == 16 && Pow2(6) == 64 && Pow2(8) == 256;
      ShiftBound(b, 8, 8);
    } else {
      TopBits(b, f, n - 1);
      assert Shift(b, 9 - n) == Shift(b, 8 - n) / 2;
      assert Bit(b, n - 1) == f(n - 1);
    }
  }

  // A byte is determined by its bits.
  lemma ByteFromBits(b: Byte, f: nat -> bool)
    requires forall j :: 0 <= j < 8 ==> f(j) == Bit(b, j)
    ensures b == ByteOf(f)
  {
    TopBits(b, f, 8);
  }

  // ----- packed sets -----

  function ByteCount(bits: nat): nat
  {
    (bits + 7) / 8
  }

  // get: out-of-range indices read as absent
  predicate Get(bytes: Bytes, bits: nat, i: nat)
    requires |bytes| == ByteCount(bits)
  {
    i < bits && Bit(bytes[i / 8], i % 8)
  }

  function Members(bytes: Bytes, bits: nat): set<nat>
    requires |bytes| == ByteCount(bits)
  {
    set i: nat | 0 <= i < bits && Get(bytes, bits, i)
  }

  // The first piece of every byte is its highest bit and the eighth its lowest.
  lemma HighestFirst(bytes: Bytes, bits: nat, i: nat)
    requires |bytes| == ByteCount(bits) && i < bits
    ensures i % 8 == 0 ==> (i in Members(bytes, bits) <==> bytes[i / 8] >= 128)
    ensures i % 8 == 7 ==> (i in Members(bytes, bits) <==> bytes[i / 8] % 2 == 1)
  {
    var b := bytes[i / 8];
    assert Shift(b, 0) == b && Shift(b, 1) == Shift(b, 0) / 2 && Shift(b, 2) == Shift(b, 1) / 2;
    assert Shift(b, 3) == Shift(b, 2) / 2 && Shift(b, 4) == Shift(b, 3) / 2 && Shift(b, 5) == Shift(b, 4) / 2;
    assert Shift(b, 6) == Shift(b, 5) / 2 && Shift(b, 7) == Shift(b, 6) / 2;
  }

  // no bit from position 'used' on
  predicate LowBitsClear(b: Byte, used: int)
  {
    forall j :: 0 <= j < 8 && used <= j ==> !Bit(b, j)
  }

  // the last byte and the mask of its spare low bits have no bit in common
  predicate SpareBitsClear(bytes: Bytes, bits: nat)
    requires |bytes| == ByteCount(bits)
  {
    bytes != [] ==> LowBitsClear(bytes[|bytes| - 1], bits - 8 * (|bytes| - 1))
  }

  function FromBytes(raw: Bytes, bits: nat): Option<set<nat>>
  {
    if |raw| != ByteCount(bits) || !SpareBitsClear(raw, bits) then None else Some(Members(raw, bits))
  }

  function PackByte(members: set<nat>, bits: nat, k: nat): Byte
  {
    ByteOf(j => 8 * k + j in members && 8 * k + j < bits)
  }

  // the bytes of a bitfield that holds exactly these pieces
  function Pack(members: set<nat>, bits: nat): (bytes: Bytes)
    ensures |bytes| == ByteCount(bits)
  {
    seq(ByteCount(bits), k requires 0 <= k => PackByte(members, bits, k))
  }

  lemma PackByteBits(members: set<nat>, bits: nat, k: nat, j: nat)
    requires j < 8
    ensures Bit(PackByte(members, bits, k), j) <==> 8 * k + j in members && 8 * k + j < bits
  {
    BitOfByte(j => 8 * k + j in members && 8 * k + j < bits, j);
  }

  // Packing a set of pieces and reading the bytes back gives the set, and a
  // receiver accepts those bytes.
  lemma PackRoundTrip(members: set<nat>, bits: nat)
    requires forall i :: i in members ==> i < bits
    ensures FromBytes(Pack(members, bits), bits) == Some(members)
  {
    var bytes := Pack(members, bits);
    forall i: nat ensures i in Members(bytes, bits) <==> i in members {
      if i < bits {
        PackByteBits(members, bits, i / 8, i % 8);
        assert bytes[i / 8] == PackByte(members, bits, i / 8);
      }
    }
    assert Members(bytes, bits) == members;
    if bytes != [] {
      var last := |bytes| - 1;
      forall j | 0 <= j < 8 && bits - 8 * last <= j ensures !Bit(bytes[last], j) {
        PackByteBits(members, bits, last, j);
      }
      assert LowBitsClear(bytes[last], bits - 8 * last);
    }
  }

  // A byte string is a packing if its bits say so.
  lemma BitsMakePack(raw: Bytes, members: set<nat>, bits: nat)
    requires |raw| == ByteCount(bits)
    requires forall k, j :: 0 <= k < |raw| && 0 <= j < 8 ==>
             (Bit(raw[k], j) <==> 8 * k + j in members && 8 * k + j < bits)
    ensures raw == Pack(members, bits)
  {
    forall k | 0 <= k < |raw| ensures raw[k] == PackByte(members, bits, k) {
      ByteFromBits(raw[k], j => 8 * k + j in members && 8 * k + j < bits);
    }
  }

  // The accepted payloads are exactly the packings: no other bytes pass.
  lemma AcceptedIsPacking(raw: Bytes, bits: nat)
    ensures FromBytes(raw, bits).Some? ==>
              && (forall i :: i in FromBytes(raw, bits).value ==> i < bits)
              && raw == Pack(FromBytes(raw, bits).value, bits)
    ensures FromBytes(raw, bits).None? ==> forall s: set<nat> :: (forall i :: i in s ==> i < bits) ==>
            raw != Pack(s, bits)
  {
    if FromBytes(raw, bits).Some? {
      var members := FromBytes(raw, bits).value;
      forall k, j | 0 <= k < |raw| && 0 <= j < 8 ensures Bit(raw[k], j) <==> 8 * k + j in members && 8 * k + j < bits {
        if 8 * k + j < bits {
          assert (8 * k + j) / 8 == k && (8 * k + j) % 8 == j;
          assert 8 * k + j in members <==> Get(raw, bits, 8 * k + j);
        } else {
          assert k == |raw| - 1;
        }
      }
      BitsMakePack(raw, members, bits);
    } else {
      forall s: set<nat> | forall i :: i in s ==> i < bits ensures raw != Pack(s, bits) {
        PackRoundTrip(s, bits);
      }
    }
  }

  // ----- in place -----

  class Bitfield {
    const bits: nat
    var bytes: Bytes

    ghost predicate Valid()
      reads this
    {
      |bytes| == ByteCount(bits) && SpareBitsClear(bytes, bits)
    }

    ghost function Contents(): set<nat>
      reads this
      requires Valid()
    {
      Members(bytes, bits)
    }

    constructor (bits: nat)
      ensures Valid() && this.bits == bits && Contents() == {}
    {
      this.bits := bits;
      bytes := seq(ByteCount(bits), _ => 0);
      new;
      forall j | 0 <= j < 8 ensures !Bit(0, j) { ZeroBits(j); }
    }

    // false stands for the out_of_range exception
    method Set(i: nat) returns (ok: bool)
      requires Valid()
      modifies this
      ensures Valid()
      ensures ok <==> i < bits
      ensures Contents() == if ok then old(Contents()) + {i} else old(Contents())
    {
      hide Bit, ByteOf;
      if i >= bits { return false; }
      ghost var was := bytes;
      // or with the single bit i % 8
      var b := bytes[i / 8];
      bytes := bytes[i / 8 := ByteOf((j: nat) => j < 8 && (Bit(b, j) || j == i % 8))];
      forall j | 0 <= j < 8 ensures Bit(bytes[i / 8], j) <==> Bit(b, j) || j == i % 8 {
        BitOfByte((j: nat) => j < 8 && (Bit(b, j) || j == i % 8), j);
      }
      forall k: nat | k < bits ensures Get(bytes, bits, k) <==> Get(was, bits, k) || k == i {
        assert k == 8 * (k / 8) + k % 8 && i == 8 * (i / 8) + i % 8;
      }
      return true;
    }
  }

  lemma ZeroBits(j: nat)
    requires j < 8
    ensures !Bit(0, j)
  {
    ShiftZero(7 - j);
  }

  lemma {:induction false} ShiftZero(k: nat)
    ensures Shift(0, k) == 0
  {
    if k == 0 {
    } else {
      ShiftZero(k - 1);
    }
  }
}
