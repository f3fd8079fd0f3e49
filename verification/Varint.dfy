// Base 128 varints, as the section "Base 128 Varints" of the Protocol Buffers
// Encoding specification defines them: seven bits to a byte, least significant
// group first, at most ten bytes for a 64-bit value.
module Varint {
  import opened Basics

  // A value read from the front of some bytes, and how many bytes it took.
  datatype Read<+T> = Read(value: T, used: nat)

  function Encode(v: nat): (bytes: seq<byte>)
    ensures bytes != []
  {
    if v < 128 then [v] else [v % 128 + 128] + Encode(v / 128)
  }

  // Reads a varint of which `count` bytes have gone by already. The tenth byte
  // has room for one bit of a 64-bit value, so anything above 1 there is refused.
  function DecodeFrom(s: seq<byte>, count: nat): (r: Option<Read<nat>>)
    requires count <= 9
    ensures r.Some? ==> 1 <= r.value.used <= |s|
    ensures r.Some? ==> r.value.value < Bound(count)
    decreases 9 - count
  {
    if s == [] then None
    else if s[0] < 128 then
      if count == 9 && s[0] >= 2 then None else Some(Read(s[0], 1))
    else if count == 9 then None
    else
      match DecodeFrom(s[1..], count + 1)
      case None => None
      case Some(Read(high, used)) => Some(Read(s[0] - 128 + 128 * high, used + 1))
  }

  // How large a value can still be when `count` bytes have been read.
  function Bound(count: nat): nat
    requires count <= 9
    ensures Bound(count) >= (if count == 9 then 2 else 128)
    decreases 9 - count
  {
    if count == 9 then 2 else 128 * Bound(count + 1)
  }

  function Decode(s: seq<byte>): (r: Option<Read<uint64>>)
    ensures r.Some? ==> 1 <= r.value.used <= |s|
  {
    BoundIs64Bits();
    match DecodeFrom(s, 0)
    case None => None
    case Some(Read(v, used)) => Some(Read(v, used))
  }

  lemma BoundIs64Bits()
    ensures Bound(0) == TWO_64
  {
    assert Bound(9) == 2;
    assert Bound(8) == 256;
    assert Bound(7) == 0x8000;
    assert Bound(6) == 0x40_0000;
    assert Bound(5) == 0x2000_0000;
    assert Bound(4) == 0x10_0000_0000;
    assert Bound(3) == 0x800_0000_0000;
    assert Bound(2) == 0x4_0000_0000_0000;
    assert Bound(1) == 0x200_0000_0000_0000;
  }

  lemma {:induction false} RoundTripFrom(v: nat, rest: seq<byte>, count: nat)
    requires count <= 9 && v < Bound(count)
    ensures DecodeFrom(Encode(v) + rest, count) == Some(Read(v, |Encode(v)|))
    ensures |Encode(v)| <= 10 - count
    decreases v
  {
    if v < 128 {
      assert (Encode(v) + rest)[0] == v;
    } else {
      hide Bound, DecodeFrom;
      SplitByte(v, count);
      RoundTripFrom(v / 128, rest, count + 1);
      var low := v % 128 + 128;
      assert Encode(v) + rest == [low] + (Encode(v / 128) + rest);
      ReadOneMore(low, Encode(v / 128) + rest, count);
    }
  }

  lemma SplitByte(v: nat, count: nat)
    requires count <= 9 && 128 <= v < Bound(count)
    ensures count < 9 && v / 128 < Bound(count + 1) && v == v % 128 + 128 * (v / 128)
  {
  }

  // A byte with the high bit set goes before the varint of the higher bits.
  lemma {:induction false} ReadOneMore(low: byte, s: seq<byte>, count: nat)
    requires count < 9 && low >= 128 && DecodeFrom(s, count + 1).Some?
    ensures var Read(high, used) := DecodeFrom(s, count + 1).value;
      DecodeFrom([low] + s, count) == Some(Read(low - 128 + 128 * high, used + 1))
  {
    assert ([low] + s)[1..] == s;
  }

  // Reading back what was written gives the value, whatever bytes follow.
  lemma RoundTrip(v: uint64, rest: seq<byte>)
    ensures Decode(Encode(v) + rest) == Some(Read(v, |Encode(v)|))
    ensures |Encode(v)| <= 10
  {
    BoundIs64Bits();
    RoundTripFrom(v, rest, 0);
  }

  // A varint cut short is refused: every byte but its last has the high bit set.
  lemma {:induction false} PrefixRefused(v: nat, k: nat, count: nat)
    requires count <= 9 && k < |Encode(v)|
    ensures DecodeFrom(Encode(v)[..k], count) == None
    decreases v
  {
    if k > 0 && v >= 128 && count < 9 {
      assert Encode(v)[..k][1..] == Encode(v / 128)[..k - 1];
      PrefixRefused(v / 128, k - 1, count + 1);
    }
  }

  // Bytes after a complete varint do not change what is read.
  lemma {:induction false} StableFrom(s: seq<byte>, rest: seq<byte>, count: nat)
    requires count <= 9 && DecodeFrom(s, count).Some?
    ensures DecodeFrom(s + rest, count) == DecodeFrom(s, count)
    decreases 9 - count
  {
    assert (s + rest)[0] == s[0];
    if s[0] >= 128 {
      assert (s + rest)[1..] == s[1..] + rest;
      StableFrom(s[1..], rest, count + 1);
    }
  }

  lemma Stable(s: seq<byte>, rest: seq<byte>)
    requires Decode(s).Some?
    ensures Decode(s + rest) == Decode(s)
  {
    StableFrom(s, rest, 0);
  }
}
