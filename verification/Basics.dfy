// Values shared by every module: options, bytes, and Rust's fixed-width integers
// written out as ranges with explicit `as` conversions.
module Basics {

  datatype Option<+T> = None | Some(value: T) {
    function GetOr(default: T): (r: T)
      ensures Some? ==> r == value
      ensures None? ==> r == default
    {
      if Some? then value else default
    }
  }

  const TWO_31 := 0x8000_0000
  const TWO_32 := 0x1_0000_0000
  const TWO_64 := 0x1_0000_0000_0000_0000

  type byte = x: int | 0 <= x < 256
  type int32 = x: int | -0x8000_0000 <= x < 0x8000_0000
  type uint32 = x: int | 0 <= x < 0x1_0000_0000
  type uint64 = x: int | 0 <= x < 0x1_0000_0000_0000_0000

  // Sixteen raw bytes, Rust's `[u8; 16]`.
  type Uuid = s: seq<byte> | |s| == 16 witness seq(16, _ => 0)

  // `x as i32`: keep the low 32 bits, read them as two's complement.
  function AsInt32(x: int): (r: int32)
    ensures (r - x) % 0x1_0000_0000 == 0
  {
    var low := x % 0x1_0000_0000;
    if low < 0x8000_0000 then low else low - 0x1_0000_0000
  }

  // `x as u32`.
  function AsUint32(x: int): (r: uint32)
    ensures (r - x) % 0x1_0000_0000 == 0
  {
    x % 0x1_0000_0000
  }

  // `x as u64`, which sign-extends a negative i32.
  function AsUint64(x: int): (r: uint64)
    ensures (r - x) % 0x1_0000_0000_0000_0000 == 0
  {
    x % 0x1_0000_0000_0000_0000
  }

  // `f` of every element, joined in order.
  function Collect<X, Y>(xs: seq<X>, f: X -> seq<Y>): seq<Y> {
    if xs == [] then [] else Collect(xs[..|xs| - 1], f) + f(xs[|xs| - 1])
  }

  lemma {:induction false} CollectAppend<X, Y>(a: seq<X>, b: seq<X>, f: X -> seq<Y>)
    ensures Collect(a + b, f) == Collect(a, f) + Collect(b, f)
    decreases |b|
  {
    if b == [] {
      assert a + b == a;
    } else {
      var last := |b| - 1;
      assert (a + b)[..|a + b| - 1] == a + b[..last];
      CollectAppend(a, b[..last], f);
    }
  }

  lemma CollectFew<X, Y>(xs: seq<X>, f: X -> seq<Y>)
    ensures xs == [] ==> Collect(xs, f) == []
    ensures |xs| == 1 ==> Collect(xs, f) == f(xs[0])
    ensures |xs| == 2 ==> Collect(xs, f) == f(xs[0]) + f(xs[1])
  {
    if |xs| == 1 {
      assert Collect(xs, f) == Collect(xs[..0], f) + f(xs[0]);
    } else if |xs| == 2 {
      assert xs == [xs[0]] + [xs[1]];
      CollectAppend([xs[0]], [xs[1]], f);
      CollectFew([xs[0]], f);
      CollectFew([xs[1]], f);
    }
  }
}
