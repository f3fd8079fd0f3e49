// The wire format byte by byte, stated apart from the reader and the writer of module
// Wire (Protocol Buffers Encoding specification): which bytes a varint, a fixed-width
// number, a record and a message are, with every wire type as its number.
module WireBytes {
  import opened Basics
  import opened Varint
  import opened Wire
  import opened WireTheorems

  // ---- Varints ------------------------------------------------------------------

  // s[0] % 128 + 128 * (s[1] % 128) + 128 * 128 * (s[2] % 128) + ...
  function Sum128(s: seq<byte>): nat {
    if s == [] then 0 else s[0] % 128 + 128 * Sum128(s[1..])
  }

  // Every byte but the last has its high bit set, and seven bits of each make up `n`.
  predicate IsVarint(s: seq<byte>, n: nat) {
    && s != [] && s[|s| - 1] < 128
    && (forall i :: 0 <= i < |s| - 1 ==> s[i] >= 128)
    && Sum128(s) == n
  }

  lemma {:induction false} VarintStep(s: seq<byte>, n: nat)
    requires s != [] && s[0] >= 128
    ensures IsVarint(s, n) <==> n % 128 == s[0] - 128 && IsVarint(s[1..], n / 128)
  {
    var t := s[1..];
    assert Sum128(s) == s[0] - 128 + 128 * Sum128(t);
    if IsVarint(s, n) {
      assert t[|t| - 1] == s[|s| - 1];
      forall i | 0 <= i < |t| - 1 ensures t[i] >= 128 {
        assert t[i] == s[i + 1];
      }
    } else if IsVarint(t, n / 128) && n % 128 == s[0] - 128 {
      forall i | 0 <= i < |s| - 1 ensures s[i] >= 128 {
        assert i > 0 ==> s[i] == t[i - 1];
      }
    }
  }

  lemma {:induction false} VarintLast(s: seq<byte>, n: nat)
    requires s != [] && s[0] < 128
    ensures IsVarint(s, n) <==> |s| == 1 && n == s[0]
  {
    if |s| == 1 {
      assert s[1..] == [];
      assert Sum128(s) == s[0];
    }
  }

  // What is written for a number is the shortest varint of it.
  lemma {:induction false} VarintWritten(n: nat)
    ensures IsVarint(Encode(n), n)
    ensures |Encode(n)| > 1 ==> Encode(n)[|Encode(n)| - 1] > 0
    decreases n
  {
    var s := Encode(n);
    if n < 128 {
      VarintLast(s, n);
    } else {
      VarintWritten(n / 128);
      assert s[1..] == Encode(n / 128);
      VarintStep(s, n);
    }
  }

  // A number is read exactly from the bytes of a varint of at most ten bytes and 64 bits,
  // whatever follows; from any other bytes nothing is read.
  lemma VarintExactly(s: seq<byte>, n: nat, k: nat)
    ensures Decode(s) == Some(Read(n, k)) <==> k <= |s| && k <= 10 && IsVarint(s[..k], n) && n < TWO_64
  {
    BoundIs64Bits();
    VarintFrom(s, n, k, 0);
  }

  lemma {:induction false} VarintFrom(s: seq<byte>, n: nat, k: nat, count: nat)
    requires count <= 9
    ensures DecodeFrom(s, count) == Some(Read(n, k))
       <==> k <= |s| && count + k <= 10 && IsVarint(s[..k], n) && n < Bound(count)
    decreases 9 - count
  {
    hide IsVarint, Bound, DecodeFrom;
    ReadByte(s, n, k, count);
    if 0 < k <= |s| {
      var front := s[..k];
      assert |front| == k && front[0] == s[0];
      if s[0] < 128 {
        VarintLast(front, n);
        LastByteFits(count, n % 128);
      } else {
        VarintStep(front, n);
        assert front[1..] == s[1..][..k - 1];
        ReadByte(front[1..], n / 128, 0, count);
        if count < 9 {
          VarintFrom(s[1..], n / 128, k - 1, count + 1);
          BoundStep(count, n);
        }
      }
    }
  }

  // What one more byte makes of a read.
  lemma {:induction false} ReadByte(s: seq<byte>, n: nat, k: nat, count: nat)
    requires count <= 9
    ensures s == [] ==> DecodeFrom(s, count) == None
    ensures s != [] && s[0] < 128 ==>
      (DecodeFrom(s, count) == Some(Read(n, k)) <==> n == s[0] && k == 1 && (count == 9 ==> n < 2))
    ensures s != [] && s[0] >= 128 && count == 9 ==> DecodeFrom(s, count) == None
    ensures s != [] && s[0] >= 128 && count < 9 ==>
      (DecodeFrom(s, count) == Some(Read(n, k)) <==>
        k > 0 && n % 128 == s[0] - 128 && DecodeFrom(s[1..], count + 1) == Some(Read(n / 128, k - 1)))
    ensures !IsVarint([], n)
  {
    hide Bound;
    if s != [] && s[0] >= 128 && count < 9 {
      var rest := DecodeFrom(s[1..], count + 1);
      if rest.Some? {
        var high := rest.value.value;
        assert (s[0] - 128 + 128 * high) / 128 == high && (s[0] - 128 + 128 * high) % 128 == s[0] - 128;
      }
    }
  }

  lemma {:induction false} LastByteFits(count: nat, n: nat)
    requires count <= 9 && n < 128
    ensures n < Bound(count) <==> count < 9 || n < 2
  {
  }

  lemma {:induction false} BoundStep(count: nat, n: nat)
    requires count < 9
    ensures n < Bound(count) <==> n / 128 < Bound(count + 1)
  {
  }

  // A varint the reader accepts: at most ten bytes and 64 bits.
  predicate IsVarint64(c: seq<byte>) {
    |c| <= 10 && IsVarint(c, Sum128(c)) && Sum128(c) < 0x1_0000_0000_0000_0000
  }

  lemma Varint64Exactly(s: seq<byte>, n: nat, k: nat)
    ensures Decode(s) == Some(Read(n, k)) <==> k <= |s| && IsVarint64(s[..k]) && Sum128(s[..k]) == n
  {
    hide Decode;
    VarintExactly(s, n, k);
  }

  // ---- Numbers --------------------------------------------------------------------

  // `c` is read as the number `n`.
  predicate IsNumber(k: Scalar, c: seq<byte>, n: int) {
    match k
    case Fixed32 => |c| == 4 && n == Sum256(c)
    case Fixed64 => |c| == 8 && n == Sum256(c[..4]) + 0x1_0000_0000 * Sum256(c[4..])
    case _ => IsVarint64(c) && IsCut(k, Sum128(c), n)
  }

  // The varint `v` stands for `n`: the low 32 bits of it for the 32-bit types, with a sign
  // for int32, and "is it not zero" for a bool.
  predicate IsCut(k: Scalar, v: nat, n: int) {
    match k
    case Uint64 => n == v
    case Uint32 => n == v % 0x1_0000_0000
    case Int32 => -0x8000_0000 <= n < 0x8000_0000 && (v - n) % 0x1_0000_0000 == 0
    case Bool => n == (if v == 0 then 0 else 1)
    case _ => false
  }

  // Four bytes, the lowest first.
  function Sum256(c: seq<byte>): nat
    requires |c| == 4
  {
    c[0] as int + 0x100 * (c[1] as int) + 0x1_0000 * (c[2] as int) + 0x100_0000 * (c[3] as int)
  }

  lemma {:induction false} OneByte(b: byte, rest: seq<byte>)
    ensures FromLittleEndian([b] + rest) == b + 256 * FromLittleEndian(rest)
  {
    assert ([b] + rest)[1..] == rest;
  }

  lemma FixedIs(c: seq<byte>, rest: seq<byte>)
    requires |c| == 4
    ensures FromLittleEndian(c + rest) == Sum256(c) + 0x1_0000_0000 * FromLittleEndian(rest)
  {
    hide FromLittleEndian;
    OneByte(c[3], rest);
    OneByte(c[2], [c[3]] + rest);
    OneByte(c[1], [c[2]] + ([c[3]] + rest));
    OneByte(c[0], [c[1]] + ([c[2]] + ([c[3]] + rest)));
    assert c + rest == [c[0]] + ([c[1]] + ([c[2]] + ([c[3]] + rest)));
  }

  lemma FixedNumber(c: seq<byte>)
    ensures |c| == 4 ==> FromLittleEndian(c) == Sum256(c)
    ensures |c| == 8 ==> FromLittleEndian(c) == Sum256(c[..4]) + 0x1_0000_0000 * Sum256(c[4..])
  {
    hide FromLittleEndian, Sum256;
    if |c| == 4 {
      FixedIs(c, []);
      assert c + [] == c;
      NoBytes();
    } else if |c| == 8 {
      FixedIs(c[..4], c[4..]);
      assert c == c[..4] + c[4..];
      FixedNumber(c[4..]);
    }
  }

  lemma NoBytes()
    ensures FromLittleEndian([]) == 0
  {
  }

  lemma {:induction false} NarrowIs(k: Scalar, v: uint64, n: int)
    requires !k.Fixed32? && !k.Fixed64?
    ensures Narrow(k, v) == n <==> IsCut(k, v, n)
  {
  }

  // A number is read exactly from the bytes that stand for it, whatever follows.
  lemma NumberExactly(k: Scalar, s: seq<byte>, n: int, u: nat)
    ensures DecodeScalar(k, s) == Some(Read(n, u)) <==> u <= |s| && IsNumber(k, s[..u], n)
  {
    hide Decode, IsVarint64, FromLittleEndian, Sum128, Sum256, IsCut, Narrow;
    match k
    case Fixed32 =>
      if |s| >= 4 {
        FixedNumber(s[..4]);
      }
    case Fixed64 =>
      if |s| >= 8 {
        FixedNumber(s[..8]);
      }
    case _ =>
      if Decode(s).Some? {
        var Read(v, used) := Decode(s).value;
        Varint64Exactly(s, v, used);
        NarrowIs(k, v, n);
      }
      if u <= |s| && IsNumber(k, s[..u], n) {
        Varint64Exactly(s, Sum128(s[..u]), u);
      }
  }

  // ---- Length-delimited content and records nobody knows ------------------------------

  // `c` is the varint of a length, then that many bytes, `content`.
  predicate IsDelimited(c: seq<byte>, content: seq<byte>) {
    && |content| <= |c|
    && IsVarint64(c[..|c| - |content|]) && Sum128(c[..|c| - |content|]) == |content|
    && c[|c| - |content|..] == content
  }

  lemma DelimitedExactly(s: seq<byte>, content: seq<byte>, u: nat)
    ensures DecodeDelimited(s) == Some(Read(content, u)) <==> u <= |s| && IsDelimited(s[..u], content)
  {
    hide Decode, IsVarint64, Sum128;
    if Decode(s).Some? {
      var Read(len, n) := Decode(s).value;
      Varint64Exactly(s, len, n);
      if len <= |s| - n {
        assert s[..n + len][..n] == s[..n];
        assert s[..n + len][n..] == s[n..n + len];
      }
    }
    if u <= |s| && IsDelimited(s[..u], content) {
      var n := u - |content|;
      assert s[..u][..n] == s[..n];
      Varint64Exactly(s, |content|, n);
      assert s[..u][n..] == s[n..u];
    }
  }

  // `c` is the content of a record with this tag and wire type: 0 is a varint, 1 eight
  // bytes, 2 a length and its bytes, 5 four bytes, and 3 a group, records up to the end
  // mark of type 4 with the same tag.
  ghost predicate IsSkipped(tag: nat, wireType: nat, c: seq<byte>)
    decreases |c|, 1
  {
    if wireType == 0 then IsVarint64(c)
    else if wireType == 1 then |c| == 8
    else if wireType == 2 then exists content :: IsDelimited(c, content)
    else if wireType == 3 then
      exists a: nat :: a < |c| && IsSeries(c[..a]) && IsVarint64(c[a..]) && Sum128(c[a..]) == tag * 8 + 4
    else wireType == 5 && |c| == 4
  }

  // A group whose records take the first `a` bytes.
  ghost predicate IsGroup(tag: nat, c: seq<byte>, a: nat) {
    a < |c| && IsSeries(c[..a]) && IsVarint64(c[a..]) && Sum128(c[a..]) == tag * 8 + 4
  }

  // Complete records, one after the other.
  ghost predicate IsSeries(s: seq<byte>)
    decreases |s|, 3
  {
    s == [] || exists a: nat, b: nat :: StartsRecord(s, a, b) && IsSeries(s[b..])
  }

  // The first `b` bytes are a record, and the first `a` of them its key.
  ghost predicate StartsRecord(s: seq<byte>, a: nat, b: nat)
    decreases |s|, 2
  {
    && 0 < a <= b <= |s| && IsKey(s[..a])
    && IsSkipped(Sum128(s[..a]) / 8, Sum128(s[..a]) % 8, s[a..b])
  }

  // A key is a varint of 32 bits whose tag is not 0.
  predicate IsKey(c: seq<byte>) {
    IsVarint64(c) && 8 <= Sum128(c) < 0x1_0000_0000
  }

  lemma {:induction false} SkippedExactly(tag: nat, wireType: nat, s: seq<byte>, u: nat)
    requires 1 <= tag < 0x2000_0000
    ensures SkipContent(tag, wireType, s) == Some(u) <==> u <= |s| && IsSkipped(tag, wireType, s[..u])
    decreases |s|, 2
  {
    hide Decode, DecodeDelimited, SkipGroup, IsVarint64, IsDelimited, Sum128, IsGroup;
    if wireType == 0 {
      if Decode(s).Some? {
        Varint64Exactly(s, Decode(s).value.value, Decode(s).value.used);
      }
      if u <= |s| {
        Varint64Exactly(s, Sum128(s[..u]), u);
      }
    } else if wireType == 2 {
      if DecodeDelimited(s).Some? {
        DelimitedExactly(s, DecodeDelimited(s).value.value, DecodeDelimited(s).value.used);
      }
      if u <= |s| {
        forall content | IsDelimited(s[..u], content)
          ensures DecodeDelimited(s) == Some(Read(content, u)) {
          DelimitedExactly(s, content, u);
        }
      }
    } else if wireType == 3 {
      GroupExactly(tag, s, u);
      if u <= |s| {
        SkipsGroup(tag, s[..u]);
      }
    }
  }

  lemma {:induction false} GroupExactly(tag: nat, s: seq<byte>, u: nat)
    requires 1 <= tag < 0x2000_0000
    ensures SkipGroup(tag, s) == Some(u) <==> u <= |s| && exists a: nat :: IsGroup(tag, s[..u], a)
    decreases |s|, 1
  {
    hide SkipGroup, IsGroup;
    if SkipGroup(tag, s) == Some(u) {
      GroupRead(tag, s);
    }
    if u <= |s| {
      forall a: nat | IsGroup(tag, s[..u], a) ensures SkipGroup(tag, s) == Some(u) {
        GroupIsRead(tag, s, u, a);
      }
    }
  }

  lemma {:induction false} GroupRead(tag: nat, s: seq<byte>)
    requires 1 <= tag < 0x2000_0000 && SkipGroup(tag, s).Some?
    ensures var u := SkipGroup(tag, s).value; u <= |s| && exists a: nat :: IsGroup(tag, s[..u], a)
    decreases |s|, 0
  {
    hide Decode, SkipContent, SkipGroup, IsVarint64, IsSkipped, Sum128;
    GroupParts(tag, s);
    var Read(key, n) := Decode(s).value;
    Varint64Exactly(s, key, n);
    if key % 8 == 4 {
      GroupEnds(tag, s);
      assert s[..n][0..] == s[..n] && s[..n][..0] == [];
      assert IsGroup(tag, s[..n], 0);
    } else {
      var used := SkipContent(key / 8, key % 8, s[n..]).value;
      SkippedExactly(key / 8, key % 8, s[n..], used);
      assert s[n..][..used] == s[n..n + used];
      GroupGoesOn(tag, s, used);
      var t := s[n + used..];
      GroupRead(tag, t);
      var more := SkipGroup(tag, t).value;
      var a: nat :| IsGroup(tag, t[..more], a);
      LongerGroup(tag, s, n, n + used, n + used + more, a);
    }
  }

  // A group with one more record in front.
  lemma LongerGroup(tag: nat, s: seq<byte>, x: nat, y: nat, u: nat, a: nat)
    requires StartsRecord(s, x, y) && y <= u <= |s| && IsGroup(tag, s[y..][..u - y], a)
    ensures IsGroup(tag, s[..u], y + a)
  {
    hide IsSkipped, IsVarint64, Sum128, IsKey;
    var inner := s[y..][..u - y];
    var front := s[..u][..y + a];
    assert front == s[..y + a];
    assert front[..x] == s[..x];
    assert front[x..y] == s[x..y];
    assert StartsRecord(front, x, y);
    assert front[y..] == inner[..a];
    LongerSeries(front, x, y);
    assert s[..u][y + a..] == inner[a..];
  }

  lemma LongerSeries(s: seq<byte>, a: nat, b: nat)
    requires StartsRecord(s, a, b) && IsSeries(s[b..])
    ensures IsSeries(s)
  {
    hide StartsRecord;
  }

  lemma SeriesBegins(s: seq<byte>)
    requires IsSeries(s) && s != []
    ensures exists a: nat, b: nat :: StartsRecord(s, a, b) && IsSeries(s[b..])
  {
    hide StartsRecord;
  }

  lemma SkipsGroup(tag: nat, c: seq<byte>)
    ensures IsSkipped(tag, 3, c) <==> exists a: nat :: IsGroup(tag, c, a)
  {
    hide IsVarint64;
    if IsSkipped(tag, 3, c) {
      var a: nat :| a < |c| && IsSeries(c[..a]) && IsVarint64(c[a..]) && Sum128(c[a..]) == tag * 8 + 4;
      assert IsGroup(tag, c, a);
    }
  }

  lemma {:induction false} GroupIsRead(tag: nat, s: seq<byte>, u: nat, a: nat)
    requires 1 <= tag < 0x2000_0000 && u <= |s| && IsGroup(tag, s[..u], a)
    ensures SkipGroup(tag, s) == Some(u)
    decreases |s|, 0
  {
    hide Decode, SkipContent, SkipGroup, IsVarint64, IsSkipped, Sum128;
    var c := s[..u];
    if a == 0 {
      assert c[0..] == c;
      Varint64Exactly(s, tag * 8 + 4, u);
      GroupEnds(tag, s);
    } else {
      var front := c[..a];
      assert front == s[..a];
      SeriesBegins(front);
      var x: nat, y: nat :| StartsRecord(front, x, y) && IsSeries(front[y..]);
      var key := Sum128(front[..x]);
      assert front[..x] == s[..x];
      assert front[x..y] == s[x..y];
      assert s[x..][..y - x] == s[x..y];
      Varint64Exactly(s, key, x);
      SkippedExactly(key / 8, key % 8, s[x..], y - x);
      NoLooseEnd(key / 8, s[x..], key % 8);
      var inner := s[y..][..u - y];
      assert inner == s[y..u];
      assert inner[..a - y] == front[y..];
      assert inner[a - y..] == c[a..];
      GroupIsRead(tag, s[y..], u - y, a - y);
      assert s[x + (y - x)..] == s[y..];
      GroupGoesOn(tag, s, y - x);
    }
  }

  // ---- Messages read -------------------------------------------------------------------

  // Numbers one after the other.
  ghost predicate IsPacked(k: Scalar, c: seq<byte>, vs: seq<Val>) {
    if vs == [] then c == []
    else vs[0].N? && exists u: nat :: 0 < u <= |c| && IsNumber(k, c[..u], vs[0].n) && IsPacked(k, c[u..], vs[1..])
  }

  lemma {:induction false} PackedExactly(k: Scalar, s: seq<byte>, vs: seq<Val>)
    ensures DecodePacked(k, s) == Some(vs) <==> IsPacked(k, s, vs)
    decreases |vs|
  {
    hide DecodeScalar, IsNumber;
    PackedStep(k, s, vs);
    if vs != [] && vs[0].N? {
      forall u: nat | u <= |s|
        ensures DecodeScalar(k, s) == Some(Read(vs[0].n, u)) <==> IsNumber(k, s[..u], vs[0].n)
        ensures DecodePacked(k, s[u..]) == Some(vs[1..]) <==> IsPacked(k, s[u..], vs[1..]) {
        NumberExactly(k, s, vs[0].n, u);
        PackedExactly(k, s[u..], vs[1..]);
      }
      if DecodePacked(k, s) == Some(vs) {
        var u := DecodeScalar(k, s).value.used;
        assert IsPacked(k, s[u..], vs[1..]);
      }
    }
  }

  // What packed numbers begin with.
  lemma {:induction false} PackedStep(k: Scalar, s: seq<byte>, vs: seq<Val>)
    ensures vs == [] ==> (DecodePacked(k, s) == Some(vs) <==> s == [])
    ensures vs != [] ==>
      (DecodePacked(k, s) == Some(vs) <==>
        && s != [] && DecodeScalar(k, s).Some? && vs[0] == N(DecodeScalar(k, s).value.value)
        && DecodePacked(k, s[DecodeScalar(k, s).value.used..]) == Some(vs[1..]))
  {
    hide DecodeScalar;
    if s != [] && DecodeScalar(k, s).Some? {
      var Read(n, used) := DecodeScalar(k, s).value;
      var rest := DecodePacked(k, s[used..]);
      if rest.Some? {
        assert ([N(n)] + rest.value)[1..] == rest.value;
        if vs != [] && vs[0] == N(n) && rest.value == vs[1..] {
          assert vs == [N(n)] + rest.value;
        }
      }
    }
  }

  // A message with nothing in it: absent fields, required numbers 0.
  function Empty(fs: Schema): Message {
    seq(|fs|, i requires 0 <= i < |fs| => match fs[i] case Req(_, _) => [N(0)] case _ => [])
  }

  // Content `c` under wire type `w` turns the values `have` of field `f` into `after`.
  ghost predicate IsRead(f: Field, w: nat, c: seq<byte>, have: seq<Val>, after: seq<Val>)
    decreases f, 1
  {
    if f.Rep? && f.ty.Num? && w == 2 then
      && |have| <= |after| && after[..|have|] == have
      && exists content :: IsDelimited(c, content) && IsPacked(f.ty.scalar, content, after[|have|..])
    else if f.Rep? then |after| == |have| + 1 && after[..|have|] == have && IsValue(f, w, c, [], after[|have|])
    else |after| == 1 && IsValue(f, w, c, have, after[0])
  }

  // `v` is the value that content `c` under wire type `w` gives field `f`. An embedded
  // message is read on top of the one there.
  ghost predicate IsValue(f: Field, w: nat, c: seq<byte>, have: seq<Val>, v: Val)
    decreases f, 0
  {
    if f.Req? then w == TypeNumber(f.scalar) && v.N? && IsNumber(f.scalar, c, v.n)
    else
      match f.ty
      case Num(k) => w == TypeNumber(k) && v.N? && IsNumber(k, c, v.n)
      case Bytes => w == 2 && v.B? && IsDelimited(c, v.bytes)
      case Msg(schema) =>
        && w == 2 && v.M?
        && var base := if have != [] && have[0].M? then have[0].msg else Empty(schema);
          exists content :: IsDelimited(c, content) && IsMessageRead(schema, content, base, v.msg)
  }

  // The wire type of each kind of number.
  function TypeNumber(k: Scalar): nat {
    match k
    case Int32 => 0
    case Uint32 => 0
    case Uint64 => 0
    case Bool => 0
    case Fixed64 => 1
    case Fixed32 => 5
  }

  // A record with this key and content turns `m` into `after`: the field of its tag takes
  // it, or, when there is none, it can be skipped.
  ghost predicate IsRecordRead(fs: Schema, key: nat, c: seq<byte>, m: Message, after: Message)
    decreases fs, 0
  {
    && |m| == |after| == |fs|
    && (forall i :: 0 <= i < |fs| ==>
      if fs[i].tag == key / 8 then IsRead(fs[i], key % 8, c, m[i], after[i]) else after[i] == m[i])
    && ((forall i :: 0 <= i < |fs| ==> fs[i].tag != key / 8) ==> IsSkipped(key / 8, key % 8, c))
  }

  // Bytes that are whole records and turn `m` into `after`.
  ghost predicate IsMessageRead(fs: Schema, s: seq<byte>, m: Message, after: Message)
    decreases fs, 1, |s|
  {
    if s == [] then after == m
    else
      exists a: nat, b: nat, next: Message ::
        && 0 < a <= b <= |s| && IsKey(s[..a])
        && IsRecordRead(fs, Sum128(s[..a]), s[a..b], m, next) && IsMessageRead(fs, s[b..], next, after)
  }

  // Bytes are read into a message exactly as stated above, and refused otherwise.
  lemma {:induction false} MessageReadExactly(fs: Schema, s: seq<byte>, m: Message, after: Message)
    requires WellFormed(fs) && Typed(fs, m)
    ensures Merge(fs, s, m) == Some(after) <==> IsMessageRead(fs, s, m, after)
    decreases fs, 3, |s|
  {
    hide Merge, MergeRecord, IsKey, IsRecordRead, WellFormed, Typed, Sum128;
    if s == [] {
      MergeNothing(fs, m);
    } else {
      if Merge(fs, s, m) == Some(after) {
        MergeBegins(fs, s, m);
        var Read(next, b) := MergeRecord(fs, s, m).value;
        MergeFirst(fs, s, m);
        RecordRead(fs, s, m);
        MessageReadExactly(fs, s[b..], next, after);
      }
      forall a: nat, b: nat, next: Message | 0 < a <= b <= |s| && IsKey(s[..a])
        && IsRecordRead(fs, Sum128(s[..a]), s[a..b], m, next) && IsMessageRead(fs, s[b..], next, after)
        ensures Merge(fs, s, m) == Some(after) {
        RecordIsRead(fs, s, m, a, b, next);
        MergeFirst(fs, s, m);
        MessageReadExactly(fs, s[b..], next, after);
      }
    }
  }

  lemma MergeBegins(fs: Schema, s: seq<byte>, m: Message)
    requires s != [] && Typed(fs, m) && Merge(fs, s, m).Some?
    ensures MergeRecord(fs, s, m).Some?
    ensures var Read(next, b) := MergeRecord(fs, s, m).value; 1 <= b <= |s| && Typed(fs, next)
  {
    hide MergeRecord, Typed;
  }

  lemma {:induction false} RecordRead(fs: Schema, s: seq<byte>, m: Message)
    requires WellFormed(fs) && Typed(fs, m) && MergeRecord(fs, s, m).Some?
    ensures var Read(next, b) := MergeRecord(fs, s, m).value;
      exists a: nat :: 0 < a <= b <= |s| && IsKey(s[..a]) && IsRecordRead(fs, Sum128(s[..a]), s[a..b], m, next)
    decreases fs, 2
  {
    hide Decode, MergeContent, WellFormed, Typed, Sum128, IsVarint64, IsRecordRead;
    var Read(next, b) := MergeRecord(fs, s, m).value;
    var Read(key, a) := Decode(s).value;
    Varint64Exactly(s, key, a);
    KeyAccepted(fs, key, s[a..], m);
    ContentReadExactly(fs, key, s[a..], m, next, b - a);
    assert s[a..][..b - a] == s[a..b];
  }

  lemma KeyAccepted(fs: Schema, key: nat, s: seq<byte>, m: Message)
    requires Typed(fs, m) && MergeContent(fs, key, s, m).Some?
    ensures 8 <= key < 0x1_0000_0000
  {
    hide Typed;
  }

  lemma {:induction false} RecordIsRead(fs: Schema, s: seq<byte>, m: Message, a: nat, b: nat, next: Message)
    requires WellFormed(fs) && Typed(fs, m) && 0 < a <= b <= |s| && IsKey(s[..a])
    requires IsRecordRead(fs, Sum128(s[..a]), s[a..b], m, next)
    ensures MergeRecord(fs, s, m) == Some(Read(next, b))
    decreases fs, 2
  {
    hide Decode, MergeContent, WellFormed, Typed, Sum128, IsVarint64, IsRecordRead;
    var key := Sum128(s[..a]);
    Varint64Exactly(s, key, a);
    assert s[a..][..b - a] == s[a..b];
    ContentReadExactly(fs, key, s[a..], m, next, b - a);
  }

  lemma {:induction false} ContentReadExactly(
      fs: Schema, key: nat, s: seq<byte>, m: Message, next: Message, u: nat)
    requires WellFormed(fs) && Typed(fs, m) && 8 <= key < 0x1_0000_0000
    ensures MergeContent(fs, key, s, m) == Some(Read(next, u))
       <==> u <= |s| && IsRecordRead(fs, key, s[..u], m, next)
    decreases fs, 1
  {
    hide ReadContent, SkipContent, Typed, WellFormedAfter, IsRead, IsSkipped;
    SameLength(fs, m);
    var i := IndexOf(fs, key / 8);
    if i == |fs| {
      SkippedExactly(key / 8, key % 8, s, u);
      if u <= |s| && IsRecordRead(fs, key, s[..u], m, next) {
        assert next == m;
      }
    } else {
      OnlyField(fs, i);
      TypedSlot(fs, m, i);
      if ReadContent(fs[i], key % 8, s, m[i]).Some? {
        var Read(vs, used) := ReadContent(fs[i], key % 8, s, m[i]).value;
        FieldReadExactly(fs[i], key % 8, s, m[i], vs, used);
      }
      if u <= |s| && IsRecordRead(fs, key, s[..u], m, next) {
        FieldReadExactly(fs[i], key % 8, s, m[i], next[i], u);
        assert next == m[i := next[i]];
      }
    }
  }

  // No other field has the tag of field `i`.
  lemma OnlyField(fs: Schema, i: nat)
    requires WellFormed(fs) && i < |fs|
    ensures WellFormedField(fs[i])
    ensures forall j :: 0 <= j < |fs| && fs[j].tag == fs[i].tag ==> j == i
  {
    hide WellFormed, IndexOf, WellFormedField;
    IndexOfTag(fs, i);
    forall j | 0 <= j < |fs| && fs[j].tag == fs[i].tag ensures j == i {
      IndexOfTag(fs, j);
    }
  }

  lemma {:induction false} FieldReadExactly(
      f: Field, w: nat, s: seq<byte>, have: seq<Val>, after: seq<Val>, u: nat)
    requires WellFormedField(f) && TypedField(f, have)
    ensures ReadContent(f, w, s, have) == Some(Read(after, u)) <==> u <= |s| && IsRead(f, w, s[..u], have, after)
    decreases f, 2
  {
    hide DecodeDelimited, DecodePacked, DecodeScalar, IsDelimited, IsPacked, IsNumber, Merge, IsMessageRead;
    if f.Rep? && f.ty.Num? && w == 2 {
      PackedRead(f, s, have, after, u);
    } else if f.Req? {
      if after != [] && after[0].N? {
        NumberExactly(f.scalar, s, after[0].n, u);
        assert |after| == 1 ==> after == [N(after[0].n)];
      }
    } else if f.ty.Msg? {
      MessageFieldRead(f, w, s, have, after, u);
    } else if f.ty.Num? {
      var v := if f.Rep? then |have| else 0;
      if v < |after| && after[v].N? {
        NumberExactly(f.ty.scalar, s, after[v].n, u);
      }
      PutIs(f, have, after);
    } else {
      var v := if f.Rep? then |have| else 0;
      if v < |after| && after[v].B? {
        DelimitedExactly(s, after[v].bytes, u);
      }
      PutIs(f, have, after);
    }
  }

  lemma PutIs(f: Field, have: seq<Val>, after: seq<Val>)
    ensures forall v :: f.Rep? ==>
      (after == Put(f, have, v) <==> |after| == |have| + 1 && after[..|have|] == have && after[|have|] == v)
    ensures forall v :: !f.Rep? ==> (after == Put(f, have, v) <==> |after| == 1 && after[0] == v)
  {
    if |after| == |have| + 1 && after[..|have|] == have {
      assert after == have + [after[|have|]];
    }
  }

  lemma PackedRead(f: Field, s: seq<byte>, have: seq<Val>, after: seq<Val>, u: nat)
    requires f.Rep? && f.ty.Num? && TypedField(f, have)
    ensures ReadContent(f, 2, s, have) == Some(Read(after, u)) <==> u <= |s| && IsRead(f, 2, s[..u], have, after)
  {
    hide DecodeDelimited, DecodePacked, IsDelimited, IsPacked;
    var k := f.ty.scalar;
    if DecodeDelimited(s).Some? {
      var Read(content, n) := DecodeDelimited(s).value;
      DelimitedExactly(s, content, n);
      if DecodePacked(k, content).Some? {
        var vs := DecodePacked(k, content).value;
        PackedExactly(k, content, vs);
        assert (have + vs)[..|have|] == have && (have + vs)[|have|..] == vs;
      }
    }
    if u <= |s| && IsRead(f, 2, s[..u], have, after) {
      var content :| IsDelimited(s[..u], content) && IsPacked(k, content, after[|have|..]);
      DelimitedExactly(s, content, u);
      PackedExactly(k, content, after[|have|..]);
      assert after == have + after[|have|..];
    }
  }

  lemma {:induction false} MessageFieldRead(
      f: Field, w: nat, s: seq<byte>, have: seq<Val>, after: seq<Val>, u: nat)
    requires WellFormedField(f) && TypedField(f, have) && !f.Req? && f.ty.Msg?
    ensures ReadContent(f, w, s, have) == Some(Read(after, u)) <==> u <= |s| && IsRead(f, w, s[..u], have, after)
    decreases f, 1
  {
    hide DecodeDelimited, IsDelimited, Merge, Default, Typed;
    var schema := f.ty.schema;
    var base := if f.Opt? && have != [] then MsgOf(f, have[0]) else Default(schema);
    HeldMessage(f, have);
    if w == 2 && DecodeDelimited(s).Some? {
      var Read(content, n) := DecodeDelimited(s).value;
      DelimitedExactly(s, content, n);
      if Merge(schema, content, base).Some? {
        MessageReadExactly(schema, content, base, Merge(schema, content, base).value);
      }
    }
    PutIs(f, have, after);
    var v := if f.Rep? then |have| else 0;
    if u <= |s| && w == 2 && v < |after| && after[v].M? {
      MessageValue(f, s[..u], if f.Rep? then [] else have, after[v], base);
      forall content | IsDelimited(s[..u], content) && IsMessageRead(schema, content, base, after[v].msg)
        ensures DecodeDelimited(s) == Some(Read(content, u))
        ensures Merge(schema, content, base) == Some(after[v].msg) {
        DelimitedExactly(s, content, u);
        MessageReadExactly(schema, content, base, after[v].msg);
      }
    }
  }

  lemma MessageValue(f: Field, c: seq<byte>, have: seq<Val>, v: Val, base: Message)
    requires !f.Req? && f.ty.Msg? && v.M?
    requires base == if have != [] && have[0].M? then have[0].msg else Empty(f.ty.schema)
    ensures IsValue(f, 2, c, have, v)
       <==> exists content :: IsDelimited(c, content) && IsMessageRead(f.ty.schema, content, base, v.msg)
  {
    hide IsDelimited;
  }

  lemma EmptyIsDefault(fs: Schema)
    ensures Empty(fs) == Default(fs)
  {
  }

  lemma HeldMessage(f: Field, have: seq<Val>)
    requires TypedField(f, have) && !f.Req? && f.ty.Msg?
    ensures Empty(f.ty.schema) == Default(f.ty.schema)
    ensures f.Opt? && have != [] ==> have[0].M? && TypedOne(f, have[0])
  {
    if f.Opt? && have != [] {
      assert TypedOne(f, have[0]) && TypedVal(f.ty, have[0]);
    }
  }
}
