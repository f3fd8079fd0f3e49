// A schema-driven model of the protobuf wire format that the generated structs
// are read and written with (Protocol Buffers Encoding specification, sections
// "Message Structure", "Length-Delimited Records" and "Last One Wins").
module Wire {
  import opened Basics
  import opened Varint

  datatype Scalar = Int32 | Uint32 | Uint64 | Bool | Fixed32 | Fixed64

  datatype Ty = Num(scalar: Scalar) | Bytes | Msg(schema: Schema)

  datatype Field =
    | Opt(tag: nat, ty: Ty)
    | Req(tag: nat, scalar: Scalar)
    | Rep(tag: nat, ty: Ty)

  type Schema = seq<Field>

  datatype Val = N(n: int) | B(bytes: seq<byte>) | M(msg: Message)

  // For each field of the schema, in order, the values it holds.
  type Message = seq<seq<Val>>

  // ---- Types ---------------------------------------------------------------

  predicate InRange(k: Scalar, n: int) {
    match k
    case Int32 => -0x8000_0000 <= n < 0x8000_0000
    case Uint32 => 0 <= n < 0x1_0000_0000
    case Uint64 => 0 <= n < 0x1_0000_0000_0000_0000
    case Bool => n == 0 || n == 1
    case Fixed32 => 0 <= n < 0x1_0000_0000
    case Fixed64 => 0 <= n < 0x1_0000_0000_0000_0000
  }

  predicate TypedVal(ty: Ty, v: Val)
    decreases ty, 0
  {
    match ty
    case Num(k) => v.N? && InRange(k, v.n)
    case Bytes => v.B?
    case Msg(schema) => v.M? && Typed(schema, v.msg)
  }

  // One value a field may hold.
  predicate TypedOne(f: Field, v: Val)
    decreases f, 1
  {
    if f.Req? then v.N? && InRange(f.scalar, v.n) else TypedVal(f.ty, v)
  }

  predicate TypedField(f: Field, vs: seq<Val>)
    decreases f, 2
  {
    && (f.Opt? ==> |vs| <= 1)
    && (f.Req? ==> |vs| == 1)
    && forall i :: 0 <= i < |vs| ==> TypedOne(f, vs[i])
  }

  predicate Typed(fs: Schema, m: Message)
    decreases fs, 3
  {
    |fs| == |m| && forall i :: 0 <= i < |fs| ==> TypedField(fs[i], m[i])
  }

  // Tags are what prost accepts as a key, in the increasing order it writes them in.
  predicate WellFormed(fs: Schema) {
    WellFormedAfter(fs, 0)
  }

  predicate WellFormedAfter(fs: Schema, last: nat)
    decreases fs
  {
    fs == [] || (last < fs[0].tag < 0x2000_0000 && WellFormedField(fs[0]) && WellFormedAfter(fs[1..], fs[0].tag))
  }

  predicate WellFormedField(f: Field)
    decreases f
  {
    !f.Req? && f.ty.Msg? ==> WellFormedAfter(f.ty.schema, 0)
  }

  // A message before anything is read: required numbers 0, everything else absent.
  function Default(fs: Schema): (m: Message)
    ensures Typed(fs, m)
  {
    seq(|fs|, i requires 0 <= i < |fs| => if fs[i].Req? then [N(0)] else [])
  }

  // ---- Fixed-width numbers ---------------------------------------------------

  function Pow256(w: nat): nat
    ensures Pow256(w) >= 1
  {
    if w == 0 then 1 else 256 * Pow256(w - 1)
  }

  function LittleEndian(n: nat, w: nat): (s: seq<byte>)
    ensures |s| == w
  {
    if w == 0 then [] else [n % 256] + LittleEndian(n / 256, w - 1)
  }

  function FromLittleEndian(s: seq<byte>): (n: nat)
    ensures n < Pow256(|s|)
  {
    if s == [] then 0 else s[0] + 256 * FromLittleEndian(s[1..])
  }

  lemma {:induction false} LittleEndianRoundTrip(n: nat, w: nat)
    requires n < Pow256(w)
    ensures FromLittleEndian(LittleEndian(n, w)) == n
  {
    if w > 0 {
      LittleEndianRoundTrip(n / 256, w - 1);
      assert LittleEndian(n, w)[1..] == LittleEndian(n / 256, w - 1);
    }
  }

  lemma Pow256Values()
    ensures Pow256(4) == TWO_32 && Pow256(8) == TWO_64
  {
    assert Pow256(2) == 0x1_0000;
    assert Pow256(4) == TWO_32;
    assert Pow256(6) == 0x1_0000_0000_0000;
  }

  // ---- Encoding ----------------------------------------------------------------

  const VARINT := 0
  const I64 := 1
  const LEN := 2
  const SGROUP := 3
  const EGROUP := 4
  const I32 := 5

  function WireType(k: Scalar): nat {
    match k
    case Fixed64 => I64
    case Fixed32 => I32
    case _ => VARINT
  }

  function FieldWireType(f: Field): nat {
    if f.Req? then WireType(f.scalar) else if f.ty.Num? then WireType(f.ty.scalar) else LEN
  }

  // A negative int32 is sign-extended to 64 bits first and so takes ten bytes.
  function EncodeScalar(k: Scalar, n: int): seq<byte> {
    match k
    case Fixed64 => LittleEndian(AsUint64(n), 8)
    case Fixed32 => LittleEndian(AsUint32(n), 4)
    case _ => Encode(AsUint64(n))
  }

  function Delimited(content: seq<byte>): seq<byte> {
    Encode(|content|) + content
  }

  function Key(f: Field): seq<byte> {
    Encode(f.tag * 8 + FieldWireType(f))
  }

  function EncodeVal(ty: Ty, v: Val): seq<byte>
    requires TypedVal(ty, v)
    decreases ty, 0
  {
    match ty
    case Num(k) => EncodeScalar(k, v.n)
    case Bytes => Delimited(v.bytes)
    case Msg(schema) => Delimited(EncodeMsg(schema, v.msg))
  }

  function RecordContent(f: Field, v: Val): seq<byte>
    requires TypedOne(f, v)
    decreases f, 1
  {
    if f.Req? then EncodeScalar(f.scalar, v.n) else EncodeVal(f.ty, v)
  }

  // One record: key, then content.
  function EncodeRecord(f: Field, v: Val): seq<byte>
    requires TypedOne(f, v)
    decreases f, 2
  {
    Key(f) + RecordContent(f, v)
  }

  // Repeated fields are written unpacked, one record an element.
  function EncodeRecords(f: Field, vs: seq<Val>): seq<byte>
    requires forall i :: 0 <= i < |vs| ==> TypedOne(f, vs[i])
    decreases f, 3, |vs|
  {
    if vs == [] then [] else EncodeRecord(f, vs[0]) + EncodeRecords(f, vs[1..])
  }

  function EncodeMsg(fs: Schema, m: Message): seq<byte>
    requires Typed(fs, m)
    decreases fs, 3
  {
    if fs == [] then []
    else
      assert TypedField(fs[0], m[0]);
      EncodeRecords(fs[0], m[0]) + EncodeMsg(fs[1..], m[1..])
  }

  // ---- Decoding ------------------------------------------------------------------

  function DecodeScalar(k: Scalar, s: seq<byte>): (r: Option<Read<int>>)
    ensures r.Some? ==> 1 <= r.value.used <= |s| && InRange(k, r.value.value)
  {
    match k
    case Fixed64 => Pow256Values();
      if |s| < 8 then None else Some(Read(FromLittleEndian(s[..8]), 8))
    case Fixed32 => Pow256Values();
      if |s| < 4 then None else Some(Read(FromLittleEndian(s[..4]), 4))
    case _ =>
      match Decode(s)
      case None => None
      case Some(Read(v, used)) => Some(Read(Narrow(k, v), used))
  }

  // What a 64-bit varint means for each varint type: casts truncate, bool is "not zero".
  function Narrow(k: Scalar, v: uint64): (n: int)
    ensures !k.Fixed32? && !k.Fixed64? ==> InRange(k, n)
  {
    match k
    case Int32 => AsInt32(v)
    case Uint32 => AsUint32(v)
    case Bool => if v != 0 then 1 else 0
    case _ => v
  }

  // The content of a length-delimited record.
  function DecodeDelimited(s: seq<byte>): (r: Option<Read<seq<byte>>>)
    ensures r.Some? ==> 1 <= r.value.used <= |s| && |r.value.value| < |s|
  {
    match Decode(s)
    case None => None
    case Some(Read(len, n)) =>
      if len > |s| - n then None else Some(Read(s[n..n + len], n + len))
  }

  function DecodePacked(k: Scalar, s: seq<byte>): (r: Option<seq<Val>>)
    ensures r.Some? ==> forall i :: 0 <= i < |r.value| ==> TypedVal(Num(k), r.value[i])
  {
    if s == [] then Some([])
    else
      match DecodeScalar(k, s)
      case None => None
      case Some(Read(n, used)) =>
        match DecodePacked(k, s[used..])
        case None => None
        case Some(vs) => Some([N(n)] + vs)
  }

  // Bytes taken by the content of a field the schema does not know. A group lasts until
  // the record that ends the group of its own tag.
  function SkipContent(tag: nat, wireType: nat, s: seq<byte>): (r: Option<nat>)
    ensures r.Some? ==> r.value <= |s|
    decreases |s|, 1
  {
    if wireType == VARINT then
      match Decode(s) case None => None case Some(Read(_, n)) => Some(n)
    else if wireType == I64 then if |s| < 8 then None else Some(8)
    else if wireType == I32 then if |s| < 4 then None else Some(4)
    else if wireType == LEN then
      match DecodeDelimited(s) case None => None case Some(Read(_, n)) => Some(n)
    else if wireType == SGROUP then SkipGroup(tag, s)
    else None
  }

  // Bytes taken by the rest of a group: its records, groups among them, and its end.
  function SkipGroup(tag: nat, s: seq<byte>): (r: Option<nat>)
    ensures r.Some? ==> 1 <= r.value <= |s|
    decreases |s|, 0
  {
    match Decode(s)
    case None => None
    case Some(Read(key, n)) =>
      if key >= TWO_32 || key / 8 == 0 then None
      else if key % 8 == EGROUP then if key / 8 == tag then Some(n) else None
      else
        match SkipContent(key / 8, key % 8, s[n..])
        case None => None
        case Some(used) =>
          match SkipGroup(tag, s[n + used..])
          case None => None
          case Some(more) => Some(n + used + more)
  }

  function IndexOf(fs: Schema, tag: nat): (i: nat)
    ensures i <= |fs|
    ensures i < |fs| ==> fs[i].tag == tag
    ensures i == |fs| ==> forall j :: 0 <= j < |fs| ==> fs[j].tag != tag
  {
    if fs == [] then 0 else if fs[0].tag == tag then 0 else 1 + IndexOf(fs[1..], tag)
  }

  // The values field `f` holds once the record content at the front of `s` is read:
  // a scalar replaces, a nested message merges, a repeated field grows.
  function ReadContent(f: Field, wireType: nat, s: seq<byte>, old': seq<Val>): (r: Option<Read<seq<Val>>>)
    requires TypedField(f, old')
    ensures r.Some? ==> 1 <= r.value.used <= |s| && TypedField(f, r.value.value)
    decreases f, 1
  {
    if f.Rep? && f.ty.Num? && wireType == LEN then
      match DecodeDelimited(s)
      case None => None
      case Some(Read(content, n)) =>
        (match DecodePacked(f.ty.scalar, content)
         case None => None
         case Some(vs) => Some(Read(old' + vs, n)))
    else if wireType != FieldWireType(f) then None
    else if f.Req? then
      match DecodeScalar(f.scalar, s)
      case None => None
      case Some(Read(n, used)) => Some(Read([N(n)], used))
    else
      match f.ty
      case Num(k) =>
        (match DecodeScalar(k, s)
         case None => None
         case Some(Read(n, used)) => Some(Read(Put(f, old', N(n)), used)))
      case Bytes =>
        (match DecodeDelimited(s)
         case None => None
         case Some(Read(content, n)) => Some(Read(Put(f, old', B(content)), n)))
      case Msg(schema) =>
        (match DecodeDelimited(s)
         case None => None
         case Some(Read(content, n)) =>
           var base := if f.Opt? && old' != [] then MsgOf(f, old'[0]) else Default(schema);
           match Merge(schema, content, base)
           case None => None
           case Some(m) => Some(Read(Put(f, old', M(m)), n)))
  }

  function MsgOf(f: Field, v: Val): (m: Message)
    requires !f.Req? && f.ty.Msg? && TypedOne(f, v)
    ensures Typed(f.ty.schema, m)
  {
    assert TypedVal(f.ty, v);
    v.msg
  }

  function Put(f: Field, old': seq<Val>, v: Val): seq<Val> {
    if f.Rep? then old' + [v] else [v]
  }

  // Reads the content of a record with this key from the front of `s` into `m`.
  function MergeContent(fs: Schema, key: nat, s: seq<byte>, m: Message): (r: Option<Read<Message>>)
    requires Typed(fs, m)
    ensures r.Some? ==> r.value.used <= |s| && Typed(fs, r.value.value)
    decreases fs, 2
  {
    var i := IndexOf(fs, key / 8);
    if key >= TWO_32 || key / 8 == 0 then None
    else if i == |fs| then
      match SkipContent(key / 8, key % 8, s)
      case None => None
      case Some(used) => Some(Read(m, used))
    else
      match ReadContent(fs[i], key % 8, s, m[i])
      case None => None
      case Some(Read(vs, used)) => Some(Read(m[i := vs], used))
  }

  // Reads one record from the front of `s` into `m`.
  function MergeRecord(fs: Schema, s: seq<byte>, m: Message): (r: Option<Read<Message>>)
    requires Typed(fs, m)
    ensures r.Some? ==> 1 <= r.value.used <= |s| && Typed(fs, r.value.value)
    decreases fs, 3
  {
    match Decode(s)
    case None => None
    case Some(Read(key, n)) =>
      match MergeContent(fs, key, s[n..], m)
      case None => None
      case Some(Read(m', used)) => Some(Read(m', n + used))
  }

  // Reads records until the bytes run out; any malformed record refuses the whole.
  function Merge(fs: Schema, s: seq<byte>, m: Message): (r: Option<Message>)
    requires Typed(fs, m)
    ensures r.Some? ==> Typed(fs, r.value)
    decreases fs, 4, |s|
  {
    if s == [] then Some(m)
    else
      match MergeRecord(fs, s, m)
      case None => None
      case Some(Read(m', n)) => Merge(fs, s[n..], m')
  }

  function DecodeMsg(fs: Schema, s: seq<byte>): (r: Option<Message>)
    ensures r.Some? ==> Typed(fs, r.value)
  {
    Merge(fs, s, Default(fs))
  }
}
