// What is written, byte by byte: a message laid out as lines of a tag and a piece, with
// every tag and every wire type as its number, and the bytes of such lines.
module WrittenBytes {
  import opened Basics
  import opened Varint
  import opened Wire
  import opened WireTheorems
  import opened WireBytes
  import opened Messages
  import MessagesTheorems

  datatype Piece = Number(v: nat) | Eight(v: nat) | Four(v: nat) | Text(bytes: seq<byte>) | Nested(lines: seq<Line>)

  datatype Line = Line(tag: nat, piece: Piece)

  // ---- The bytes of a layout ------------------------------------------------------

  // A key, tag * 8 + wire type as a varint, and the piece.
  ghost predicate IsLine(l: Line, s: seq<byte>)
    decreases l, 1
  {
    exists a: nat ::
      && a <= |s|
      && IsVarint(s[..a], l.tag * 8 + (match l.piece
                                       case Number(_) => 0
                                       case Eight(_) => 1
                                       case Text(_) => 2
                                       case Nested(_) => 2
                                       case Four(_) => 5))
      && IsPiece(l.piece, s[a..])
  }

  ghost predicate IsPiece(p: Piece, c: seq<byte>)
    decreases p, 0
  {
    match p
    case Number(v) => IsVarint(c, v)
    case Eight(v) => |c| == 8 && v == Sum256(c[..4]) + 0x1_0000_0000 * Sum256(c[4..])
    case Four(v) => |c| == 4 && v == Sum256(c)
    case Text(bytes) => IsPrefixed(c, bytes)
    case Nested(lines) => exists content :: IsPrefixed(c, content) && IsLines(lines, content)
  }

  // The length of `content` as a varint, then `content`.
  predicate IsPrefixed(c: seq<byte>, content: seq<byte>) {
    |content| <= |c| && IsVarint(c[..|c| - |content|], |content|) && c[|c| - |content|..] == content
  }

  ghost predicate IsLines(ls: seq<Line>, s: seq<byte>)
    decreases ls, 2
  {
    if ls == [] then s == []
    else exists a: nat :: a <= |s| && IsLine(ls[0], s[..a]) && IsLines(ls[1..], s[a..])
  }

  lemma {:induction false} MoreLines(a: seq<Line>, s: seq<byte>, b: seq<Line>, t: seq<byte>)
    requires IsLines(a, s) && IsLines(b, t)
    ensures IsLines(a + b, s + t)
    decreases |a|
  {
    hide IsLine;
    if a == [] {
      assert a + b == b && s + t == t;
    } else {
      var n: nat :| n <= |s| && IsLine(a[0], s[..n]) && IsLines(a[1..], s[n..]);
      MoreLines(a[1..], s[n..], b, t);
      assert (a + b)[1..] == a[1..] + b;
      assert (s + t)[..n] == s[..n] && (s + t)[n..] == s[n..] + t;
    }
  }

  lemma OneLine(l: Line, s: seq<byte>)
    requires IsLine(l, s)
    ensures IsLines([l], s)
  {
    hide IsLine;
    assert s[..|s|] == s;
  }

  // ---- The layout of field values ------------------------------------------------------

  function Flat(lines: seq<seq<Line>>): seq<Line> {
    if lines == [] then [] else lines[0] + Flat(lines[1..])
  }

  // A negative number stands in two's complement on 64 bits.
  function Unsigned(n: int): int {
    if n < 0 then n + 0x1_0000_0000_0000_0000 else n
  }

  function AsNat(n: int): nat {
    if n < 0 then 0 else n
  }

  function NumberPiece(k: Scalar, v: Val): Piece {
    var n := if v.N? then v.n else 0;
    match k
    case Fixed64 => Eight(AsNat(n))
    case Fixed32 => Four(AsNat(n))
    case _ => Number(AsNat(Unsigned(n)))
  }

  function PieceOf(ty: Ty, v: Val): Piece
    decreases ty, 0
  {
    match ty
    case Num(k) => NumberPiece(k, v)
    case Bytes => Text(if v.B? then v.bytes else [])
    case Msg(schema) => Nested(Lines(schema, if v.M? then v.msg else []))
  }

  function LineOf(f: Field, v: Val): Line
    decreases f, 1
  {
    Line(f.tag, if f.Req? then NumberPiece(f.scalar, v) else PieceOf(f.ty, v))
  }

  function FieldLines(f: Field, vs: seq<Val>): seq<Line>
    decreases f, 2
  {
    seq(|vs|, i requires 0 <= i < |vs| => LineOf(f, vs[i]))
  }

  function Lines(fs: Schema, m: Message): seq<Line>
    decreases fs, 3
  {
    Flat(seq(|fs|, i requires 0 <= i < |fs| => FieldLines(fs[i], Slot(m, i))))
  }

  lemma LinesStep(fs: Schema, m: Message)
    requires fs != [] && |m| == |fs|
    ensures Lines(fs, m) == FieldLines(fs[0], m[0]) + Lines(fs[1..], m[1..])
  {
    hide FieldLines;
    var all := seq(|fs|, i requires 0 <= i < |fs| => FieldLines(fs[i], Slot(m, i)));
    assert all[1..] == seq(|fs[1..]|, i requires 0 <= i < |fs[1..]| => FieldLines(fs[1..][i], Slot(m[1..], i)));
  }

  // ---- Everything is written as its layout says -----------------------------------------

  lemma FixedWritten(n: nat, w: nat)
    requires n < Pow256(w)
    ensures w == 4 ==> n == Sum256(LittleEndian(n, 4))
    ensures w == 8 ==> n == Sum256(LittleEndian(n, 8)[..4]) + 0x1_0000_0000 * Sum256(LittleEndian(n, 8)[4..])
  {
    hide LittleEndian, FromLittleEndian, Sum256;
    LittleEndianRoundTrip(n, w);
    FixedNumber(LittleEndian(n, w));
  }

  lemma ScalarWritten(k: Scalar, n: int)
    requires InRange(k, n)
    ensures IsPiece(NumberPiece(k, N(n)), EncodeScalar(k, n))
  {
    hide LittleEndian, Encode, Sum256, IsVarint, Pow256;
    Pow256Values();
    match k
    case Fixed64 => FixedWritten(n, 8);
    case Fixed32 => FixedWritten(n, 4);
    case _ =>
      assert AsUint64(n) == Unsigned(n);
      VarintWritten(AsUint64(n));
  }

  lemma DelimitedWritten(content: seq<byte>)
    ensures IsPrefixed(Delimited(content), content)
  {
    hide IsVarint;
    VarintWritten(|content|);
    var c := Delimited(content);
    assert c[..|c| - |content|] == Encode(|content|);
  }

  lemma {:induction false} PieceWritten(ty: Ty, v: Val)
    requires TypedVal(ty, v)
    ensures IsPiece(PieceOf(ty, v), EncodeVal(ty, v))
    decreases ty, 0
  {
    hide EncodeScalar, IsPrefixed, EncodeMsg, Lines, NumberPiece;
    match ty
    case Num(k) => ScalarWritten(k, v.n);
    case Bytes => DelimitedWritten(v.bytes);
    case Msg(schema) =>
      MessageWritten(schema, v.msg);
      DelimitedWritten(EncodeMsg(schema, v.msg));
      NestedPiece(Lines(schema, v.msg), EncodeVal(ty, v), EncodeMsg(schema, v.msg));
  }

  lemma NestedPiece(lines: seq<Line>, c: seq<byte>, content: seq<byte>)
    requires IsPrefixed(c, content) && IsLines(lines, content)
    ensures IsPiece(Nested(lines), c)
  {
    hide IsPrefixed;
  }

  lemma {:induction false} RecordWritten(f: Field, v: Val)
    requires TypedOne(f, v)
    ensures IsLine(LineOf(f, v), EncodeRecord(f, v))
    decreases f, 1
  {
    hide IsVarint, IsPiece, EncodeVal, EncodeScalar, Encode;
    var w := FieldWireType(f);
    VarintWritten(f.tag * 8 + w);
    if f.Req? {
      ScalarWritten(f.scalar, v.n);
    } else {
      PieceWritten(f.ty, v);
    }
    var s := EncodeRecord(f, v);
    assert s[..|Key(f)|] == Key(f);
    assert s[|Key(f)|..] == RecordContent(f, v);
  }

  lemma {:induction false} RecordsWritten(f: Field, vs: seq<Val>)
    requires forall i :: 0 <= i < |vs| ==> TypedOne(f, vs[i])
    ensures IsLines(FieldLines(f, vs), EncodeRecords(f, vs))
    decreases f, 2, |vs|
  {
    hide IsLine, EncodeRecord, LineOf, TypedOne;
    if vs != [] {
      RecordWritten(f, vs[0]);
      RecordsWritten(f, vs[1..]);
      OneLine(LineOf(f, vs[0]), EncodeRecord(f, vs[0]));
      MoreLines([LineOf(f, vs[0])], EncodeRecord(f, vs[0]), FieldLines(f, vs[1..]), EncodeRecords(f, vs[1..]));
      assert FieldLines(f, vs) == [LineOf(f, vs[0])] + FieldLines(f, vs[1..]);
    }
  }

  // A message is written as the lines of its fields, in the order of the schema.
  lemma {:induction false} MessageWritten(fs: Schema, m: Message)
    requires Typed(fs, m)
    ensures IsLines(Lines(fs, m), EncodeMsg(fs, m))
    decreases fs, 3
  {
    hide IsLines, EncodeRecords, FieldLines, TypedOne;
    if fs == [] {
      NoLines();
    } else {
      LinesStep(fs, m);
      assert TypedField(fs[0], m[0]);
      RecordsWritten(fs[0], m[0]);
      MessageWritten(fs[1..], m[1..]);
      MoreLines(FieldLines(fs[0], m[0]), EncodeRecords(fs[0], m[0]), Lines(fs[1..], m[1..]),
        EncodeMsg(fs[1..], m[1..]));
    }
  }

  lemma NoLines()
    ensures IsLines([], [])
  {
  }
}
