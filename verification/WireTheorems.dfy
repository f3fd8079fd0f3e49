// What the wire format of module Wire guarantees: reading undoes writing for every
// schema, concatenating bytes merges messages, and unknown fields are harmless.
module WireTheorems {
  import opened Basics
  import opened Varint
  import opened Wire

  // ---- Reading depends only on the bytes it takes -----------------------------

  lemma DelimitedStable(s: seq<byte>, rest: seq<byte>)
    requires DecodeDelimited(s).Some?
    ensures DecodeDelimited(s + rest) == DecodeDelimited(s)
  {
    Stable(s, rest);
    var Read(len, n) := Decode(s).value;
    assert (s + rest)[n..n + len] == s[n..n + len];
  }

  lemma ScalarStable(k: Scalar, s: seq<byte>, rest: seq<byte>)
    requires DecodeScalar(k, s).Some?
    ensures DecodeScalar(k, s + rest) == DecodeScalar(k, s)
  {
    match k
    case Fixed64 => assert (s + rest)[..8] == s[..8];
    case Fixed32 => assert (s + rest)[..4] == s[..4];
    case _ => Stable(s, rest);
  }

  lemma {:induction false} SkipStable(tag: nat, wireType: nat, s: seq<byte>, rest: seq<byte>)
    requires SkipContent(tag, wireType, s).Some?
    ensures SkipContent(tag, wireType, s + rest) == SkipContent(tag, wireType, s)
    decreases |s|, 1
  {
    hide Decode, DecodeDelimited, SkipGroup;
    if wireType == VARINT {
      Stable(s, rest);
    } else if wireType == LEN {
      DelimitedStable(s, rest);
    } else if wireType == SGROUP {
      GroupStable(tag, s, rest);
    }
  }

  lemma {:induction false} GroupStable(tag: nat, s: seq<byte>, rest: seq<byte>)
    requires SkipGroup(tag, s).Some?
    ensures SkipGroup(tag, s + rest) == SkipGroup(tag, s)
    decreases |s|, 0
  {
    hide Decode, SkipContent, SkipGroup;
    GroupParts(tag, s);
    Stable(s, rest);
    var Read(key, n) := Decode(s).value;
    assert (s + rest)[n..] == s[n..] + rest;
    if key % 8 == EGROUP {
      GroupEnds(tag, s);
      GroupEnds(tag, s + rest);
    } else {
      SkipStable(key / 8, key % 8, s[n..], rest);
      var used := SkipContent(key / 8, key % 8, s[n..]).value;
      assert (s + rest)[n + used..] == s[n + used..] + rest;
      GroupStable(tag, s[n + used..], rest);
      GroupGoesOn(tag, s, used);
      GroupGoesOn(tag, s + rest, used);
    }
  }

  lemma ContentStable(f: Field, wireType: nat, s: seq<byte>, rest: seq<byte>, vs: seq<Val>)
    requires TypedField(f, vs) && ReadContent(f, wireType, s, vs).Some?
    ensures ReadContent(f, wireType, s + rest, vs) == ReadContent(f, wireType, s, vs)
  {
    if f.Rep? && f.ty.Num? && wireType == LEN {
      DelimitedStable(s, rest);
    } else if f.Req? {
      ScalarStable(f.scalar, s, rest);
    } else if f.ty.Num? {
      ScalarStable(f.ty.scalar, s, rest);
    } else {
      DelimitedStable(s, rest);
    }
  }

  lemma MergeContentStable(fs: Schema, key: nat, s: seq<byte>, rest: seq<byte>, m: Message)
    requires Typed(fs, m) && MergeContent(fs, key, s, m).Some?
    ensures MergeContent(fs, key, s + rest, m) == MergeContent(fs, key, s, m)
  {
    var i := IndexOf(fs, key / 8);
    if i == |fs| {
      SkipStable(key / 8, key % 8, s, rest);
    } else {
      ContentStable(fs[i], key % 8, s, rest, m[i]);
    }
  }

  lemma RecordStable(fs: Schema, s: seq<byte>, rest: seq<byte>, m: Message)
    requires Typed(fs, m) && MergeRecord(fs, s, m).Some?
    ensures MergeRecord(fs, s + rest, m) == MergeRecord(fs, s, m)
  {
    hide MergeContent, Decode, Typed;
    Stable(s, rest);
    var Read(key, n) := Decode(s).value;
    assert (s + rest)[n..] == s[n..] + rest;
    MergeContentStable(fs, key, s[n..], rest, m);
  }

  // "Last One Wins": concatenated encodings are read as one message merged into
  // the other.
  lemma {:induction false} ConcatenationMerges(fs: Schema, a: seq<byte>, b: seq<byte>, m: Message)
    requires Typed(fs, m) && Merge(fs, a, m).Some?
    ensures Merge(fs, a + b, m) == Merge(fs, b, Merge(fs, a, m).value)
    decreases |a|
  {
    if a == [] {
      assert a + b == b;
    } else {
      RecordStable(fs, a, b, m);
      var Read(m', n) := MergeRecord(fs, a, m).value;
      assert (a + b)[n..] == a[n..] + b;
      ConcatenationMerges(fs, a[n..], b, m');
    }
  }

  // ---- Reading undoes writing ---------------------------------------------------

  lemma DelimitedRoundTrip(content: seq<byte>, rest: seq<byte>)
    requires |content| < TWO_64
    ensures DecodeDelimited(Delimited(content) + rest) == Some(Read(content, |Delimited(content)|))
  {
    var n := |Encode(|content|)|;
    var s := Delimited(content) + rest;
    assert s == Encode(|content|) + (content + rest);
    RoundTrip(|content|, content + rest);
    assert s[n..n + |content|] == content;
  }

  lemma FixedRoundTrip(n: nat, w: nat, rest: seq<byte>)
    requires n < Pow256(w)
    ensures FromLittleEndian((LittleEndian(n, w) + rest)[..w]) == n
  {
    LittleEndianRoundTrip(n, w);
    assert (LittleEndian(n, w) + rest)[..w] == LittleEndian(n, w);
  }

  lemma ScalarRoundTrip(k: Scalar, n: int, rest: seq<byte>)
    requires InRange(k, n)
    ensures DecodeScalar(k, EncodeScalar(k, n) + rest) == Some(Read(n, |EncodeScalar(k, n)|))
  {
    hide LittleEndian, FromLittleEndian, Pow256, Encode, Decode;
    Pow256Values();
    match k
    case Fixed64 => FixedRoundTrip(n, 8, rest);
    case Fixed32 => FixedRoundTrip(n, 4, rest);
    case _ =>
      RoundTrip(AsUint64(n), rest);
      NarrowInverse(k, n);
  }

  // The sign-extended int32 comes back when cut to 32 bits.
  lemma {:induction false} NarrowInverse(k: Scalar, n: int)
    requires InRange(k, n)
    ensures Narrow(k, AsUint64(n)) == n
  {
    if n < 0 {
      assert AsUint64(n) == n + TWO_64;
    }
  }

  lemma KeyRoundTrip(f: Field, rest: seq<byte>)
    requires 1 <= f.tag < 0x2000_0000
    ensures Decode(Key(f) + rest) == Some(Read(f.tag * 8 + FieldWireType(f), |Key(f)|))
  {
    RoundTrip(f.tag * 8 + FieldWireType(f), rest);
  }

  lemma {:induction false} TagAfter(fs: Schema, last: nat, k: nat)
    requires WellFormedAfter(fs, last) && k < |fs|
    ensures last < fs[k].tag < 0x2000_0000 && WellFormedField(fs[k])
  {
    if k > 0 {
      TagAfter(fs[1..], fs[0].tag, k - 1);
    }
  }

  // Field `i` has a larger tag than the one before it, or than `last`.
  predicate InPlace(fs: Schema, last: nat, i: nat)
    requires i < |fs|
  {
    (if i == 0 then last else fs[i - 1].tag) < fs[i].tag < 0x2000_0000 && WellFormedField(fs[i])
  }

  lemma {:induction false} WellFormedFromIndexed(fs: Schema, last: nat)
    requires forall i :: 0 <= i < |fs| ==> InPlace(fs, last, i)
    ensures WellFormedAfter(fs, last)
  {
    if fs != [] {
      assert InPlace(fs, last, 0);
      var rest := fs[1..];
      forall i | 0 <= i < |rest| ensures InPlace(rest, fs[0].tag, i) {
        assert InPlace(fs, last, i + 1);
      }
      WellFormedFromIndexed(rest, fs[0].tag);
    }
  }

  // With increasing tags a field is found under its own tag.
  lemma {:induction false} IndexOfTagAfter(fs: Schema, last: nat, k: nat)
    requires WellFormedAfter(fs, last) && k < |fs|
    ensures IndexOf(fs, fs[k].tag) == k
  {
    if k > 0 {
      TagAfter(fs[1..], fs[0].tag, k - 1);
      IndexOfTagAfter(fs[1..], fs[0].tag, k - 1);
    }
  }

  lemma IndexOfTag(fs: Schema, k: nat)
    requires WellFormed(fs) && k < |fs|
    ensures IndexOf(fs, fs[k].tag) == k
    ensures 1 <= fs[k].tag < 0x2000_0000 && WellFormedField(fs[k])
  {
    IndexOfTagAfter(fs, 0, k);
    TagAfter(fs, 0, k);
  }

  lemma TypedSlot(fs: Schema, m: Message, k: nat)
    requires Typed(fs, m) && k < |fs|
    ensures TypedField(fs[k], m[k])
  {
  }

  lemma TypedUpdate(fs: Schema, m: Message, k: nat, vs: seq<Val>)
    requires Typed(fs, m) && k < |fs| && TypedField(fs[k], vs)
    ensures Typed(fs, m[k := vs])
  {
  }

  // Does field `f`, holding `vs`, take one more value as it is? A nested message would be
  // merged into the one there.
  predicate Fresh(f: Field, vs: seq<Val>) {
    f.Opt? && f.ty.Msg? ==> vs == []
  }

  lemma PutTyped(f: Field, vs: seq<Val>, v: Val)
    requires TypedField(f, vs) && TypedOne(f, v)
    ensures TypedField(f, Put(f, vs, v))
  {
  }

  // Reading one written record puts its value in its field.
  lemma {:induction false} ReadRecordBack(fs: Schema, k: nat, v: Val, m: Message)
    requires WellFormed(fs) && Typed(fs, m) && |fs| == |m| && k < |fs|
    requires TypedOne(fs[k], v) && Fresh(fs[k], m[k])
    requires |EncodeRecord(fs[k], v)| < TWO_64
    ensures Merge(fs, EncodeRecord(fs[k], v), m) == Some(m[k := Put(fs[k], m[k], v)])
    decreases fs, 0
  {
    hide Merge, MergeContent, EncodeVal, RecordContent, WellFormedAfter, WellFormedField, Typed, Decode;
    var f := fs[k];
    var key := f.tag * 8 + FieldWireType(f);
    var content := RecordContent(f, v);
    TypedSlot(fs, m, k);
    IndexOfTag(fs, k);
    ReadContentBack(f, v, m[k]);
    KnownContent(fs, k, content, m, Put(f, m[k], v));
    KeyRoundTrip(f, content);
    MergeWhole(fs, key, Key(f), content, m, m[k := Put(f, m[k], v)]);
  }

  lemma KnownContent(fs: Schema, k: nat, content: seq<byte>, m: Message, after: seq<Val>)
    requires Typed(fs, m) && |fs| == |m| && k < |fs|
    requires IndexOf(fs, fs[k].tag) == k && 1 <= fs[k].tag < 0x2000_0000
    requires TypedField(fs[k], m[k])
    requires ReadContent(fs[k], FieldWireType(fs[k]), content, m[k]) == Some(Read(after, |content|))
    ensures MergeContent(fs, fs[k].tag * 8 + FieldWireType(fs[k]), content, m)
         == Some(Read(m[k := after], |content|))
  {
    hide ReadContent, Typed, TypedField, IndexOf;
    KeyParts(fs[k].tag, FieldWireType(fs[k]));
  }

  lemma KeyParts(tag: nat, wireType: nat)
    requires wireType < 8
    ensures (tag * 8 + wireType) / 8 == tag && (tag * 8 + wireType) % 8 == wireType
  {
  }

  lemma MergeWhole(fs: Schema, key: nat, front: seq<byte>, content: seq<byte>, m: Message, after: Message)
    requires Typed(fs, m)
    requires front != [] && Decode(front + content) == Some(Read(key, |front|))
    requires MergeContent(fs, key, content, m) == Some(Read(after, |content|))
    ensures Merge(fs, front + content, m) == Some(after)
  {
    hide Decode, MergeContent, Merge, Typed;
    var e := front + content;
    assert e[|front|..] == content;
    assert e[|e|..] == [];
    assert MergeRecord(fs, e, m) == Some(Read(after, |e|));
    MergeFirst(fs, e, m);
    MergeNothing(fs, after);
  }

  lemma MergeNothing(fs: Schema, m: Message)
    requires Typed(fs, m)
    ensures Merge(fs, [], m) == Some(m)
  {
  }

  lemma MergeFirst(fs: Schema, s: seq<byte>, m: Message)
    requires Typed(fs, m) && s != [] && MergeRecord(fs, s, m).Some?
    ensures var Read(m', n) := MergeRecord(fs, s, m).value;
      Merge(fs, s, m) == Merge(fs, s[n..], m')
  {
  }

  lemma {:induction false} ReadContentBack(f: Field, v: Val, vs: seq<Val>)
    requires WellFormedField(f) && TypedField(f, vs) && TypedOne(f, v) && Fresh(f, vs)
    requires |EncodeRecord(f, v)| < TWO_64
    ensures ReadContent(f, FieldWireType(f), RecordContent(f, v), vs)
         == Some(Read(Put(f, vs, v), |RecordContent(f, v)|))
    decreases f, 0
  {
    if f.Req? {
      ScalarRoundTrip(f.scalar, v.n, []);
      assert EncodeScalar(f.scalar, v.n) + [] == EncodeScalar(f.scalar, v.n);
    } else {
      var content := EncodeVal(f.ty, v);
      assert content + [] == content;
      assert TypedVal(f.ty, v);
      match f.ty
      case Num(s) =>
        ScalarRoundTrip(s, v.n, []);
      case Bytes =>
        DelimitedRoundTrip(v.bytes, []);
      case Msg(schema) =>
        DelimitedRoundTrip(EncodeMsg(schema, v.msg), []);
        MessageRoundTrip(schema, v.msg);
    }
  }

  // Reading the records of one field puts all its values there.
  lemma {:induction false} ReadRecordsBack(fs: Schema, k: nat, vs: seq<Val>, m: Message)
    requires WellFormed(fs) && Typed(fs, m) && k < |fs|
    requires forall i :: 0 <= i < |vs| ==> TypedOne(fs[k], vs[i])
    requires |vs| <= 1 && vs != [] ==> Fresh(fs[k], m[k])
    requires |vs| > 1 ==> fs[k].Rep?
    requires |EncodeRecords(fs[k], vs)| < TWO_64
    ensures var after := if fs[k].Rep? then m[k] + vs else if vs == [] then m[k] else vs;
      Typed(fs, m[k := after]) && Merge(fs, EncodeRecords(fs[k], vs), m) == Some(m[k := after])
    decreases fs, 1, |vs|
  {
    hide Merge, EncodeRecord, TypedOne, WellFormed, DecodeMsg;
    var f := fs[k];
    assert TypedField(f, m[k]);
    if vs == [] {
      assert m[k] + vs == m[k];
      assert m[k := m[k]] == m;
      MergeNothing(fs, m);
    } else {
      var here := Put(f, m[k], vs[0]);
      var m1 := m[k := here];
      var first := EncodeRecord(f, vs[0]);
      var others := EncodeRecords(f, vs[1..]);
      ReadRecordBack(fs, k, vs[0], m);
      PutTyped(f, m[k], vs[0]);
      TypedUpdate(fs, m, k, here);
      ConcatenationMerges(fs, first, others, m);
      ReadRecordsBack(fs, k, vs[1..], m1);
      if f.Rep? {
        assert here + vs[1..] == m[k] + vs;
      } else {
        assert vs == [vs[0]];
      }
      assert m1[k] == here;
      var after := if f.Rep? then m[k] + vs else vs;
      assert m1[k := after] == m[k := after];
    }
  }

  lemma TypedRest(fs: Schema, m: Message, k: nat)
    requires Typed(fs, m) && k < |fs| && Typed(fs[k..], m[k..])
    ensures fs[k..][1..] == fs[k + 1..] && m[k..][1..] == m[k + 1..]
    ensures Typed(fs[k + 1..], m[k + 1..]) && TypedField(fs[k], m[k])
    ensures EncodeMsg(fs[k..], m[k..])
         == EncodeRecords(fs[k], m[k]) + EncodeMsg(fs[k + 1..], m[k + 1..])
  {
    assert fs[k..][1..] == fs[k + 1..] && m[k..][1..] == m[k + 1..];
    assert TypedField(fs[k], m[k]);
  }

  // Decoding the encoding of any message of any well-formed schema returns it,
  // nested messages, repeated fields and negative numbers included.
  lemma {:induction false} MessageRoundTrip(fs: Schema, m: Message)
    requires WellFormed(fs) && Typed(fs, m)
    requires |EncodeMsg(fs, m)| < TWO_64
    ensures DecodeMsg(fs, EncodeMsg(fs, m)) == Some(m)
    decreases fs, 5
  {
    LastOneWins(fs, Default(fs), m);
    OverlayDefault(fs, m);
  }

  // ---- Unknown fields -------------------------------------------------------------

  // Whether `s` is a series of complete records, none with a tag the schema knows.
  predicate UnknownOnly(fs: Schema, s: seq<byte>)
    decreases |s|
  {
    s == [] ||
    match Decode(s)
    case None => false
    case Some(Read(key, n)) =>
      && key < TWO_32 && key / 8 > 0
      && IndexOf(fs, key / 8) == |fs|
      && match SkipContent(key / 8, key % 8, s[n..])
         case None => false
         case Some(used) => UnknownOnly(fs, s[n + used..])
  }

  lemma {:induction false} UnknownIgnored(fs: Schema, s: seq<byte>, m: Message)
    requires Typed(fs, m) && UnknownOnly(fs, s)
    ensures Merge(fs, s, m) == Some(m)
    decreases |s|
  {
    hide Decode, Typed, SkipContent, Merge, MergeContent;
    if s == [] {
      MergeNothing(fs, m);
    } else {
      var Read(key, n) := Decode(s).value;
      var used := SkipContent(key / 8, key % 8, s[n..]).value;
      SkippedContent(fs, key, s[n..], m);
      UnknownIgnored(fs, s[n + used..], m);
      assert MergeRecord(fs, s, m) == Some(Read(m, n + used));
      MergeFirst(fs, s, m);
    }
  }

  lemma SkippedContent(fs: Schema, key: nat, s: seq<byte>, m: Message)
    requires Typed(fs, m) && key < TWO_32 && key / 8 > 0
    requires IndexOf(fs, key / 8) == |fs| && SkipContent(key / 8, key % 8, s).Some?
    ensures MergeContent(fs, key, s, m) == Some(Read(m, SkipContent(key / 8, key % 8, s).value))
  {
  }

  // A group of complete records, whatever their tags, is one such record.
  lemma UnknownGroup(fs: Schema, tag: nat, content: seq<byte>)
    requires 1 <= tag < 0x2000_0000 && IndexOf(fs, tag) == |fs|
    requires UnknownOnly([], content)
    ensures UnknownOnly(fs, Encode(tag * 8 + SGROUP) + (content + Encode(tag * 8 + EGROUP)))
  {
    hide SkipGroup, Decode, Encode;
    var end := Encode(tag * 8 + EGROUP);
    var s := Encode(tag * 8 + SGROUP) + (content + end);
    RoundTrip(tag * 8 + SGROUP, content + end);
    KeyParts(tag, SGROUP);
    var n := |Encode(tag * 8 + SGROUP)|;
    assert s[n..] == content + end;
    GroupSkipped(tag, content);
    assert s[|s|..] == [];
    assert UnknownOnly(fs, s[|s|..]);
  }

  lemma {:induction false} GroupSkipped(tag: nat, content: seq<byte>)
    requires 1 <= tag < 0x2000_0000 && UnknownOnly([], content)
    ensures var end := Encode(tag * 8 + EGROUP); SkipGroup(tag, content + end) == Some(|content| + |end|)
    decreases |content|
  {
    hide Decode, Encode, SkipContent, SkipGroup;
    var end := Encode(tag * 8 + EGROUP);
    var s := content + end;
    if content == [] {
      assert s == end + [];
      RoundTrip(tag * 8 + EGROUP, []);
      KeyParts(tag, EGROUP);
      GroupEnds(tag, s);
    } else {
      var Read(key, n) := Decode(content).value;
      var used := SkipContent(key / 8, key % 8, content[n..]).value;
      Stable(content, end);
      SkipStable(key / 8, key % 8, content[n..], end);
      NoLooseEnd(key / 8, content[n..], key % 8);
      assert s[n..] == content[n..] + end;
      assert s[n + used..] == content[n + used..] + end;
      GroupSkipped(tag, content[n + used..]);
      GroupGoesOn(tag, s, used);
    }
  }

  // How a group that can be skipped begins.
  lemma {:induction false} GroupParts(tag: nat, s: seq<byte>)
    requires SkipGroup(tag, s).Some?
    ensures Decode(s).Some?
    ensures var Read(key, n) := Decode(s).value;
      && key < TWO_32 && key / 8 > 0
      && if key % 8 == EGROUP then key / 8 == tag
         else
           var used := SkipContent(key / 8, key % 8, s[n..]);
           used.Some? && n + used.value <= |s| && SkipGroup(tag, s[n + used.value..]).Some?
  {
    hide SkipContent, Decode;
  }

  lemma {:induction false} GroupEnds(tag: nat, s: seq<byte>)
    requires Decode(s).Some? && Decode(s).value.value < TWO_32
    requires var key := Decode(s).value.value; key / 8 == tag && tag > 0 && key % 8 == EGROUP
    ensures SkipGroup(tag, s) == Some(Decode(s).value.used)
  {
  }

  lemma {:induction false} GroupGoesOn(tag: nat, s: seq<byte>, used: nat)
    requires Decode(s).Some? && Decode(s).value.value < TWO_32
    requires var Read(key, n) := Decode(s).value;
      key / 8 > 0 && key % 8 != EGROUP && SkipContent(key / 8, key % 8, s[n..]) == Some(used)
    ensures var n := Decode(s).value.used;
      SkipGroup(tag, s)
        == match SkipGroup(tag, s[n + used..]) case None => None case Some(more) => Some(n + used + more)
  {
    hide SkipContent, Decode;
  }

  lemma NoLooseEnd(tag: nat, s: seq<byte>, wireType: nat)
    requires SkipContent(tag, wireType, s).Some?
    ensures wireType != EGROUP
  {
  }

  // Fields this version does not know, added after a message, leave it as it was.
  lemma UnknownFieldsHarmless(fs: Schema, m: Message, extra: seq<byte>)
    requires WellFormed(fs) && Typed(fs, m)
    requires |EncodeMsg(fs, m)| < TWO_64
    requires UnknownOnly(fs, extra)
    ensures DecodeMsg(fs, EncodeMsg(fs, m) + extra) == Some(m)
  {
    MessageRoundTrip(fs, m);
    ConcatenationMerges(fs, EncodeMsg(fs, m), extra, Default(fs));
    UnknownIgnored(fs, extra, m);
  }

  // ---- Last one wins -----------------------------------------------------------------

  // The record of an embedded message with this content.
  function EmbeddedRecord(f: Field, content: seq<byte>): seq<byte> {
    Key(f) + Delimited(content)
  }

  // The embedded message field `f` holds, if it holds one, else an empty one.
  function Embedded(f: Field, vs: seq<Val>): (m: Message)
    requires f.Opt? && f.ty.Msg? && TypedField(f, vs)
    ensures Typed(f.ty.schema, m)
  {
    if vs != [] then MsgOf(f, vs[0]) else Default(f.ty.schema)
  }

  lemma EmbeddedContent(f: Field, content: seq<byte>, vs: seq<Val>)
    requires f.Opt? && f.ty.Msg? && TypedField(f, vs) && |content| < TWO_64
    ensures ReadContent(f, LEN, Delimited(content), vs) ==
      match Merge(f.ty.schema, content, Embedded(f, vs))
      case None => None
      case Some(x) => Some(Read([M(x)], |Delimited(content)|))
  {
    hide Merge, DecodeDelimited, Delimited;
    DelimitedRoundTrip(content, []);
    assert Delimited(content) + [] == Delimited(content);
  }

  lemma MergeRefused(fs: Schema, key: nat, front: seq<byte>, content: seq<byte>, m: Message)
    requires Typed(fs, m)
    requires front != [] && Decode(front + content) == Some(Read(key, |front|))
    requires MergeContent(fs, key, content, m) == None
    ensures Merge(fs, front + content, m) == None
  {
    hide Decode, MergeContent, Typed;
    assert (front + content)[|front|..] == content;
  }

  // One record of an embedded message is merged into the message already there.
  lemma {:induction false} EmbeddedMerged(fs: Schema, k: nat, content: seq<byte>, m: Message)
    requires WellFormed(fs) && Typed(fs, m) && |fs| == |m| && k < |fs|
    requires fs[k].Opt? && fs[k].ty.Msg? && TypedField(fs[k], m[k]) && |content| < TWO_64
    ensures Merge(fs, EmbeddedRecord(fs[k], content), m) ==
      match Merge(fs[k].ty.schema, content, Embedded(fs[k], m[k]))
      case None => None
      case Some(x) => Some(m[k := [M(x)]])
  {
    hide Merge, MergeContent, ReadContent, WellFormed, Typed, TypedField, Decode, Embedded, IndexOf, Key, Delimited;
    var f := fs[k];
    var data := Delimited(content);
    EmbeddedKey(fs, k, data);
    EmbeddedContent(f, content, m[k]);
    var x := Merge(f.ty.schema, content, Embedded(f, m[k]));
    if x.Some? {
      KnownContent(fs, k, data, m, [M(x.value)]);
      MergeWhole(fs, f.tag * 8 + LEN, Key(f), data, m, m[k := [M(x.value)]]);
    } else {
      KnownRefused(fs, k, data, m);
      MergeRefused(fs, f.tag * 8 + LEN, Key(f), data, m);
    }
  }

  lemma EmbeddedKey(fs: Schema, k: nat, data: seq<byte>)
    requires WellFormed(fs) && k < |fs| && fs[k].Opt? && fs[k].ty.Msg?
    ensures IndexOf(fs, fs[k].tag) == k && 1 <= fs[k].tag < 0x2000_0000 && FieldWireType(fs[k]) == LEN
    ensures Key(fs[k]) != [] && Decode(Key(fs[k]) + data) == Some(Read(fs[k].tag * 8 + LEN, |Key(fs[k])|))
  {
    hide Decode;
    IndexOfTag(fs, k);
    KeyRoundTrip(fs[k], data);
  }

  lemma KnownRefused(fs: Schema, k: nat, content: seq<byte>, m: Message)
    requires Typed(fs, m) && |fs| == |m| && k < |fs|
    requires IndexOf(fs, fs[k].tag) == k && 1 <= fs[k].tag < 0x2000_0000
    requires TypedField(fs[k], m[k])
    requires ReadContent(fs[k], FieldWireType(fs[k]), content, m[k]) == None
    ensures MergeContent(fs, fs[k].tag * 8 + FieldWireType(fs[k]), content, m) == None
  {
    hide ReadContent, Typed, TypedField, IndexOf;
    KeyParts(fs[k].tag, FieldWireType(fs[k]));
  }

  // Two records of an embedded message are read as one that holds their contents one
  // after the other, whatever is there already.
  lemma EmbeddedRecordsMerge(fs: Schema, k: nat, a: seq<byte>, b: seq<byte>, m: Message)
    requires WellFormed(fs) && Typed(fs, m) && |fs| == |m| && k < |fs|
    requires fs[k].Opt? && fs[k].ty.Msg? && TypedField(fs[k], m[k]) && |a + b| < TWO_64
    requires Merge(fs[k].ty.schema, a, Embedded(fs[k], m[k])).Some?
    ensures Merge(fs, EmbeddedRecord(fs[k], a) + EmbeddedRecord(fs[k], b), m)
         == Merge(fs, EmbeddedRecord(fs[k], a + b), m)
  {
    hide Merge, WellFormed, Typed, Embedded, EmbeddedRecord;
    var x := Merge(fs[k].ty.schema, a, Embedded(fs[k], m[k])).value;
    EmbeddedMerged(fs, k, a, m);
    EmbeddedMerged(fs, k, a + b, m);
    EmbeddedHeld(fs, k, m, x);
    EmbeddedMerged(fs, k, b, m[k := [M(x)]]);
    ConcatenationMerges(fs, EmbeddedRecord(fs[k], a), EmbeddedRecord(fs[k], b), m);
    ConcatenationMerges(fs[k].ty.schema, a, b, Embedded(fs[k], m[k]));
    var both := Merge(fs[k].ty.schema, b, x);
    if both.Some? {
      assert m[k := [M(x)]][k := [M(both.value)]] == m[k := [M(both.value)]];
    }
  }

  lemma EmbeddedHeld(fs: Schema, k: nat, m: Message, x: Message)
    requires Typed(fs, m) && |fs| == |m| && k < |fs| && fs[k].Opt? && fs[k].ty.Msg? && Typed(fs[k].ty.schema, x)
    ensures TypedField(fs[k], [M(x)]) && Typed(fs, m[k := [M(x)]]) && Embedded(fs[k], [M(x)]) == x
  {
    var f := fs[k];
    var vs := [M(x)];
    assert TypedVal(f.ty, vs[0]);
    assert TypedOne(f, vs[0]);
    TypedUpdate(fs, m, k, vs);
  }

  // `new` read on top of `old`: a repeated field goes on, an embedded message is read on
  // top of the one there, and of anything else the last one wins.
  function Overlay(fs: Schema, old': Message, new': Message): (m: Message)
    requires Typed(fs, old') && Typed(fs, new')
    ensures Typed(fs, m)
    decreases fs, 1
  {
    hide TypedField;
    seq(|fs|, i requires 0 <= i < |fs| => OverlayField(fs[i], old'[i], new'[i]))
  }

  function OverlayField(f: Field, have: seq<Val>, vs: seq<Val>): (r: seq<Val>)
    requires TypedField(f, have) && TypedField(f, vs)
    ensures TypedField(f, r)
    decreases f, 0
  {
    if f.Rep? then have + vs
    else if vs == [] then have
    else if f.Opt? && f.ty.Msg? then
      var x := Overlay(f.ty.schema, Embedded(f, have), MsgOf(f, vs[0]));
      OneTyped(f, x);
      [M(x)]
    else vs
  }

  lemma OneTyped(f: Field, x: Message)
    requires f.Opt? && f.ty.Msg? && Typed(f.ty.schema, x)
    ensures TypedField(f, [M(x)])
  {
    var vs := [M(x)];
    assert TypedVal(f.ty, vs[0]);
    assert TypedOne(f, vs[0]);
  }

  // "Last One Wins", whole: an encoding read into any message overlays it.
  lemma {:induction false} LastOneWins(fs: Schema, old': Message, new': Message)
    requires WellFormed(fs) && Typed(fs, old') && Typed(fs, new')
    requires |EncodeMsg(fs, new')| < TWO_64
    ensures Merge(fs, EncodeMsg(fs, new'), old') == Some(Overlay(fs, old', new'))
    decreases fs, 4
  {
    hide Merge, EncodeMsg, WellFormed, Typed, Overlay;
    assert fs[0..] == fs && new'[0..] == new';
    SameLength(fs, old');
    SameLength(fs, new');
    SameLength(fs, Overlay(fs, old', new'));
    assert Overlay(fs, old', new')[..0] + old'[0..] == old';
    OverlayFrom(fs, old', new', 0);
  }

  lemma SameLength(fs: Schema, m: Message)
    requires Typed(fs, m)
    ensures |fs| == |m|
  {
  }

  lemma {:induction false} OverlayFrom(fs: Schema, old': Message, new': Message, k: nat)
    requires WellFormed(fs) && Typed(fs, old') && Typed(fs, new')
    requires |fs| == |old'| == |new'| == |Overlay(fs, old', new')| && k <= |fs|
    requires Typed(fs[k..], new'[k..]) && |EncodeMsg(fs[k..], new'[k..])| < TWO_64
    ensures var st := Overlay(fs, old', new')[..k] + old'[k..];
      Typed(fs, st) && Merge(fs, EncodeMsg(fs[k..], new'[k..]), st) == Some(Overlay(fs, old', new'))
    decreases fs, 3, |fs| - k
  {
    hide Merge, EncodeRecords, WellFormed, TypedField, Typed, Overlay, OverlayField;
    var all := Overlay(fs, old', new');
    var st := all[..k] + old'[k..];
    MixTyped(fs, all, old', k);
    if k == |fs| {
      assert st == all;
      MergeNothing(fs, all);
    } else {
      TypedSlot(fs, new', k);
      TypedSlot(fs, old', k);
      TypedRest(fs, new', k);
      OverlayAt(fs, old', new', k);
      OverlayRecords(fs, k, new'[k], st);
      MixNext(all, old', k);
      ConcatenationMerges(fs, EncodeRecords(fs[k], new'[k]), EncodeMsg(fs[k + 1..], new'[k + 1..]), st);
      OverlayFrom(fs, old', new', k + 1);
    }
  }

  lemma MixTyped(fs: Schema, a: Message, b: Message, k: nat)
    requires Typed(fs, a) && Typed(fs, b) && |fs| == |a| == |b| && k <= |fs|
    ensures Typed(fs, a[..k] + b[k..])
  {
    hide TypedField;
    var st := a[..k] + b[k..];
    forall i | 0 <= i < |fs| ensures TypedField(fs[i], st[i]) {
      assert TypedField(fs[i], a[i]) && TypedField(fs[i], b[i]);
    }
  }

  lemma MixNext(a: Message, b: Message, k: nat)
    requires k < |a| == |b|
    ensures (a[..k] + b[k..])[k] == b[k]
    ensures (a[..k] + b[k..])[k := a[k]] == a[..k + 1] + b[k + 1..]
  {
  }

  lemma OverlayAt(fs: Schema, old': Message, new': Message, k: nat)
    requires Typed(fs, old') && Typed(fs, new') && k < |fs| == |old'| == |new'| == |Overlay(fs, old', new')|
    requires TypedField(fs[k], old'[k]) && TypedField(fs[k], new'[k])
    ensures Overlay(fs, old', new')[k] == OverlayField(fs[k], old'[k], new'[k])
  {
  }

  lemma {:induction false} OverlayRecords(fs: Schema, k: nat, vs: seq<Val>, m: Message)
    requires WellFormed(fs) && Typed(fs, m) && |fs| == |m| && k < |fs|
    requires TypedField(fs[k], m[k]) && TypedField(fs[k], vs) && |EncodeRecords(fs[k], vs)| < TWO_64
    ensures Merge(fs, EncodeRecords(fs[k], vs), m) == Some(m[k := OverlayField(fs[k], m[k], vs)])
    decreases fs, 2
  {
    hide Merge, WellFormed, Typed, Overlay, EncodeRecords;
    var f := fs[k];
    if f.Opt? && f.ty.Msg? && vs != [] {
      OneEmbedded(f, vs);
      FieldWellFormed(fs, k);
      OverlayEmbedded(f, m[k], vs);
      EmbeddedMerged(fs, k, EncodeMsg(f.ty.schema, MsgOf(f, vs[0])), m);
    } else {
      ReadRecordsBack(fs, k, vs, m);
      assert vs == [] ==> m[k := m[k]] == m;
    }
  }

  lemma {:induction false} OverlayEmbedded(f: Field, have: seq<Val>, vs: seq<Val>)
    requires f.Opt? && f.ty.Msg? && WellFormed(f.ty.schema) && vs != []
    requires TypedField(f, have) && TypedField(f, vs) && |EncodeMsg(f.ty.schema, MsgOf(f, vs[0]))| < TWO_64
    ensures Merge(f.ty.schema, EncodeMsg(f.ty.schema, MsgOf(f, vs[0])), Embedded(f, have))
         == Some(Overlay(f.ty.schema, Embedded(f, have), MsgOf(f, vs[0])))
    decreases f, 1
  {
    LastOneWins(f.ty.schema, Embedded(f, have), MsgOf(f, vs[0]));
  }

  lemma FieldWellFormed(fs: Schema, k: nat)
    requires WellFormed(fs) && k < |fs| && fs[k].Opt? && fs[k].ty.Msg?
    ensures WellFormed(fs[k].ty.schema)
  {
    IndexOfTag(fs, k);
  }

  lemma OneEmbedded(f: Field, vs: seq<Val>)
    requires f.Opt? && f.ty.Msg? && TypedField(f, vs) && vs != []
    ensures var e := EncodeMsg(f.ty.schema, MsgOf(f, vs[0]));
      EncodeRecords(f, vs) == EmbeddedRecord(f, e) && |e| <= |EncodeRecords(f, vs)|
  {
    hide EncodeMsg, Key;
    assert vs == [vs[0]];
    assert TypedOne(f, vs[0]) && TypedVal(f.ty, vs[0]);
    assert EncodeVal(f.ty, vs[0]) == Delimited(EncodeMsg(f.ty.schema, vs[0].msg));
    assert EncodeRecords(f, vs[1..]) == [];
    assert EncodeRecords(f, vs) == EncodeRecord(f, vs[0]) + [];
  }

  // Overlaying an empty message is what a plain decode does.
  lemma {:induction false} OverlayDefault(fs: Schema, m: Message)
    requires Typed(fs, m)
    ensures Overlay(fs, Default(fs), m) == m
    decreases fs, 1
  {
    hide TypedField;
    forall i | 0 <= i < |fs| ensures Overlay(fs, Default(fs), m)[i] == m[i] {
      assert TypedField(fs[i], m[i]);
      OverlayNothing(fs[i], m[i]);
    }
  }

  lemma {:induction false} OverlayNothing(f: Field, vs: seq<Val>)
    requires TypedField(f, vs)
    ensures var have := if f.Req? then [N(0)] else []; TypedField(f, have) && OverlayField(f, have, vs) == vs
    decreases f, 0
  {
    hide Overlay;
    if f.Opt? && f.ty.Msg? && vs != [] {
      assert vs == [vs[0]] && TypedOne(f, vs[0]) && TypedVal(f.ty, vs[0]);
      OverlayDefault(f.ty.schema, MsgOf(f, vs[0]));
    }
  }

  // ---- Packed scalars ---------------------------------------------------------------

  // Scalars one after the other, as another writer may pack a repeated field.
  function Packed(k: Scalar, ns: seq<int>): seq<byte> {
    if ns == [] then [] else EncodeScalar(k, ns[0]) + Packed(k, ns[1..])
  }

  function Numbers(ns: seq<int>): seq<Val> {
    seq(|ns|, i requires 0 <= i < |ns| => N(ns[i]))
  }

  lemma {:induction false} PackedRead(k: Scalar, ns: seq<int>)
    requires forall i :: 0 <= i < |ns| ==> InRange(k, ns[i])
    ensures DecodePacked(k, Packed(k, ns)) == Some(Numbers(ns))
  {
    hide DecodeScalar, EncodeScalar;
    if ns != [] {
      var first, others := EncodeScalar(k, ns[0]), Packed(k, ns[1..]);
      ScalarRoundTrip(k, ns[0], others);
      PackedRead(k, ns[1..]);
      assert (first + others)[|first|..] == others;
      assert Numbers(ns) == [N(ns[0])] + Numbers(ns[1..]);
    }
  }

  // A repeated scalar field reads a packed record as it would the unpacked ones: its
  // values are added to those already there.
  lemma PackedLikeUnpacked(f: Field, ns: seq<int>, have: seq<Val>, rest: seq<byte>)
    requires f.Rep? && f.ty.Num? && TypedField(f, have)
    requires forall i :: 0 <= i < |ns| ==> InRange(f.ty.scalar, ns[i])
    requires |Packed(f.ty.scalar, ns)| < TWO_64
    ensures var content := Delimited(Packed(f.ty.scalar, ns));
      ReadContent(f, LEN, content + rest, have) == Some(Read(have + Numbers(ns), |content|))
  {
    hide DecodePacked, DecodeDelimited, Delimited, Packed;
    DelimitedRoundTrip(Packed(f.ty.scalar, ns), rest);
    PackedRead(f.ty.scalar, ns);
  }
}
