// Structs survive the wire: the schemas of module Messages are well formed, every
// struct is typed by its schema, and the two conversions are inverse.
module MessagesTheorems {
  import opened Basics
  import opened Wire
  import opened WireTheorems
  import opened Messages

  // ---- The schemas are well formed ------------------------------------------------

  lemma LeafSchemas()
    ensures WellFormed(QUEUE_VERSION_S) && WellFormed(POSITION_S) && WellFormed(CAPABILITIES_S)
    ensures WellFormed(TRACK_S) && WellFormed(ERROR_S) && WellFormed(PAYLOAD_S)
  {
    hide WellFormedAfter;
    WellFormedFromIndexed(QUEUE_VERSION_S, 0);
    WellFormedFromIndexed(POSITION_S, 0);
    WellFormedFromIndexed(CAPABILITIES_S, 0);
    WellFormedFromIndexed(TRACK_S, 0);
    WellFormedFromIndexed(ERROR_S, 0);
    WellFormedFromIndexed(PAYLOAD_S, 0);
  }

  lemma StateSchemas()
    ensures WellFormed(DEVICE_INFO_S) && WellFormed(RENDERER_STATE_S)
    ensures WellFormed(QUEUE_RENDERER_STATE_S)
  {
    hide WellFormedAfter;
    LeafSchemas();
    WellFormedFromIndexed(DEVICE_INFO_S, 0);
    WellFormedFromIndexed(RENDERER_STATE_S, 0);
    WellFormedFromIndexed(QUEUE_RENDERER_STATE_S, 0);
  }

  lemma TypedBodySchemas(tag: nat)
    ensures TypedBodySchema(tag).Some? ==> WellFormed(TypedBodySchema(tag).value)
  {
    hide WellFormedAfter;
    LeafSchemas();
    StateSchemas();
    if TypedBodySchema(tag).Some? {
      WellFormedFromIndexed(TypedBodySchema(tag).value, 0);
    }
  }

  lemma RendererBodySchemas(tag: nat)
    ensures RendererBodySchema(tag).Some? ==> WellFormed(RendererBodySchema(tag).value)
  {
    hide WellFormedAfter;
    LeafSchemas();
    StateSchemas();
    if RendererBodySchema(tag).Some? {
      WellFormedFromIndexed(RendererBodySchema(tag).value, 0);
    }
  }

  lemma ControllerBodySchemas(tag: nat)
    ensures ControllerBodySchema(tag).Some? ==> WellFormed(ControllerBodySchema(tag).value)
  {
    hide WellFormedAfter;
    LeafSchemas();
    if tag == 62 {
      WellFormedFromIndexed([Opt(1, Msg(QUEUE_VERSION_S)), Opt(2, Num(Uint32))], 0);
      WellFormedFromIndexed(ControllerBodySchema(tag).value, 0);
    } else if ControllerBodySchema(tag).Some? {
      WellFormedFromIndexed(ControllerBodySchema(tag).value, 0);
    }
  }

  lemma ServerBodySchemas(tag: nat)
    ensures ServerBodySchema(tag).Some? ==> WellFormed(ServerBodySchema(tag).value)
  {
    hide WellFormedAfter;
    LeafSchemas();
    StateSchemas();
    if ServerBodySchema(tag).Some? {
      WellFormedFromIndexed(ServerBodySchema(tag).value, 0);
    }
  }

  lemma BodySchemas(tag: nat)
    ensures BodySchema(tag).Some? ==> WellFormed(BodySchema(tag).value)
  {
    hide WellFormedAfter, TypedBodySchema, RendererBodySchema, ControllerBodySchema, ServerBodySchema;
    TypedBodySchemas(tag);
    RendererBodySchemas(tag);
    ControllerBodySchemas(tag);
    ServerBodySchemas(tag);
  }

  lemma NoLowTags()
    ensures BodySchema(0).None? && BodySchema(1).None?
  {
  }

  lemma MessageSchemaWellFormed()
    ensures WellFormed(MessageSchema())
  {
    hide WellFormedAfter, BodySchema, TagsBelow;
    var tags := BodyTags();
    var fs := MessageSchema();
    NoLowTags();
    BodyTagsOrdered();
    forall i | 0 <= i < |fs|
      ensures InPlace(fs, 0, i)
    {
      if i > 0 {
        BodySchemas(tags[i - 1]);
        if i > 1 {
          assert tags[i - 2] < tags[i - 1];
        }
      }
    }
    WellFormedFromIndexed(fs, 0);
  }

  // The message fields sit at increasing tags from 2 to 105, and every modelled tag is there.
  lemma BodyTagsOrdered()
    ensures forall i :: 0 <= i < |BodyTags()| ==> 2 <= BodyTags()[i] < 106
    ensures forall i, j :: 0 <= i < j < |BodyTags()| ==> BodyTags()[i] < BodyTags()[j]
    ensures forall t :: 0 <= t < 106 && BodySchema(t).Some? ==> t in BodyTags()
  {
    hide BodySchema, TagsBelow;
    NoLowTags();
  }

  lemma BatchSchemaWellFormed()
    ensures WellFormed(BatchSchema())
  {
    hide WellFormedAfter, MessageSchema;
    MessageSchemaWellFormed();
    WellFormedFromIndexed(BatchSchema(), 0);
  }

  // ---- Structs are typed by their schemas ---------------------------------------------

  lemma VersionTyped(o: Option<QueueVersion>)
    ensures forall v :: v in Versions(o) ==> TypedVal(Msg(QUEUE_VERSION_S), v)
  {
  }

  lemma PositionTyped(o: Option<Position>)
    ensures forall v :: v in Positions(o) ==> TypedVal(Msg(POSITION_S), v)
  {
  }

  lemma TrackTyped(t: QueueTrackRef)
    ensures TypedVal(Msg(TRACK_S), M(TrackFields(t)))
  {
  }

  lemma CapabilitiesTyped(c: DeviceCapabilities)
    ensures TypedVal(Msg(CAPABILITIES_S), M(CapabilityFields(c)))
  {
  }

  lemma DeviceInfoTyped(o: Option<DeviceInfo>)
    ensures forall v :: v in DeviceInfos(o) ==> TypedVal(Msg(DEVICE_INFO_S), v)
  {
    if o.Some? {
      var d := o.value;
      if d.capabilities.Some? {
        CapabilitiesTyped(d.capabilities.value);
      }
      assert Typed(DEVICE_INFO_S, DeviceInfoFields(d));
    }
  }

  lemma RendererStateTyped(s: RendererState)
    ensures TypedVal(Msg(RENDERER_STATE_S), M(RendererStateFields(s)))
  {
    PositionTyped(s.currentPosition);
  }

  lemma QueueRendererStateTyped(s: QueueRendererState)
    ensures TypedVal(Msg(QUEUE_RENDERER_STATE_S), M(QueueRendererStateFields(s)))
  {
    PositionTyped(s.currentPosition);
    VersionTyped(s.queueVersion);
  }

  lemma SetStateTyped(s: SetState)
    ensures Typed(SET_STATE_S, BodyValues(SetStateBody(s)))
  {
    VersionTyped(s.queueVersion);
    if s.currentQueueItem.Some? {
      TrackTyped(s.currentQueueItem.value);
    }
    if s.nextQueueItem.Some? {
      TrackTyped(s.nextQueueItem.value);
    }
  }

  lemma QueueStateTyped(q: QueueState)
    ensures Typed(QUEUE_STATE_S, BodyValues(QueueStateBody(q)))
  {
    VersionTyped(q.queueVersion);
    forall i | 0 <= i < |q.tracks| ensures TypedVal(Msg(TRACK_S), Tracks(q.tracks)[i]) {
      TrackTyped(q.tracks[i]);
    }
    forall i | 0 <= i < |q.autoplayTracks| ensures TypedVal(Msg(TRACK_S), Tracks(q.autoplayTracks)[i]) {
      TrackTyped(q.autoplayTracks[i]);
    }
  }

  lemma StateUpdatedTyped(o: Option<QueueRendererState>)
    ensures Typed(TypedBodySchema(STATE_UPDATED).value, BodyValues(StateUpdatedBody(o)))
  {
    if o.Some? {
      QueueRendererStateTyped(o.value);
      assert TypedOne(Opt(1, Msg(QUEUE_RENDERER_STATE_S)), M(QueueRendererStateFields(o.value)));
    }
  }

  lemma RendererStateUpdatedTyped(u: RendererStateUpdated)
    ensures Typed(RENDERER_STATE_UPDATED_S, BodyValues(RendererStateUpdatedBody(u)))
  {
    if u.state.Some? {
      RendererStateTyped(u.state.value);
      assert TypedOne(Opt(3, Msg(RENDERER_STATE_S)), M(RendererStateFields(u.state.value)));
    }
  }

  lemma AddRendererTyped(a: AddRenderer)
    ensures Typed(TypedBodySchema(ADD_RENDERER).value, BodyValues(AddRendererBody(a)))
  {
    DeviceInfoTyped(a.renderer);
    assert TypedField(Opt(2, Msg(DEVICE_INFO_S)), DeviceInfos(a.renderer));
  }

  lemma JoinSessionTyped(uuid: Option<seq<byte>>, info: Option<DeviceInfo>)
    ensures Typed(TypedBodySchema(JOIN_SESSION).value, BodyValues(JoinSessionBody(uuid, info)))
  {
    DeviceInfoTyped(info);
    assert TypedField(Opt(2, Msg(DEVICE_INFO_S)), DeviceInfos(info));
  }

  lemma SessionStateTyped(s: SessionState)
    ensures Typed(SESSION_STATE_S, BodyValues(SessionStateBody(s)))
  {
    VersionTyped(s.queueVersion);
  }

  lemma AskForQueueStateTyped(version: Option<QueueVersion>, uuid: Option<seq<byte>>)
    ensures Typed(TypedBodySchema(ASK_FOR_QUEUE_STATE).value, BodyValues(AskForQueueStateBody(version, uuid)))
  {
    VersionTyped(version);
  }

  lemma TypedBodyTyped(tag: nat, b: Body)
    requires BodyFits(tag, b) && !b.OtherBody?
    ensures TypedBodySchema(tag).Some? && Typed(TypedBodySchema(tag).value, BodyValues(b))
  {
    hide Typed, BodyValues;
    match b
    case StateUpdatedBody(state) => StateUpdatedTyped(state);
    case SetStateBody(s) => SetStateTyped(s);
    case JoinSessionBody(uuid, info) => JoinSessionTyped(uuid, info);
    case AskForQueueStateBody(version, uuid) => AskForQueueStateTyped(version, uuid);
    case SessionStateBody(s) => SessionStateTyped(s);
    case RendererStateUpdatedBody(u) => RendererStateUpdatedTyped(u);
    case AddRendererBody(a) => AddRendererTyped(a);
    case QueueStateBody(q) => QueueStateTyped(q);
    case _ => ScalarBodyTyped(tag, b);
  }

  // Bodies of a few numbers and flags.
  predicate ScalarBody(b: Body) {
    b.VolumeChangedBody? || b.FileAudioQualityBody? || b.MaxAudioQualityBody? || b.VolumeMutedBody?
    || b.SetVolumeBody? || b.SetActiveBody? || b.SetActiveRendererBody? || b.AskForRendererStateBody?
    || b.RemoveRendererBody? || b.LoopModeSetBody?
  }

  lemma ScalarBodyTyped(tag: nat, b: Body)
    requires BodyFits(tag, b) && ScalarBody(b)
    ensures TypedBodySchema(tag).Some? && Typed(TypedBodySchema(tag).value, BodyValues(b))
  {
  }

  lemma NoOverlap(tag: nat)
    ensures OtherBodySchema(tag).Some? ==> TypedBodySchema(tag).None?
    ensures BodySchema(tag).Some? ==> tag < 106
  {
  }

  lemma BodyTyped(tag: nat, b: Body)
    requires BodyFits(tag, b)
    ensures BodySchema(tag).Some? && tag < 106 && Typed(BodySchema(tag).value, BodyValues(b))
  {
    hide TypedBodySchema, OtherBodySchema, Typed;
    NoOverlap(tag);
    if !b.OtherBody? {
      TypedBodyTyped(tag, b);
    }
  }

  lemma MessageTyped(m: QConnectMessage)
    requires ValidMessage(m)
    ensures Typed(MessageSchema(), MessageFields(m))
  {
    hide BodySchema, BodyValues, BodyFits, TagsBelow, TypedField;
    var fs := MessageSchema();
    var vals := MessageFields(m);
    forall i | 0 <= i < |fs| ensures TypedField(fs[i], vals[i]) {
      if i == 0 {
        TypeFieldTyped(m.messageType);
      } else {
        BodyFieldTyped(m, BodyTags()[i - 1]);
      }
    }
  }

  lemma TypeFieldTyped(o: Option<int32>)
    ensures TypedField(Opt(1, Num(Int32)), Ints(o))
  {
  }

  lemma BodyFieldTyped(m: QConnectMessage, tag: nat)
    requires ValidMessage(m) && BodySchema(tag).Some?
    ensures TypedField(Opt(tag, Msg(BodySchema(tag).value)),
                       if tag in m.bodies then [M(BodyValues(m.bodies[tag]))] else [])
  {
    hide BodySchema, BodyValues, BodyFits;
    if tag in m.bodies {
      BodyTyped(tag, m.bodies[tag]);
      assert TypedVal(Msg(BodySchema(tag).value), M(BodyValues(m.bodies[tag])));
    }
  }

  lemma BatchTyped(b: QConnectBatch)
    requires forall i :: 0 <= i < |b.messages| ==> ValidMessage(b.messages[i])
    ensures Typed(BatchSchema(), BatchFields(b))
  {
    hide MessageSchema, MessageFields, ValidMessage;
    var fs := BatchSchema();
    var vals := BatchFields(b);
    forall i | 0 <= i < |vals[2]| ensures TypedOne(fs[2], vals[2][i]) {
      MessageTyped(b.messages[i]);
    }
    assert TypedField(fs[0], vals[0]) && TypedField(fs[1], vals[1]) && TypedField(fs[2], vals[2]);
  }

  lemma PayloadTyped(p: Payload)
    ensures Typed(PAYLOAD_S, PayloadFields(p))
  {
  }

  // ---- The two conversions are inverse --------------------------------------------------

  lemma VersionInverse(o: Option<QueueVersion>)
    ensures ToVersion(Versions(o)) == o
  {
  }

  lemma TrackInverse(o: Option<QueueTrackRef>)
    ensures ToTrackOption(Track(o)) == o
  {
  }

  lemma DeviceInfoInverse(o: Option<DeviceInfo>)
    ensures ToDeviceInfo(DeviceInfos(o)) == o
  {
  }

  lemma TracksInverse(ts: seq<QueueTrackRef>)
    ensures ToTracks(Tracks(ts)) == ts
  {
  }

  lemma RendererStateInverse(o: Option<RendererState>)
    ensures ToRendererState(if o.Some? then [M(RendererStateFields(o.value))] else []) == o
  {
  }

  lemma QueueRendererStateInverse(s: QueueRendererState)
    ensures ToQueueRendererState(QueueRendererStateFields(s)) == s
  {
  }

  lemma SetStateInverse(s: SetState)
    ensures ToBody(SET_STATE, BodyValues(SetStateBody(s))) == SetStateBody(s)
  {
    hide Versions, ToVersion, Track, ToTrackOption;
    VersionInverse(s.queueVersion);
    TrackInverse(s.currentQueueItem);
    TrackInverse(s.nextQueueItem);
  }

  lemma AskForQueueStateInverse(version: Option<QueueVersion>, uuid: Option<seq<byte>>)
    ensures ToBody(ASK_FOR_QUEUE_STATE, BodyValues(AskForQueueStateBody(version, uuid)))
         == AskForQueueStateBody(version, uuid)
  {
    hide Versions, ToVersion;
    VersionInverse(version);
  }

  lemma SessionStateInverse(s: SessionState)
    ensures ToBody(SESSION_STATE, BodyValues(SessionStateBody(s))) == SessionStateBody(s)
  {
    hide Versions, ToVersion;
    VersionInverse(s.queueVersion);
  }

  lemma IndexesInverse(xs: seq<uint32>)
    ensures ToIndexes(Indexes(xs)) == xs
  {
  }

  lemma QueueStateInverse(q: QueueState)
    ensures ToBody(QUEUE_STATE, BodyValues(QueueStateBody(q))) == QueueStateBody(q)
  {
    hide Tracks, ToTracks, Indexes, ToIndexes, Versions, ToVersion;
    TracksInverse(q.tracks);
    TracksInverse(q.autoplayTracks);
    VersionInverse(q.queueVersion);
    IndexesInverse(q.shuffledTrackIndexes);
  }

  lemma StateUpdatedInverse(o: Option<QueueRendererState>)
    ensures ToBody(STATE_UPDATED, BodyValues(StateUpdatedBody(o))) == StateUpdatedBody(o)
  {
    hide ToQueueRendererState, QueueRendererStateFields;
    if o.Some? {
      QueueRendererStateInverse(o.value);
    }
  }

  lemma JoinSessionInverse(uuid: Option<seq<byte>>, info: Option<DeviceInfo>)
    ensures ToBody(JOIN_SESSION, BodyValues(JoinSessionBody(uuid, info))) == JoinSessionBody(uuid, info)
  {
    hide DeviceInfos, ToDeviceInfo;
    DeviceInfoInverse(info);
  }

  lemma RendererStateUpdatedInverse(u: RendererStateUpdated)
    ensures ToBody(RENDERER_STATE_UPDATED, BodyValues(RendererStateUpdatedBody(u)))
         == RendererStateUpdatedBody(u)
  {
    hide ToRendererState, RendererStateFields;
    RendererStateInverse(u.state);
  }

  lemma AddRendererInverse(a: AddRenderer)
    ensures ToBody(ADD_RENDERER, BodyValues(AddRendererBody(a))) == AddRendererBody(a)
  {
    hide DeviceInfos, ToDeviceInfo;
    DeviceInfoInverse(a.renderer);
  }

  lemma ScalarBodyInverse(tag: nat, b: Body)
    requires BodyFits(tag, b) && ScalarBody(b)
    ensures ToBody(tag, BodyValues(b)) == b
  {
  }

  lemma OtherBodyInverse(tag: nat, b: Body)
    requires BodyFits(tag, b) && b.OtherBody?
    ensures ToBody(tag, BodyValues(b)) == b
  {
    NoOverlap(tag);
  }

  // A body read back from the values it was written as.
  lemma BodyInverse(tag: nat, b: Body)
    requires BodyFits(tag, b)
    ensures ToBody(tag, BodyValues(b)) == b
  {
    hide ToBody, BodyValues;
    match b
    case StateUpdatedBody(state) => StateUpdatedInverse(state);
    case SetStateBody(s) => SetStateInverse(s);
    case AskForQueueStateBody(version, uuid) => AskForQueueStateInverse(version, uuid);
    case SessionStateBody(s) => SessionStateInverse(s);
    case JoinSessionBody(uuid, info) => JoinSessionInverse(uuid, info);
    case RendererStateUpdatedBody(u) => RendererStateUpdatedInverse(u);
    case AddRendererBody(a) => AddRendererInverse(a);
    case QueueStateBody(q) => QueueStateInverse(q);
    case OtherBody(_) => OtherBodyInverse(tag, b);
    case _ => ScalarBodyInverse(tag, b);
  }

  lemma {:induction false} BodiesInverse(bodies: map<nat, Body>, tags: seq<nat>)
    requires forall tag :: tag in bodies ==> BodyFits(tag, bodies[tag])
    ensures ToBodies(tags, BodyVals(bodies, tags)) == map tag | tag in bodies && tag in tags :: bodies[tag]
  {
    hide BodyFits, ToBody, BodyValues;
    if tags != [] {
      var last := |tags| - 1;
      var vs := BodyVals(bodies, tags);
      assert vs[..last] == BodyVals(bodies, tags[..last]);
      BodiesInverse(bodies, tags[..last]);
      if tags[last] in bodies {
        BodyInverse(tags[last], bodies[tags[last]]);
      }
      assert tags == tags[..last] + [tags[last]];
    }
  }

  lemma MessageInverse(m: QConnectMessage)
    requires ValidMessage(m)
    ensures |MessageFields(m)| == |BodyTags()| + 1 && ToMessage(MessageFields(m)) == m
  {
    hide BodyFits, ToBody, BodyValues, ToBodies, BodySchema, TagsBelow;
    var tags := BodyTags();
    forall tag | tag in m.bodies ensures tag in tags {
      BodyTyped(tag, m.bodies[tag]);
      BodyTagsOrdered();
    }
    BodiesInverse(m.bodies, tags);
    assert MessageFields(m)[1..] == BodyVals(m.bodies, tags);
    assert m.bodies == map tag | tag in m.bodies && tag in tags :: m.bodies[tag];
  }

  lemma MessagesInverse(b: QConnectBatch)
    requires forall i :: 0 <= i < |b.messages| ==> ValidMessage(b.messages[i])
    ensures forall i :: 0 <= i < |b.messages| ==>
      BatchFields(b)[2][i].M? && |BatchFields(b)[2][i].msg| == |BodyTags()| + 1
    ensures ToMessages(BatchFields(b)[2]) == b.messages
  {
    hide BodySchema, TagsBelow, ToMessage, MessageFields, ValidMessage;
    forall i | 0 <= i < |b.messages|
      ensures BatchFields(b)[2][i].M? && |BatchFields(b)[2][i].msg| == |BodyTags()| + 1
      ensures ToMessage(BatchFields(b)[2][i].msg) == b.messages[i]
    {
      MessageInverse(b.messages[i]);
    }
  }

  lemma PayloadInverse(p: Payload)
    ensures ToPayload(PayloadFields(p)) == p
  {
    assert ToPayload(PayloadFields(p)).dests == p.dests;
  }
}
