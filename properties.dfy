/**
 * What the three decoders promise, stated about the decoders themselves: the
 * error paths, which member a known or unknown event type lands in, which types
 * each container rejects, how the containers agree with each other, and the
 * encode/decode round trip.
 */
module Properties {
  import opened Wrappers
  import opened Json
  import opened EventTypes
  import opened Containers
  import opened Legality
  import opened Decoding

  /** `DecodeEvent` decodes `v` as record type `t`: `t`'s member on success, `t`'s own error otherwise. */
  ghost predicate EventDecodesAs<L>(dec: LeafDecoder<L>, v: Json, t: LeafType)
  {
    match dec(t, v)
    case Success(event) => DecodeEvent(dec, v) == Success(EventFrom(t, event))
    case Failure(cause) => DecodeEvent(dec, v) == Failure(LeafError(cause))
  }

  /** `DecodeRoomEvent` decodes `v` as record type `t`. */
  ghost predicate RoomEventDecodesAs<L>(dec: LeafDecoder<L>, v: Json, t: LeafType)
  {
    && IsRoomEventLeaf(t)
    && match dec(t, v)
       case Success(event) => DecodeRoomEvent(dec, v) == Success(RoomEventFrom(t, event))
       case Failure(cause) => DecodeRoomEvent(dec, v) == Failure(LeafError(cause))
  }

  /** `DecodeStateEvent` decodes `v` as record type `t`. */
  ghost predicate StateEventDecodesAs<L>(dec: LeafDecoder<L>, v: Json, t: LeafType)
  {
    && IsStateEventLeaf(t)
    && match dec(t, v)
       case Success(event) => DecodeStateEvent(dec, v) == Success(StateEventFrom(t, event))
       case Failure(cause) => DecodeStateEvent(dec, v) == Failure(LeafError(cause))
  }

  /** Once the reference decode has chosen a record type, `DecodeEvent` decodes as that type. */
  lemma EventFollowsClassify<L>(dec: LeafDecoder<L>, v: Json, t: LeafType)
    requires Classify(EventContainer, v) == Success(t)
    ensures EventDecodesAs(dec, v, t)
  {
    var r := DecodeEvent(dec, v);
    if r.Success? {
      EventFromLeaf(r.value);
    }
  }

  /** Once the reference decode has chosen a record type, `DecodeRoomEvent` decodes as that type. */
  lemma RoomEventFollowsClassify<L>(dec: LeafDecoder<L>, v: Json, t: LeafType)
    requires Classify(RoomEventContainer, v) == Success(t)
    ensures RoomEventDecodesAs(dec, v, t)
  {
    var r := DecodeRoomEvent(dec, v);
    if r.Success? {
      RoomEventFromLeaf(r.value);
    }
  }

  /** Once the reference decode has chosen a record type, `DecodeStateEvent` decodes as that type. */
  lemma StateEventFollowsClassify<L>(dec: LeafDecoder<L>, v: Json, t: LeafType)
    requires Classify(StateEventContainer, v) == Success(t)
    ensures StateEventDecodesAs(dec, v, t)
  {
    var r := DecodeStateEvent(dec, v);
    if r.Success? {
      StateEventFromLeaf(r.value);
    }
  }

  /** Without a "type" field every container fails with the missing-field error, whatever the record decoders do. */
  lemma MissingTypeField<L>(dec: LeafDecoder<L>, v: Json)
    requires !Has(v, "type")
    ensures DecodeEvent(dec, v) == Failure(MissingType)
    ensures DecodeRoomEvent(dec, v) == Failure(MissingType)
    ensures DecodeStateEvent(dec, v) == Failure(MissingType)
  {
  }

  /** A "type" value that is not a string is no event type, and every container fails on it. */
  lemma TypeNotAString<L>(dec: LeafDecoder<L>, v: Json)
    requires Has(v, "type") && !Get(v, "type").value.Str?
    ensures DecodeEvent(dec, v) == Failure(BadType)
    ensures DecodeRoomEvent(dec, v) == Failure(BadType)
    ensures DecodeStateEvent(dec, v) == Failure(BadType)
  {
  }

  /**
   * A known event type that a container admits is decoded as that type's own
   * record and wrapped in that type's member; a failure of the record decode is
   * the container's failure, with no fallback to a custom member.
   */
  lemma KnownTypeDecodesAsItsRecord<L>(dec: LeafDecoder<L>, v: Json, t: EventType)
    requires TypeOf(v) == Success(t) && !t.Custom?
    ensures EventDecodesAs(dec, v, LeafTypeOf(t))
    ensures Admits(RoomEventContainer, t) ==> RoomEventDecodesAs(dec, v, LeafTypeOf(t))
    ensures Admits(StateEventContainer, t) ==> StateEventDecodesAs(dec, v, LeafTypeOf(t))
  {
    EventFollowsClassify(dec, v, LeafTypeOf(t));
    if Admits(RoomEventContainer, t) {
      RoomEventFollowsClassify(dec, v, LeafTypeOf(t));
    }
    if Admits(StateEventContainer, t) {
      StateEventFollowsClassify(dec, v, LeafTypeOf(t));
    }
  }

  /**
   * `Event` with an unknown type: a state key wins and gives the custom state
   * member; otherwise event id, room id and sender together give the custom room
   * member; otherwise the custom basic member.
   */
  lemma EventUnknownType<L>(dec: LeafDecoder<L>, v: Json)
    requires TypeOf(v).Success? && TypeOf(v).value.Custom?
    ensures Has(v, "state_key") ==> EventDecodesAs(dec, v, CustomStateEvent)
    ensures !Has(v, "state_key") && Has(v, "event_id") && Has(v, "room_id") && Has(v, "sender") ==>
      EventDecodesAs(dec, v, CustomRoomEvent)
    ensures !Has(v, "state_key") && !(Has(v, "event_id") && Has(v, "room_id") && Has(v, "sender")) ==>
      EventDecodesAs(dec, v, CustomEvent)
  {
    if Has(v, "state_key") {
      EventFollowsClassify(dec, v, CustomStateEvent);
    } else if Has(v, "event_id") && Has(v, "room_id") && Has(v, "sender") {
      EventFollowsClassify(dec, v, CustomRoomEvent);
    } else {
      EventFollowsClassify(dec, v, CustomEvent);
    }
  }

  /**
   * `RoomEvent` with an unknown type: the custom state member when a state key is
   * present, the custom room member otherwise, whatever the other fields are.
   */
  lemma RoomEventUnknownType<L>(dec: LeafDecoder<L>, v: Json)
    requires TypeOf(v).Success? && TypeOf(v).value.Custom?
    ensures Has(v, "state_key") ==> RoomEventDecodesAs(dec, v, CustomStateEvent)
    ensures !Has(v, "state_key") ==> RoomEventDecodesAs(dec, v, CustomRoomEvent)
  {
    if Has(v, "state_key") {
      RoomEventFollowsClassify(dec, v, CustomStateEvent);
    } else {
      RoomEventFollowsClassify(dec, v, CustomRoomEvent);
    }
  }

  /** `StateEvent` with an unknown type: always the custom state member, with no look at the fields. */
  lemma StateEventUnknownType<L>(dec: LeafDecoder<L>, v: Json)
    requires TypeOf(v).Success? && TypeOf(v).value.Custom?
    ensures StateEventDecodesAs(dec, v, CustomStateEvent)
  {
    StateEventFollowsClassify(dec, v, CustomStateEvent);
  }

  /** `Event` rejects no event type: it fails only on a missing or malformed type, or in the record decode. */
  lemma EventAcceptsEveryType<L>(dec: LeafDecoder<L>, v: Json)
    ensures DecodeEvent(dec, v).Failure? ==>
      DecodeEvent(dec, v).error in {MissingType, BadType} || DecodeEvent(dec, v).error.LeafError?
  {
  }

  /** The known types the table keeps out of `RoomEvent`. */
  lemma RoomEventRejectedTypes(t: EventType)
    requires !t.Custom?
    ensures !Admits(RoomEventContainer, t) <==>
      t in {EventType.Presence, EventType.Receipt, EventType.Tag, EventType.Typing}
  {
  }

  /** The known types the table keeps out of `StateEvent`. */
  lemma StateEventRejectedTypes(t: EventType)
    requires !t.Custom?
    ensures !Admits(StateEventContainer, t) <==>
      t in {EventType.CallAnswer, EventType.CallCandidates, EventType.CallHangup, EventType.CallInvite,
            EventType.Presence, EventType.Receipt, EventType.RoomMessage, EventType.RoomRedaction,
            EventType.Tag, EventType.Typing}
  {
  }

  /** `RoomEvent` rejects a value exactly when the reference classification does. */
  lemma RoomEventRejectsAsClassified<L>(dec: LeafDecoder<L>, v: Json)
    ensures DecodeRoomEvent(dec, v) == Failure(NotRoomEvent) <==>
      Classify(RoomEventContainer, v) == Failure(NotRoomEvent)
  {
  }

  /** `StateEvent` rejects a value exactly when the reference classification does. */
  lemma StateEventRejectsAsClassified<L>(dec: LeafDecoder<L>, v: Json)
    ensures DecodeStateEvent(dec, v) == Failure(NotStateEvent) <==>
      Classify(StateEventContainer, v) == Failure(NotStateEvent)
  {
  }

  /** `RoomEvent` fails with "not a room event" exactly for presence, receipt, tag and typing events. */
  lemma RoomEventRejectsExactly<L>(dec: LeafDecoder<L>, v: Json)
    ensures DecodeRoomEvent(dec, v) == Failure(NotRoomEvent) <==>
      TypeOf(v).Success? &&
      TypeOf(v).value in {EventType.Presence, EventType.Receipt, EventType.Tag, EventType.Typing}
  {
    RoomEventRejectsAsClassified(dec, v);
    match TypeOf(v)
    case Failure(_) =>
    case Success(t) =>
      assert Classify(RoomEventContainer, v) == ClassifyType(RoomEventContainer, t, v);
      if !t.Custom? {
        RoomEventRejectedTypes(t);
      }
  }

  /** `StateEvent` fails with "not a state event" exactly for the call, presence, receipt, message, redaction, tag and typing events. */
  lemma StateEventRejectsExactly<L>(dec: LeafDecoder<L>, v: Json)
    ensures DecodeStateEvent(dec, v) == Failure(NotStateEvent) <==>
      TypeOf(v).Success? && TypeOf(v).value in
        {EventType.CallAnswer, EventType.CallCandidates, EventType.CallHangup, EventType.CallInvite,
         EventType.Presence, EventType.Receipt, EventType.RoomMessage, EventType.RoomRedaction,
         EventType.Tag, EventType.Typing}
  {
    StateEventRejectsAsClassified(dec, v);
    match TypeOf(v)
    case Failure(_) =>
    case Success(t) =>
      assert Classify(StateEventContainer, v) == ClassifyType(StateEventContainer, t, v);
      if !t.Custom? {
        StateEventRejectedTypes(t);
      }
  }

  /**
   * The types `RoomEvent` rejects are exactly the known types whose record `Event`
   * holds and `RoomEvent` does not; likewise for `StateEvent`.
   */
  lemma RejectedTypesAreMissingMembers(t: EventType)
    requires !t.Custom?
    ensures t in {EventType.Presence, EventType.Receipt, EventType.Tag, EventType.Typing}
      <==> !IsRoomEventLeaf(LeafTypeOf(t))
    ensures t in {EventType.CallAnswer, EventType.CallCandidates, EventType.CallHangup, EventType.CallInvite,
        EventType.Presence, EventType.Receipt, EventType.RoomMessage, EventType.RoomRedaction,
        EventType.Tag, EventType.Typing}
      <==> !IsStateEventLeaf(LeafTypeOf(t))
  {
  }

  /**
   * A record type `StateEvent` classifies a value as is also the choice of `RoomEvent`
   * and `Event`, unless it is the custom state record picked without a state key.
   */
  lemma ClassifyNests(v: Json)
    requires Classify(StateEventContainer, v).Success?
    requires Classify(StateEventContainer, v).value != CustomStateEvent || Has(v, "state_key")
    ensures Classify(RoomEventContainer, v) == Classify(StateEventContainer, v)
    ensures Classify(EventContainer, v) == Classify(StateEventContainer, v)
  {
    var t := TypeOf(v).value;
    assert Classify(StateEventContainer, v) == ClassifyType(StateEventContainer, t, v);
    assert Classify(RoomEventContainer, v) == ClassifyType(RoomEventContainer, t, v);
    assert Classify(EventContainer, v) == ClassifyType(EventContainer, t, v);
    if !t.Custom? {
      assert TierOf(t) == State;
    }
  }

  /**
   * What `StateEvent` decodes, `RoomEvent` and `Event` decode to the same-named
   * member over the same payload, unless it is an unknown type without a state key.
   */
  lemma StateEventAgreesWithLarger<L>(dec: LeafDecoder<L>, v: Json)
    requires DecodeStateEvent(dec, v).Success?
    requires DecodeStateEvent(dec, v).value.Leaf() != CustomStateEvent || Has(v, "state_key")
    ensures DecodeRoomEvent(dec, v) ==
      Success(RoomEventFrom(DecodeStateEvent(dec, v).value.Leaf(), DecodeStateEvent(dec, v).value.event))
    ensures DecodeEvent(dec, v) ==
      Success(EventFrom(DecodeStateEvent(dec, v).value.Leaf(), DecodeStateEvent(dec, v).value.event))
  {
    var s := DecodeStateEvent(dec, v).value;
    assert Classify(StateEventContainer, v) == Success(s.Leaf());
    ClassifyNests(v);
    RoomEventFollowsClassify(dec, v, s.Leaf());
    EventFollowsClassify(dec, v, s.Leaf());
  }

  /**
   * What `RoomEvent` decodes, `Event` decodes to the same-named member over the
   * same payload, unless it is an unknown type lacking one of event id, room id and sender.
   */
  lemma RoomEventAgreesWithEvent<L>(dec: LeafDecoder<L>, v: Json)
    requires DecodeRoomEvent(dec, v).Success?
    requires DecodeRoomEvent(dec, v).value.Leaf() != CustomRoomEvent ||
      (Has(v, "event_id") && Has(v, "room_id") && Has(v, "sender"))
    ensures DecodeEvent(dec, v) ==
      Success(EventFrom(DecodeRoomEvent(dec, v).value.Leaf(), DecodeRoomEvent(dec, v).value.event))
  {
    var r := DecodeRoomEvent(dec, v).value;
    assert Classify(RoomEventContainer, v) == Success(r.Leaf());
    assert Classify(EventContainer, v) == Success(r.Leaf());
    EventFollowsClassify(dec, v, r.Leaf());
  }

  /**
   * The one place the containers disagree: an unknown type without a state key is
   * a custom state event to `StateEvent`, but never one to `Event` or `RoomEvent`.
   */
  lemma UnknownTypeWithoutStateKey<L>(dec: LeafDecoder<L>, v: Json)
    requires TypeOf(v).Success? && TypeOf(v).value.Custom? && !Has(v, "state_key")
    ensures DecodeStateEvent(dec, v).Success? ==> DecodeStateEvent(dec, v).value.Leaf() == CustomStateEvent
    ensures DecodeRoomEvent(dec, v).Success? ==> DecodeRoomEvent(dec, v).value.Leaf() == CustomRoomEvent
    ensures DecodeEvent(dec, v).Success? ==> DecodeEvent(dec, v).value.Leaf() in {CustomEvent, CustomRoomEvent}
  {
    StateEventUnknownType(dec, v);
    RoomEventUnknownType(dec, v);
    EventUnknownType(dec, v);
  }

  /** A value whose "type" is a known tag is classified as that tag's record type by every container admitting it. */
  lemma ClassifyKnownTag(c: Container, t: EventType, v: Json)
    requires !t.Custom? && Admits(c, t)
    requires Get(v, "type") == Some(Str(TagName(t)))
    ensures Classify(c, v) == Success(LeafTypeOf(t))
  {
    KnownTagRoundTrip(t);
  }

  /**
   * The fields of `j` select the custom record `leaf` in container `c`, as the
   * unknown-type branch of each decoder does: a state key gives custom state
   * (always, in `StateEvent`); without one, `RoomEvent` gives custom room, and
   * `Event` gives custom room with event id, room id and sender, else custom basic.
   */
  ghost predicate SelectsCustom(c: Container, leaf: LeafType, j: Json)
  {
    var roomFields := Has(j, "event_id") && Has(j, "room_id") && Has(j, "sender");
    match leaf
    case CustomStateEvent => c == StateEventContainer || Has(j, "state_key")
    case CustomRoomEvent => !Has(j, "state_key") && (c == RoomEventContainer || roomFields)
    case CustomEvent => !Has(j, "state_key") && !roomFields
    case _ => false
  }

  /**
   * The encoding `j` of a record of type `leaf` announces that record type to
   * container `c`: a known record's "type" is its event type's tag; a custom
   * record's "type" is a string no known event type has, and its fields select
   * that custom record in `c`.
   */
  ghost predicate Announces(c: Container, leaf: LeafType, j: Json)
  {
    match Get(j, "type")
    case Some(Str(tag)) =>
      if IsCustomLeaf(leaf) then
        && (forall t: EventType :: !t.Custom? ==> TagName(t) != tag)
        && SelectsCustom(c, leaf, j)
      else
        tag == TagName(KnownTypeOf(leaf))
    case _ => false
  }

  /** The custom record the fields select is the one the legality table picks for an unknown type. */
  lemma SelectedCustomLeaf(c: Container, leaf: LeafType, j: Json)
    requires HasMember(c, leaf) && IsCustomLeaf(leaf) && SelectsCustom(c, leaf, j)
    ensures CustomLeaf(Max(Floor(c), FieldTier(j))) == leaf
  {
    match c
    case EventContainer =>
    case RoomEventContainer =>
    case StateEventContainer =>
  }

  /** A container classifies an encoding as the member record type the encoding announces. */
  lemma ClassifyAnnounced(c: Container, leaf: LeafType, j: Json)
    requires HasMember(c, leaf) && Announces(c, leaf, j)
    ensures Classify(c, j) == Success(leaf)
  {
    var tag := Get(j, "type").value.s;
    if IsCustomLeaf(leaf) {
      CustomIffUnknownTag(tag);
      assert TypeOf(j) == Success(EventType.Custom(tag));
      SelectedCustomLeaf(c, leaf, j);
    } else {
      var t := KnownTypeOf(leaf);
      AdmitsIffMember(c, t);
      ClassifyKnownTag(c, t, j);
    }
  }

  /**
   * Round trip: when the record encoding of an event's payload announces its
   * record type and the record decoder reads the payload back from it, decoding
   * the event's encoding gives the event back.
   */
  lemma EventRoundTrip<L>(dec: LeafDecoder<L>, enc: LeafEncoder<L>, e: Event<L>, j: Json)
    requires EncodeEvent(enc, e) == Success(j)
    requires Announces(EventContainer, e.Leaf(), j)
    requires dec(e.Leaf(), j) == Success(e.event)
    ensures DecodeEvent(dec, j) == Success(e)
  {
    ClassifyAnnounced(EventContainer, e.Leaf(), j);
    EventFollowsClassify(dec, j, e.Leaf());
    EventFromLeaf(e);
  }

  /** Round trip for `RoomEvent`. */
  lemma RoomEventRoundTrip<L>(dec: LeafDecoder<L>, enc: LeafEncoder<L>, e: RoomEvent<L>, j: Json)
    requires EncodeRoomEvent(enc, e) == Success(j)
    requires Announces(RoomEventContainer, e.Leaf(), j)
    requires dec(e.Leaf(), j) == Success(e.event)
    ensures DecodeRoomEvent(dec, j) == Success(e)
  {
    ClassifyAnnounced(RoomEventContainer, e.Leaf(), j);
    RoomEventFollowsClassify(dec, j, e.Leaf());
    RoomEventFromLeaf(e);
  }

  /** Round trip for `StateEvent`. */
  lemma StateEventRoundTrip<L>(dec: LeafDecoder<L>, enc: LeafEncoder<L>, e: StateEvent<L>, j: Json)
    requires EncodeStateEvent(enc, e) == Success(j)
    requires Announces(StateEventContainer, e.Leaf(), j)
    requires dec(e.Leaf(), j) == Success(e.event)
    ensures DecodeStateEvent(dec, j) == Success(e)
  {
    ClassifyAnnounced(StateEventContainer, e.Leaf(), j);
    StateEventFollowsClassify(dec, j, e.Leaf());
    StateEventFromLeaf(e);
  }

  /**
   * The field condition of the round trip is needed: a custom basic `Event` whose
   * encoding carries a state key comes back, if at all, as a custom state event.
   */
  lemma CustomWithStateKeyDoesNotRoundTrip<L>(dec: LeafDecoder<L>, e: Event<L>, j: Json)
    requires e.Leaf() == CustomEvent
    requires TypeOf(j).Success? && TypeOf(j).value.Custom? && Has(j, "state_key")
    ensures DecodeEvent(dec, j) != Success(e)
  {
    EventUnknownType(dec, j);
  }

  /** Two tags of a length no known tag has, so both read as unknown event types. */
  lemma ExampleTagsAreUnknown()
    ensures FromTag("com.example.foo") == EventType.Custom("com.example.foo")
    ensures FromTag("com.example.bar") == EventType.Custom("com.example.bar")
  {
    forall t: EventType | !t.Custom?
      ensures |TagName(t)| != 15
    {
    }
    CustomIffUnknownTag("com.example.foo");
    CustomIffUnknownTag("com.example.bar");
  }

  /** The topic tag reads as the topic event type. */
  lemma TopicTagIsKnown()
    ensures FromTag("m.room.topic") == EventType.RoomTopic
  {
    KnownTagRoundTrip(EventType.RoomTopic);
  }

  /** A topic event without a state key (or any other field) goes to the topic record in every container. */
  lemma TopicWithoutStateKey<L>(dec: LeafDecoder<L>)
    ensures var v := Object(map["type" := Str("m.room.topic")]);
      && StateEventDecodesAs(dec, v, TopicEvent)
      && RoomEventDecodesAs(dec, v, TopicEvent)
      && EventDecodesAs(dec, v, TopicEvent)
  {
    var v := Object(map["type" := Str("m.room.topic")]);
    TopicTagIsKnown();
    assert TypeOf(v) == Success(EventType.RoomTopic);
    KnownTypeDecodesAsItsRecord(dec, v, EventType.RoomTopic);
  }

  /** An unknown type with a state key is a custom state event in every container. */
  lemma UnknownWithStateKey<L>(dec: LeafDecoder<L>)
    ensures var v := Object(map["type" := Str("com.example.foo"), "state_key" := Str("")]);
      && EventDecodesAs(dec, v, CustomStateEvent)
      && RoomEventDecodesAs(dec, v, CustomStateEvent)
      && StateEventDecodesAs(dec, v, CustomStateEvent)
  {
    var v := Object(map["type" := Str("com.example.foo"), "state_key" := Str("")]);
    ExampleTagsAreUnknown();
    assert Get(v, "type") == Some(Str("com.example.foo"));
    assert Has(v, "state_key");
    EventUnknownType(dec, v);
    RoomEventUnknownType(dec, v);
    StateEventUnknownType(dec, v);
  }

  /** An unknown type with no room or state fields is custom basic to `Event` but custom room to `RoomEvent`. */
  lemma UnknownWithoutRoomFields<L>(dec: LeafDecoder<L>)
    ensures var v := Object(map["type" := Str("com.example.bar")]);
      && EventDecodesAs(dec, v, CustomEvent)
      && RoomEventDecodesAs(dec, v, CustomRoomEvent)
  {
    var v := Object(map["type" := Str("com.example.bar")]);
    ExampleTagsAreUnknown();
    assert Get(v, "type") == Some(Str("com.example.bar"));
    assert !Has(v, "state_key") && !Has(v, "event_id");
    EventUnknownType(dec, v);
    RoomEventUnknownType(dec, v);
  }
}
