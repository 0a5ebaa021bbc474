/**
 * The three container decoders, written as the containers' `Deserialize`
 * implementations are: look up "type", read it as an event type, then one branch
 * per event type. Each is proved to agree with the reference decode `Expected`
 * of the legality table.
 */
module Decoding {
  import opened Wrappers
  import opened Json
  import opened EventTypes
  import opened Containers
  import opened Legality

  /**
   * One branch of `EventOfType`: decode the whole value as the record type the
   * event type was classified as and wrap it in the member for that record type.
   */
  function EventAs<L>(dec: LeafDecoder<L>, eventType: EventType, leaf: LeafType, v: Json): (r: Result<Event<L>, DecodeError>)
    requires ClassifyType(EventContainer, eventType, v) == Success(leaf)
    ensures r.Success? ==> ExpectedFor(EventContainer, dec, eventType, v) == Success(Held(r.value.Leaf(), r.value.event))
    ensures r.Failure? ==> ExpectedFor(EventContainer, dec, eventType, v) == Failure(r.error)
  {
    match dec(leaf, v)
    case Success(event) => Success(EventFrom(leaf, event))
    case Failure(cause) => Failure(LeafError(cause))
  }

  /**
   * One branch of `RoomEventOfType`: decode the whole value as the record type the
   * event type was classified as and wrap it in the member for that record type.
   */
  function RoomEventAs<L>(dec: LeafDecoder<L>, eventType: EventType, leaf: LeafType, v: Json): (r: Result<RoomEvent<L>, DecodeError>)
    requires ClassifyType(RoomEventContainer, eventType, v) == Success(leaf)
    ensures r.Success? ==> ExpectedFor(RoomEventContainer, dec, eventType, v) == Success(Held(r.value.Leaf(), r.value.event))
    ensures r.Failure? ==> ExpectedFor(RoomEventContainer, dec, eventType, v) == Failure(r.error)
  {
    match dec(leaf, v)
    case Success(event) => Success(RoomEventFrom(leaf, event))
    case Failure(cause) => Failure(LeafError(cause))
  }

  /**
   * One branch of `StateEventOfType`: decode the whole value as the record type the
   * event type was classified as and wrap it in the member for that record type.
   */
  function StateEventAs<L>(dec: LeafDecoder<L>, eventType: EventType, leaf: LeafType, v: Json): (r: Result<StateEvent<L>, DecodeError>)
    requires ClassifyType(StateEventContainer, eventType, v) == Success(leaf)
    ensures r.Success? ==> ExpectedFor(StateEventContainer, dec, eventType, v) == Success(Held(r.value.Leaf(), r.value.event))
    ensures r.Failure? ==> ExpectedFor(StateEventContainer, dec, eventType, v) == Failure(r.error)
  {
    match dec(leaf, v)
    case Success(event) => Success(StateEventFrom(leaf, event))
    case Failure(cause) => Failure(LeafError(cause))
  }

  /** Decodes a `Event` from an untyped value. */
  function DecodeEvent<L>(dec: LeafDecoder<L>, v: Json): (r: Result<Event<L>, DecodeError>)
    ensures r.Success? ==> Expected(EventContainer, dec, v) == Success(Held(r.value.Leaf(), r.value.event))
    ensures r.Failure? ==> Expected(EventContainer, dec, v) == Failure(r.error)
  {
    match Get(v, "type")
    case None => Failure(MissingType)
    case Some(typeValue) =>
      var eventType :- DecodeEventType(typeValue);
      EventOfType(dec, eventType, v)
  }

  /** The branch on the event type of `DecodeEvent`: one record type per admitted event type. */
  function EventOfType<L>(dec: LeafDecoder<L>, eventType: EventType, v: Json): (r: Result<Event<L>, DecodeError>)
    ensures r.Success? ==> ExpectedFor(EventContainer, dec, eventType, v) == Success(Held(r.value.Leaf(), r.value.event))
    ensures r.Failure? ==> ExpectedFor(EventContainer, dec, eventType, v) == Failure(r.error)
  {
    match eventType
    case CallAnswer =>
      EventAs(dec, eventType, AnswerEvent, v)
    case CallCandidates =>
      EventAs(dec, eventType, CandidatesEvent, v)
    case CallHangup =>
      EventAs(dec, eventType, HangupEvent, v)
    case CallInvite =>
      EventAs(dec, eventType, InviteEvent, v)
    case Presence =>
      EventAs(dec, eventType, PresenceEvent, v)
    case Receipt =>
      EventAs(dec, eventType, ReceiptEvent, v)
    case RoomAliases =>
      EventAs(dec, eventType, AliasesEvent, v)
    case RoomAvatar =>
      EventAs(dec, eventType, AvatarEvent, v)
    case RoomCanonicalAlias =>
      EventAs(dec, eventType, CanonicalAliasEvent, v)
    case RoomCreate =>
      EventAs(dec, eventType, CreateEvent, v)
    case RoomGuestAccess =>
      EventAs(dec, eventType, GuestAccessEvent, v)
    case RoomHistoryVisibility =>
      EventAs(dec, eventType, HistoryVisibilityEvent, v)
    case RoomJoinRules =>
      EventAs(dec, eventType, JoinRulesEvent, v)
    case RoomMember =>
      EventAs(dec, eventType, MemberEvent, v)
    case RoomMessage =>
      EventAs(dec, eventType, MessageEvent, v)
    case RoomName =>
      EventAs(dec, eventType, NameEvent, v)
    case RoomPowerLevels =>
      EventAs(dec, eventType, PowerLevelsEvent, v)
    case RoomRedaction =>
      EventAs(dec, eventType, RedactionEvent, v)
    case RoomThirdPartyInvite =>
      EventAs(dec, eventType, ThirdPartyInviteEvent, v)
    case RoomTopic =>
      EventAs(dec, eventType, TopicEvent, v)
    case Tag =>
      EventAs(dec, eventType, TagEvent, v)
    case Typing =>
      EventAs(dec, eventType, TypingEvent, v)
    case Custom(_) =>
      if Has(v, "state_key") then
        EventAs(dec, eventType, CustomStateEvent, v)
      else if Has(v, "event_id") && Has(v, "room_id") && Has(v, "sender") then
        EventAs(dec, eventType, CustomRoomEvent, v)
      else
        EventAs(dec, eventType, CustomEvent, v)
  }

  /** Decodes a `RoomEvent` from an untyped value. */
  function DecodeRoomEvent<L>(dec: LeafDecoder<L>, v: Json): (r: Result<RoomEvent<L>, DecodeError>)
    ensures r.Success? ==> Expected(RoomEventContainer, dec, v) == Success(Held(r.value.Leaf(), r.value.event))
    ensures r.Failure? ==> Expected(RoomEventContainer, dec, v) == Failure(r.error)
  {
    match Get(v, "type")
    case None => Failure(MissingType)
    case Some(typeValue) =>
      var eventType :- DecodeEventType(typeValue);
      RoomEventOfType(dec, eventType, v)
  }

  /** The branch on the event type of `DecodeRoomEvent`: one record type per admitted event type. */
  function RoomEventOfType<L>(dec: LeafDecoder<L>, eventType: EventType, v: Json): (r: Result<RoomEvent<L>, DecodeError>)
    ensures r.Success? ==> ExpectedFor(RoomEventContainer, dec, eventType, v) == Success(Held(r.value.Leaf(), r.value.event))
    ensures r.Failure? ==> ExpectedFor(RoomEventContainer, dec, eventType, v) == Failure(r.error)
  {
    match eventType
    case CallAnswer =>
      RoomEventAs(dec, eventType, AnswerEvent, v)
    case CallCandidates =>
      RoomEventAs(dec, eventType, CandidatesEvent, v)
    case CallHangup =>
      RoomEventAs(dec, eventType, HangupEvent, v)
    case CallInvite =>
      RoomEventAs(dec, eventType, InviteEvent, v)
    case RoomAliases =>
      RoomEventAs(dec, eventType, AliasesEvent, v)
    case RoomAvatar =>
      RoomEventAs(dec, eventType, AvatarEvent, v)
    case RoomCanonicalAlias =>
      RoomEventAs(dec, eventType, CanonicalAliasEvent, v)
    case RoomCreate =>
      RoomEventAs(dec, eventType, CreateEvent, v)
    case RoomGuestAccess =>
      RoomEventAs(dec, eventType, GuestAccessEvent, v)
    case RoomHistoryVisibility =>
      RoomEventAs(dec, eventType, HistoryVisibilityEvent, v)
    case RoomJoinRules =>
      RoomEventAs(dec, eventType, JoinRulesEvent, v)
    case RoomMember =>
      RoomEventAs(dec, eventType, MemberEvent, v)
    case RoomMessage =>
      RoomEventAs(dec, eventType, MessageEvent, v)
    case RoomName =>
      RoomEventAs(dec, eventType, NameEvent, v)
    case RoomPowerLevels =>
      RoomEventAs(dec, eventType, PowerLevelsEvent, v)
    case RoomRedaction =>
      RoomEventAs(dec, eventType, RedactionEvent, v)
    case RoomThirdPartyInvite =>
      RoomEventAs(dec, eventType, ThirdPartyInviteEvent, v)
    case RoomTopic =>
      RoomEventAs(dec, eventType, TopicEvent, v)
    case Custom(_) =>
      if Has(v, "state_key") then
        RoomEventAs(dec, eventType, CustomStateEvent, v)
      else
        RoomEventAs(dec, eventType, CustomRoomEvent, v)
    case Presence | Receipt | Tag | Typing =>
      Failure(NotRoomEvent)
  }

  /** Decodes a `StateEvent` from an untyped value. */
  function DecodeStateEvent<L>(dec: LeafDecoder<L>, v: Json): (r: Result<StateEvent<L>, DecodeError>)
    ensures r.Success? ==> Expected(StateEventContainer, dec, v) == Success(Held(r.value.Leaf(), r.value.event))
    ensures r.Failure? ==> Expected(StateEventContainer, dec, v) == Failure(r.error)
  {
    match Get(v, "type")
    case None => Failure(MissingType)
    case Some(typeValue) =>
      var eventType :- DecodeEventType(typeValue);
      StateEventOfType(dec, eventType, v)
  }

  /** The branch on the event type of `DecodeStateEvent`: one record type per admitted event type. */
  function StateEventOfType<L>(dec: LeafDecoder<L>, eventType: EventType, v: Json): (r: Result<StateEvent<L>, DecodeError>)
    ensures r.Success? ==> ExpectedFor(StateEventContainer, dec, eventType, v) == Success(Held(r.value.Leaf(), r.value.event))
    ensures r.Failure? ==> ExpectedFor(StateEventContainer, dec, eventType, v) == Failure(r.error)
  {
    match eventType
    case RoomAliases =>
      StateEventAs(dec, eventType, AliasesEvent, v)
    case RoomAvatar =>
      StateEventAs(dec, eventType, AvatarEvent, v)
    case RoomCanonicalAlias =>
      StateEventAs(dec, eventType, CanonicalAliasEvent, v)
    case RoomCreate =>
      StateEventAs(dec, eventType, CreateEvent, v)
    case RoomGuestAccess =>
      StateEventAs(dec, eventType, GuestAccessEvent, v)
    case RoomHistoryVisibility =>
      StateEventAs(dec, eventType, HistoryVisibilityEvent, v)
    case RoomJoinRules =>
      StateEventAs(dec, eventType, JoinRulesEvent, v)
    case RoomMember =>
      StateEventAs(dec, eventType, MemberEvent, v)
    case RoomName =>
      StateEventAs(dec, eventType, NameEvent, v)
    case RoomPowerLevels =>
      StateEventAs(dec, eventType, PowerLevelsEvent, v)
    case RoomThirdPartyInvite =>
      StateEventAs(dec, eventType, ThirdPartyInviteEvent, v)
    case RoomTopic =>
      StateEventAs(dec, eventType, TopicEvent, v)
    case Custom(_) =>
      StateEventAs(dec, eventType, CustomStateEvent, v)
    case CallAnswer | CallCandidates | CallHangup | CallInvite | Presence | Receipt | RoomMessage | RoomRedaction | Tag | Typing =>
      Failure(NotStateEvent)
  }
}
