/**
 * The three polymorphic event containers: `Event` (any event), `RoomEvent` (a
 * room or state event) and `StateEvent` (a state event). Each is a closed tagged
 * union with one member per record type it can hold; the record itself is
 * abstracted as a payload of type `L`, and `LeafType` names which of the
 * protocol's record types a payload is.
 */
module Containers {
  import opened Wrappers
  import opened Json

  /** The record types a container member can hold, one per known event type plus three custom ones. */
  datatype LeafType =
    | AnswerEvent
    | CandidatesEvent
    | HangupEvent
    | InviteEvent
    | PresenceEvent
    | ReceiptEvent
    | AliasesEvent
    | AvatarEvent
    | CanonicalAliasEvent
    | CreateEvent
    | GuestAccessEvent
    | HistoryVisibilityEvent
    | JoinRulesEvent
    | MemberEvent
    | MessageEvent
    | NameEvent
    | PowerLevelsEvent
    | RedactionEvent
    | ThirdPartyInviteEvent
    | TopicEvent
    | TagEvent
    | TypingEvent
    | CustomEvent
    | CustomRoomEvent
    | CustomStateEvent

  /** Decoding a JSON value as a given record type, with the record's own error message. */
  type LeafDecoder<L> = (LeafType, Json) -> Result<L, string>

  /** Encoding a payload with the serializer of a given record type. */
  type LeafEncoder<!L> = (LeafType, L) -> Result<Json, string>

  /** The record types `RoomEvent` has a member for. */
  predicate IsRoomEventLeaf(t: LeafType)
  {
    match t
    case AnswerEvent
       | CandidatesEvent
       | HangupEvent
       | InviteEvent
       | AliasesEvent
       | AvatarEvent
       | CanonicalAliasEvent
       | CreateEvent
       | GuestAccessEvent
       | HistoryVisibilityEvent
       | JoinRulesEvent
       | MemberEvent
       | MessageEvent
       | NameEvent
       | PowerLevelsEvent
       | RedactionEvent
       | ThirdPartyInviteEvent
       | TopicEvent
       | CustomRoomEvent
       | CustomStateEvent => true
    case _ => false
  }

  /** The record types `StateEvent` has a member for. */
  predicate IsStateEventLeaf(t: LeafType)
  {
    match t
    case AliasesEvent
       | AvatarEvent
       | CanonicalAliasEvent
       | CreateEvent
       | GuestAccessEvent
       | HistoryVisibilityEvent
       | JoinRulesEvent
       | MemberEvent
       | NameEvent
       | PowerLevelsEvent
       | ThirdPartyInviteEvent
       | TopicEvent
       | CustomStateEvent => true
    case _ => false
  }

  /** A basic event, room event or state event. */
  datatype Event<L> =
    | CallAnswer(event: L)
    | CallCandidates(event: L)
    | CallHangup(event: L)
    | CallInvite(event: L)
    | Presence(event: L)
    | Receipt(event: L)
    | RoomAliases(event: L)
    | RoomAvatar(event: L)
    | RoomCanonicalAlias(event: L)
    | RoomCreate(event: L)
    | RoomGuestAccess(event: L)
    | RoomHistoryVisibility(event: L)
    | RoomJoinRules(event: L)
    | RoomMember(event: L)
    | RoomMessage(event: L)
    | RoomName(event: L)
    | RoomPowerLevels(event: L)
    | RoomRedaction(event: L)
    | RoomThirdPartyInvite(event: L)
    | RoomTopic(event: L)
    | Tag(event: L)
    | Typing(event: L)
    | Custom(event: L)
    | CustomRoom(event: L)
    | CustomState(event: L)
  {
    /** The record type of the payload this member holds. */
    function Leaf(): (t: LeafType)
    {
      match this
      case CallAnswer(_) => AnswerEvent
      case CallCandidates(_) => CandidatesEvent
      case CallHangup(_) => HangupEvent
      case CallInvite(_) => InviteEvent
      case Presence(_) => PresenceEvent
      case Receipt(_) => ReceiptEvent
      case RoomAliases(_) => AliasesEvent
      case RoomAvatar(_) => AvatarEvent
      case RoomCanonicalAlias(_) => CanonicalAliasEvent
      case RoomCreate(_) => CreateEvent
      case RoomGuestAccess(_) => GuestAccessEvent
      case RoomHistoryVisibility(_) => HistoryVisibilityEvent
      case RoomJoinRules(_) => JoinRulesEvent
      case RoomMember(_) => MemberEvent
      case RoomMessage(_) => MessageEvent
      case RoomName(_) => NameEvent
      case RoomPowerLevels(_) => PowerLevelsEvent
      case RoomRedaction(_) => RedactionEvent
      case RoomThirdPartyInvite(_) => ThirdPartyInviteEvent
      case RoomTopic(_) => TopicEvent
      case Tag(_) => TagEvent
      case Typing(_) => TypingEvent
      case Custom(_) => CustomEvent
      case CustomRoom(_) => CustomRoomEvent
      case CustomState(_) => CustomStateEvent
    }
  }

  /** A room event or state event. */
  datatype RoomEvent<L> =
    | CallAnswer(event: L)
    | CallCandidates(event: L)
    | CallHangup(event: L)
    | CallInvite(event: L)
    | RoomAliases(event: L)
    | RoomAvatar(event: L)
    | RoomCanonicalAlias(event: L)
    | RoomCreate(event: L)
    | RoomGuestAccess(event: L)
    | RoomHistoryVisibility(event: L)
    | RoomJoinRules(event: L)
    | RoomMember(event: L)
    | RoomMessage(event: L)
    | RoomName(event: L)
    | RoomPowerLevels(event: L)
    | RoomRedaction(event: L)
    | RoomThirdPartyInvite(event: L)
    | RoomTopic(event: L)
    | CustomRoom(event: L)
    | CustomState(event: L)
  {
    /** The record type of the payload this member holds. */
    function Leaf(): (t: LeafType)
      ensures IsRoomEventLeaf(t)
    {
      match this
      case CallAnswer(_) => AnswerEvent
      case CallCandidates(_) => CandidatesEvent
      case CallHangup(_) => HangupEvent
      case CallInvite(_) => InviteEvent
      case RoomAliases(_) => AliasesEvent
      case RoomAvatar(_) => AvatarEvent
      case RoomCanonicalAlias(_) => CanonicalAliasEvent
      case RoomCreate(_) => CreateEvent
      case RoomGuestAccess(_) => GuestAccessEvent
      case RoomHistoryVisibility(_) => HistoryVisibilityEvent
      case RoomJoinRules(_) => JoinRulesEvent
      case RoomMember(_) => MemberEvent
      case RoomMessage(_) => MessageEvent
      case RoomName(_) => NameEvent
      case RoomPowerLevels(_) => PowerLevelsEvent
      case RoomRedaction(_) => RedactionEvent
      case RoomThirdPartyInvite(_) => ThirdPartyInviteEvent
      case RoomTopic(_) => TopicEvent
      case CustomRoom(_) => CustomRoomEvent
      case CustomState(_) => CustomStateEvent
    }
  }

  /** A state event. */
  datatype StateEvent<L> =
    | RoomAliases(event: L)
    | RoomAvatar(event: L)
    | RoomCanonicalAlias(event: L)
    | RoomCreate(event: L)
    | RoomGuestAccess(event: L)
    | RoomHistoryVisibility(event: L)
    | RoomJoinRules(event: L)
    | RoomMember(event: L)
    | RoomName(event: L)
    | RoomPowerLevels(event: L)
    | RoomThirdPartyInvite(event: L)
    | RoomTopic(event: L)
    | CustomState(event: L)
  {
    /** The record type of the payload this member holds. */
    function Leaf(): (t: LeafType)
      ensures IsStateEventLeaf(t)
    {
      match this
      case RoomAliases(_) => AliasesEvent
      case RoomAvatar(_) => AvatarEvent
      case RoomCanonicalAlias(_) => CanonicalAliasEvent
      case RoomCreate(_) => CreateEvent
      case RoomGuestAccess(_) => GuestAccessEvent
      case RoomHistoryVisibility(_) => HistoryVisibilityEvent
      case RoomJoinRules(_) => JoinRulesEvent
      case RoomMember(_) => MemberEvent
      case RoomName(_) => NameEvent
      case RoomPowerLevels(_) => PowerLevelsEvent
      case RoomThirdPartyInvite(_) => ThirdPartyInviteEvent
      case RoomTopic(_) => TopicEvent
      case CustomState(_) => CustomStateEvent
    }
  }

  /** The `From` conversion of a payload of record type `t` into its `Event` member. */
  function EventFrom<L>(t: LeafType, event: L): (e: Event<L>)
    ensures e.Leaf() == t && e.event == event
  {
    match t
    case AnswerEvent => Event.CallAnswer(event)
    case CandidatesEvent => Event.CallCandidates(event)
    case HangupEvent => Event.CallHangup(event)
    case InviteEvent => Event.CallInvite(event)
    case PresenceEvent => Event.Presence(event)
    case ReceiptEvent => Event.Receipt(event)
    case AliasesEvent => Event.RoomAliases(event)
    case AvatarEvent => Event.RoomAvatar(event)
    case CanonicalAliasEvent => Event.RoomCanonicalAlias(event)
    case CreateEvent => Event.RoomCreate(event)
    case GuestAccessEvent => Event.RoomGuestAccess(event)
    case HistoryVisibilityEvent => Event.RoomHistoryVisibility(event)
    case JoinRulesEvent => Event.RoomJoinRules(event)
    case MemberEvent => Event.RoomMember(event)
    case MessageEvent => Event.RoomMessage(event)
    case NameEvent => Event.RoomName(event)
    case PowerLevelsEvent => Event.RoomPowerLevels(event)
    case RedactionEvent => Event.RoomRedaction(event)
    case ThirdPartyInviteEvent => Event.RoomThirdPartyInvite(event)
    case TopicEvent => Event.RoomTopic(event)
    case TagEvent => Event.Tag(event)
    case TypingEvent => Event.Typing(event)
    case CustomEvent => Event.Custom(event)
    case CustomRoomEvent => Event.CustomRoom(event)
    case CustomStateEvent => Event.CustomState(event)
  }

  /** The `From` conversion of a payload of record type `t` into its `RoomEvent` member. */
  function RoomEventFrom<L>(t: LeafType, event: L): (e: RoomEvent<L>)
    requires IsRoomEventLeaf(t)
    ensures e.Leaf() == t && e.event == event
  {
    match t
    case AnswerEvent => RoomEvent.CallAnswer(event)
    case CandidatesEvent => RoomEvent.CallCandidates(event)
    case HangupEvent => RoomEvent.CallHangup(event)
    case InviteEvent => RoomEvent.CallInvite(event)
    case AliasesEvent => RoomEvent.RoomAliases(event)
    case AvatarEvent => RoomEvent.RoomAvatar(event)
    case CanonicalAliasEvent => RoomEvent.RoomCanonicalAlias(event)
    case CreateEvent => RoomEvent.RoomCreate(event)
    case GuestAccessEvent => RoomEvent.RoomGuestAccess(event)
    case HistoryVisibilityEvent => RoomEvent.RoomHistoryVisibility(event)
    case JoinRulesEvent => RoomEvent.RoomJoinRules(event)
    case MemberEvent => RoomEvent.RoomMember(event)
    case MessageEvent => RoomEvent.RoomMessage(event)
    case NameEvent => RoomEvent.RoomName(event)
    case PowerLevelsEvent => RoomEvent.RoomPowerLevels(event)
    case RedactionEvent => RoomEvent.RoomRedaction(event)
    case ThirdPartyInviteEvent => RoomEvent.RoomThirdPartyInvite(event)
    case TopicEvent => RoomEvent.RoomTopic(event)
    case CustomRoomEvent => RoomEvent.CustomRoom(event)
    case CustomStateEvent => RoomEvent.CustomState(event)
  }

  /** The `From` conversion of a payload of record type `t` into its `StateEvent` member. */
  function StateEventFrom<L>(t: LeafType, event: L): (e: StateEvent<L>)
    requires IsStateEventLeaf(t)
    ensures e.Leaf() == t && e.event == event
  {
    match t
    case AliasesEvent => StateEvent.RoomAliases(event)
    case AvatarEvent => StateEvent.RoomAvatar(event)
    case CanonicalAliasEvent => StateEvent.RoomCanonicalAlias(event)
    case CreateEvent => StateEvent.RoomCreate(event)
    case GuestAccessEvent => StateEvent.RoomGuestAccess(event)
    case HistoryVisibilityEvent => StateEvent.RoomHistoryVisibility(event)
    case JoinRulesEvent => StateEvent.RoomJoinRules(event)
    case MemberEvent => StateEvent.RoomMember(event)
    case NameEvent => StateEvent.RoomName(event)
    case PowerLevelsEvent => StateEvent.RoomPowerLevels(event)
    case ThirdPartyInviteEvent => StateEvent.RoomThirdPartyInvite(event)
    case TopicEvent => StateEvent.RoomTopic(event)
    case CustomStateEvent => StateEvent.CustomState(event)
  }

  /** Serializes a `Event` by handing its payload to the serializer of the payload's own record type. */
  function EncodeEvent<L>(enc: LeafEncoder<L>, e: Event<L>): (r: Result<Json, string>)
    ensures r == enc(e.Leaf(), e.event)
  {
    match e
    case CallAnswer(event) => enc(AnswerEvent, event)
    case CallCandidates(event) => enc(CandidatesEvent, event)
    case CallHangup(event) => enc(HangupEvent, event)
    case CallInvite(event) => enc(InviteEvent, event)
    case Presence(event) => enc(PresenceEvent, event)
    case Receipt(event) => enc(ReceiptEvent, event)
    case RoomAliases(event) => enc(AliasesEvent, event)
    case RoomAvatar(event) => enc(AvatarEvent, event)
    case RoomCanonicalAlias(event) => enc(CanonicalAliasEvent, event)
    case RoomCreate(event) => enc(CreateEvent, event)
    case RoomGuestAccess(event) => enc(GuestAccessEvent, event)
    case RoomHistoryVisibility(event) => enc(HistoryVisibilityEvent, event)
    case RoomJoinRules(event) => enc(JoinRulesEvent, event)
    case RoomMember(event) => enc(MemberEvent, event)
    case RoomMessage(event) => enc(MessageEvent, event)
    case RoomName(event) => enc(NameEvent, event)
    case RoomPowerLevels(event) => enc(PowerLevelsEvent, event)
    case RoomRedaction(event) => enc(RedactionEvent, event)
    case RoomThirdPartyInvite(event) => enc(ThirdPartyInviteEvent, event)
    case RoomTopic(event) => enc(TopicEvent, event)
    case Tag(event) => enc(TagEvent, event)
    case Typing(event) => enc(TypingEvent, event)
    case Custom(event) => enc(CustomEvent, event)
    case CustomRoom(event) => enc(CustomRoomEvent, event)
    case CustomState(event) => enc(CustomStateEvent, event)
  }

  /** Serializes a `RoomEvent` by handing its payload to the serializer of the payload's own record type. */
  function EncodeRoomEvent<L>(enc: LeafEncoder<L>, e: RoomEvent<L>): (r: Result<Json, string>)
    ensures r == enc(e.Leaf(), e.event)
  {
    match e
    case CallAnswer(event) => enc(AnswerEvent, event)
    case CallCandidates(event) => enc(CandidatesEvent, event)
    case CallHangup(event) => enc(HangupEvent, event)
    case CallInvite(event) => enc(InviteEvent, event)
    case RoomAliases(event) => enc(AliasesEvent, event)
    case RoomAvatar(event) => enc(AvatarEvent, event)
    case RoomCanonicalAlias(event) => enc(CanonicalAliasEvent, event)
    case RoomCreate(event) => enc(CreateEvent, event)
    case RoomGuestAccess(event) => enc(GuestAccessEvent, event)
    case RoomHistoryVisibility(event) => enc(HistoryVisibilityEvent, event)
    case RoomJoinRules(event) => enc(JoinRulesEvent, event)
    case RoomMember(event) => enc(MemberEvent, event)
    case RoomMessage(event) => enc(MessageEvent, event)
    case RoomName(event) => enc(NameEvent, event)
    case RoomPowerLevels(event) => enc(PowerLevelsEvent, event)
    case RoomRedaction(event) => enc(RedactionEvent, event)
    case RoomThirdPartyInvite(event) => enc(ThirdPartyInviteEvent, event)
    case RoomTopic(event) => enc(TopicEvent, event)
    case CustomRoom(event) => enc(CustomRoomEvent, event)
    case CustomState(event) => enc(CustomStateEvent, event)
  }

  /** Serializes a `StateEvent` by handing its payload to the serializer of the payload's own record type. */
  function EncodeStateEvent<L>(enc: LeafEncoder<L>, e: StateEvent<L>): (r: Result<Json, string>)
    ensures r == enc(e.Leaf(), e.event)
  {
    match e
    case RoomAliases(event) => enc(AliasesEvent, event)
    case RoomAvatar(event) => enc(AvatarEvent, event)
    case RoomCanonicalAlias(event) => enc(CanonicalAliasEvent, event)
    case RoomCreate(event) => enc(CreateEvent, event)
    case RoomGuestAccess(event) => enc(GuestAccessEvent, event)
    case RoomHistoryVisibility(event) => enc(HistoryVisibilityEvent, event)
    case RoomJoinRules(event) => enc(JoinRulesEvent, event)
    case RoomMember(event) => enc(MemberEvent, event)
    case RoomName(event) => enc(NameEvent, event)
    case RoomPowerLevels(event) => enc(PowerLevelsEvent, event)
    case RoomThirdPartyInvite(event) => enc(ThirdPartyInviteEvent, event)
    case RoomTopic(event) => enc(TopicEvent, event)
    case CustomState(event) => enc(CustomStateEvent, event)
  }

  /** Every `Event` is the conversion of its own payload: the members are disjoint and the conversion is onto. */
  lemma EventFromLeaf<L>(e: Event<L>)
    ensures EventFrom(e.Leaf(), e.event) == e
  {
  }

  /** Every `RoomEvent` is the conversion of its own payload. */
  lemma RoomEventFromLeaf<L>(e: RoomEvent<L>)
    ensures RoomEventFrom(e.Leaf(), e.event) == e
  {
  }

  /** Every `StateEvent` is the conversion of its own payload. */
  lemma StateEventFromLeaf<L>(e: StateEvent<L>)
    ensures StateEventFrom(e.Leaf(), e.event) == e
  {
  }

  /**
   * The member sets nest: every `StateEvent` record type is a `RoomEvent` one. `RoomEvent`
   * lacks exactly the presence, receipt, tag, typing and custom basic records, and
   * `StateEvent` lacks exactly the call, message, redaction and custom room records on top.
   */
  lemma MemberSetsNest(t: LeafType)
    ensures IsStateEventLeaf(t) ==> IsRoomEventLeaf(t)
    ensures !IsRoomEventLeaf(t) <==> t in {PresenceEvent, ReceiptEvent, TagEvent, TypingEvent, CustomEvent}
    ensures IsRoomEventLeaf(t) && !IsStateEventLeaf(t) <==>
      t in {AnswerEvent, CandidatesEvent, HangupEvent, InviteEvent, MessageEvent, RedactionEvent, CustomRoomEvent}
  {
  }

  /** A `StateEvent` member has a `RoomEvent` counterpart holding the same payload, and it encodes the same. */
  lemma StateEventAsRoomEvent<L>(enc: LeafEncoder<L>, s: StateEvent<L>)
    ensures IsRoomEventLeaf(s.Leaf())
    ensures EncodeRoomEvent(enc, RoomEventFrom(s.Leaf(), s.event)) == EncodeStateEvent(enc, s)
  {
  }

  /** A `RoomEvent` member has an `Event` counterpart holding the same payload, and it encodes the same. */
  lemma RoomEventAsEvent<L>(enc: LeafEncoder<L>, r: RoomEvent<L>)
    ensures EncodeEvent(enc, EventFrom(r.Leaf(), r.event)) == EncodeRoomEvent(enc, r)
  {
  }
}
