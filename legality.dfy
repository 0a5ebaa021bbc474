/**
 * The static legality table the three decoders follow, written once for all
 * three containers, and the reference decode built from it.
 *
 * Each known event type has a tier (basic, room or state); each container has a
 * floor tier (`Event` basic, `RoomEvent` room, `StateEvent` state). A container
 * admits a known type whose tier reaches its floor and rejects the others. An
 * unknown type is given the custom record of the higher of the container's floor
 * and the tier the value's fields suggest.
 */
module Legality {
  import opened Wrappers
  import opened Json
  import opened EventTypes
  import opened Containers

  datatype Container = EventContainer | RoomEventContainer | StateEventContainer

  /** How much room and state metadata an event carries. */
  datatype Tier = Basic | Room | State
  {
    function Rank(): nat
    {
      match this
      case Basic => 0
      case Room => 1
      case State => 2
    }
  }

  /** The higher of two tiers. */
  function Max(a: Tier, b: Tier): (m: Tier)
    ensures m == a || m == b
    ensures a.Rank() <= m.Rank() && b.Rank() <= m.Rank()
  {
    if a.Rank() <= b.Rank() then b else a
  }

  /** The tier of each known event type, as the containers treat it. */
  function TierOf(t: EventType): Tier
    requires !t.Custom?
  {
    match t
    case CallAnswer => Room
    case CallCandidates => Room
    case CallHangup => Room
    case CallInvite => Room
    case Presence => Basic
    case Receipt => Basic
    case RoomAliases => State
    case RoomAvatar => State
    case RoomCanonicalAlias => State
    case RoomCreate => State
    case RoomGuestAccess => State
    case RoomHistoryVisibility => State
    case RoomJoinRules => State
    case RoomMember => State
    case RoomMessage => Room
    case RoomName => State
    case RoomPowerLevels => State
    case RoomRedaction => Room
    case RoomThirdPartyInvite => State
    case RoomTopic => State
    case Tag => Basic
    case Typing => Basic
  }

  /** The record type each known event type is decoded as. */
  function LeafTypeOf(t: EventType): LeafType
    requires !t.Custom?
  {
    match t
    case CallAnswer => AnswerEvent
    case CallCandidates => CandidatesEvent
    case CallHangup => HangupEvent
    case CallInvite => InviteEvent
    case Presence => PresenceEvent
    case Receipt => ReceiptEvent
    case RoomAliases => AliasesEvent
    case RoomAvatar => AvatarEvent
    case RoomCanonicalAlias => CanonicalAliasEvent
    case RoomCreate => CreateEvent
    case RoomGuestAccess => GuestAccessEvent
    case RoomHistoryVisibility => HistoryVisibilityEvent
    case RoomJoinRules => JoinRulesEvent
    case RoomMember => MemberEvent
    case RoomMessage => MessageEvent
    case RoomName => NameEvent
    case RoomPowerLevels => PowerLevelsEvent
    case RoomRedaction => RedactionEvent
    case RoomThirdPartyInvite => ThirdPartyInviteEvent
    case RoomTopic => TopicEvent
    case Tag => TagEvent
    case Typing => TypingEvent
  }

  /** The lowest tier a container holds. */
  function Floor(c: Container): Tier
  {
    match c
    case EventContainer => Basic
    case RoomEventContainer => Room
    case StateEventContainer => State
  }

  /** Whether a container has a member for a record type. */
  predicate HasMember(c: Container, t: LeafType)
  {
    match c
    case EventContainer => true
    case RoomEventContainer => IsRoomEventLeaf(t)
    case StateEventContainer => IsStateEventLeaf(t)
  }

  /** Whether a container admits a known event type. */
  predicate Admits(c: Container, t: EventType)
    requires !t.Custom?
  {
    Floor(c).Rank() <= TierOf(t).Rank()
  }

  /**
   * The error a container reports for a known event type it does not admit.
   * `Event` admits every known type, so its case is never reported; it shares
   * `RoomEvent`'s error only to keep the function total.
   */
  function Rejection(c: Container): DecodeError
  {
    match c
    case EventContainer => NotRoomEvent
    case RoomEventContainer => NotRoomEvent
    case StateEventContainer => NotStateEvent
  }

  /** The tier the fields of a value suggest: a state key, else all of event id, room id and sender. */
  function FieldTier(v: Json): Tier
  {
    if Has(v, "state_key") then State
    else if Has(v, "event_id") && Has(v, "room_id") && Has(v, "sender") then Room
    else Basic
  }

  /** The custom record type of each tier. */
  function CustomLeaf(tier: Tier): LeafType
  {
    match tier
    case Basic => CustomEvent
    case Room => CustomRoomEvent
    case State => CustomStateEvent
  }

  /** Steps 1 and 2 of every decode: look up the "type" field and read it as an event type. */
  function TypeOf(v: Json): (r: Result<EventType, DecodeError>)
    ensures Get(v, "type").None? ==> r == Failure(MissingType)
    ensures r.Failure? ==> r.error in {MissingType, BadType}
  {
    match Get(v, "type")
    case None => Failure(MissingType)
    case Some(j) => DecodeEventType(j)
  }

  /**
   * The record type a container decodes a value as once its event type has been
   * read, or the container's refusal of that type. Whatever it picks is one of
   * the container's members.
   */
  function ClassifyType(c: Container, t: EventType, v: Json): (r: Result<LeafType, DecodeError>)
    ensures r.Success? ==> HasMember(c, r.value)
    ensures r.Failure? ==> !t.Custom? && !Admits(c, t) && r.error == Rejection(c)
  {
    if t.Custom? then
      CustomLeafIsMember(c, FieldTier(v));
      Success(CustomLeaf(Max(Floor(c), FieldTier(v))))
    else if Admits(c, t) then
      AdmitsIffMember(c, t);
      Success(LeafTypeOf(t))
    else Failure(Rejection(c))
  }

  /**
   * The record type a container decodes a value as, or why it refuses the value
   * before decoding any record.
   */
  function Classify(c: Container, v: Json): (r: Result<LeafType, DecodeError>)
    ensures r.Success? ==> HasMember(c, r.value)
    ensures r.Failure? ==> r.error in {MissingType, BadType, Rejection(c)}
  {
    var t :- TypeOf(v);
    ClassifyType(c, t, v)
  }

  /** A decoded payload together with the record type it was decoded as. */
  datatype Held<L> = Held(leaf: LeafType, event: L)

  /** Decodes the whole value as one record type, keeping the record's error if that fails. */
  function DecodeAs<L>(dec: LeafDecoder<L>, leaf: LeafType, v: Json): (r: Result<Held<L>, DecodeError>)
    ensures r.Success? <==> dec(leaf, v).Success?
    ensures r.Success? ==> r.value == Held(leaf, dec(leaf, v).value)
    ensures r.Failure? ==> r.error == LeafError(dec(leaf, v).error)
  {
    match dec(leaf, v)
    case Success(event) => Success(Held(leaf, event))
    case Failure(cause) => Failure(LeafError(cause))
  }

  /** The reference decode once the event type has been read. */
  function ExpectedFor<L>(c: Container, dec: LeafDecoder<L>, t: EventType, v: Json): (r: Result<Held<L>, DecodeError>)
    ensures r.Success? ==> ClassifyType(c, t, v) == Success(r.value.leaf) && dec(r.value.leaf, v) == Success(r.value.event)
    ensures r.Failure? ==> r.error == Rejection(c) || r.error.LeafError?
  {
    var leaf :- ClassifyType(c, t, v);
    DecodeAs(dec, leaf, v)
  }

  /**
   * The reference decode: classify the value, then decode the whole value as the
   * chosen record type, keeping the record's error if that fails.
   */
  function Expected<L>(c: Container, dec: LeafDecoder<L>, v: Json): (r: Result<Held<L>, DecodeError>)
    ensures r.Success? ==> Classify(c, v) == Success(r.value.leaf) && dec(r.value.leaf, v) == Success(r.value.event)
    ensures r.Failure? && r.error.LeafError? ==> Classify(c, v).Success? && dec(Classify(c, v).value, v).Failure?
  {
    var t :- TypeOf(v);
    ExpectedFor(c, dec, t, v)
  }

  /** The table agrees with the member sets: a container admits a known type exactly when it has a member for its record type. */
  lemma AdmitsIffMember(c: Container, t: EventType)
    requires !t.Custom?
    ensures Admits(c, t) <==> HasMember(c, LeafTypeOf(t))
  {
    match c
    case EventContainer =>
    case RoomEventContainer =>
      assert Admits(c, t) <==> TierOf(t) != Basic;
    case StateEventContainer =>
      assert Admits(c, t) <==> TierOf(t) == State;
  }

  /** The custom record a container falls back to is always one of its members. */
  lemma CustomLeafIsMember(c: Container, fields: Tier)
    ensures HasMember(c, CustomLeaf(Max(Floor(c), fields)))
  {
  }

  /** Known event types and their record types correspond one to one, and no known type is decoded as a custom record. */
  lemma LeafTypeOfInjective(t1: EventType, t2: EventType)
    requires !t1.Custom? && !t2.Custom?
    ensures LeafTypeOf(t1) == LeafTypeOf(t2) ==> t1 == t2
    ensures !IsCustomLeaf(LeafTypeOf(t1))
  {
  }

  /** Whether a record type is one of the three custom records. */
  predicate IsCustomLeaf(l: LeafType)
  {
    l.CustomEvent? || l.CustomRoomEvent? || l.CustomStateEvent?
  }

  /**
   * The known event type whose record type is `l`: every record type except the
   * three custom ones is the record type of a known event type.
   */
  function KnownTypeOf(l: LeafType): (t: EventType)
    requires !IsCustomLeaf(l)
    ensures !t.Custom? && LeafTypeOf(t) == l
  {
    match l
    case AnswerEvent => EventType.CallAnswer
    case CandidatesEvent => EventType.CallCandidates
    case HangupEvent => EventType.CallHangup
    case InviteEvent => EventType.CallInvite
    case PresenceEvent => EventType.Presence
    case ReceiptEvent => EventType.Receipt
    case AliasesEvent => EventType.RoomAliases
    case AvatarEvent => EventType.RoomAvatar
    case CanonicalAliasEvent => EventType.RoomCanonicalAlias
    case CreateEvent => EventType.RoomCreate
    case GuestAccessEvent => EventType.RoomGuestAccess
    case HistoryVisibilityEvent => EventType.RoomHistoryVisibility
    case JoinRulesEvent => EventType.RoomJoinRules
    case MemberEvent => EventType.RoomMember
    case MessageEvent => EventType.RoomMessage
    case NameEvent => EventType.RoomName
    case PowerLevelsEvent => EventType.RoomPowerLevels
    case RedactionEvent => EventType.RoomRedaction
    case ThirdPartyInviteEvent => EventType.RoomThirdPartyInvite
    case TopicEvent => EventType.RoomTopic
    case TagEvent => EventType.Tag
    case TypingEvent => EventType.Typing
  }
}
