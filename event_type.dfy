/**
 * The event type discriminator: the value of an event's "type" field, one of the
 * known event kinds of the protocol or, for any other string, `Custom` carrying
 * that string verbatim.
 */
module EventTypes {
  import opened Wrappers
  import opened Json

  datatype EventType =
    | CallAnswer
    | CallCandidates
    | CallHangup
    | CallInvite
    | Presence
    | Receipt
    | RoomAliases
    | RoomAvatar
    | RoomCanonicalAlias
    | RoomCreate
    | RoomGuestAccess
    | RoomHistoryVisibility
    | RoomJoinRules
    | RoomMember
    | RoomMessage
    | RoomName
    | RoomPowerLevels
    | RoomRedaction
    | RoomThirdPartyInvite
    | RoomTopic
    | Tag
    | Typing
    | Custom(name: string)

  /** The tag string each event type is written as. */
  function TagName(t: EventType): string
  {
    match t
    case CallAnswer => "m.call.answer"
    case CallCandidates => "m.call.candidates"
    case CallHangup => "m.call.hangup"
    case CallInvite => "m.call.invite"
    case Presence => "m.presence"
    case Receipt => "m.receipt"
    case RoomAliases => "m.room.aliases"
    case RoomAvatar => "m.room.avatar"
    case RoomCanonicalAlias => "m.room.canonical_alias"
    case RoomCreate => "m.room.create"
    case RoomGuestAccess => "m.room.guest_access"
    case RoomHistoryVisibility => "m.room.history_visibility"
    case RoomJoinRules => "m.room.join_rules"
    case RoomMember => "m.room.member"
    case RoomMessage => "m.room.message"
    case RoomName => "m.room.name"
    case RoomPowerLevels => "m.room.power_levels"
    case RoomRedaction => "m.room.redaction"
    case RoomThirdPartyInvite => "m.room.third_party_invite"
    case RoomTopic => "m.room.topic"
    case Tag => "m.tag"
    case Typing => "m.typing"
    case Custom(name) => name
  }

  /** The known event types, every member but `Custom`, in declaration order. */
  const Catalogue: seq<EventType> := [
    CallAnswer,
    CallCandidates,
    CallHangup,
    CallInvite,
    Presence,
    Receipt,
    RoomAliases,
    RoomAvatar,
    RoomCanonicalAlias,
    RoomCreate,
    RoomGuestAccess,
    RoomHistoryVisibility,
    RoomJoinRules,
    RoomMember,
    RoomMessage,
    RoomName,
    RoomPowerLevels,
    RoomRedaction,
    RoomThirdPartyInvite,
    RoomTopic,
    Tag,
    Typing
  ]

  /**
   * The first of `types` whose tag is `s`, or `Custom(s)` if there is none.
   * Whatever it returns is written back as `s`.
   */
  function Lookup(s: string, types: seq<EventType>): (t: EventType)
    ensures TagName(t) == s
    ensures t.Custom? || t in types
  {
    if types == [] then Custom(s)
    else if TagName(types[0]) == s then types[0]
    else Lookup(s, types[1..])
  }

  /**
   * Reads a tag string: a known tag gives its own event type, any other string
   * gives `Custom` holding the string. Nothing is lost: writing the result back
   * gives the string that was read.
   */
  function FromTag(s: string): (t: EventType)
    ensures TagName(t) == s
  {
    Lookup(s, Catalogue)
  }

  /**
   * Decodes an event type from the JSON value of the "type" field: only a string
   * is an event type, and every string is one.
   */
  function DecodeEventType(j: Json): (r: Result<EventType, DecodeError>)
    ensures r.Success? <==> j.Str?
    ensures r.Success? ==> TagName(r.value) == j.s
    ensures r.Failure? ==> r.error == BadType
  {
    if j.Str? then Success(FromTag(j.s)) else Failure(BadType)
  }

  /** The catalogue holds exactly the known event types. */
  lemma CatalogueIsKnown(t: EventType)
    ensures t in Catalogue <==> !t.Custom?
  {
  }

  /** Lookup gives `Custom` exactly when no member of `types` is written as `s`. */
  lemma {:induction false} LookupCustomIff(s: string, types: seq<EventType>)
    requires forall t :: t in types ==> !t.Custom?
    ensures Lookup(s, types).Custom? <==> forall t :: t in types ==> TagName(t) != s
  {
    if types != [] && TagName(types[0]) != s {
      LookupCustomIff(s, types[1..]);
      assert forall t :: t in types ==> t == types[0] || t in types[1..];
    }
  }

  /** Lookup finds a member of `types` by its tag when no other member shares that tag. */
  lemma {:induction false} LookupFinds(t: EventType, types: seq<EventType>)
    requires t in types
    requires forall u :: u in types && TagName(u) == TagName(t) ==> u == t
    ensures Lookup(TagName(t), types) == t
  {
    if TagName(types[0]) != TagName(t) {
      assert t != types[0];
      LookupFinds(t, types[1..]);
    }
  }

  /** Distinct known event types have distinct tags. */
  lemma TagNameInjective(t: EventType, u: EventType)
    requires !t.Custom? && !u.Custom?
    requires TagName(t) == TagName(u)
    ensures t == u
  {
    match t
    case CallAnswer =>
    case CallCandidates =>
    case CallHangup =>
    case CallInvite =>
    case Presence =>
    case Receipt =>
    case RoomAliases =>
    case RoomAvatar =>
    case RoomCanonicalAlias =>
    case RoomCreate =>
    case RoomGuestAccess =>
    case RoomHistoryVisibility =>
    case RoomJoinRules =>
    case RoomMember =>
    case RoomMessage =>
    case RoomName =>
    case RoomPowerLevels =>
    case RoomRedaction =>
    case RoomThirdPartyInvite =>
    case RoomTopic =>
    case Tag =>
    case Typing =>
  }

  /** A known event type survives being written as its tag and read back. */
  lemma KnownTagRoundTrip(t: EventType)
    requires !t.Custom?
    ensures FromTag(TagName(t)) == t
  {
    CatalogueIsKnown(t);
    forall u | u in Catalogue && TagName(u) == TagName(t)
      ensures u == t
    {
      CatalogueIsKnown(u);
      TagNameInjective(t, u);
    }
    LookupFinds(t, Catalogue);
  }

  /** A string reads as `Custom` exactly when no known event type is written as it. */
  lemma CustomIffUnknownTag(s: string)
    ensures FromTag(s).Custom? <==> forall t: EventType :: !t.Custom? ==> TagName(t) != s
  {
    forall t | t in Catalogue
      ensures !t.Custom?
    {
      CatalogueIsKnown(t);
    }
    LookupCustomIff(s, Catalogue);
    forall t: EventType | !t.Custom?
      ensures t in Catalogue
    {
      CatalogueIsKnown(t);
    }
  }
}
