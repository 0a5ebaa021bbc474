# Polymorphic event containers of ruma-events

This project models the event containers of the chat-protocol event library:
the three tagged unions `Event` (any event), `RoomEvent` (room and state events)
and `StateEvent` (state events), how each decodes an untyped JSON value, how
each encodes, and the `From` conversions into them (`src/collections/all.rs`).

Each decoder does the following:

1. It looks up the `"type"` field and reads it as an `EventType`. A string that
   is not a known tag becomes `Custom`.
2. A known type the container has a member for decodes the whole value as that
   type's record and wraps it in its member.
3. A known type the container has no member for is rejected. `RoomEvent`
   reports "not a room event"; `StateEvent` reports "not a state event".
4. An unknown type is decoded as a custom record. Which custom record is chosen
   depends on the container: `Event` looks at `state_key`, then at `event_id`,
   `room_id` and `sender`; `RoomEvent` looks only at `state_key`; `StateEvent`
   always picks the custom state record.

Encoding hands the held record to its own serializer.

## Modules

- `Wrappers` (wrappers.dfy): `Option` and `Result`.
- `Json` (json.dfy): the untyped JSON value, `Get`/`Has` (serde_json's
  `Value::get`), and `DecodeError`.
- `EventTypes` (event_type.dfy): the `EventType` discriminator, its tag strings,
  and its decoding from the `"type"` value.
- `Containers` (containers.dfy): `LeafType` (the 25 record types a member can
  hold), the three containers over a payload type `L`, the `From` conversions
  and the encoders.
- `Legality` (legality.dfy): the legality table, written once for all three
  containers. Each known type has a tier: basic, room or state. Each container
  has a floor tier: basic, room or state. A container admits a known type when
  the type's tier is at least the floor. An unknown type gets the custom record
  of the higher of the floor and the tier the fields suggest. `Classify` and
  `Expected` form the reference decode built from this table. `ClassifyType`
  and `ExpectedFor` are the same steps once the event type has been read.
- `Decoding` (decode.dfy): the three decoders, one branch per event type as in
  the source. Each decoder reads the event type and then branches on it
  (`EventOfType` and its siblings). Each branch for an admitted type decodes the
  record and wraps it in that record's member (`EventAs` and its siblings).
  Each decoder is proved equal to the reference decode.
- `Properties` (properties.dfy): the properties of the decoders. They cover the
  error paths, known and unknown types, the exact rejection sets, agreement
  between the containers, the round trip, and three concrete inputs.

Notes on where the model follows the code:

- Receipt events are treated as basic-tier: `RoomEvent` rejects `m.receipt`
  (src/collections/all.rs:618), although the receipt record carries a `room_id`
  (src/receipt.rs:13).
- `StateEvent` classifies every unknown type as custom state without looking at
  any field. `UnknownTypeWithoutStateKey` states the one case where this makes
  the containers disagree: an unknown type without `state_key`.
  `StateEventAgreesWithLarger` states agreement in every other case.

## Model

| member | source | states |
|---|---|---|
| `EventTypes.FromTag` | src/collections/all.rs:35-78 | Reading a tag string loses nothing: writing the result back as a tag gives the string that was read. Which strings give `Custom` is stated by `CustomIffUnknownTag`, and known-tag recovery by `KnownTagRoundTrip`. |
| `EventTypes.DecodeEventType` | src/collections/all.rs:204-207 | The `"type"` value decodes exactly when it is a string, to an event type whose tag is that string (the reading of `FromTag`; known-tag recovery is `KnownTagRoundTrip`). Any other value fails with `BadType`. |
| `EventTypes.KnownTagRoundTrip` | src/collections/all.rs:35-78 | Every known event type reads back from its own tag. |
| `EventTypes.TagNameInjective` | src/collections/all.rs:35-78 | No two known event types share a tag string. |
| `EventTypes.CustomIffUnknownTag` | src/collections/all.rs:386-410 | A string reads as `Custom` exactly when no known type has it as its tag. |
| `Containers.RoomEvent.Leaf` | src/collections/all.rs:89-130 | Every `RoomEvent` member holds one of the 20 record types `RoomEvent` lists. |
| `Containers.StateEvent.Leaf` | src/collections/all.rs:134-161 | Every `StateEvent` member holds one of the 13 record types `StateEvent` lists. |
| `Containers.EventFrom` | src/collections/all.rs:774-808 | Converting a record into `Event` gives the member for that record type, holding the record unchanged. |
| `Containers.RoomEventFrom` | src/collections/all.rs:810-839 | Converting a record into `RoomEvent` (for the 20 record types it has) gives that record type's member, holding the record unchanged. |
| `Containers.StateEventFrom` | src/collections/all.rs:841-863 | Converting a record into `StateEvent` (for the 13 record types it has) gives that record type's member, holding the record unchanged. |
| `Containers.EncodeEvent` | src/collections/all.rs:163-193 | Encoding an `Event` is exactly encoding its payload with its record type's serializer, errors included. |
| `Containers.EncodeRoomEvent` | src/collections/all.rs:415-440 | Encoding a `RoomEvent` is exactly encoding its payload with its record type's serializer. |
| `Containers.EncodeStateEvent` | src/collections/all.rs:625-643 | Encoding a `StateEvent` is exactly encoding its payload with its record type's serializer. |
| `Containers.EventFromLeaf` | src/collections/all.rs:774-808 | Every `Event` is the conversion of its own payload. The members are disjoint, and the conversions reach every member. |
| `Containers.RoomEventFromLeaf` | src/collections/all.rs:810-839 | Every `RoomEvent` is the conversion of its own payload. |
| `Containers.StateEventFromLeaf` | src/collections/all.rs:841-863 | Every `StateEvent` is the conversion of its own payload. |
| `Containers.MemberSetsNest` | src/collections/all.rs:34-161 | The member sets nest: `StateEvent`'s inside `RoomEvent`'s inside `Event`'s. `RoomEvent` lacks exactly presence, receipt, tag, typing and custom basic. `StateEvent` further lacks the four call records, message, redaction and custom room. |
| `Containers.StateEventAsRoomEvent` | src/collections/all.rs:89-161 | Every `StateEvent` member has a `RoomEvent` counterpart with the same payload, and the two encode identically. |
| `Containers.RoomEventAsEvent` | src/collections/all.rs:34-130 | Every `RoomEvent` member has an `Event` counterpart with the same payload, and the two encode identically. |
| `Legality.TypeOf` | src/collections/all.rs:199-207 | A missing `"type"` field fails with `MissingType`. Reading the type fails only with `MissingType` or `BadType`. |
| `Legality.ClassifyType` | src/collections/all.rs:209-411 | Once the event type is read, the record type a container picks is one of its members. A refusal happens only for a known type the container does not admit, and it is that container's rejection error. |
| `Legality.Classify` | src/collections/all.rs:195-772 | The record type a container picks is always one of its members. A refusal is a type error or that container's rejection. |
| `Legality.ExpectedFor` | src/collections/all.rs:209-411 | Once the event type is read, the reference decode succeeds only with the classified record and its successful decode. Otherwise it fails with the container's rejection or a record error. |
| `Legality.Expected` | src/collections/all.rs:195-772 | The reference decode succeeds only with the classified record type and that type's successful decode. A record error is reported only after a successful classification. |
| `Legality.AdmitsIffMember` | src/collections/all.rs:618-769 | The table agrees with the member sets: a container admits a known type exactly when it has a member for that type's record. |
| `Legality.LeafTypeOfInjective` | src/collections/all.rs:209-385 | Different known types decode as different records, and never as a custom record. |
| `Legality.KnownTypeOf` | src/collections/all.rs:209-385 | The inverse of the record-type table: every non-custom record type is the record of a known event type, and this function names it. |
| `Decoding.EventAs` | src/collections/all.rs:210-217 | One branch of `Event` decoding: given the record type the event type is classified as, the result is the reference decode for that event type. |
| `Decoding.RoomEventAs` | src/collections/all.rs:457-464 | One branch of `RoomEvent` decoding: given the record type the event type is classified as, the result is the reference decode for that event type. |
| `Decoding.StateEventAs` | src/collections/all.rs:660-667 | One branch of `StateEvent` decoding: given the record type the event type is classified as, the result is the reference decode for that event type. |
| `Decoding.DecodeEvent` | src/collections/all.rs:195-413 | `Event` decoding gives exactly the reference decode of the table for `Event`. |
| `Decoding.DecodeRoomEvent` | src/collections/all.rs:442-623 | `RoomEvent` decoding gives exactly the reference decode of the table for `RoomEvent`. |
| `Decoding.DecodeStateEvent` | src/collections/all.rs:645-772 | `StateEvent` decoding gives exactly the reference decode of the table for `StateEvent`. |
| `Decoding.EventOfType` | src/collections/all.rs:209-411 | The branch on the event type in `Event` decoding equals the reference decode for that event type, for every event type. |
| `Decoding.RoomEventOfType` | src/collections/all.rs:456-621 | The branch on the event type in `RoomEvent` decoding equals the reference decode for that event type, including the four rejected types. |
| `Decoding.StateEventOfType` | src/collections/all.rs:659-770 | The branch on the event type in `StateEvent` decoding equals the reference decode for that event type, including the ten rejected types. |
| `Properties.EventFollowsClassify` | src/collections/all.rs:209-411 | Once the record type is chosen, `Event` gives that type's member over that type's decode, or that decode's error. |
| `Properties.RoomEventFollowsClassify` | src/collections/all.rs:456-616 | Once the record type is chosen, `RoomEvent` gives that type's member over that type's decode, or that decode's error. |
| `Properties.StateEventFollowsClassify` | src/collections/all.rs:659-763 | Once the record type is chosen, `StateEvent` gives that type's member over that type's decode, or that decode's error. |
| `Properties.MissingTypeField` | src/collections/all.rs:199-202 | Without a `"type"` field, all three containers fail with `MissingType`, whatever the record decoders would do. |
| `Properties.TypeNotAString` | src/collections/all.rs:204-207 | A `"type"` value that is not a string makes all three containers fail with `BadType`. |
| `Properties.KnownTypeDecodesAsItsRecord` | src/collections/all.rs:209-385 | A known type a container admits decodes as that type's own record, in that type's member. A record failure is the result, with no fallback to a custom member. |
| `Properties.EventUnknownType` | src/collections/all.rs:386-409 | In `Event`, for an unknown type, `state_key` wins and gives custom state. Otherwise `event_id`, `room_id` and `sender` together give custom room. Otherwise the result is custom basic. |
| `Properties.RoomEventUnknownType` | src/collections/all.rs:601-616 | In `RoomEvent`, an unknown type gives custom state with `state_key` and custom room without it. The other fields play no part. |
| `Properties.StateEventUnknownType` | src/collections/all.rs:756-763 | In `StateEvent`, an unknown type always gives custom state, with no field check. |
| `Properties.EventAcceptsEveryType` | src/collections/all.rs:209-411 | `Event` rejects no type: it fails only on a missing or malformed type or in a record decode. |
| `Properties.RoomEventRejectedTypes` | src/collections/all.rs:618-620 | The table keeps exactly presence, receipt, tag and typing out of `RoomEvent`. |
| `Properties.StateEventRejectedTypes` | src/collections/all.rs:764-769 | The table keeps exactly the four call types, presence, receipt, message, redaction, tag and typing out of `StateEvent`. |
| `Properties.RoomEventRejectsExactly` | src/collections/all.rs:618-620 | `RoomEvent` fails with "not a room event" exactly for presence, receipt, tag and typing. |
| `Properties.StateEventRejectsExactly` | src/collections/all.rs:764-769 | `StateEvent` fails with "not a state event" exactly for the four call types, presence, receipt, message, redaction, tag and typing. |
| `Properties.RejectedTypesAreMissingMembers` | src/collections/all.rs:34-161 | Each container rejects exactly those known types whose record `Event` holds and that container does not. |
| `Properties.ClassifyNests` | src/collections/all.rs:209-770 | A record type `StateEvent` picks is also the pick of `RoomEvent` and `Event`, unless it is custom state chosen without a state key. |
| `Properties.StateEventAgreesWithLarger` | src/collections/all.rs:659-763 | A successful `StateEvent` decode of a known type, or of an unknown type with `state_key`, is the same-named member over the same payload under `RoomEvent` and `Event`. |
| `Properties.RoomEventAgreesWithEvent` | src/collections/all.rs:456-616 | A successful `RoomEvent` decode of a known type, or of an unknown type with the room fields, is the same-named member over the same payload under `Event`. |
| `Properties.UnknownTypeWithoutStateKey` | src/collections/all.rs:756-763 | An unknown type without `state_key` is custom state to `StateEvent`. It is custom room to `RoomEvent`, and custom basic or custom room to `Event`. |
| `Properties.ClassifyKnownTag` | src/collections/all.rs:204-209 | A value whose `"type"` is a known tag is classified as that tag's record by every container that admits it. |
| `Properties.ClassifyAnnounced` | src/collections/all.rs:209-411 | A container classifies an encoding as the member record type it announces. A known record announces its event type's tag. A custom record announces an unknown tag and carries the fields that select it. |
| `Properties.EventRoundTrip` | src/collections/all.rs:163-413 | Suppose an `Event` encodes to `j`, `j` announces the payload's record type, and the record decoder reads the payload back from `j`. Then decoding `j` gives the `Event` back. |
| `Properties.RoomEventRoundTrip` | src/collections/all.rs:415-623 | The same round trip for `RoomEvent`. |
| `Properties.StateEventRoundTrip` | src/collections/all.rs:625-772 | The same round trip for `StateEvent`. |
| `Properties.CustomWithStateKeyDoesNotRoundTrip` | src/collections/all.rs:386-393 | The round trip's field condition is needed. A custom basic `Event` whose encoding has an unknown tag and a `state_key` never decodes back to itself, because the state key picks custom state. |
| `Properties.TopicWithoutStateKey` | src/collections/all.rs:748-755 | A topic event without `state_key` goes to the topic record and member in all three containers. |
| `Properties.UnknownWithStateKey` | src/collections/all.rs:386-393 | An unknown type with `state_key` is custom state in all three containers. |
| `Properties.UnknownWithoutRoomFields` | src/collections/all.rs:601-616 | An unknown type without room or state fields is custom basic in `Event` and custom room in `RoomEvent`. |

## Left out

- serde and serde_json: `Deserializer` and `Serializer` become a JSON value and functions. `from_value` at a record type becomes the `LeafDecoder` parameter, and `serialize` becomes the `LeafEncoder` parameter.
- The record types themselves and their field requirements: each payload is an opaque value of type `L`. The leaf record modules are not part of this model. Whether a record decode succeeds (for instance whether the custom state record demands `state_key`) is left to the decoder parameter.
- The `EventType` type lives in the crate root, which is not part of this model. Its tag strings are taken from the doc comments on the container members. Only a JSON string is taken to be an event type.
- Error messages: serde's error texts are kept as the record's message string inside `LeafError`. The other errors are datatype constants rather than strings.
- JSON numbers are integers: no decoder here inspects a number, and floating point is not modelled.
- `Clone` and `Debug` derives, and `src/receipt.rs`: plain record declarations with no logic.
- `Properties.EventRoundTrip`, `Properties.RoomEventRoundTrip`, `Properties.StateEventRoundTrip`: each takes two facts about the record encoding `j` as premises. First, the record decoder reads the payload back from `j`. Second, `j` announces the record type (`Announces`): a known record carries its event type's tag, and a custom record carries an unknown tag plus the fields that select it. Both depend on the record types, which are outside this model. Decoding looks only at `j`, so the container-encoding premise only ties `j` to the event.
