# Channel roles of an IOTA Streams channels client, in Dafny

This project models the two role orchestrators of a small IOTA Streams
"channels lite" client: the author channel (`channel_author::Channel`),
which opens a channel, admits and revokes subscribers and publishes signed
and tagged packets, and the subscriber channel
(`channel_subscriber::Channel`), which connects to a channel, reads its
packets, applies keyloads and disconnects.

Each role is a Dafny `class`. Most of its fields are the source's fields:
the named links (`announcementLink`, `keyloadLink`, `subscriptionLink`),
the `isConnected` flag, the channel address and the fixed send options.
Two are not source fields: `seed` and `nextSeqNo` stand for the identity
and the message counter of the library `Author` or `Subscriber` object the
source holds. Fields that never change after construction are `const`. Every operation that
scans fetched records keeps the source's loop: records whose header does
not parse are skipped, records of another content type are skipped, and
among records of the target type the loop either stops at the first
success (`Connect`, `AddSubscriber`, `RemoveSubscriber`, `UpdateKeyload`)
or collects every success in fetched order (`ReadSigned`, `ReadTagged`).

The transport and the IOTA Streams library are treated as oracles:

- A fetch is the `records: seq<Record>` parameter. A method also returns a
  ghost out-parameter naming the address it fetched from (`None` when it
  fetched nothing).
- A `Record` is `Malformed` (the header does not parse) or
  `Parsed(kind, link, origin, unwrapOk, payload)`. So it carries the
  content type, the outcome of the role's `unwrap_*` call and the payload
  that call yields, instead of bytes.
- A send appends a `Message` to a ghost `outbox`. The library places each
  message at a link derived from the sender's identity and its message
  counter. The model keeps that counter as `nextSeqNo`, and the link as
  `Address(channel, MsgId(seed, n))`. Every class invariant `Valid()` ties
  the n-th sent message to that link, so each new link is fresh.
- The library's hidden role state is ghost. For the author this is its
  subscriber set and the recipient set of the current keyload. For the
  subscriber it is the last keyload it applied. The subscriber set and the
  applied keyload change only where the source's `unwrap_subscribe`,
  `unwrap_unsubscribe` or `unwrap_keyload` succeeds. The recipient set is
  reset to the subscriber set whenever `AddSubscriber` shares a keyload,
  whether or not a subscribe record was accepted.

Module `Scan` states the two scan disciplines as functions of the fetched
sequence (`FirstOfType`, `FirstAccepted`, `Accepted`) and proves what they
mean. The methods are proved against these functions. Module `Protocol`
connects the roles. In one verified sequence of calls (open, connect
through junk records, admit, sign, read), every parsed record a role
fetches is placed at the address fetched. Every record other than the junk
(one malformed record and one of a foreign type) is proved to be the
delivery of a message a role sent: the author's announce or the
subscriber's subscribe. Under the model's link derivation no author message lies
at a subscriber's subscription link (`AuthorMessagesMissSubscriptionLink`).
So the read at the end of that sequence finds only the subscriber's own
subscribe message and returns nothing.

Four behaviours of the code are worth knowing, and the model keeps each
of them:

- `AddSubscriber` shares a new keyload and replaces `keyloadLink` even when
  no subscribe record was accepted.
- `Connect` stops at the first announce-typed record. If that record's
  unwrap fails, the call aborts (a panic in the code, `Err` here), and no
  later announce record is examined.
- `Disconnect` sends an unsubscribe linked to `subscriptionLink` even when
  the channel was never connected. It then links to the default address.
- `RemoveSubscriber` does not rotate the keyload. A revoked subscriber stays
  among the recipients of the current keyload.

## Model

| member | source | states |
|---|---|---|
| `Scan.FirstOfType` | src/channels_lite/channel_subscriber.rs:46-65 | the position connect stops at: a record of the type, with no record of that type before it; `None` exactly when no record has the type |
| `Scan.FirstAccepted` | src/channels_lite/channel_author.rs:70-94 | the position a first-match scan stops at: an accepted record of the type, none accepted before it; `None` exactly when none is accepted |
| `Scan.Accepted` | src/channels_lite/channel_subscriber.rs:101-130 | the list a collecting scan builds is never longer than the fetched list |
| `Scan.AcceptedIndices` | src/channels_lite/channel_subscriber.rs:107-130 | the positions a collecting scan pushes from: every accepted position, only accepted ones, ascending |
| `Scan.AcceptedAt` | src/channels_lite/channel_subscriber.rs:119-127 | the collected list is exactly the payloads of the accepted records, in fetched order (j-th entry = payload at the j-th accepted position) |
| `Scan.AcceptedContains` | src/channels_lite/channel_subscriber.rs:119-127 | a payload is collected if and only if some accepted record of the type carries it |
| `Scan.AcceptedAppend` | src/channels_lite/channel_subscriber.rs:150-173 | collecting never stops early: over a concatenation it is the collection of each part, in order |
| `Scan.NoneAcceptedCollectsNothing` | src/channels_lite/channel_subscriber.rs:101-136 | with no accepted record of the type, the collected list is empty |
| `Scan.FirstAcceptedHeadsAccepted` | src/channels_lite/channel_subscriber.rs:202-210 | first-match and collect-all agree: both find nothing together, otherwise the first match's payload is the first collected payload |
| `Scan.NoiseIgnored` | src/channels_lite/channel_author.rs:70-94 | unparsable, foreign or rejected records around one accepted record neither stop nor mislead a scan: first-match finds that record, collect-all returns its payload alone |
| `Scan.FirstOfTypeVersusFirstAccepted` | src/channels_lite/channel_subscriber.rs:57-61 | connect stops where a first-match scan would when the first announce unwraps; when it does not unwrap, connect still stops there while a first-match scan would go on |
| `ChannelSubscriber.Channel.constructor` | src/channels_lite/channel_subscriber.rs:25-37 | a new subscriber channel is not connected, its subscription link is the default address, its announcement link is the given channel address and tag, nothing is sent |
| `ChannelSubscriber.Channel.Connect` | src/channels_lite/channel_subscriber.rs:39-83 | fetches at the announcement link; no announce record: nothing changes and the unchanged subscription msgid is returned; first announce rejected: Err and nothing changes; else one subscribe linked to the announcement is sent at a fresh link, which becomes the subscription link, and the channel is connected |
| `ChannelSubscriber.Channel.Disconnect` | src/channels_lite/channel_subscriber.rs:85-95 | sends one unsubscribe linked to the subscription link at a fresh link, without checking the connected flag, returns its msgid; connected flag and subscription link unchanged |
| `ChannelSubscriber.Channel.ReadSigned` | src/channels_lite/channel_subscriber.rs:97-137 | not connected: fetches nothing, returns the empty list; connected: fetches at the subscription link and returns exactly the collected signed-packet payloads; no field changes |
| `ChannelSubscriber.Channel.ReadTagged` | src/channels_lite/channel_subscriber.rs:140-180 | not connected: fetches nothing, returns the empty list; connected: fetches at the subscription link and returns exactly the collected tagged-packet payloads; no field changes |
| `ChannelSubscriber.Channel.UpdateKeyload` | src/channels_lite/channel_subscriber.rs:182-221 | not connected: fetches nothing, changes nothing; connected: applies the first keyload record whose unwrap succeeds, skipping failed ones, else keeps the old one; only the applied keyload can change |
| `ChannelAuthor.Channel.constructor` | src/channels_lite/channel_author.rs:30-48 | send options are minimum weight magnitude 9 without local proof of work; channel address fixed from the author's seed; both links default; no subscribers, nothing sent |
| `ChannelAuthor.Channel.Open` | src/channels_lite/channel_author.rs:50-62 | sends one announce at a fresh link in the channel, makes it the announcement link, returns (channel address, announce msgid); keyload link and subscribers unchanged |
| `ChannelAuthor.Channel.AddSubscriber` | src/channels_lite/channel_author.rs:64-104 | admits the sender of the first accepted subscribe record (if any); then always sends one keyload for all current subscribers, linked to the announcement link, at a fresh link that becomes the keyload link and whose msgid is returned |
| `ChannelAuthor.Channel.WriteSigned` | src/channels_lite/channel_author.rs:106-120 | sends one signed packet with the given payloads linked to the announcement link at a fresh link, returns its msgid; no link field changes |
| `ChannelAuthor.Channel.WriteTagged` | src/channels_lite/channel_author.rs:122-135 | sends one tagged packet with the given payloads linked to the keyload link at a fresh link, returns its msgid; no link field changes |
| `ChannelAuthor.Channel.RemoveSubscriber` | src/channels_lite/channel_author.rs:137-169 | revokes the sender of the first accepted unsubscribe record (if any), ignoring the rest; sends nothing; keyload link and its recipients unchanged (no key rotation) |
| `Protocol.AuthorMessagesMissSubscriptionLink` | src/channels_lite/channel_subscriber.rs:105 | no message the author sends is placed at a connected subscriber's subscription link, the address a read fetches at, when their identities differ |
| `Protocol.DeliveredPacketIsCollected` | src/channels_lite/channel_subscriber.rs:119-123 | a signed or tagged packet message delivered intact and readable anywhere in a record list has its payload among what `Accepted` collects for its type |

## Left out

- Transport failures: the `.unwrap()` on every fetch and send panics on a transport error. The model assumes every fetch and send succeeds. The records are a parameter and the sent message is always appended.
- `Address::from_str`, `Address::to_string` and `msgid.to_string()`: these are library encodings, and their panics are left out. Tags and returned ids are `MsgId` values, and no textual round trip is claimed.
- `Trytes(Tbits::from_str(..))` payload conversion in `write_signed` / `write_tagged`, and its panic: library encoding. Payloads are kept as the given strings.
- Header parsing and the role's unwrap calls (`parse_header`, `unwrap_*`), with the signature checks and decryption inside them: foreign cryptography. Their outcomes are fields of each `Record`. So the model does not derive a tagged packet's readability from the applied keyload.
- ChannelAuthor.Channel.Open: assumes the library's `announce()` succeeds; its `.unwrap()` panic is not modelled.
- ChannelAuthor.Channel.AddSubscriber: assumes `share_keyload_for_everyone` succeeds; its `.unwrap()` panic is not modelled. Called before `Open`, the model shares a keyload linked to the default address, which the library may refuse.
- ChannelAuthor.Channel.WriteSigned: assumes `sign_packet` succeeds; its `.unwrap()` panic is not modelled. Called before `Open`, the model sends a packet linked to the default address, which the library may refuse.
- ChannelAuthor.Channel.WriteTagged: assumes `tag_packet` succeeds; its `.unwrap()` panic is not modelled. Called before any `AddSubscriber`, the model sends a packet linked to the default address, which the library may refuse.
- ChannelSubscriber.Channel.Connect: assumes `subscribe` succeeds once an announcement is accepted; its `.unwrap()` panic is not modelled.
- ChannelSubscriber.Channel.Disconnect: assumes `unsubscribe` succeeds; its `.unwrap()` panic is not modelled. Called before `Connect`, the model sends an unsubscribe linked to the default address, which the library may refuse.
- Reading the author's packets: `read_signed` and `read_tagged` fetch at the subscription link, and under the model's link derivation no author message is placed there. So no verified sequence of calls shows a subscriber reading the author's packets. That would need a transport that returns the author's packets at the subscription link, and the library's actual link and address derivation is not part of this model.
- The library state that unwrapping an announcement or a packet may change (e.g. the author's key that the subscriber stores): it is not visible to the channel code and no operation here reads it.
- The library constructor parameters (`Author::new(seed, 3, true)`, `Subscriber::new(seed, true)`): library configuration.
- `iota::Client`, the node URL, `async`/`await` and proof of work: network I/O. The send options are kept as the two constant values only.
- The `println!` diagnostics.
- src/messaging/async_messaging.rs: forwarding to the transport with no logic of its own. It is replaced by the `records` parameter and the ghost `outbox`. Its `recv_message` is not called by the channel code.
- Concurrent calls on one channel object: the source takes `&mut self`, so calls on one object never overlap.
