/**
 * Values shared by both channel roles: addresses (links), content types,
 * the records a fetch returns, and the messages a role sends.
 *
 * Everything cryptographic is an oracle here. A fetched record carries the
 * outcome of the library's header parse (`Malformed` or `Parsed`) and of the
 * role's type-specific unwrap (`unwrapOk`), instead of the bytes from which
 * the library would compute them.
 */
module Streams {

  datatype Option<T> = None | Some(value: T)

  /** The one failure a role operation reports instead of panicking. */
  datatype ChannelError = AnnouncementRejected

  datatype Result<T> = Ok(value: T) | Err(error: ChannelError)

  /** A party of the channel (author or subscriber), named by the seed its keys derive from. */
  type PartyId = string

  /** Channel instance id: fixed per channel, determined by the author's identity. */
  datatype AppInst = NullAppInst | ChannelOf(author: PartyId)

  /**
   * Message id. The library derives it from the sender's key and the sender's
   * message counter; the model keeps exactly those two inputs, so two messages
   * from one sender with different counter values have different ids.
   */
  datatype MsgId = NullMsgId | MsgId(sender: PartyId, seqNo: nat)

  /** An address (link): channel instance id plus message id. */
  datatype Address = Address(appinst: AppInst, msgid: MsgId)

  /** `Address::default()`: the all-null address a link holds before it is first set. */
  const DefaultAddress := Address(NullAppInst, NullMsgId)

  /** Content type of a parsed header; `Other` is any type no scan looks for. */
  datatype ContentType =
    | Announce
    | Subscribe
    | Unsubscribe
    | Keyload
    | SignedPacket
    | TaggedPacket
    | Other

  /** The (public, masked) payload pair of a packet. */
  datatype Payload = Payload(public: string, masked: string)

  /**
   * A record fetched from the transport. `Malformed`: its header does not
   * parse. `Parsed`: its header names `kind`; `link` is where the message
   * sits, `origin` the party that sent it, `unwrapOk` whether the fetching
   * role's unwrap of it succeeds, `payload` what a successful packet unwrap yields.
   */
  datatype Record =
    | Malformed
    | Parsed(kind: ContentType, link: Address, origin: PartyId, unwrapOk: bool, payload: Payload)

  /** Send options: proof-of-work difficulty and whether it is computed locally. */
  datatype SendOptions = SendOptions(minWeightMagnitude: nat, localPow: bool)

  /** A message a role has built and sent, with the link it was placed at. */
  datatype Message =
    | Announcement(link: Address)
    | Subscription(link: Address, linkedTo: Address)
    | Unsubscription(link: Address, linkedTo: Address)
    | KeyloadShare(link: Address, linkedTo: Address, recipients: set<PartyId>)
    | SignedMessage(link: Address, linkedTo: Address, payload: Payload)
    | TaggedMessage(link: Address, linkedTo: Address, payload: Payload)
  {
    function Kind(): ContentType {
      match this
      case Announcement(_) => Announce
      case Subscription(_, _) => Subscribe
      case Unsubscription(_, _) => Unsubscribe
      case KeyloadShare(_, _, _) => Keyload
      case SignedMessage(_, _, _) => SignedPacket
      case TaggedMessage(_, _, _) => TaggedPacket
    }

    function PayloadOrEmpty(): Payload {
      if SignedMessage? || TaggedMessage? then payload else Payload("", "")
    }
  }

  /**
   * The record a fetch returns for a message `sender` sent, arrived intact:
   * its header parses and the reader's unwrap succeeds exactly when `readable`.
   */
  function Delivered(m: Message, sender: PartyId, readable: bool): Record {
    Parsed(m.Kind(), m.link, sender, readable, m.PayloadOrEmpty())
  }
}
