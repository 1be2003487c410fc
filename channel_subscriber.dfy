/**
 * The subscriber role: a channel handle that joins an author's channel,
 * reads its packets, applies keyloads and leaves.
 *
 * Fetching is modelled by the `records` parameter (what the transport returns
 * for the address the operation asks for) plus a ghost out-parameter naming
 * that address (`None`: nothing was fetched). Sending appends to the ghost
 * `outbox`; the library places each message at a link derived from the
 * subscriber's identity and its message counter `nextSeqNo`.
 */
module ChannelSubscriber {
  import opened Streams
  import opened Scan

  class Channel {
    /** Identity of the library `Subscriber` object, from its seed. */
    const seed: PartyId
    const channelAddress: AppInst
    const announcementLink: Address

    var isConnected: bool
    var subscriptionLink: Address
    /** The library subscriber's message counter: the next message's link is LinkAt(nextSeqNo). */
    var nextSeqNo: nat

    /** Hidden library state: the link of the last keyload whose unwrap succeeded. */
    ghost var appliedKeyload: Option<Address>
    /** Every message sent so far, in order. */
    ghost var outbox: seq<Message>

    /** Link the library gives to this subscriber's n-th message. */
    function LinkAt(n: nat): Address {
      Address(channelAddress, MsgId(seed, n))
    }

    ghost predicate Valid()
      reads this
    {
      && nextSeqNo == |outbox|
      && (forall j :: 0 <= j < |outbox| ==> outbox[j].link == LinkAt(j))
      // connected exactly when a subscription link has been set, and that
      // link is a subscribe message this channel sent to the announcement
      && (isConnected <==> subscriptionLink != DefaultAddress)
      && (isConnected ==> Subscription(subscriptionLink, announcementLink) in outbox)
      // keyloads are only ever applied while connected
      && (appliedKeyload.Some? ==> isConnected)
    }

    constructor (seed: PartyId, channelAddress: AppInst, announcementTag: MsgId)
      ensures Valid()
      ensures this.seed == seed && this.channelAddress == channelAddress
      ensures announcementLink == Address(channelAddress, announcementTag)
      ensures !isConnected && subscriptionLink == DefaultAddress
      ensures appliedKeyload == None && outbox == []
    {
      this.seed := seed;
      this.channelAddress := channelAddress;
      announcementLink := Address(channelAddress, announcementTag);
      isConnected := false;
      subscriptionLink := DefaultAddress;
      nextSeqNo := 0;
      appliedKeyload := None;
      outbox := [];
    }

    /**
     * Fetch at the announcement link and stop at the first announce record.
     * If its unwrap fails the call aborts (Err) and nothing changes; if it
     * succeeds a subscribe message linked to the announcement is sent and the
     * channel becomes connected with that message as its subscription link.
     * With no announce record nothing changes. The result is the msgid of the
     * subscription link as it stands at the end.
     */
    method Connect(records: seq<Record>) returns (r: Result<MsgId>, ghost fetchedFrom: Address)
      requires Valid()
      modifies this
      ensures Valid()
      ensures fetchedFrom == announcementLink
      ensures match FirstOfType(records, Announce)
        case None =>
          && unchanged(this)
          && r == Ok(subscriptionLink.msgid)
        case Some(i) =>
          if !records[i].unwrapOk then
            && unchanged(this)
            && r == Err(AnnouncementRejected)
          else
            && isConnected
            && subscriptionLink == old(LinkAt(nextSeqNo))
            && (forall m :: m in old(outbox) ==> m.link != subscriptionLink)
            && outbox == old(outbox) + [Subscription(subscriptionLink, announcementLink)]
            && nextSeqNo == old(nextSeqNo) + 1
            && appliedKeyload == old(appliedKeyload)
            && r == Ok(subscriptionLink.msgid)
    {
      fetchedFrom := announcementLink;
      var foundValidMsg := false;
      ghost var at := |records|;
      for i := 0 to |records|
        invariant forall j :: 0 <= j < i ==> !HasType(records[j], Announce)
        invariant !foundValidMsg
      {
        match records[i]
        case Malformed =>
          // the header does not parse: skip the record
        case Parsed(kind, _, _, unwrapOk, _) =>
          if kind == Announce {
            if !unwrapOk {
              // `unwrap_announcement(..).unwrap()` panics
              assert FirstOfType(records, Announce) == Some(i);
              r := Err(AnnouncementRejected);
              return;
            }
            foundValidMsg := true;
            at := i;
            break;
          }
      }
      if foundValidMsg {
        assert FirstOfType(records, Announce) == Some(at);
        var link := LinkAt(nextSeqNo);
        outbox := outbox + [Subscription(link, announcementLink)];
        nextSeqNo := nextSeqNo + 1;
        subscriptionLink := link;
        isConnected := true;
      }
      r := Ok(subscriptionLink.msgid);
    }

    /**
     * Send an unsubscribe message linked to the subscription link, whether or
     * not the channel is connected, and return its msgid. No field the
     * subscriber holds changes.
     */
    method Disconnect() returns (r: MsgId)
      requires Valid()
      modifies this`nextSeqNo, this`outbox
      ensures Valid()
      ensures outbox == old(outbox) + [Unsubscription(old(LinkAt(nextSeqNo)), subscriptionLink)]
      ensures forall m :: m in old(outbox) ==> m.link != old(LinkAt(nextSeqNo))
      ensures r == old(LinkAt(nextSeqNo)).msgid
      ensures isConnected == old(isConnected) && subscriptionLink == old(subscriptionLink)
    {
      var link := LinkAt(nextSeqNo);
      outbox := outbox + [Unsubscription(link, subscriptionLink)];
      nextSeqNo := nextSeqNo + 1;
      r := link.msgid;
    }

    /**
     * When connected, fetch at the subscription link and return the payload of
     * every signed packet whose unwrap succeeds, in fetched order; when not
     * connected, fetch nothing and return the empty list.
     */
    method ReadSigned(records: seq<Record>) returns (response: seq<Payload>, ghost fetchedFrom: Option<Address>)
      ensures fetchedFrom == if isConnected then Some(subscriptionLink) else None
      ensures response == if isConnected then Accepted(records, SignedPacket) else []
    {
      response := [];
      fetchedFrom := None;
      if isConnected {
        fetchedFrom := Some(subscriptionLink);
        for i := 0 to |records|
          invariant response == Accepted(records[..i], SignedPacket)
        {
          assert records[..i + 1][..i] == records[..i];
          match records[i]
          case Malformed =>
            // the header does not parse: skip the record
          case Parsed(kind, _, _, unwrapOk, payload) =>
            if kind == SignedPacket {
              if unwrapOk {
                response := response + [payload];
              }
              // a failed unwrap is reported and skipped
              continue;
            }
        }
        assert records[..|records|] == records;
      }
    }

    /**
     * When connected, fetch at the subscription link and return the payload of
     * every tagged packet whose unwrap succeeds, in fetched order; when not
     * connected, fetch nothing and return the empty list.
     */
    method ReadTagged(records: seq<Record>) returns (response: seq<Payload>, ghost fetchedFrom: Option<Address>)
      ensures fetchedFrom == if isConnected then Some(subscriptionLink) else None
      ensures response == if isConnected then Accepted(records, TaggedPacket) else []
    {
      response := [];
      fetchedFrom := None;
      if isConnected {
        fetchedFrom := Some(subscriptionLink);
        for i := 0 to |records|
          invariant response == Accepted(records[..i], TaggedPacket)
        {
          assert records[..i + 1][..i] == records[..i];
          match records[i]
          case Malformed =>
            // the header does not parse: skip the record
          case Parsed(kind, _, _, unwrapOk, payload) =>
            if kind == TaggedPacket {
              if unwrapOk {
                response := response + [payload];
              }
              // a failed unwrap (e.g. no keyload for it yet) is reported and skipped
              continue;
            }
        }
        assert records[..|records|] == records;
      }
    }

    /**
     * When connected, fetch at the keyload tag's address and apply the first
     * keyload whose unwrap succeeds, going past those whose unwrap fails; when
     * not connected, fetch nothing and change nothing. Always succeeds.
     */
    method UpdateKeyload(keyloadTag: MsgId, records: seq<Record>) returns (ghost fetchedFrom: Option<Address>)
      requires Valid()
      modifies this`appliedKeyload
      ensures Valid()
      ensures fetchedFrom == if isConnected then Some(Address(channelAddress, keyloadTag)) else None
      ensures appliedKeyload ==
        if isConnected && FirstAccepted(records, Keyload).Some?
        then Some(records[FirstAccepted(records, Keyload).value].link)
        else old(appliedKeyload)
    {
      var keyloadLink := Address(channelAddress, keyloadTag);
      fetchedFrom := None;
      if isConnected {
        fetchedFrom := Some(keyloadLink);
        ghost var at := |records|;
        for i := 0 to |records|
          invariant forall j :: 0 <= j < i ==> !Accepts(records[j], Keyload)
          invariant appliedKeyload == old(appliedKeyload)
          invariant at == |records|
        {
          match records[i]
          case Malformed =>
            // the header does not parse: skip the record
          case Parsed(kind, link, _, unwrapOk, _) =>
            if kind == Keyload {
              if unwrapOk {
                // `unwrap_keyload` installs the new session key
                appliedKeyload := Some(link);
                at := i;
                break;
              }
              continue;
            }
        }
        if at < |records| {
          assert FirstAccepted(records, Keyload) == Some(at);
        }
      }
    }
  }
}
