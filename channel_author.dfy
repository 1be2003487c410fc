/**
 * The author role: a channel handle that opens the channel, admits and
 * revokes subscribers and publishes signed and tagged packets.
 *
 * Fetching is modelled by the `records` parameter plus a ghost out-parameter
 * naming the fetched address; sending appends to the ghost `outbox`, at a
 * link the library derives from the author's identity and its message
 * counter `nextSeqNo`. The library author's subscriber set, and the recipient
 * set of the keyload currently at `keyloadLink`, are ghost fields.
 */
module ChannelAuthor {
  import opened Streams
  import opened Scan

  class Channel {
    /** Identity of the library `Author` object, from its seed. */
    const seed: PartyId
    const channelAddress: AppInst
    const sendOptions: SendOptions

    var announcementLink: Address
    var keyloadLink: Address
    /** The library author's message counter: the next message's link is LinkAt(nextSeqNo). */
    var nextSeqNo: nat

    /** Hidden library state: the subscribers whose subscribe message was accepted and not revoked. */
    ghost var subscribers: set<PartyId>
    /** The subscribers the keyload at `keyloadLink` was shared with. */
    ghost var keyloadRecipients: set<PartyId>
    /** Every message sent so far, in order. */
    ghost var outbox: seq<Message>

    /** Link the library gives to this author's n-th message. */
    function LinkAt(n: nat): Address {
      Address(channelAddress, MsgId(seed, n))
    }

    ghost predicate Valid()
      reads this
    {
      && channelAddress == ChannelOf(seed)
      && nextSeqNo == |outbox|
      && (forall j :: 0 <= j < |outbox| ==> outbox[j].link == LinkAt(j))
      // each link field is either unset or the link of a message of its kind
      && (announcementLink == DefaultAddress || Announcement(announcementLink) in outbox)
      && (keyloadLink == DefaultAddress ||
          exists j :: 0 <= j < |outbox| && outbox[j].KeyloadShare? &&
                      outbox[j].link == keyloadLink && outbox[j].recipients == keyloadRecipients)
    }

    constructor (seed: PartyId)
      ensures Valid()
      ensures this.seed == seed && channelAddress == ChannelOf(seed)
      ensures sendOptions.minWeightMagnitude == 9 && !sendOptions.localPow
      ensures announcementLink == DefaultAddress && keyloadLink == DefaultAddress
      ensures subscribers == {} && keyloadRecipients == {} && outbox == []
    {
      this.seed := seed;
      channelAddress := ChannelOf(seed);
      sendOptions := SendOptions(9, false);
      announcementLink := DefaultAddress;
      keyloadLink := DefaultAddress;
      nextSeqNo := 0;
      subscribers := {};
      keyloadRecipients := {};
      outbox := [];
    }

    /**
     * Send an announce message and make its link the announcement link.
     * Returns the channel address and the announce message's msgid.
     */
    method Open() returns (r: (AppInst, MsgId))
      requires Valid()
      modifies this`announcementLink, this`nextSeqNo, this`outbox
      ensures Valid()
      ensures announcementLink == old(LinkAt(nextSeqNo)) && announcementLink.appinst == channelAddress
      ensures forall m :: m in old(outbox) ==> m.link != announcementLink
      ensures outbox == old(outbox) + [Announcement(announcementLink)]
      ensures r == (channelAddress, announcementLink.msgid)
      ensures keyloadLink == old(keyloadLink) && subscribers == old(subscribers)
    {
      var link := LinkAt(nextSeqNo);
      outbox := outbox + [Announcement(link)];
      nextSeqNo := nextSeqNo + 1;
      announcementLink := link;
      r := (channelAddress, announcementLink.msgid);
    }

    /**
     * Fetch at the subscribe tag's address and admit the sender of the first
     * subscribe record whose unwrap succeeds, going past those whose unwrap
     * fails. Then, whether or not anyone was admitted, share a keyload with
     * every subscriber, linked to the announcement link, make it the keyload
     * link and return its msgid.
     */
    method AddSubscriber(subscribeTag: MsgId, records: seq<Record>) returns (r: MsgId, ghost fetchedFrom: Address)
      requires Valid()
      modifies this`keyloadLink, this`nextSeqNo, this`subscribers, this`keyloadRecipients, this`outbox
      ensures Valid()
      ensures fetchedFrom == Address(channelAddress, subscribeTag)
      ensures subscribers ==
        match FirstAccepted(records, Subscribe)
        case None => old(subscribers)
        case Some(i) => old(subscribers) + {records[i].origin}
      ensures keyloadLink == old(LinkAt(nextSeqNo))
      ensures forall m :: m in old(outbox) ==> m.link != keyloadLink
      ensures outbox == old(outbox) + [KeyloadShare(keyloadLink, announcementLink, subscribers)]
      ensures keyloadRecipients == subscribers
      ensures r == keyloadLink.msgid
      ensures announcementLink == old(announcementLink)
    {
      fetchedFrom := Address(channelAddress, subscribeTag);
      ghost var at := |records|;
      for i := 0 to |records|
        invariant forall j :: 0 <= j < i ==> !Accepts(records[j], Subscribe)
        invariant subscribers == old(subscribers)
        invariant at == |records|
      {
        match records[i]
        case Malformed =>
          // the header does not parse: skip the record
        case Parsed(kind, _, origin, unwrapOk, _) =>
          if kind == Subscribe {
            if unwrapOk {
              // `unwrap_subscribe` records the new subscriber's key
              subscribers := subscribers + {origin};
              at := i;
              break;
            }
            continue;
          }
      }
      if at < |records| {
        assert FirstAccepted(records, Subscribe) == Some(at);
      }
      var link := LinkAt(nextSeqNo);
      outbox := outbox + [KeyloadShare(link, announcementLink, subscribers)];
      nextSeqNo := nextSeqNo + 1;
      keyloadRecipients := subscribers;
      keyloadLink := link;
      r := keyloadLink.msgid;
    }

    /** Send a signed packet linked to the announcement link; return its msgid. */
    method WriteSigned(publicPayload: string, privatePayload: string) returns (r: MsgId)
      requires Valid()
      modifies this`nextSeqNo, this`outbox
      ensures Valid()
      ensures outbox == old(outbox) +
                [SignedMessage(old(LinkAt(nextSeqNo)), announcementLink, Payload(publicPayload, privatePayload))]
      ensures forall m :: m in old(outbox) ==> m.link != old(LinkAt(nextSeqNo))
      ensures r == old(LinkAt(nextSeqNo)).msgid
      ensures announcementLink == old(announcementLink) && keyloadLink == old(keyloadLink)
    {
      var link := LinkAt(nextSeqNo);
      outbox := outbox + [SignedMessage(link, announcementLink, Payload(publicPayload, privatePayload))];
      nextSeqNo := nextSeqNo + 1;
      r := link.msgid;
    }

    /** Send a tagged packet linked to the keyload link; return its msgid. */
    method WriteTagged(publicPayload: string, privatePayload: string) returns (r: MsgId)
      requires Valid()
      modifies this`nextSeqNo, this`outbox
      ensures Valid()
      ensures outbox == old(outbox) +
                [TaggedMessage(old(LinkAt(nextSeqNo)), keyloadLink, Payload(publicPayload, privatePayload))]
      ensures forall m :: m in old(outbox) ==> m.link != old(LinkAt(nextSeqNo))
      ensures r == old(LinkAt(nextSeqNo)).msgid
      ensures announcementLink == old(announcementLink) && keyloadLink == old(keyloadLink)
    {
      var link := LinkAt(nextSeqNo);
      outbox := outbox + [TaggedMessage(link, keyloadLink, Payload(publicPayload, privatePayload))];
      nextSeqNo := nextSeqNo + 1;
      r := link.msgid;
    }

    /**
     * Fetch at the unsubscribe tag's address and revoke the sender of the
     * first unsubscribe record whose unwrap succeeds, going past those whose
     * unwrap fails and ignoring every later record. No keyload is sent: the
     * keyload link and its recipients stay as they were, so a revoked
     * subscriber keeps the current session key. Always succeeds.
     */
    method RemoveSubscriber(unsubscribeTag: MsgId, records: seq<Record>) returns (ghost fetchedFrom: Address)
      requires Valid()
      modifies this`subscribers
      ensures Valid()
      ensures fetchedFrom == Address(channelAddress, unsubscribeTag)
      ensures subscribers ==
        match FirstAccepted(records, Unsubscribe)
        case None => old(subscribers)
        case Some(i) => old(subscribers) - {records[i].origin}
      ensures keyloadLink == old(keyloadLink) && keyloadRecipients == old(keyloadRecipients)
      ensures outbox == old(outbox)
    {
      fetchedFrom := Address(channelAddress, unsubscribeTag);
      ghost var at := |records|;
      for i := 0 to |records|
        invariant forall j :: 0 <= j < i ==> !Accepts(records[j], Unsubscribe)
        invariant subscribers == old(subscribers)
        invariant at == |records|
      {
        match records[i]
        case Malformed =>
          // the header does not parse: skip the record
        case Parsed(kind, _, origin, unwrapOk, _) =>
          if kind == Unsubscribe {
            if unwrapOk {
              // `unwrap_unsubscribe` drops the subscriber's key
              subscribers := subscribers - {origin};
              at := i;
              break;
            }
            continue;
          }
      }
      if at < |records| {
        assert FirstAccepted(records, Unsubscribe) == Some(at);
      }
    }
  }
}
