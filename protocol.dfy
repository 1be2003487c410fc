/**
 * The two roles together: how a sent message looks once delivered among
 * fetched records, and where, under the library's link derivation, one
 * role's fetches can and cannot find what the other role sent.
 */
module Protocol {
  import opened Streams
  import opened Scan
  import ChannelAuthor
  import ChannelSubscriber

  /**
   * A signed or tagged packet message delivered intact and readable anywhere
   * in a record list has its payload among what a collecting scan of its
   * type returns.
   */
  lemma DeliveredPacketIsCollected(rs: seq<Record>, i: nat, m: Message, sender: PartyId)
    requires m.SignedMessage? || m.TaggedMessage?
    requires i < |rs| && rs[i] == Delivered(m, sender, true)
    ensures m.payload in Accepted(rs, m.Kind())
  {
    AcceptedContains(rs, m.Kind(), m.payload);
    assert Accepts(rs[i], m.Kind());
  }

  /** Every parsed record of `rs` is placed at address `a`: the records a fetch at `a` can return. */
  predicate FetchedAt(rs: seq<Record>, a: Address) {
    forall i :: 0 <= i < |rs| && rs[i].Parsed? ==> rs[i].link == a
  }

  /**
   * No message the author sends is placed at a connected subscriber's
   * subscription link: the author's links carry the author's identity and
   * the subscription link carries the subscriber's. So a read, which fetches
   * at the subscription link, cannot be handed the author's packets.
   */
  lemma AuthorMessagesMissSubscriptionLink(author: ChannelAuthor.Channel, subscriber: ChannelSubscriber.Channel, m: Message)
    requires author.Valid() && subscriber.Valid() && subscriber.isConnected
    requires author.seed != subscriber.seed
    requires m in author.outbox
    ensures m.link != subscriber.subscriptionLink
  {
  }

  /**
   * One verified sequence of calls: the author opens the channel and a
   * subscriber connects through a fetch that also returns junk; then the
   * author admits it and signs a packet, and the subscriber reads. Every
   * parsed record a role fetches is placed at the address fetched; every
   * record but the junk is the delivery of a message a role sent.
   */
  method Walkthrough() {
    var author := new ChannelAuthor.Channel("S1");
    var openResult := author.Open();
    var channel, announceTag := openResult.0, openResult.1;
    assert announceTag != NullMsgId;

    var subscriber := new ChannelSubscriber.Channel("S2", channel, announceTag);
    var silent := Payload("", "");
    var announce := Parsed(Announce, author.announcementLink, "S1", true, silent);
    assert announce == Delivered(author.outbox[0], "S1", true);
    var fetchedAtAnnouncement := [Malformed, Parsed(Other, author.announcementLink, "S9", true, silent), announce];
    assert HasType(fetchedAtAnnouncement[2], Announce);
    var c, connectedFrom := subscriber.Connect(fetchedAtAnnouncement);
    assert FetchedAt(fetchedAtAnnouncement, connectedFrom);
    assert c.Ok? && subscriber.isConnected;

    AdmitAndRead(author, subscriber);
    NeverConnected(channel, announceTag);
  }

  /**
   * The author admits a connected subscriber and signs a packet. The packet
   * is not at the subscription link, so what a read fetches there is the
   * subscriber's own subscribe message, and the read returns nothing.
   */
  method AdmitAndRead(author: ChannelAuthor.Channel, subscriber: ChannelSubscriber.Channel)
    requires author.Valid() && subscriber.Valid() && subscriber.isConnected
    requires author.seed == "S1" && subscriber.seed == "S2"
    requires subscriber.channelAddress == author.channelAddress
    modifies author, subscriber
  {
    var silent := Payload("", "");
    var subscribe := Parsed(Subscribe, subscriber.subscriptionLink, "S2", true, silent);
    ghost var sent :| 0 <= sent < |subscriber.outbox| &&
      subscriber.outbox[sent] == Subscription(subscriber.subscriptionLink, subscriber.announcementLink);
    assert subscribe == Delivered(subscriber.outbox[sent], "S2", true);
    assert subscriber.subscriptionLink.appinst == subscriber.channelAddress;
    assert Accepts([subscribe][0], Subscribe);
    var keyloadTag, admittedFrom := author.AddSubscriber(subscriber.subscriptionLink.msgid, [subscribe]);
    assert FetchedAt([subscribe], admittedFrom);
    assert "S2" in author.subscribers && "S2" in author.keyloadRecipients;

    var signedTag := author.WriteSigned("pub1", "priv1");
    ghost var packet := author.outbox[|author.outbox| - 1];
    assert packet == SignedMessage(Address(author.channelAddress, signedTag), author.announcementLink, Payload("pub1", "priv1"));
    AuthorMessagesMissSubscriptionLink(author, subscriber, packet);

    var got, readFrom := subscriber.ReadSigned([subscribe]);
    assert FetchedAt([subscribe], readFrom.value);
    assert [subscribe][..0] == [];
    assert got == [];
  }

  /**
   * A subscriber that never connected reads nothing and fetches nothing,
   * ignores a keyload, and may still disconnect.
   */
  method NeverConnected(channel: AppInst, announceTag: MsgId) {
    var silent := Payload("", "");
    var other := new ChannelSubscriber.Channel("S3", channel, announceTag);
    var signed := Parsed(SignedPacket, Address(channel, MsgId("S1", 1)), "S1", true, Payload("pub1", "priv1"));
    var none, noFetch := other.ReadSigned([signed]);
    assert none == [] && noFetch == None;
    var keyload := Parsed(Keyload, Address(channel, MsgId("S1", 2)), "S1", true, silent);
    var _ := other.UpdateKeyload(MsgId("S1", 2), [keyload]);
    assert other.appliedKeyload == None && !other.isConnected;
    var _ := other.Disconnect();
    assert !other.isConnected && other.subscriptionLink == DefaultAddress;
  }
}
