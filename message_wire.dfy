/**
 * How the server reads the body the web messages page posts: the match and
 * the sender arrive as objects holding only their ids, properties the
 * message entity does not have are ignored, and properties the body leaves
 * out are null.
 */
module MessageWire {
  import opened Wrappers
  import opened Js
  import opened Entities
  import opened Conversations
  import opened Messaging

  /** A JSON id as the server binds it: a number, or null. */
  function BoundId(id: JsId): (r: Option<int>)
    ensures r.Some? <==> id.Num?
    ensures r.Some? ==> r.value == id.n
  {
    if id.Num? then Some(id.n) else None
  }

  /**
   * The message the server binds from the page's body as the page writes it: the text is
   * sent under `content`, which is not a property of the message, so `messageContent`
   * stays null; `isRead` and `sentAt` are absent.
   */
  function BoundAsWritten(o: Outgoing): (r: MessageRequest)
    ensures r.messageContent.None?
    ensures r.matchId == BoundId(o.matchId) && r.senderId == BoundId(o.senderUserId)
  {
    MessageRequest(BoundId(o.matchId), BoundId(o.senderUserId), None, None, None)
  }

  /** The body with the text under `messageContent`, the property the message has. */
  function BoundAsIntended(o: Outgoing): (r: MessageRequest)
    ensures r.messageContent == Some(o.content)
    ensures r.matchId == BoundId(o.matchId) && r.senderId == BoundId(o.senderUserId)
  {
    MessageRequest(BoundId(o.matchId), BoundId(o.senderUserId), Some(o.content), None, None)
  }

  /**
   * As written, a message sent from the web page into an existing match by an existing user is
   * refused because its content is null: no web message is ever stored.
   */
  lemma WebSendRefused(matches: seq<Match>, users: seq<User>, o: Outgoing, id: int, now: int)
    requires o.matchId.Num? && MatchExists(matches, o.matchId.n)
    requires o.senderUserId.Num? && UserExists(users, o.senderUserId.n)
    ensures Sent(matches, users, BoundAsWritten(o), id, now) == Err(ContentMissing)
  {
  }

  /**
   * With the text under `messageContent`, the same send stores exactly the typed text in that
   * match from that sender, unread and stamped with the time of the request; with an unknown
   * match or sender it still fails as before.
   */
  lemma IntendedWebSendStored(matches: seq<Match>, users: seq<User>, o: Outgoing, id: int, now: int)
    ensures var r := Sent(matches, users, BoundAsIntended(o), id, now);
      (r.Ok? <==> o.matchId.Num? && MatchExists(matches, o.matchId.n)
                  && o.senderUserId.Num? && UserExists(users, o.senderUserId.n))
      && (r.Ok? ==> r.value == Message(id, o.matchId.n, o.senderUserId.n, o.content, false, now))
      && (r.Err? ==> r == Sent(matches, users, BoundAsWritten(o), id, now))
  {
  }
}
