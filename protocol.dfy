/**
 * How the client and the server fit together: the conversation id the client
 * builds is one the history route accepts, a message the client emits passes the
 * server's content checks when its text does, a stored message pushed to the
 * receiver passes the client's integrity gate exactly when the sender has a
 * signature and a public key, and the server's acknowledgement ends the client's
 * retry chain.
 */
module Protocol {
  import opened Wrappers
  import opened Strings
  import Json
  import SocketManager
  import SocketService
  import MessageController
  import ClientCrypto
  import OrderedMap

  /** `String(user._id)`: 24 lower-case hexadecimal digits. */
  predicate CanonicalId(s: string) {
    |s| == 24 && forall i :: 0 <= i < 24 ==> IsLowerHexDigit(s[i])
  }

  /**
   * The id `getConversationId` builds for two users is accepted by `getMessages`,
   * which reads back exactly those two users.
   */
  lemma ClientConversationIdAccepted(a: string, b: string)
    requires CanonicalId(a) && CanonicalId(b)
    ensures SocketService.ConversationId(Some(a), Some(b)).Some?
    ensures var cid := SocketService.ConversationId(Some(a), Some(b)).value;
      && MessageController.ConversationIdFormat(cid)
      && MessageController.ValidatedParticipants(cid).Ok?
      && multiset(MessageController.ValidatedParticipants(cid).value) == multiset{a, b}
  {
    assert |"undefined"| == 9;
    var lo := if SocketService.LexLess(b, a) then b else a;
    var hi := if SocketService.LexLess(b, a) then a else b;
    var cid := SocketService.JoinSorted(a, b);
    assert cid == lo + "_" + hi;
    assert forall i :: 0 <= i < 24 ==> cid[i] == lo[i];
    assert forall i :: 25 <= i < 49 ==> cid[i] == hi[i - 25];
    assert MessageController.ConversationIdFormat(cid);
    assert cid[..24] == lo && cid[25..] == hi;
  }

  /** What the client's `emit("sendMessage", {receiverId, content, tempId})` delivers to the server. */
  function Delivered(e: SocketService.ClientEmit): (d: SocketManager.SendData)
    requires e.SendMessageEmit?
    ensures d.receiverId == Json.JString(e.receiverId) && d.content == Json.JString(e.content)
    ensures d.tempId == Json.JString(e.tempId)
  {
    SocketManager.SendData(Json.JString(e.receiverId), Json.JString(e.content), Json.JString(e.tempId))
  }

  /**
   * A message the client sends passes the server's three content checks iff the
   * ids are non-empty and the text is not blank and at most 1000 UTF-16 units
   * long; the client itself checks neither.
   */
  lemma ClientSendValidated(receiverId: string, content: string, tempId: string)
    ensures var d := Delivered(SocketService.SendMessageEmit(receiverId, content, tempId));
      SocketManager.ValidateSend(Some(d)).None? <==>
        receiverId != "" && tempId != "" && !AllWhitespace(content) && Utf16Length(content) <= SocketManager.MAX_CONTENT_LENGTH
  {
  }

  /** The `newMessage` push as the client's handler reads it. */
  function Received(e: SocketManager.ServerEvent): (m: SocketService.IncomingMessage)
    requires e.NewMessage?
    ensures m.messageId == Some(e.messageId) && m.senderId == Some(e.senderId) && m.content == e.content
    ensures m.messageHash == Some(e.messageHash) && m.signature == Some(e.signature)
    ensures m.senderPublicKey == Some(e.senderPublicKey)
  {
    SocketService.IncomingMessage(Some(e.messageId), Some(e.senderId), Some(e.senderUsername), e.content,
      e.timestamp, Some(e.messageHash), Some(e.signature), Some(e.senderPublicKey))
  }

  /**
   * Both sides hash with SHA-256, so a message the server stored and pushed
   * passes the client's gate exactly when its signature and the sender's public
   * key are non-empty.
   */
  lemma PushPassesIntegrityGate(id: string, socket: SocketManager.Socket, receiverId: string, content: string,
                                sessionKey: string, crypto: SocketManager.Crypto, now: int)
    ensures var m := SocketManager.StoredMessage(id, socket, receiverId, content, sessionKey, crypto, now);
      var pushed := Received(SocketManager.PushEvent(m, socket));
      ClientCrypto.VerifyMessageIntegrity(crypto.hash, pushed.content, pushed.messageHash, pushed.signature,
                                          pushed.senderPublicKey)
      <==> crypto.sign(content, socket.user.privateKey) != "" && socket.user.publicKey != ""
  {
  }

  /** The client's view of a `messageSent` acknowledgement; a `tempId` that is not a string matches no entry. */
  function AckOf(e: SocketManager.ServerEvent): (r: Option<SocketService.Ack>)
    requires e.MessageSent?
    ensures r.Some? <==> e.tempId.JString?
    ensures r.Some? ==> r.value.tempId == e.tempId.s && r.value.messageId == e.messageId
  {
    if e.tempId.JString? then Some(SocketService.Ack(e.tempId.s, e.messageId, e.receiverId, e.timestamp)) else None
  }

  /**
   * A fresh message emitted once and acknowledged by the server's
   * `messageSent`, which echoes the `tempId`: its entry, its timeout and its
   * listener are gone, and no timer left can send it again.
   */
  lemma AcknowledgedSendIsFinal(p: SocketService.PendingMessage, messageId: string, timestamp: int, ts: seq<nat>,
                                connected: bool)
    requires p.retryCount == 0 && p.maxRetries == SocketService.MAX_RETRIES
    ensures var (sent, outcome) := SocketService.AttemptStep(SocketService.FreshSend(p), p.tempId, true);
      var ack := AckOf(SocketManager.MessageSent(messageId, p.receiverId, Json.JString(p.tempId), timestamp));
      && outcome == SocketService.Emitted
      && ack.Some?
      && var done := SocketService.AckStep(sent, ack.value.tempId);
      && done.pending == [] && done.timers == map[] && done.timeouts == map[] && done.listeners == []
      && done.outbox == [SocketService.SendMessageEmit(p.receiverId, p.content, p.tempId)]
      && SocketService.WellFormed(done)
      && SocketService.FireAll(done, ts, connected).pending == []
  {
    var k := p.tempId;
    var o := SocketService.FreshSend(p);
    assert OrderedMap.Get(o.pending, k) == Some(p);
    var (sent, _) := SocketService.AttemptStep(o, k, true);
    var done := SocketService.AckStep(sent, k);
    assert SocketService.AckCancelled(sent, k) == {0};
    assert done.timers == map[];
    SocketService.QuietStays(done, ts, connected);
  }
}
