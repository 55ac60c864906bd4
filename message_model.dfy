/** A persisted chat message, as the `messages` collection stores it. */
module MessageModel {

  datatype Message = Message(
    id: string,
    sender: string,
    receiver: string,
    content: string,
    encryptedContent: string,
    signature: string,
    messageHash: string,
    isDelivered: bool,
    isRead: bool,
    timestamp: int)

  /** 'm' was sent or received by 'u'. */
  predicate Involves(m: Message, u: string) {
    m.sender == u || m.receiver == u
  }

  /** The other participant of 'm' as seen by 'u' (the receiver when 'u' sent it). */
  function Counterpart(m: Message, u: string): string {
    if m.sender == u then m.receiver else m.sender
  }

  /** A new message document: both flags take their schema default, `false`. */
  function NewMessage(id: string, sender: string, receiver: string, content: string,
                      encryptedContent: string, signature: string, messageHash: string,
                      timestamp: int): (m: Message)
    ensures !m.isDelivered && !m.isRead
    ensures m.id == id && m.sender == sender && m.receiver == receiver && m.content == content
    ensures m.encryptedContent == encryptedContent && m.signature == signature
    ensures m.messageHash == messageHash && m.timestamp == timestamp
  {
    Message(id, sender, receiver, content, encryptedContent, signature, messageHash, false, false, timestamp)
  }
}
