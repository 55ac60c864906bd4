/**
 * The client's integrity gate on incoming messages and its payload shape check
 * (`client/src/utils/cryptoService.js`). SHA-256 is a parameter.
 */
module ClientCrypto {
  import opened Wrappers
  import opened Json

  predicate Present(s: Option<string>) {
    s.Some? && s.value != ""
  }

  /**
   * `verifyMessageIntegrity(message, hash, signature, publicKey)`: the recomputed
   * hash must equal the supplied one, and a signature and a public key must be
   * present; the signature itself is not checked.
   */
  function VerifyMessageIntegrity(sha256: string -> string, message: string, hash: Option<string>,
                                  signature: Option<string>, publicKey: Option<string>): (ok: bool)
    ensures hash != Some(sha256(message)) ==> !ok
    ensures hash == Some(sha256(message)) ==> (ok <==> Present(signature) && Present(publicKey))
  {
    if hash != Some(sha256(message)) then false
    else if !Present(signature) || !Present(publicKey) then false
    else true
  }

  /** Any signature passes the gate, however it was produced. */
  lemma SignatureIsNotChecked(sha256: string -> string, message: string, s1: string, s2: string, key: string)
    requires s1 != "" && s2 != "" && key != ""
    ensures VerifyMessageIntegrity(sha256, message, Some(sha256(message)), Some(s1), Some(key))
         == VerifyMessageIntegrity(sha256, message, Some(sha256(message)), Some(s2), Some(key))
  {
  }

  const REQUIRED_FIELDS: seq<string> := ["messageId", "senderId", "content", "timestamp", "messageHash", "signature"]

  /** `validateMessageData(messageData)`: each required field is an own property and is not `null`. */
  function ValidateMessageData(data: map<string, Json>): (ok: bool)
    ensures ok <==>
      && "messageId" in data && data["messageId"] != JNull
      && "senderId" in data && data["senderId"] != JNull
      && "content" in data && data["content"] != JNull
      && "timestamp" in data && data["timestamp"] != JNull
      && "messageHash" in data && data["messageHash"] != JNull
      && "signature" in data && data["signature"] != JNull
  {
    assert |REQUIRED_FIELDS| == 6;
    assert REQUIRED_FIELDS[0] == "messageId" && REQUIRED_FIELDS[1] == "senderId" && REQUIRED_FIELDS[2] == "content";
    assert REQUIRED_FIELDS[3] == "timestamp" && REQUIRED_FIELDS[4] == "messageHash" && REQUIRED_FIELDS[5] == "signature";
    forall i :: 0 <= i < |REQUIRED_FIELDS| ==>
      REQUIRED_FIELDS[i] in data && data[REQUIRED_FIELDS[i]] != JNull
  }

  /** A field that is present but `undefined` still passes the shape check. */
  lemma UndefinedFieldPasses(data: map<string, Json>)
    requires ValidateMessageData(data)
    ensures ValidateMessageData(data["content" := JUndefined])
  {
  }
}
