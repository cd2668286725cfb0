/**
 * The JSON object MainActivity sends on its message channel, as a record.
 * The receiver tells a handshake (code 1, no "msg") from a user message
 * (code 2 with "msg"); "name" carries the sender's user name.
 */
module Payloads {
  import opened Optional

  const HandshakeCode: int := 1
  const UserMessageCode: int := 2

  /**
   * `msg` and `name` are None when the key is absent from the object:
   * JSONObject.put with a null value removes the key, so a missing user
   * name leaves "name" out.
   */
  datatype Payload = Payload(code: int, msg: Option<string>, name: Option<string>)

  /** The two shapes the receiver understands. */
  predicate WellFormed(p: Payload) {
    || (p.code == HandshakeCode && p.msg.None?)
    || (p.code == UserMessageCode && p.msg.Some?)
  }

  /** The payload for sendMessage(message): a null message is the handshake. */
  function BuildPayload(message: Option<string>, name: Option<string>): (p: Payload)
    ensures WellFormed(p)
    ensures p.code == HandshakeCode <==> message.None?
    ensures p.msg == message && p.name == name
  {
    match message
    case None => Payload(HandshakeCode, None, name)
    case Some(text) => Payload(UserMessageCode, Some(text), name)
  }

  /** What a receiver reads back from a payload: the message (None for the handshake) and the name. */
  function ReadPayload(p: Payload): (r: Option<(Option<string>, Option<string>)>)
    ensures r.Some? <==> WellFormed(p)
  {
    if p.code == HandshakeCode && p.msg.None? then Some((None, p.name))
    else if p.code == UserMessageCode && p.msg.Some? then Some((p.msg, p.name))
    else None
  }

  /** Reading a built payload gives back the message and the name. */
  lemma ReadBuiltPayload(message: Option<string>, name: Option<string>)
    ensures ReadPayload(BuildPayload(message, name)) == Some((message, name))
  {
  }

  /** Every payload the receiver accepts is the one built from what it reads. */
  lemma BuildReadPayload(p: Payload)
    requires WellFormed(p)
    ensures ReadPayload(p).Some?
    ensures BuildPayload(ReadPayload(p).value.0, ReadPayload(p).value.1) == p
  {
  }
}
