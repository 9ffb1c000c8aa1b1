/** The message format of the server link: a three-byte header and a body. */
module Frames {
  import opened Bytes

  const HEADER_LENGTH := 3

  const MSG_OK := 0
  const ERR_NOT_ENOUGH_MEMORY := 1
  const ERR_NOT_RECEIVED := 2
  const ERR_UNSUPPORTED_MESSAGE_TYPE := 3

  /** A server frame: the header and at least one byte of body. */
  type Frame = f: seq<byte> | |f| > HEADER_LENGTH witness [0, 0, 0, 0]

  type Body = b: seq<byte> | |b| > 0 witness [0]

  datatype Message = Message(endpointId: int, messageType: int, messageId: int, body: Body)

  /** The fields `parseMessage` stores, with their widths. */
  function Parse(signed: bool, frame: Frame): Message {
    Message(CharToInt(signed, frame[0]), CharToInt(signed, frame[2]), CharToInt(signed, frame[1]),
            frame[HEADER_LENGTH..])
  }

  /** The server's side of the format: endpoint, message id, type, body. */
  function Encode(m: Message): Frame {
    [IntToChar(m.endpointId), IntToChar(m.messageId), IntToChar(m.messageType)] + m.body
  }

  /** The three bytes `sendStatus` puts on the wire. */
  function StatusFrame(endpointId: int, messageId: int, status: int): seq<byte> {
    [IntToChar(endpointId), IntToChar(status), IntToChar(messageId)]
  }

  /** Nothing of a frame is lost by parsing it. */
  lemma EncodeParse(signed: bool, frame: Frame)
    ensures Encode(Parse(signed, frame)) == frame
  {
    CharIntChar(signed, frame[0]);
    CharIntChar(signed, frame[1]);
    CharIntChar(signed, frame[2]);
  }

  /** A message survives the wire exactly when its header fields fit a `char`. */
  lemma ParseEncode(signed: bool, m: Message)
    ensures Parse(signed, Encode(m)) == m
            <==> InCharRange(signed, m.endpointId) && InCharRange(signed, m.messageType) && InCharRange(signed, m.messageId)
  {
    IntCharInt(signed, m.endpointId);
    IntCharInt(signed, m.messageType);
    IntCharInt(signed, m.messageId);
    assert Encode(m)[HEADER_LENGTH..] == m.body;
  }

  /** A status sent for a parsed frame names that frame: its endpoint byte comes
      first and its message-id byte last. */
  ghost predicate AnswersFrame(reply: seq<byte>, frame: Frame, status: int) {
    && |reply| == 3
    && reply[0] == frame[0]
    && reply[1] == IntToChar(status)
    && reply[2] == frame[1]
  }

  lemma StatusNamesFrame(signed: bool, frame: Frame, status: int)
    ensures var m := Parse(signed, frame);
            AnswersFrame(StatusFrame(m.endpointId, m.messageId, status), frame, status)
  {
    CharIntChar(signed, frame[0]);
    CharIntChar(signed, frame[1]);
  }
}
