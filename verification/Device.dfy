/**
 The device's mailbox code as it runs: the event handler that fills a message in
 memory and puts it in the one-slot queue, and the GPIO task's polling pass. Each
 call is proved against a function on the values the device holds.
 */
module Device {
  import opened Bytes
  import opened Frames
  import opened MailboxProtocol

  /** What the device holds between two calls. */
  datatype View = View(slot: Option<Message>, sent: seq<seq<byte>>, pins: map<int, bool>)

  function StatusFor(m: Message, status: int): seq<byte> {
    StatusFrame(m.endpointId, m.messageId, status)
  }

  /** A frame arrives: without memory it is refused; otherwise it takes the slot, and a
      message still waiting there is answered "not received". */
  function Deliver(signed: bool, v: View, frame: Frame, memory: bool): View {
    var m := Parse(signed, frame);
    if !memory then v.(sent := v.sent + [StatusFor(m, ERR_NOT_ENOUGH_MEMORY)])
    else v.(slot := Some(m),
            sent := match v.slot
                    case None => v.sent
                    case Some(prev) => v.sent + [StatusFor(prev, ERR_NOT_RECEIVED)])
  }

  /** What an endpoint task passes as its handler: the GPIO one, or another, which answers
      a status of its own and drives no pin. */
  datatype Handler = Gpio | Other(status: int)
  {
    function Status(m: Message): int {
      if Gpio? then GpioStatus(m) else status
    }

    function Effect(signed: bool, pins: map<int, bool>, m: Message): map<int, bool> {
      if Gpio? then GpioEffect(signed, pins, m) else pins
    }
  }

  /** An endpoint task looks at the slot and has a message of its own carried out. */
  function Poll(signed: bool, v: View, endpointId: int, handler: Handler): View {
    match v.slot
    case None => v
    case Some(m) =>
      if m.endpointId != endpointId then v
      else View(None, v.sent + [StatusFor(m, handler.Status(m))], handler.Effect(signed, v.pins, m))
  }

  /** What a message's callback pointer points to. */
  datatype Callback = AnswerAndFree | Anything

  /** A mailbox message in memory. */
  class MailboxMessage {
    var endpointId: int
    var messageType: int
    var messageId: int
    var length: int
    var pData: array?<byte>
    var onReceive: Callback

    /** As `malloc` leaves it: no field can be relied on. */
    constructor ()
    {
      endpointId, messageType, messageId, length := *, *, *, *;
      pData, onReceive := *, *;
    }

    /** The fields and the body are those of `m`. */
    ghost predicate Holds(m: Message)
      reads this, pData
    {
      && pData != null && pData[..] == m.body && length == |m.body|
      && endpointId == m.endpointId && messageType == m.messageType && messageId == m.messageId
      && onReceive == AnswerAndFree
    }
  }

  class MailboxDevice {
    const signed: bool
    var incoming: seq<MailboxMessage>       // the queue of pointers, one deep
    var sent: seq<seq<byte>>                // status frames handed to the sender
    var pins: map<int, bool>
    ghost var live: set<object>        // memory obtained and not yet freed
    ghost var slot: Option<Message>

    ghost predicate Valid()
      reads this, live
    {
      && |incoming| <= 1
      && (incoming == [] <==> slot == None)
      && (incoming != [] ==>
            && incoming[0] in live && incoming[0].pData in live
            && incoming[0].Holds(slot.value)
            && live == {incoming[0], incoming[0].pData})
      && (incoming == [] ==> live == {})
    }

    ghost function Now(): View
      reads this
    {
      View(slot, sent, pins)
    }

    constructor (signed: bool)
      ensures Valid() && this.signed == signed && Now() == View(None, [], map[])
    {
      this.signed := signed;
      incoming, sent, pins := [], [], map[];
      live, slot := {}, None;
    }

    method Clone(data: array<byte>, start: nat, length: int, memory: bool) returns (copy: array?<byte>)
      requires 0 <= length && start + length <= data.Length
      modifies this`live
      ensures copy != null <==> memory
      ensures copy != null ==> fresh(copy) && copy[..] == data[start..start + length]
      ensures live == if copy == null then old(live) else old(live) + {copy}
    {
      copy := null;
      if memory {
        var buffer := new byte[length];
        forall i | 0 <= i < length {
          buffer[i] := data[start + i];
        }
        live := live + {buffer};
        copy := buffer;
      }
    }

    /** The message pointer is null when there is no memory for the record; when only
        the body copy fails, the record comes back as it was allocated. */
    method ParseMessage(data: array<byte>, recordMemory: bool, bodyMemory: bool) returns (m: MailboxMessage?)
      requires data.Length > HEADER_LENGTH
      modifies this`live
      ensures m != null <==> recordMemory
      ensures m == null ==> live == old(live)
      ensures m != null ==> fresh(m)
      ensures m != null && bodyMemory ==>
                && m.Holds(Parse(signed, data[..]))
                && fresh(m.pData)
                && live == old(live) + {m, m.pData}
      ensures m != null && !bodyMemory ==> live == old(live) + {m}
    {
      m := null;
      if recordMemory {
        m := new MailboxMessage();
        live := live + {m};
        var dataLength := data.Length - HEADER_LENGTH;
        var body := Clone(data, HEADER_LENGTH, dataLength, bodyMemory);
        if body != null {
          m.endpointId := CharToInt(signed, data[0]);
          m.messageType := CharToInt(signed, data[2]);
          m.messageId := CharToInt(signed, data[1]);
          m.pData := body;
          m.length := dataLength;
          m.onReceive := AnswerAndFree;
          assert data[HEADER_LENGTH..HEADER_LENGTH + dataLength] == data[..][HEADER_LENGTH..];
        }
      }
    }

    method SendStatus(endpointId: int, messageId: int, status: int)
      modifies this`sent
      ensures sent == old(sent) + [StatusFrame(endpointId, messageId, status)]
    {
      var body := [IntToChar(endpointId), IntToChar(status), IntToChar(messageId)];
      sent := sent + [body];
    }

    method Free(p: object)
      requires p in live
      modifies this`live
      ensures live == old(live) - {p}
    {
      live := live - {p};
    }

    /** Answers a message and releases it; it must still be in memory. */
    method OnMessageReceived(m: MailboxMessage, status: int)
      requires m.onReceive == AnswerAndFree
      requires m.pData != null && m in live && m.pData in live && m.pData as object != m
      modifies this`sent, this`live
      ensures sent == old(sent) + [StatusFrame(m.endpointId, m.messageId, status)]
      ensures live == old(live) - {m, m.pData}
    {
      SendStatus(m.endpointId, m.messageId, status);
      Free(m.pData);
      Free(m);
    }

    /** One DATA event. When only the body copy fails, the record is queued all the same,
        and what a task will find in it is not known. */
    method SendDataToMailboxIncoming(data: array<byte>, recordMemory: bool, bodyMemory: bool)
      requires Valid() && data.Length > HEADER_LENGTH
      modifies this
      ensures !recordMemory ==> sent == old(sent) + [[data[0], 1, data[1]]]
      ensures recordMemory ==>
                sent == match old(slot)
                        case None => old(sent)
                        case Some(prev) => old(sent) + [[IntToChar(prev.endpointId), 2, IntToChar(prev.messageId)]]
      ensures !recordMemory || bodyMemory ==> Valid() && Now() == Deliver(signed, old(Now()), data[..], recordMemory)
      ensures recordMemory && !bodyMemory ==>
                && Now() == Deliver(signed, old(Now()), data[..], true).(slot := None)
                && |incoming| == 1 && fresh(incoming[0]) && live == {incoming[0]}
    {
      var m := ParseMessage(data, recordMemory, bodyMemory);
      if m == null {
        SendStatus(CharToInt(signed, data[0]), CharToInt(signed, data[1]), ERR_NOT_ENOUGH_MEMORY);
        return;
      }
      if |incoming| != 0 {
        var prev := incoming[0];
        incoming := incoming[1..];
        OnMessageReceived(prev, ERR_NOT_RECEIVED);
      }
      if |incoming| < 1 {
        incoming := incoming + [m];
      }
      slot := if bodyMemory then Some(Parse(signed, data[..])) else None;
    }

    method WriteLevel(pin: int, level: bool)
      modifies this`pins
      ensures pins == old(pins)[pin := level]
    {
      pins := pins[pin := level];
    }

    method MessageHandler(m: MailboxMessage, ghost content: Message)
      requires m.Holds(content) && m in live && m.pData in live && m.pData as object != m
      modifies this`sent, this`live, this`pins
      ensures sent == old(sent) + [StatusFor(content, GpioStatus(content))]
      ensures var t := content.messageType;
              var known := t == 1 || t == 2 || t == 3 || t == 5;
              sent == old(sent) + [[IntToChar(content.endpointId), if known then 0 else 3, IntToChar(content.messageId)]]
      ensures pins == GpioEffect(signed, old(pins), content)
      ensures live == old(live) - {m, m.pData}
    {
      var pin := CharToInt(signed, m.pData[0]);
      match m.messageType {
        case 1 =>
        case 2 => WriteLevel(pin, true);
        case 3 => WriteLevel(pin, false);
        case 5 =>
        case _ =>
          OnMessageReceived(m, ERR_UNSUPPORTED_MESSAGE_TYPE);
          return;
      }
      OnMessageReceived(m, MSG_OK);
    }

    method RunHandler(handler: Handler, m: MailboxMessage, ghost content: Message)
      requires m.Holds(content) && m in live && m.pData in live && m.pData as object != m
      modifies this`sent, this`live, this`pins
      ensures handler.Other? ==>
                && sent == old(sent) + [[IntToChar(content.endpointId), IntToChar(handler.status), IntToChar(content.messageId)]]
                && pins == old(pins)
      ensures sent == old(sent) + [StatusFor(content, handler.Status(content))]
      ensures pins == handler.Effect(signed, old(pins), content)
      ensures live == old(live) - {m, m.pData}
    {
      match handler {
        case Gpio => MessageHandler(m, content);
        case Other(status) => OnMessageReceived(m, status);
      }
    }

    /** Takes the waiting message, if it is for this endpoint, and calls the handler. */
    method MailboxReceive(endpointId: int, handler: Handler)
      requires Valid()
      modifies this
      ensures Valid()
      ensures Now() == Poll(signed, old(Now()), endpointId, handler)
    {
      if |incoming| != 0 {
        var m := incoming[0];
        if m.endpointId == endpointId {
          incoming := [];
          RunHandler(handler, m, slot.value);
          slot := None;
        }
      }
    }

    /** One pass of the GPIO task's loop. */
    method EndpointPassGpio()
      requires Valid()
      modifies this
      ensures Valid()
      ensures Now() == Poll(signed, old(Now()), GPIO_ENDPOINT, Gpio)
    {
      MailboxReceive(GPIO_ENDPOINT, Gpio);
    }
  }
}
