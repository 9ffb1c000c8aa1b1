/**
 Sending a message through the bounded transmit buffer: the chunk loop, its writes
 as the transport sees them, and what any such sequence of writes amounts to.
 */
module ChunkedSend {
  import opened Bytes

  const ESP_FAIL := -1

  /** One write call: what was offered, and the transport's result. */
  datatype Write = Write(offered: seq<byte>, result: int)

  /** The bytes of a write the transport took. */
  function Taken(w: Write): (n: nat)
    ensures 0 < w.result <= |w.offered| ==> n == w.result
  {
    if 0 < w.result <= |w.offered| then w.result else 0
  }

  /** The transport takes between one and all of the offered bytes, or reports an end
      or an error. */
  predicate Obeys(w: Write) {
    w.result <= |w.offered|
  }

  /** All bytes taken, in order: what is on the wire. */
  function Wire(log: seq<Write>): seq<byte> {
    if log == [] then []
    else
      var last := log[|log| - 1];
      Wire(log[..|log| - 1]) + last.offered[..Taken(last)]
  }

  function Min(a: nat, b: nat): nat {
    if a <= b then a else b
  }

  /** Each write offers the next stretch of the data, as much as the buffer holds. */
  ghost predicate InChunks(data: seq<byte>, size: nat, log: seq<Write>) {
    log == []
    || (InChunks(data, size, log[..|log| - 1]) && NextChunk(data, size, Wire(log[..|log| - 1]), log[|log| - 1]))
  }

  ghost predicate NextChunk(data: seq<byte>, size: nat, sent: seq<byte>, w: Write) {
    && |sent| < |data| && sent == data[..|sent|]
    && w.offered == data[|sent|..|sent| + Min(|data| - |sent|, size)]
    && Obeys(w)
  }

  ghost predicate AllTaken(log: seq<Write>) {
    forall k :: 0 <= k < |log| ==> log[k].result > 0
  }

  ghost predicate AllFull(log: seq<Write>) {
    forall k :: 0 <= k < |log| ==> log[k].result == |log[k].offered|
  }

  lemma EmptyLog(data: seq<byte>, size: nat)
    ensures Wire([]) == [] && InChunks(data, size, [])
  {
  }

  lemma WireAppend(log: seq<Write>, w: Write)
    ensures Wire(log + [w]) == Wire(log) + w.offered[..Taken(w)]
  {
    assert (log + [w])[..|log|] == log;
  }

  lemma ChunksAppend(data: seq<byte>, size: nat, log: seq<Write>, w: Write)
    requires InChunks(data, size, log) && NextChunk(data, size, Wire(log), w)
    ensures InChunks(data, size, log + [w])
  {
    assert (log + [w])[..|log|] == log;
    hide NextChunk, Wire;
  }

  /** After a write of the next chunk the wire holds correspondingly more of the data. */
  lemma ChunkSent(data: seq<byte>, size: nat, log: seq<Write>, widx: nat, need: nat, result: int)
    requires InChunks(data, size, log) && widx < |data| && Wire(log) == data[..widx]
    requires need == Min(|data| - widx, size) && result <= need
    ensures var w := Write(data[widx..widx + need], result);
            && InChunks(data, size, log + [w])
            && Wire(log + [w]) == data[..widx + Taken(w)]
  {
    var w := Write(data[widx..widx + need], result);
    WireAppend(log, w);
    ChunksAppend(data, size, log, w);
    hide Wire, InChunks;
    assert data[..widx] + data[widx..widx + need][..Taken(w)] == data[..widx + Taken(w)];
  }

  function CeilDiv(a: nat, b: nat): nat
    requires b > 0
  {
    (a + b - 1) / b
  }

  lemma WireGrows(log: seq<Write>)
    requires log != []
    ensures |Wire(log)| == |Wire(log[..|log| - 1])| + Taken(log[|log| - 1])
  {
  }

  /** Every write moves the message on by at least one byte and at most a buffer. */
  lemma {:induction false} EachWriteMoves(data: seq<byte>, size: nat, log: seq<Write>)
    requires size > 0 && InChunks(data, size, log) && AllTaken(log)
    ensures |log| <= |Wire(log)| <= size * |log|
    ensures AllFull(log) ==> |Wire(log)| == Min(|data|, size * |log|)
    decreases |log|
  {
    if log == [] {
      assert Wire(log) == [];
    } else {
      var last := |log| - 1;
      WireGrows(log);
      hide Wire;
      EachWriteMoves(data, size, log[..last]);
      assert size * |log| == size * last + size;
    }
  }

  lemma MulOrder(size: nat, a: int, b: int)
    requires size > 0
    ensures a < b <==> size * a < size * b
  {
  }

  lemma CeilBounds(n: nat, size: nat, writes: nat)
    requires size > 0
    ensures n <= size * writes ==> CeilDiv(n, size) <= writes
    ensures size * (writes - 1) < n ==> writes <= CeilDiv(n, size)
  {
    var c := CeilDiv(n, size);
    assert size * c <= n + size - 1 < size * c + size;
    assert size * (writes + 1) == size * writes + size;
    MulOrder(size, c, writes + 1);
    MulOrder(size, writes - 1, c);
  }

  /** A whole message takes between ceil(len / size) and len writes, and exactly the
      fewest when the transport takes everything it is offered. */
  lemma WriteCount(data: seq<byte>, size: nat, log: seq<Write>)
    requires size > 0 && data != [] && InChunks(data, size, log) && AllTaken(log) && Wire(log) == data
    ensures CeilDiv(|data|, size) <= |log| <= |data|
    ensures AllFull(log) ==> |log| == CeilDiv(|data|, size)
  {
    EachWriteMoves(data, size, log);
    CeilBounds(|data|, size, |log|);
    assert log != [];
    hide Wire, CeilDiv;
    if AllFull(log) {
      EachWriteMoves(data, size, log[..|log| - 1]);
    }
  }

  // ------------------------------------------------------------------ the sender

  /** The transport: takes what it likes of what it is offered. */
  class Transport {
    var log: seq<Write>

    constructor ()
      ensures log == []
    {
      log := [];
    }

    method WriteBytes(buffer: array<byte>, length: nat) returns (result: int)
      requires length <= buffer.Length
      modifies this
      ensures result <= length
      ensures log == old(log) + [Write(buffer[..length], result)]
    {
      result := *;
      if result > length {
        result := length;
      }
      log := log + [Write(buffer[..length], result)];
    }
  }

  class Sender {
    var connected: bool
    var transport: Transport?
    const txBuffer: array<byte>
    var locked: bool

    constructor (transport: Transport?, bufferSize: nat, connected: bool)
      requires bufferSize > 0
      ensures this.transport == transport && this.connected == connected && !locked
      ensures fresh(txBuffer) && txBuffer.Length == bufferSize
    {
      this.transport := transport;
      this.connected := connected;
      this.locked := false;
      this.txBuffer := new byte[bufferSize];
    }

    /** Takes the mutex if it comes free within the timeout; it cannot while held. */
    method TakeLock(comesFree: bool) returns (taken: bool)
      modifies this`locked
      ensures taken <==> comesFree && !old(locked)
      ensures locked == (old(locked) || taken)
    {
      taken := comesFree && !locked;
      if taken {
        locked := true;
      }
    }

    method CopyToBuffer(data: array<byte>, start: nat, length: nat, ghost message: seq<byte>)
      requires start + length <= |message| <= data.Length && length <= txBuffer.Length && data != txBuffer
      requires data[..|message|] == message
      modifies txBuffer
      ensures txBuffer[..length] == message[start..start + length] && data[..|message|] == message
    {
      assert forall i :: 0 <= i < |message| ==> data[i] == message[i];
      forall i | 0 <= i < length {
        txBuffer[i] := data[start + i];
      }
    }

    /** The arguments are sound, the client is connected and the lock can be had. */
    predicate Admits(data: array?<byte>, len: int, comesFree: bool)
      reads this
    {
      data != null && len > 0 && connected && transport != null && comesFree && !locked
    }

    /** The loop under the lock: writes chunks from the front until all is taken or a
        write fails. `mine` are the writes it made. */
    method SendChunks(data: array<byte>, len: nat) returns (r: int, ghost mine: seq<Write>)
      requires txBuffer.Length > 0 && 0 < len <= data.Length && data != txBuffer && transport != null
      modifies txBuffer, transport
      ensures transport.log == old(transport.log) + mine && mine != []
      ensures InChunks(old(data[..len]), txBuffer.Length, mine) && AllTaken(mine[..|mine| - 1])
      ensures if r > 0 then r == len && Wire(mine) == old(data[..len]) && AllTaken(mine)
              else r == mine[|mine| - 1].result && Wire(mine) < old(data[..len])
    {
      hide Wire, InChunks;
      var needWrite := len;
      var widx := 0;
      ghost var before, message := transport.log, data[..len];
      mine := [];
      EmptyLog(message, txBuffer.Length);
      while widx < len
        invariant 0 <= widx <= len && needWrite == len - widx
        invariant transport.log == before + mine && data[..len] == message
        invariant InChunks(message, txBuffer.Length, mine) && AllTaken(mine)
        invariant Wire(mine) == message[..widx]
        invariant widx < len || mine != []
        decreases len - widx
      {
        if needWrite > txBuffer.Length {
          needWrite := txBuffer.Length;
        }
        CopyToBuffer(data, widx, needWrite, message);
        var wlen := transport.WriteBytes(txBuffer, needWrite);
        ChunkSent(message, txBuffer.Length, mine, widx, needWrite, wlen);
        ghost var w := Write(message[widx..widx + needWrite], wlen);
        assert (before + mine) + [w] == before + (mine + [w]);
        mine := mine + [w];
        if wlen <= 0 {
          assert mine[..|mine| - 1] + [w] == mine;
          return wlen, mine;
        }
        widx := widx + wlen;
        needWrite := len - widx;
      }
      return widx, mine;
    }

    /** Sends `len` bytes of `data`. Nothing is written unless the call is admitted; what
        is written are chunks from the front; a positive result means all of it was
        taken, any other that only a strict prefix was. The lock is free again after. */
    method Send(data: array?<byte>, len: int, comesFree: bool) returns (r: int)
      requires txBuffer.Length > 0
      requires data != null ==> len <= data.Length && data != txBuffer
      modifies this`locked, txBuffer, transport
      ensures locked == old(locked)
      ensures !old(Admits(data, len, comesFree)) ==> r == ESP_FAIL && (transport != null ==> transport.log == old(transport.log))
      ensures old(Admits(data, len, comesFree)) ==>
                exists mine: seq<Write> ::
                  && transport.log == old(transport.log) + mine && mine != []
                  && InChunks(old(data[..len]), txBuffer.Length, mine) && AllTaken(mine[..|mine| - 1])
                  && (if r > 0 then r == len && Wire(mine) == old(data[..len]) && AllTaken(mine)
                      else r == mine[|mine| - 1].result && Wire(mine) < old(data[..len]))
    {
      if data == null || len <= 0 {
        return ESP_FAIL;
      }
      if !connected {
        return ESP_FAIL;
      }
      if transport == null {
        return ESP_FAIL;
      }
      var taken := TakeLock(comesFree);
      if !taken {
        return ESP_FAIL;
      }
      ghost var mine;
      r, mine := SendChunks(data, len);
      locked := false;
    }
  }
}
