/** Non-blocking sends and receives of a segment: loops around single recv and send calls, each of
    which may move any part of what is asked; and the buffers' progress counters on top of them. */
module Network {
  import opened Bytes
  import opened Stream

  // ---------- the socket ----------

  type Chunk = c: seq<Byte> | c != [] witness [0]

  /** What recv will answer: these bytes, arriving so cut up, and then -1 with EAGAIN, or 0. */
  datatype Incoming = Incoming(chunks: seq<Chunk>, ending: Ending)
  {
    function Bytes(): seq<Byte> {
      Flat(chunks)
    }
  }

  type Grant = n: nat | 0 < n witness 1

  /** How many bytes the next send calls will take; after the last one send answers -1 with EAGAIN. */
  type Room = seq<Grant>

  datatype RecvAnswer = Again | Received(bytes: seq<Byte>)

  /** One recv call: at most `len` bytes of the next chunk, or the socket's ending. */
  method Recv(socket: Incoming, len: nat) returns (answer: RecvAnswer, socket': Incoming)
    requires 0 < len
    ensures socket'.ending == socket.ending
    ensures answer.Again? ==> socket.chunks == [] && socket.ending.WouldBlock? && socket' == socket
    ensures answer.Received? && answer.bytes == [] ==> socket.chunks == [] && socket.ending.PeerClosed? && socket' == socket
    ensures answer.Received? ==> |answer.bytes| <= len && socket.Bytes() == answer.bytes + socket'.Bytes()
  {
    if socket.chunks == [] {
      return if socket.ending.WouldBlock? then Again else Received([]), socket;
    }
    var chunk, rest := socket.chunks[0], socket.chunks[1..];
    if |chunk| <= len {
      return Received(chunk), socket.(chunks := rest);
    }
    assert chunk == chunk[..len] + chunk[len..];
    var left: Chunk := chunk[len..];
    assert ([left] + rest)[1..] == rest;
    assert chunk[..len] + (left + Flat(rest)) == chunk + Flat(rest);
    return Received(chunk[..len]), socket.(chunks := [left] + rest);
  }

  /** One send call of `len` bytes: how many it takes, 0 standing for -1 with EAGAIN. */
  method Send(room: Room, len: nat) returns (n: nat, room': Room)
    requires 0 < len
    ensures n <= len && Sum(room) == n + Sum(room')
    ensures n == 0 <==> room == []
  {
    if room == [] {
      return 0, room;
    }
    if room[0] <= len {
      return room[0], room[1..];
    }
    room' := [room[0] - len] + room[1..];
    assert room'[1..] == room[1..];
    n := len;
  }

  // ---------- the segment loops ----------

  /** Receives as much of `totalLen` bytes as the socket has, in order; `peerClosed` exactly when it
      stopped short because recv returned 0. */
  method RecvSegmentAsync(socket: Incoming, totalLen: nat, segsize: int)
    returns (data: seq<Byte>, peerClosed: bool, socket': Incoming)
    ensures data == socket.Bytes()[..Min(totalLen, |socket.Bytes()|)]
    ensures socket'.Bytes() == socket.Bytes()[Min(totalLen, |socket.Bytes()|)..]
    ensures socket'.ending == socket.ending
    ensures peerClosed <==> |socket.Bytes()| < totalLen && socket.ending.PeerClosed?
  {
    data, peerClosed, socket' := [], false, socket;
    var blocked := false;
    while |data| < totalLen && !blocked && !peerClosed
      invariant |data| <= totalLen
      invariant socket.Bytes() == data + socket'.Bytes() && socket'.ending == socket.ending
      invariant blocked ==> socket'.chunks == [] && socket.ending.WouldBlock? && |data| < totalLen
      invariant peerClosed ==> socket'.chunks == [] && socket.ending.PeerClosed? && |data| < totalLen
      decreases totalLen - |data|, if blocked || peerClosed then 0 else 1
    {
      var lenLeft := totalLen - |data|;
      if segsize > 0 && lenLeft > segsize {
        lenLeft := segsize;
      }
      var answer;
      answer, socket' := Recv(socket', lenLeft);
      match answer {
        case Again =>
          blocked := true;
        case Received(bytes) =>
          data := data + bytes;
          if |bytes| == 0 {
            peerClosed := true;
          }
      }
    }
  }

  /** Sends as much of the first `totalLen` bytes of `buf` as the socket takes. */
  method SendSegmentAsync(room: Room, buf: seq<Byte>, totalLen: nat, segsize: int)
    returns (sent: seq<Byte>, room': Room)
    requires totalLen <= |buf|
    ensures sent == buf[..Min(totalLen, Sum(room))]
    ensures Sum(room') == Sum(room) - |sent|
  {
    room' := room;
    var alreadyDone, blocked := 0, false;
    sent := [];
    while alreadyDone < totalLen && !blocked
      invariant 0 <= alreadyDone <= totalLen && sent == buf[..alreadyDone]
      invariant Sum(room) == alreadyDone + Sum(room')
      invariant blocked ==> room' == [] && alreadyDone < totalLen
      decreases totalLen - alreadyDone, if blocked then 0 else 1
    {
      var lenLeft := totalLen - alreadyDone;
      if segsize > 0 && lenLeft > segsize {
        lenLeft := segsize;
      }
      var len;
      len, room' := Send(room', lenLeft);
      if len == 0 {
        blocked := true;
      } else {
        sent := sent + buf[alreadyDone..alreadyDone + len];
        alreadyDone := alreadyDone + len;
      }
    }
  }

  // ---------- progress counters ----------

  const TWO_TO_THE_31: nat := 0x8000_0000

  /** The conversion of a byte count to the signed 32-bit result. */
  function ToInt32(x: nat): int {
    var low := x % TWO_TO_THE_32;
    if low < TWO_TO_THE_31 then low else low - TWO_TO_THE_32
  }

  /** Adding that result to an unsigned 32-bit counter. */
  function AddToCounter(counter: nat, rdn: int): nat {
    (counter + rdn) % TWO_TO_THE_32
  }

  /** A transfer of 2 GiB or more comes back as a negative number, and yet the counter is right. */
  lemma CounterIsRight(counter: nat, done: nat)
    requires counter + done < TWO_TO_THE_32
    ensures AddToCounter(counter, ToInt32(done)) == counter + done
  {
    if done >= TWO_TO_THE_31 {
      assert counter + ToInt32(done) == (counter + done) - TWO_TO_THE_32;
      assert ((counter + done) - TWO_TO_THE_32) % TWO_TO_THE_32 == (counter + done) % TWO_TO_THE_32;
    }
  }

  /** ReadBuffer::Read: the bytes go behind those already there. */
  method ReadInto(b: Buffer, socket: Incoming) returns (b': Buffer, peerClosed: bool, socket': Incoming)
    requires b.Open()
    ensures var got := Min(b.GetLeft(), |socket.Bytes()|);
            b' == Fill(b, socket.Bytes()[..got]) && socket'.Bytes() == socket.Bytes()[got..]
    ensures socket'.ending == socket.ending
    ensures b'.IsComplete() <==> |socket.Bytes()| >= b.GetLeft()
    ensures peerClosed <==> |socket.Bytes()| < b.GetLeft() && socket.ending.PeerClosed?
  {
    var data;
    data, peerClosed, socket' := RecvSegmentAsync(socket, b.GetLeft(), -1);
    CounterIsRight(b.already, |data|);
    b' := b.(buf := b.buf[..b.already] + data + b.buf[b.already + |data|..],
             already := AddToCounter(b.already, ToInt32(|data|)));
  }

  /** WriteBuffer::Write: sends from where the last call stopped. */
  method WriteFrom(b: Buffer, room: Room) returns (b': Buffer, sent: seq<Byte>, room': Room)
    requires b.Open()
    ensures var n := Min(b.GetLeft(), Sum(room));
            b' == b.(already := b.already + n) && sent == b.buf[b.already..b.already + n] && Sum(room') == Sum(room) - n
  {
    sent, room' := SendSegmentAsync(room, b.buf[b.already..], b.GetLeft(), -1);
    CounterIsRight(b.already, |sent|);
    b' := b.(already := AddToCounter(b.already, ToInt32(|sent|)));
  }
}
