/** Buffers, the chains they wait in, and partial reads and writes on a non-blocking socket. */
module Stream {
  import opened Bytes

  const TWO_TO_THE_32: nat := 0x1_0000_0000

  // How recv answers when the bytes at hand are used up.
  datatype Ending = WouldBlock | PeerClosed

  /** A read or write buffer: `already` of the `total` bytes in `buf` are done. `id` tells buffers apart. */
  datatype Buffer = Buffer(id: nat, buf: seq<Byte>, total: nat, already: nat)
  {
    /** Still waiting for at least one byte. */
    predicate Open() {
      |buf| == total < TWO_TO_THE_32 && already < total
    }

    predicate IsComplete() {
      total == already
    }

    function GetLeft(): nat
      requires already <= total
    {
      total - already
    }
  }

  /** Only the front buffer of a chain may be partly done. */
  predicate ChainOk(chain: seq<Buffer>) {
    forall i | 0 <= i < |chain| :: chain[i].Open() && (i > 0 ==> chain[i].already == 0)
  }

  /** The bytes the chain's front buffer has done so far. */
  function Partial(chain: seq<Buffer>): seq<Byte>
    requires ChainOk(chain)
  {
    if chain == [] then [] else chain[0].buf[..chain[0].already]
  }

  function Bufs(chain: seq<Buffer>): (s: seq<seq<Byte>>)
    ensures |s| == |chain|
  {
    seq(|chain|, i requires 0 <= i < |chain| => chain[i].buf)
  }

  function Totals(chain: seq<Buffer>): (s: seq<nat>)
    ensures |s| == |chain|
  {
    seq(|chain|, i requires 0 <= i < |chain| => chain[i].total)
  }

  function Ids(chain: seq<Buffer>): (s: seq<nat>)
    ensures |s| == |chain|
  {
    seq(|chain|, i requires 0 <= i < |chain| => chain[i].id)
  }

  // ---------- reading into a chain ----------

  /** `bytes` arrive behind what the buffer has already. */
  function Fill(b: Buffer, bytes: seq<Byte>): Buffer
    requires b.already + |bytes| <= |b.buf|
  {
    b.(buf := b.buf[..b.already] + bytes + b.buf[b.already + |bytes|..], already := b.already + |bytes|)
  }

  /** The completed buffers, the remaining chain and how many bytes went in, when at most `bytes`
      can be had before the socket has no more. */
  function ReadChain(chain: seq<Buffer>, bytes: seq<Byte>): (r: (seq<Buffer>, seq<Buffer>, nat))
    requires ChainOk(chain)
    ensures r.2 <= |bytes|
    decreases |chain|
  {
    if chain == [] then ([], [], 0) else
      var b, need := chain[0], chain[0].GetLeft();
      if |bytes| < need then ([], [Fill(b, bytes)] + chain[1..], |bytes|) else
        var r := ReadChain(chain[1..], bytes[need..]);
        ([Fill(b, bytes[..need])] + r.0, r.1, need + r.2)
  }

  lemma ColumnsCons(b: Buffer, chain: seq<Buffer>)
    ensures Bufs([b] + chain) == [b.buf] + Bufs(chain)
    ensures Totals([b] + chain) == [b.total] + Totals(chain)
    ensures Ids([b] + chain) == [b.id] + Ids(chain)
    ensures Flat(Bufs([b] + chain)) == b.buf + Flat(Bufs(chain))
  {
  }

  lemma {:induction false} ReadChainKeepsOk(chain: seq<Buffer>, bytes: seq<Byte>)
    requires ChainOk(chain)
    ensures var (complete, rest, used) := ReadChain(chain, bytes);
            && ChainOk(rest)
            && (forall i | 0 <= i < |complete| :: complete[i].IsComplete() && |complete[i].buf| == complete[i].total)
            && (rest != [] ==> used == |bytes|)
    decreases |chain|
  {
    if chain != [] && |bytes| >= chain[0].GetLeft() {
      ReadChainKeepsOk(chain[1..], bytes[chain[0].GetLeft()..]);
    }
  }

  lemma {:induction false} ReadChainKeepsColumns(chain: seq<Buffer>, bytes: seq<Byte>)
    requires ChainOk(chain)
    ensures var (complete, rest, used) := ReadChain(chain, bytes);
            Totals(complete) + Totals(rest) == Totals(chain) && Ids(complete) + Ids(rest) == Ids(chain)
    decreases |chain|
  {
    hide Bufs, Totals, Ids, Flat;
    if chain == [] {
      assert Totals([]) + Totals([]) == Totals([]) && Ids([]) + Ids([]) == Ids([]);
    } else {
      var b, need, tail := chain[0], chain[0].GetLeft(), chain[1..];
      assert chain == [b] + tail;
      ColumnsCons(b, tail);
      if |bytes| < need {
        ColumnsCons(Fill(b, bytes), tail);
        assert Totals([]) + Totals(chain) == Totals(chain) && Ids([]) + Ids(chain) == Ids(chain);
      } else {
        ReadChainKeepsColumns(tail, bytes[need..]);
        ColumnsCons(Fill(b, bytes[..need]), ReadChain(tail, bytes[need..]).0);
      }
    }
  }

  lemma ReadChainKeepsBuffers(chain: seq<Buffer>, bytes: seq<Byte>)
    requires ChainOk(chain)
    ensures var (complete, rest, used) := ReadChain(chain, bytes);
            && ChainOk(rest)
            && Totals(complete) + Totals(rest) == Totals(chain)
            && Ids(complete) + Ids(rest) == Ids(chain)
            && (forall i | 0 <= i < |complete| :: complete[i].IsComplete() && |complete[i].buf| == complete[i].total)
            && (rest != [] ==> used == |bytes|)
  {
    hide ReadChain, Totals, Ids, ChainOk;
    ReadChainKeepsOk(chain, bytes);
    ReadChainKeepsColumns(chain, bytes);
  }

  lemma Glue<T>(p: seq<T>, u: seq<T>, v: seq<T>, full: seq<T>, f: seq<T>, q: seq<T>)
    requires full == p + u && [] + v == f + q
    ensures p + (u + v) == (full + f) + q
  {
    assert [] + v == v;
  }

  // A finished front buffer put before what the rest of the chain does.
  lemma FrontDone(chain: seq<Buffer>, u: seq<Byte>, v: seq<Byte>, full: Buffer, complete: seq<Buffer>, rest: seq<Buffer>)
    requires ChainOk(chain) && chain != [] && ChainOk(chain[1..]) && ChainOk(rest)
    requires full.buf == Partial(chain) + u
    requires Partial(chain[1..]) + v == Flat(Bufs(complete)) + Partial(rest)
    ensures Partial(chain) + (u + v) == Flat(Bufs([full] + complete)) + Partial(rest)
  {
    hide Bufs, Flat;
    assert Partial(chain[1..]) == [];
    hide Partial, ChainOk;
    ColumnsCons(full, complete);
    Glue(Partial(chain), u, v, full.buf, Flat(Bufs(complete)), Partial(rest));
  }

  lemma NoBufs()
    ensures Flat(Bufs([])) == []
  {
    assert Bufs([]) == [];
  }

  // A front buffer that stays short of its size.

  lemma FrontFilled(chain: seq<Buffer>, bytes: seq<Byte>)
    requires ChainOk(chain) && chain != [] && |bytes| < chain[0].GetLeft()
    ensures var rest := [Fill(chain[0], bytes)] + chain[1..];
            ChainOk(rest) && Partial(chain) + bytes == Flat(Bufs([])) + Partial(rest)
  {
    assert Bufs([]) == [];
    assert Partial([Fill(chain[0], bytes)] + chain[1..]) == Partial(chain) + bytes;
  }

  lemma FrontFull(chain: seq<Buffer>, bytes: seq<Byte>)
    requires ChainOk(chain) && chain != [] && |bytes| == chain[0].GetLeft()
    ensures Fill(chain[0], bytes).buf == Partial(chain) + bytes
  {
  }

  lemma ReadChainShort(chain: seq<Buffer>, bytes: seq<Byte>)
    requires ChainOk(chain) && (chain != [] ==> |bytes| < chain[0].GetLeft())
    ensures ReadChain(chain, bytes) == if chain == [] then ([], [], 0) else ([], [Fill(chain[0], bytes)] + chain[1..], |bytes|)
  {
  }

  lemma ReadChainFront(chain: seq<Buffer>, bytes: seq<Byte>)
    requires ChainOk(chain) && chain != [] && |bytes| >= chain[0].GetLeft()
    ensures var need := chain[0].GetLeft();
            var r := ReadChain(chain[1..], bytes[need..]);
            ReadChain(chain, bytes) == ([Fill(chain[0], bytes[..need])] + r.0, r.1, need + r.2)
  {
    hide Fill, ChainOk, Buffer.GetLeft;
  }

  lemma FrontSent(chain: seq<Buffer>, room: nat)
    requires ChainOk(chain) && chain != [] && room < chain[0].GetLeft()
    ensures var b := chain[0];
            var rest := [b.(already := b.already + room)] + chain[1..];
            ChainOk(rest) && Partial(chain) + b.buf[b.already..b.already + room] == Flat(Bufs([])) + Partial(rest)
  {
    var b := chain[0];
    assert Bufs([]) == [];
    assert b.buf[..b.already + room] == Partial(chain) + b.buf[b.already..b.already + room];
  }

  /** Reading cuts the stream at the requested sizes, in request order, and keeps every byte. */
  lemma {:induction false} ReadChainCutsStream(chain: seq<Buffer>, bytes: seq<Byte>)
    requires ChainOk(chain)
    ensures var (complete, rest, used) := ReadChain(chain, bytes);
            ChainOk(rest) && Partial(chain) + bytes[..used] == Flat(Bufs(complete)) + Partial(rest)
    decreases |chain|
  {
    hide Bufs, Flat, ReadChain, Fill;
    ReadChainKeepsOk(chain, bytes);
    if chain == [] {
      ReadChainShort(chain, bytes);
      NoBufs();
    } else {
      var need, tail := chain[0].GetLeft(), chain[1..];
      if |bytes| < need {
        ReadChainShort(chain, bytes);
        FrontFilled(chain, bytes);
        assert bytes[..|bytes|] == bytes;
      } else {
        var full := Fill(chain[0], bytes[..need]);
        var (complete, rest, used) := ReadChain(tail, bytes[need..]);
        ReadChainFront(chain, bytes);
        ReadChainCutsStream(tail, bytes[need..]);
        FrontFull(chain, bytes[..need]);
        assert bytes[..need + used] == bytes[..need] + bytes[need..][..used];
        hide Partial;
        FrontDone(chain, bytes[..need], bytes[need..][..used], full, complete, rest);
      }
    }
  }

  // ---------- writing from a chain ----------

  /** The completed buffers, the remaining chain and the bytes sent, when the socket takes at most
      `room` bytes before it has no more room. */
  function WriteChain(chain: seq<Buffer>, room: nat): (r: (seq<Buffer>, seq<Buffer>, seq<Byte>))
    requires ChainOk(chain)
    decreases |chain|
  {
    if chain == [] then ([], [], []) else
      var b, need := chain[0], chain[0].GetLeft();
      if room < need then
        ([], [b.(already := b.already + room)] + chain[1..], b.buf[b.already..b.already + room])
      else
        var r := WriteChain(chain[1..], room - need);
        ([b.(already := b.total)] + r.0, r.1, b.buf[b.already..] + r.2)
  }

  lemma {:induction false} WriteChainKeepsBuffers(chain: seq<Buffer>, room: nat)
    requires ChainOk(chain)
    ensures var (complete, rest, sent) := WriteChain(chain, room);
            && ChainOk(rest)
            && Bufs(complete) + Bufs(rest) == Bufs(chain)
            && Ids(complete) + Ids(rest) == Ids(chain)
            && |sent| <= room && (rest != [] ==> |sent| == room)
    decreases |chain|
  {
    hide Bufs, Totals, Ids;
    if chain == [] {
      assert Bufs([]) + Bufs([]) == Bufs([]) && Ids([]) + Ids([]) == Ids([]);
    } else {
      var b, need, tail := chain[0], chain[0].GetLeft(), chain[1..];
      assert chain == [b] + tail;
      ColumnsCons(b, tail);
      if room < need {
        ColumnsCons(b.(already := b.already + room), tail);
        assert Bufs([]) == [];
        assert Ids([]) + Ids(chain) == Ids(chain);
      } else {
        WriteChainKeepsBuffers(tail, room - need);
        ColumnsCons(b.(already := b.total), WriteChain(tail, room - need).0);
      }
    }
  }

  /** What is sent continues the payloads where the last write stopped. */
  lemma {:induction false} WriteChainSendsPrefix(chain: seq<Buffer>, room: nat)
    requires ChainOk(chain)
    ensures var (complete, rest, sent) := WriteChain(chain, room);
            ChainOk(rest) && Partial(chain) + sent == Flat(Bufs(complete)) + Partial(rest)
    decreases |chain|
  {
    hide Bufs, Flat;
    WriteChainKeepsBuffers(chain, room);
    if chain == [] {
      assert Flat(Bufs([])) == [] by { NoBufs(); }
    } else {
      var b, need, tail := chain[0], chain[0].GetLeft(), chain[1..];
      if room < need {
        FrontSent(chain, room);
      } else {
        var full := b.(already := b.total);
        var (complete, rest, sent) := WriteChain(tail, room - need);
        WriteChainSendsPrefix(tail, room - need);
        assert full.buf == Partial(chain) + b.buf[b.already..];
        hide Partial;
        FrontDone(chain, b.buf[b.already..], sent, full, complete, rest);
      }
    }
  }
}
