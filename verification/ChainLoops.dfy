/** The loops of OnRead and OnWrite over a chain, one buffer at a time, come to what `ReadChain` and
    `WriteChain` say of the whole chain. */
module ChainLoops {
  import opened Bytes
  import opened Stream

  /** How far the read loop has come: buffers `complete` are done, `used` bytes are gone, and if there is
      `more` to do, going on from here comes to what reading the whole chain does. */
  ghost predicate Filling(rbChain: seq<Buffer>, bytes: seq<Byte>, chain: seq<Buffer>, complete: seq<Buffer>, used: nat, more: bool)
    requires ChainOk(rbChain)
  {
    && |complete| <= |chain| == |rbChain| && used <= |bytes|
    && var rest := chain[|complete|..];
       if more then
         ChainOk(rest) && rest == rbChain[|complete|..]
         && var r := ReadChain(rest, bytes[used..]);
            ReadChain(rbChain, bytes) == (complete + r.0, r.1, used + r.2)
       else
         rest != [] && ReadChain(rbChain, bytes) == (complete, rest, used)
  }

  lemma FillingStart(rbChain: seq<Buffer>, bytes: seq<Byte>)
    requires ChainOk(rbChain)
    ensures Filling(rbChain, bytes, rbChain, [], 0, true)
  {
    assert rbChain[0..] == rbChain && bytes[0..] == bytes;
    assert [] + ReadChain(rbChain, bytes).0 == ReadChain(rbChain, bytes).0;
  }

  lemma FillingStep(rbChain: seq<Buffer>, bytes: seq<Byte>, chain: seq<Buffer>, complete: seq<Buffer>, used: nat)
    requires ChainOk(rbChain) && Filling(rbChain, bytes, chain, complete, used, true) && |complete| < |chain|
    ensures var i, left := |complete|, bytes[used..];
            var b := chain[i];
            && b.Open() && b.already <= b.total
            && if |left| < b.GetLeft() then
                 Filling(rbChain, bytes, chain[i := Fill(b, left[..|left|])], complete, |bytes|, false)
                 && left[|left|..] == bytes[|bytes|..]
               else
                 var full := Fill(b, left[..b.GetLeft()]);
                 Filling(rbChain, bytes, chain[i := full], complete + [full], used + b.GetLeft(), true)
                 && left[b.GetLeft()..] == bytes[used + b.GetLeft()..]
  {
    var i, left := |complete|, bytes[used..];
    var rest := chain[i..];
    var b, need := rest[0], rest[0].GetLeft();
    if |left| < need {
      assert left[..|left|] == left && complete + [] == complete;
      assert chain[i := Fill(b, left)][i..] == [Fill(b, left)] + rest[1..];
    } else {
      var full, r := Fill(b, left[..need]), ReadChain(rest[1..], left[need..]);
      assert complete + ([full] + r.0) == (complete + [full]) + r.0;
      assert chain[i := full][i + 1..] == rest[1..] == rbChain[i + 1..];
      assert bytes[used + need..] == left[need..];
    }
  }

  lemma FillingEnd(rbChain: seq<Buffer>, bytes: seq<Byte>, chain: seq<Buffer>, complete: seq<Buffer>, used: nat, more: bool)
    requires ChainOk(rbChain) && Filling(rbChain, bytes, chain, complete, used, more) && (more ==> |complete| == |chain|)
    ensures ReadChain(rbChain, bytes) == (complete, chain[|complete|..], used)
    ensures more <==> |complete| == |chain|
  {
    assert complete + [] == complete;
  }

  /** The same for the write loop, with the bytes `sent` so far and `room` left on the socket. */
  ghost predicate Draining(wbChain: seq<Buffer>, total: nat, chain: seq<Buffer>, complete: seq<Buffer>, sent: seq<Byte>,
                           room: nat, more: bool)
    requires ChainOk(wbChain)
  {
    && |complete| <= |chain| == |wbChain|
    && var rest := chain[|complete|..];
       if more then
         ChainOk(rest)
         && var r := WriteChain(rest, room);
            WriteChain(wbChain, total) == (complete + r.0, r.1, sent + r.2)
       else
         rest != [] && WriteChain(wbChain, total) == (complete, rest, sent)
  }

  lemma DrainingStart(wbChain: seq<Buffer>, total: nat)
    requires ChainOk(wbChain)
    ensures Draining(wbChain, total, wbChain, [], [], total, true)
  {
    var r := WriteChain(wbChain, total);
    assert wbChain[0..] == wbChain && [] + r.0 == r.0 && [] + r.2 == r.2;
  }

  lemma DrainingStep(wbChain: seq<Buffer>, total: nat, chain: seq<Buffer>, complete: seq<Buffer>, sent: seq<Byte>, room: nat)
    requires ChainOk(wbChain) && Draining(wbChain, total, chain, complete, sent, room, true) && |complete| < |chain|
    ensures var i := |complete|;
            var b := chain[i];
            && b.Open() && b.already <= b.total
            && if room < b.GetLeft() then
                 Draining(wbChain, total, chain[i := b.(already := b.already + room)], complete,
                          sent + b.buf[b.already..b.already + room], 0, false)
               else
                 var full := b.(already := b.already + b.GetLeft());
                 Draining(wbChain, total, chain[i := full], complete + [full],
                          sent + b.buf[b.already..b.already + b.GetLeft()], room - b.GetLeft(), true)
  {
    var i := |complete|;
    var rest := chain[i..];
    var b, need := rest[0], rest[0].GetLeft();
    if room < need {
      var part := b.(already := b.already + room);
      assert complete + [] == complete && chain[i := part][i..] == [part] + rest[1..];
    } else {
      var full, r := b.(already := b.total), WriteChain(rest[1..], room - need);
      assert b.buf[b.already..b.total] == b.buf[b.already..];
      assert complete + ([full] + r.0) == (complete + [full]) + r.0;
      assert sent + (b.buf[b.already..] + r.2) == (sent + b.buf[b.already..]) + r.2;
      assert chain[i := full][i + 1..] == rest[1..];
    }
  }

  lemma DrainingEnd(wbChain: seq<Buffer>, total: nat, chain: seq<Buffer>, complete: seq<Buffer>, sent: seq<Byte>, room: nat, more: bool)
    requires ChainOk(wbChain) && Draining(wbChain, total, chain, complete, sent, room, more) && (more ==> |complete| == |chain|)
    ensures WriteChain(wbChain, total) == (complete, chain[|complete|..], sent)
    ensures more <==> |complete| == |chain|
  {
    assert complete + [] == complete && sent + [] == sent;
  }
}
