/** The queue's shared-memory region and the code that reads and writes elements in it:
    branch by branch, one memcpy at a time. Each method is proved to do what the modular
    ring of `RingModel` does. */
module QueueOperation {
  import opened Bytes
  import opened RingModel
  import opened Fifo

  const META_SIZE: U64 := 168    // sizeof(QMeta) on LP64
  const HEADER: U64 := 24        // sizeof(ElementHeader) on LP64
  const TWO_TO_THE_63: nat := 0x8000_0000_0000_0000

  datatype Scene = Scene1 | Scene2 | Scene3 | Scene4

  // ---------- memcpy ----------

  function Splice(mem: seq<Byte>, at: nat, src: seq<Byte>): (m: seq<Byte>)
    requires at + |src| <= |mem|
    ensures |m| == |mem|
  {
    mem[..at] + src + mem[at + |src|..]
  }

  lemma SpliceIsSpread(mem: seq<Byte>, at: nat, src: seq<Byte>)
    requires at < |mem| && at + |src| <= |mem|
    ensures Splice(mem, at, src) == Spread(mem, at, src)
  {
  }

  lemma SpliceNext(mem: seq<Byte>, at: nat, src: seq<Byte>, i: nat)
    requires at + |src| <= |mem| && i < |src|
    ensures Splice(mem, at, src[..i])[at + i := src[i]] == Splice(mem, at, src[..i + 1])
  {
  }

  method MemCpy(dst: array<Byte>, at: U64, src: seq<Byte>)
    requires at as nat < dst.Length && at as nat + |src| <= dst.Length
    modifies dst
    ensures dst[..] == Spread(old(dst[..]), at as nat, src)
  {
    for i := 0 to |src|
      invariant dst[..] == Splice(old(dst[..]), at as nat, src[..i])
    {
      SpliceNext(old(dst[..]), at as nat, src, i);
      hide Splice;
      dst[at as nat + i] := src[i];
    }
    assert src[..|src|] == src;
    SpliceIsSpread(old(dst[..]), at as nat, src);
  }

  lemma SpreadInParts(mem: seq<Byte>, start: nat, a: seq<Byte>, b: seq<Byte>)
    requires start < |mem| && |a| + |b| <= |mem| && 0 < |b|
    ensures Spread(mem, start, a + b) == Spread(Spread(mem, start, a), Wrap(start + |a|, |mem|), b)
  {
    var n := |mem|;
    var mid := Wrap(start + |a|, n);
    forall j | 0 <= j < n
      ensures Spread(mem, start, a + b)[j] == Spread(Spread(mem, start, a), mid, b)[j]
    {
      if Offset(j, start, n) < |a| {
        assert Offset(j, mid, n) == n - |a| + Offset(j, start, n);
      } else {
        assert Offset(j, mid, n) == Offset(j, start, n) - |a|;
      }
    }
  }

  lemma ArcIsSlice(mem: seq<Byte>, start: nat, len: nat)
    requires start < |mem| && start + len <= |mem|
    ensures Arc(mem, start, len) == mem[start..start + len]
  {
    var slice := mem[start..start + len];
    forall i | 0 <= i < len
      ensures Arc(mem, start, len)[i] == slice[i]
    {
      assert start + i < |mem|;
      assert Arc(mem, start, len)[i] == mem[Wrap(start + i, |mem|)];
      assert slice[i] == mem[start + i];
    }
  }

  /** Where the free bytes lie, when an element of `size` bytes fits. */
  lemma PutGeometry(r: Ring, size: nat)
    requires Fifo.Valid(r) && 0 < size && HEADER_SIZE + size <= r.left
    ensures r.head < r.tail ==> r.head + HEADER_SIZE + size <= r.tail
    ensures r.head == r.tail ==> r.count == 0
    ensures r.count <= |r.mem|
  {
    var records :| RingInv(r, records);
    SpaceConservation(r, records);
  }

  lemma PutKeepsValid(r: Ring, data: seq<Byte>, filler: Filler)
    requires Fifo.Valid(r) && r.head < |r.mem|
    requires data != [] && HEADER_SIZE + |data| <= r.left <= |r.mem|
    ensures Fifo.Valid(Put(r, data, filler))
  {
    var records :| RingInv(r, records);
    PutKeepsInv(r, records, data, filler);
  }

  /** Where the oldest element lies, and that its layout code tells it. */
  lemma TakeGeometry(r: Ring) returns (len: nat)
    requires Fifo.Valid(r) && (r.head == r.tail ==> r.count != 0)
    ensures r.count > 0 && r.tail < |r.mem| && HEADER_SIZE < |r.mem|
    ensures len == BodyLen(Arc(r.mem, r.tail, HEADER_SIZE)) && 0 < len
    ensures HEADER_SIZE + len <= |r.mem| - r.left
    ensures r.mem[r.tail] == CaseOf(r.tail, len, |r.mem|)
    ensures r.tail + HEADER_SIZE + len <= if r.head > r.tail then r.head else r.head + |r.mem|
  {
    var records :| RingInv(r, records);
    SpaceConservation(r, records);
    TailHoldsFirstRecord(r, records);
    len := |records[0]| - HEADER_SIZE;
    assert Arc(r.mem, r.tail, |records[0]|)[0] == r.mem[Wrap(r.tail + 0, |r.mem|)];
  }

  lemma TakeKeepsValid(r: Ring)
    requires Fifo.Valid(r) && r.count > 0 && CanTake(r)
    ensures Fifo.Valid(Take(r).0)
  {
    var records :| RingInv(r, records);
    TakeKeepsInv(r, records);
  }

  // ---------- the region ----------

  class ElementOp {
    var qTotalSize: U64
    var qLeftSize: U64
    var elementCount: U64
    var headIndex: U64
    var tailIndex: U64
    const elementBegin: array<Byte>

    /** The region's state as a value of the modular ring. */
    ghost function Snapshot(): Ring
      reads this, elementBegin
    {
      Ring(elementBegin[..], qLeftSize as nat, elementCount as nat, headIndex as nat, tailIndex as nat)
    }

    ghost predicate Valid()
      reads this, elementBegin
    {
      && elementBegin.Length == qTotalSize as nat < TWO_TO_THE_63
      && Fifo.Valid(Snapshot())
    }

    ghost function Contents(): seq<seq<Byte>>
      reads this, elementBegin
      requires Valid()
    {
      ValidIsSafe(Snapshot());
      Fifo.Contents(Snapshot())
    }

    constructor Init(memSize: U64)
      requires META_SIZE + HEADER < memSize && memSize as nat < TWO_TO_THE_63
      ensures Valid() && fresh(elementBegin)
      ensures Empty(Snapshot()) && Contents() == []
      ensures qTotalSize == memSize - META_SIZE
    {
      qTotalSize := memSize - META_SIZE;
      qLeftSize := memSize - META_SIZE;
      elementCount := 0;
      headIndex := 0;
      tailIndex := 0;
      elementBegin := new Byte[(memSize - META_SIZE) as nat];
      new;
      assert RingInv(Snapshot(), []);
    }

    method QueueScene() returns (s: Scene)
      ensures s == if headIndex > tailIndex then Scene1
                   else if headIndex < tailIndex then Scene2
                   else if elementCount == 0 then Scene3
                   else Scene4
    {
      if headIndex > tailIndex {
        s := Scene1;
      } else if headIndex < tailIndex {
        s := Scene2;
      } else if 0 == elementCount {
        s := Scene3;
      } else {
        s := Scene4;
      }
    }

    method QueueWriteCase(bodySize: U64) returns (cs: Byte)
      requires headIndex < qTotalSize && qTotalSize as nat < TWO_TO_THE_63
      requires HEADER as nat + bodySize as nat <= TWO_TO_THE_63 && bodySize > 0
      ensures cs == CaseOf(headIndex as nat, bodySize as nat, qTotalSize as nat)
    {
      if qTotalSize > headIndex + HEADER + bodySize {
        cs := CASE1;
      } else if qTotalSize == headIndex + HEADER + bodySize {
        cs := CASE2;
      } else if qTotalSize < headIndex + HEADER {
        cs := CASE3;
      } else if qTotalSize > headIndex + HEADER && qTotalSize < headIndex + HEADER + bodySize {
        cs := CASE4;
      } else {
        cs := CASE5;
      }
    }

    // The writing routes: the header `ph` and the body `data` go to `headIndex` on, the part
    // beyond the end of the region to its beginning.

    method WriteWhole(ph: seq<Byte>, data: seq<Byte>, reachesEnd: bool)
      requires |ph| == HEADER_SIZE && 0 < |data|
      requires elementBegin.Length == qTotalSize as nat < TWO_TO_THE_63
      requires headIndex as nat + HEADER_SIZE + |data| <= qTotalSize as nat
      requires reachesEnd == (headIndex as nat + HEADER_SIZE + |data| == qTotalSize as nat)
      modifies this`headIndex, elementBegin
      ensures elementBegin[..] == Spread(old(elementBegin[..]), old(headIndex) as nat, ph + data)
      ensures headIndex as nat == Wrap(old(headIndex) as nat + |ph + data|, qTotalSize as nat)
    {
      var size := |data| as U64;
      SpreadInParts(elementBegin[..], headIndex as nat, ph, data);
      MemCpy(elementBegin, headIndex, ph);
      MemCpy(elementBegin, headIndex + HEADER, data);
      if !reachesEnd {
        headIndex := headIndex + (size + HEADER);
      } else {
        headIndex := 0;
      }
    }

    method WriteSplitHeader(ph: seq<Byte>, data: seq<Byte>)
      requires |ph| == HEADER_SIZE && 0 < |data| && HEADER_SIZE + |data| <= qTotalSize as nat
      requires elementBegin.Length == qTotalSize as nat < TWO_TO_THE_63
      requires headIndex < qTotalSize && qTotalSize as nat < headIndex as nat + HEADER_SIZE
      modifies this`headIndex, elementBegin
      ensures elementBegin[..] == Spread(old(elementBegin[..]), old(headIndex) as nat, ph + data)
      ensures headIndex as nat == Wrap(old(headIndex) as nat + |ph + data|, qTotalSize as nat)
    {
      var size := |data| as U64;
      var size0 := qTotalSize - headIndex;
      var size1 := HEADER - size0;
      assert ph[..size0] + ph[size0..] == ph;
      SpreadInParts(elementBegin[..], headIndex as nat, ph, data);
      SpreadInParts(elementBegin[..], headIndex as nat, ph[..size0], ph[size0..]);
      MemCpy(elementBegin, headIndex, ph[..size0]);
      MemCpy(elementBegin, 0, ph[size0..]);
      MemCpy(elementBegin, size1, data);
      headIndex := size + size1;
    }

    method WriteSplitBody(ph: seq<Byte>, data: seq<Byte>)
      requires |ph| == HEADER_SIZE && 0 < |data| && HEADER_SIZE + |data| <= qTotalSize as nat
      requires elementBegin.Length == qTotalSize as nat < TWO_TO_THE_63
      requires headIndex as nat + HEADER_SIZE < qTotalSize as nat < headIndex as nat + HEADER_SIZE + |data|
      modifies this`headIndex, elementBegin
      ensures elementBegin[..] == Spread(old(elementBegin[..]), old(headIndex) as nat, ph + data)
      ensures headIndex as nat == Wrap(old(headIndex) as nat + |ph + data|, qTotalSize as nat)
    {
      var size := |data| as U64;
      MemCpy(elementBegin, headIndex, ph);
      var size0 := qTotalSize - headIndex - HEADER;
      var size1 := size - size0;
      assert data[..size0] + data[size0..] == data;
      SpreadInParts(old(elementBegin[..]), headIndex as nat, ph, data);
      SpreadInParts(elementBegin[..], headIndex as nat + HEADER_SIZE, data[..size0], data[size0..]);
      MemCpy(elementBegin, headIndex + HEADER, data[..size0]);
      MemCpy(elementBegin, 0, data[size0..]);
      headIndex := size1;
    }

    method WriteBodyFromStart(ph: seq<Byte>, data: seq<Byte>)
      requires |ph| == HEADER_SIZE && 0 < |data| && HEADER_SIZE + |data| <= qTotalSize as nat
      requires elementBegin.Length == qTotalSize as nat < TWO_TO_THE_63
      requires headIndex as nat + HEADER_SIZE == qTotalSize as nat
      modifies this`headIndex, elementBegin
      ensures elementBegin[..] == Spread(old(elementBegin[..]), old(headIndex) as nat, ph + data)
      ensures headIndex as nat == Wrap(old(headIndex) as nat + |ph + data|, qTotalSize as nat)
    {
      SpreadInParts(elementBegin[..], headIndex as nat, ph, data);
      MemCpy(elementBegin, headIndex, ph);
      MemCpy(elementBegin, 0, data);
      headIndex := |data| as U64;
    }

    /** Picks the route. `ok` is false where the source throws: on no state its callers can reach. */
    method WriteElement(scene: Scene, cs: Byte, ph: seq<Byte>, data: seq<Byte>) returns (ok: bool)
      requires |ph| == HEADER_SIZE && 0 < |data| && HEADER_SIZE + |data| <= qTotalSize as nat
      requires elementBegin.Length == qTotalSize as nat < TWO_TO_THE_63 && headIndex < qTotalSize
      requires cs == CaseOf(headIndex as nat, |data|, qTotalSize as nat)
      requires scene == Scene2 ==> headIndex as nat + HEADER_SIZE + |data| <= tailIndex as nat < qTotalSize as nat
      requires scene != Scene4
      modifies this`headIndex, elementBegin
      ensures ok
      ensures elementBegin[..] == Spread(old(elementBegin[..]), old(headIndex) as nat, ph + data)
      ensures headIndex as nat == Wrap(old(headIndex) as nat + |ph + data|, qTotalSize as nat)
    {
      ok := true;
      if scene == Scene1 || scene == Scene3 {
        if cs == CASE1 || cs == CASE2 {
          WriteWhole(ph, data, cs == CASE2);
        } else if cs == CASE3 {
          WriteSplitHeader(ph, data);
        } else if cs == CASE4 {
          WriteSplitBody(ph, data);
        } else if cs == CASE5 {
          WriteBodyFromStart(ph, data);
        } else {
          ok := false;
        }
      } else if scene == Scene2 {
        if tailIndex < headIndex + HEADER + |data| as U64 {
          ok := false;
        } else {
          WriteWhole(ph, data, false);
        }
      } else {
        ok := false;
      }
    }

    /** Stores `data` behind the queued elements. The caller has checked that it fits. */
    method Write(data: seq<Byte>, filler: Filler) returns (out: Outcome)
      requires Valid()
      requires data != [] ==> HEADER as nat + |data| <= qLeftSize as nat
      modifies this, elementBegin
      ensures Valid() && qTotalSize == old(qTotalSize)
      ensures data == [] ==> out == Failed(ValueError) && Snapshot() == old(Snapshot())
      ensures data != [] ==> out == Stored && Snapshot() == Put(old(Snapshot()), data, filler)
    {
      hide Fifo.Valid, Header, CaseOf, Spread;
      ghost var r := Snapshot();
      ValidIsSafe(r);
      out := Failed(ValueError);
      if |data| != 0 {
        PutGeometry(r, |data|);
        var size := |data| as U64;
        if qTotalSize >= headIndex + 1 {
          var scene := QueueScene();
          var cs := QueueWriteCase(size);
          var ph := Header(cs, size as nat, filler);
          var ok := WriteElement(scene, cs, ph, data);
          if ok {
            qLeftSize := qLeftSize - (HEADER + size);
            elementCount := elementCount + 1;
            if qTotalSize >= headIndex + 1 {
              out := Stored;
            }
          }
        }
        assert Snapshot() == Put(r, data, filler);
        PutKeepsValid(r, data, filler);
      }
    }

    // The reading routes: fetch the header, then the body it announces, and advance `tailIndex`.
    // `len` is the body length recorded at the tail.

    ghost predicate ElementAtTail(len: nat)
      reads this, elementBegin
    {
      && elementBegin.Length == qTotalSize as nat < TWO_TO_THE_63
      && tailIndex < qTotalSize
      && 0 < len && HEADER_SIZE + len <= qTotalSize as nat
      && BodyLen(Arc(elementBegin[..], tailIndex as nat, HEADER_SIZE)) == len
    }

    method ReadWhole(ghost len: nat, limit: U64, wrapsToZero: bool) returns (ok: bool, data: seq<Byte>)
      requires ElementAtTail(len)
      requires tailIndex as nat + HEADER_SIZE + len <= limit as nat <= qTotalSize as nat
      requires wrapsToZero == (tailIndex as nat + HEADER_SIZE + len == qTotalSize as nat)
      modifies this`tailIndex
      ensures ok
      ensures data == Arc(elementBegin[..], Wrap(old(tailIndex) as nat + HEADER_SIZE, qTotalSize as nat), len)
      ensures tailIndex as nat == Wrap(old(tailIndex) as nat + HEADER_SIZE + len, qTotalSize as nat)
    {
      ok, data := false, [];
      ArcIsSlice(elementBegin[..], tailIndex as nat, HEADER_SIZE);
      ArcIsSlice(elementBegin[..], tailIndex as nat + HEADER_SIZE, len);
      var ph := elementBegin[tailIndex..tailIndex + HEADER];
      var bodyLen := BodyLen(ph) as U64;
      if 0 != bodyLen && limit >= tailIndex + HEADER + bodyLen {
        data := elementBegin[tailIndex + HEADER..tailIndex + HEADER + bodyLen];
        if !wrapsToZero {
          tailIndex := tailIndex + (HEADER + bodyLen);
        } else {
          tailIndex := 0;
        }
        ok := true;
      }
    }

    method ReadSplitHeader(ghost len: nat) returns (ok: bool, data: seq<Byte>)
      requires ElementAtTail(len)
      requires qTotalSize as nat < tailIndex as nat + HEADER_SIZE
      requires tailIndex as nat + HEADER_SIZE + len <= headIndex as nat + qTotalSize as nat
      modifies this`tailIndex
      ensures ok
      ensures data == Arc(elementBegin[..], Wrap(old(tailIndex) as nat + HEADER_SIZE, qTotalSize as nat), len)
      ensures tailIndex as nat == Wrap(old(tailIndex) as nat + HEADER_SIZE + len, qTotalSize as nat)
    {
      ok, data := false, [];
      var size0 := qTotalSize - tailIndex;
      var size1 := HEADER - size0;
      ArcSplit(elementBegin[..], tailIndex as nat, size0 as nat, size1 as nat);
      ArcIsSlice(elementBegin[..], tailIndex as nat, size0 as nat);
      ArcIsSlice(elementBegin[..], 0, size1 as nat);
      ArcIsSlice(elementBegin[..], size1 as nat, len);
      var ph := elementBegin[tailIndex..tailIndex + size0] + elementBegin[0..size1];
      var bodyLen := BodyLen(ph) as U64;
      if 0 != bodyLen && headIndex - 0 >= size1 + bodyLen {
        data := elementBegin[size1..size1 + bodyLen];
        tailIndex := size1 + bodyLen;
        ok := true;
      }
    }

    method ReadSplitBody(ghost len: nat) returns (ok: bool, data: seq<Byte>)
      requires ElementAtTail(len)
      requires tailIndex as nat + HEADER_SIZE < qTotalSize as nat < tailIndex as nat + HEADER_SIZE + len
      modifies this`tailIndex
      ensures ok
      ensures data == Arc(elementBegin[..], Wrap(old(tailIndex) as nat + HEADER_SIZE, qTotalSize as nat), len)
      ensures tailIndex as nat == Wrap(old(tailIndex) as nat + HEADER_SIZE + len, qTotalSize as nat)
    {
      ok, data := false, [];
      ArcIsSlice(elementBegin[..], tailIndex as nat, HEADER_SIZE);
      var ph := elementBegin[tailIndex..tailIndex + HEADER];
      var bodyLen := BodyLen(ph) as U64;
      if 0 != bodyLen && qTotalSize >= tailIndex + HEADER + 1 {
        var size0 := qTotalSize - tailIndex - HEADER;
        var size1 := bodyLen - size0;
        ArcSplit(elementBegin[..], tailIndex as nat + HEADER_SIZE, size0 as nat, size1 as nat);
        ArcIsSlice(elementBegin[..], tailIndex as nat + HEADER_SIZE, size0 as nat);
        ArcIsSlice(elementBegin[..], 0, size1 as nat);
        data := elementBegin[tailIndex + HEADER..tailIndex + HEADER + size0] + elementBegin[0..size1];
        tailIndex := size1;
        ok := true;
      }
    }

    method ReadBodyFromStart(ghost len: nat) returns (ok: bool, data: seq<Byte>)
      requires ElementAtTail(len)
      requires tailIndex as nat + HEADER_SIZE == qTotalSize as nat
      modifies this`tailIndex
      ensures ok
      ensures data == Arc(elementBegin[..], Wrap(old(tailIndex) as nat + HEADER_SIZE, qTotalSize as nat), len)
      ensures tailIndex as nat == Wrap(old(tailIndex) as nat + HEADER_SIZE + len, qTotalSize as nat)
    {
      ok, data := false, [];
      ArcIsSlice(elementBegin[..], tailIndex as nat, HEADER_SIZE);
      ArcIsSlice(elementBegin[..], 0, len);
      if qTotalSize == tailIndex + HEADER {
        var ph := elementBegin[tailIndex..tailIndex + HEADER];
        var bodyLen := BodyLen(ph) as U64;
        if 0 != bodyLen {
          data := elementBegin[0..bodyLen];
          tailIndex := bodyLen;
          ok := true;
        }
      }
    }

    /** Picks the route: from the scene, or from the layout code in the byte at the tail. */
    method ReadElement(scene: Scene, ghost len: nat) returns (ok: bool, data: seq<Byte>)
      requires ElementAtTail(len)
      requires scene != Scene3 && headIndex < qTotalSize
      requires scene == Scene1 ==> tailIndex as nat + HEADER_SIZE + len <= headIndex as nat
      requires scene != Scene1 ==> tailIndex as nat + HEADER_SIZE + len <= headIndex as nat + qTotalSize as nat
      requires elementBegin[tailIndex] == CaseOf(tailIndex as nat, len, qTotalSize as nat)
      modifies this`tailIndex
      ensures ok
      ensures data == Arc(elementBegin[..], Wrap(old(tailIndex) as nat + HEADER_SIZE, qTotalSize as nat), len)
      ensures tailIndex as nat == Wrap(old(tailIndex) as nat + HEADER_SIZE + len, qTotalSize as nat)
    {
      ok, data := false, [];
      if scene == Scene1 {
        if headIndex >= tailIndex + HEADER {
          ok, data := ReadWhole(len, headIndex, false);
        }
      } else if scene == Scene2 || scene == Scene4 {
        if qTotalSize >= tailIndex + 1 {
          var cs := elementBegin[tailIndex];
          if cs == CASE1 || cs == CASE2 {
            ok, data := ReadWhole(len, qTotalSize, cs == CASE2);
          } else if cs == CASE3 {
            ok, data := ReadSplitHeader(len);
          } else if cs == CASE4 {
            ok, data := ReadSplitBody(len);
          } else if cs == CASE5 {
            ok, data := ReadBodyFromStart(len);
          }
        }
      }
    }

    /** Removes the oldest element and returns its body. */
    method Read() returns (out: Outcome)
      requires Valid()
      modifies this
      ensures Valid() && qTotalSize == old(qTotalSize)
      ensures old(elementCount) == 0 ==> out == Failed(ValueError) && Snapshot() == old(Snapshot())
      ensures old(elementCount) != 0 ==>
                CanTake(old(Snapshot())) && (Snapshot(), out) == (Take(old(Snapshot())).0, Data(Take(old(Snapshot())).1))
    {
      ghost var r := Snapshot();
      ValidIsSafe(r);
      out := Failed(ValueError);
      var scene := QueueScene();
      if qTotalSize >= headIndex + 1 && scene != Scene3 {
        ghost var len := TakeGeometry(r);
        var ok, data := ReadElement(scene, len);
        if ok {
          qLeftSize := qLeftSize + (HEADER + |data| as U64);
          elementCount := elementCount - 1;
          if qTotalSize >= headIndex + 1 {
            out := Data(data);
          }
        }
        assert Snapshot() == Take(r).0;
        TakeKeepsValid(r);
      }
    }
  }
}
