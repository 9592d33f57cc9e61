/**
 A stream: the hand-over of a written buffer to the peer, the reuse of a read slot for the next
 write, and the paths on which a closing stream gives its slots back.
 */
module Streams {
  import opened Bytes
  import opened Slots
  import opened BufferManagers
  import opened BufferSpec
  import opened Publishing
  import opened ArrivalSpec
  import opened LinkedBuffers

  datatype StreamState = Opened | Closed | HalfClosed

  /** What one attempt to put an element into the send queue, or one wait for the next, ends with. */
  datatype PutOutcome = Accepted | Full | Timeout | StreamClosed

  datatype FlushResult =
    | NothingToSend
    | Rejected                   // the stream is not open: the written data is dropped
    | Queued(root: nat)          // a chain was handed to the peer
    | Framed(data: seq<byte>)    // the bytes go over the socket
    | Lost                       // they were to, but the send channel did not take them in time
    | Failed(why: PutOutcome)    // the queue stayed full, or the caller gave up waiting

  const RETRIES := 10

  /** Attempt `k` is the first that did not meet a full queue, or the last there is. */
  predicate DecidedAt(outcomes: seq<PutOutcome>, k: nat)
    requires |outcomes| == RETRIES + 1
  {
    && k <= RETRIES && (forall j :: 0 <= j < k ==> outcomes[j] == Full)
    && (outcomes[k] == Full ==> k == RETRIES)
  }

  /** How the attempt that decides ended. */
  ghost predicate Decided(outcomes: seq<PutOutcome>, o: PutOutcome)
    requires |outcomes| == RETRIES + 1
  {
    exists k: nat :: DecidedAt(outcomes, k) && outcomes[k] == o
  }

  /** There is one such attempt: a flush over the queue has one possible outcome. */
  lemma DecidedOnce(outcomes: seq<PutOutcome>, o: PutOutcome, o': PutOutcome)
    requires |outcomes| == RETRIES + 1 && Decided(outcomes, o) && Decided(outcomes, o')
    ensures o == o'
  {
    var k: nat :| DecidedAt(outcomes, k) && outcomes[k] == o;
    var k': nat :| DecidedAt(outcomes, k') && outcomes[k'] == o';
    assert k <= k' && k' <= k;
  }

  ghost function Cleaned(b: Buf): Buf
  {
    Buf([], -1, b.pinned, false, true, 0)
  }

  /** The slots of the send buffer went back; its bytes are `data`. */
  ghost predicate GaveBack(p: Pool, b: Buf, q: Pool, c: Buf, data: seq<byte>)
  {
    && c == Cleaned(b) && WriteOk(q, c) && data == Unread(p, b)
    && Exchange(p, Owned(b), q, Owned(c))
  }

  /** The slots of the send buffer became the chain `ch`, which carries exactly its bytes. */
  ghost predicate HandedOver(p: Pool, b: Buf, q: Pool, c: Buf, ch: seq<nat>)
  {
    && c == Cleaned(b) && WriteOk(q, c)
    && IsChain(q.slots, ch) && ChainBytes(q.slots, ch) == Unread(p, b)
    && Exchange(p, Owned(b), q, Owned(c) + multiset(ch))
  }

  class Stream {
    const bm: BufferManager
    const pending: PendingData
    var recvBuf: LinkedBuffer
    var sendBuf: LinkedBuffer
    var state: StreamState

    ghost predicate Wired()
      reads this
    {
      recvBuf != sendBuf && recvBuf.bm == bm && sendBuf.bm == bm && recvBuf.pending == pending
        && sendBuf.pending == pending
    }

    constructor (bm: BufferManager)
      requires bm.Valid()
      ensures this.bm == bm && Wired() && state == Opened && !pending.fellBack && pending.unread == []
      ensures recvBuf.View() == sendBuf.View() == Buf([], -1, [], false, true, 0)
    {
      this.bm, state := bm, Opened;
      var waiting := new PendingData();
      pending := waiting;
      recvBuf := new LinkedBuffer(bm, waiting);
      sendBuf := new LinkedBuffer(bm, waiting);
    }

    /**
     Flush. `outcomes[0]` is what the first put met and `outcomes[i]` what the i-th wait ended
     with; a full queue is retried ten times. `taken` says that the send channel has room for a
     frame before the write time-out. Bytes leave exactly once: as a chain, as a frame payload, or
     not at all.
     */
    method Flush(outcomes: seq<PutOutcome>, taken: bool) returns (r: FlushResult, ghost ch: seq<nat>)
      requires Wired() && WriteOk(bm.View(), sendBuf.View()) && |outcomes| == RETRIES + 1
      modifies pending`fellBack, sendBuf, bm
      ensures Wired() && WriteOk(bm.View(), sendBuf.View())
      ensures r.NothingToSend? <==> old(sendBuf.len) == 0
      ensures r.NothingToSend? ==> bm.View() == old(bm.View()) && sendBuf.View() == old(sendBuf.View())
      ensures r.Rejected? <==> old(sendBuf.len) > 0 && state != Opened
      ensures r.Framed? || r.Lost? <==>
        old(sendBuf.len) > 0 && state == Opened && (old(pending.fellBack) || !old(sendBuf.isFromShm))
      ensures (r.Framed? ==> taken) && (r.Lost? ==> !taken)
      ensures r.Queued? || r.Failed? <==>
        old(sendBuf.len) > 0 && state == Opened && !old(pending.fellBack) && old(sendBuf.isFromShm)
      ensures r.Queued? ==> Decided(outcomes, Accepted) && ch != [] && r.root == ch[0]
      ensures r.Failed? ==> r.why != Accepted && Decided(outcomes, r.why)
      ensures r.Queued? ==> HandedOver(old(bm.View()), old(sendBuf.View()), bm.View(), sendBuf.View(), ch)
      ensures r.Framed? ==> GaveBack(old(bm.View()), old(sendBuf.View()), bm.View(), sendBuf.View(), r.data)
      ensures r.Rejected? || r.Failed? || r.Lost? ==>
        GaveBack(old(bm.View()), old(sendBuf.View()), bm.View(), sendBuf.View(), old(Unread(bm.View(), sendBuf.View())))
      ensures pending.fellBack == (old(pending.fellBack) || r.Framed? || r.Lost?)
    {
      hide PoolOk, Apart, Exchange, Offsets, Contents, WriteOk, WriteCore, Published, GaveBack, HandedOver, BufCore;
      ch := [];
      ghost var p, b := bm.View(), sendBuf.View();
      SendFacts(p, b);
      ExchangeRefl(p, Owned(b));
      if sendBuf.len == 0 {
        return NothingToSend, ch;
      }
      if state != Opened {
        sendBuf.Recycle();
        RecycledGaveBack(p, b, p, b, bm.View());
        return Rejected, ch;
      }
      sendBuf.Done();
      ghost var q, c := bm.View(), sendBuf.View();
      DoneSendFacts(p, b, q, c);
      if !sendBuf.isFromShm {
        pending.fellBack := true;
      }
      if pending.fellBack {
        var data := UnderlyingData();
        sendBuf.Recycle();
        RecycledGaveBack(p, b, q, c, bm.View());
        return if taken then Framed(data) else Lost, ch;
      }
      var root := sendBuf.slices[0].offset;
      var err := outcomes[0];
      for i := 0 to RETRIES
        invariant err == outcomes[i] && forall j :: 0 <= j < i ==> outcomes[j] == Full
        invariant bm.View() == q && sendBuf.View() == c && pending.fellBack == old(pending.fellBack)
      {
        if err != Full {
          assert DecidedAt(outcomes, i);
          break;
        }
        err := outcomes[i + 1];
      }
      assert Decided(outcomes, err) by {
        if err == Full {
          assert DecidedAt(outcomes, RETRIES);
        }
      }
      if err != Accepted {
        sendBuf.Recycle();
        RecycledGaveBack(p, b, q, c, bm.View());
        return Failed(err), ch;
      }
      ch := OffsetSeq(c.slices);
      sendBuf.Clean();
      PublishedHandedOver(p, b, q);
      r := Queued(root);
    }

    /** underlyingData: the unread bytes up to the write slice, as writeFallback copies them. */
    method UnderlyingData() returns (data: seq<byte>)
      requires Wired() && SlicesOk(bm.slots, sendBuf.slices) && sendBuf.writeAt == |sendBuf.slices| - 1
      ensures data == Unread(bm.View(), sendBuf.View())
    {
      hide Contents, SliceOk;
      data := [];
      var ss := sendBuf.slices;
      EmptyContents(bm.slots);
      for i := 0 to |ss|
        invariant data == Contents(bm.slots, ss[..i])
      {
        assert SliceOk(bm.slots, ss[i]);
        var part := SliceData(ss[i]);
        assert ss[..i + 1] == ss[..i] + [ss[i]];
        ContentsAppend(bm.slots, ss[..i], [ss[i]]);
        ContentsOne(bm.slots, ss[i]);
        data := data + part;
      }
      assert ss[..|ss|] == ss;
    }

    /**
     ReleaseReadAndReuse: releases what was read and, exactly when that leaves the receive buffer with
     a single exhausted slot, makes it the next send buffer. The two buffers change places without
     a look at the send buffer, so the reader's view survives exactly when that one was empty.
     */
    method ReleaseReadAndReuse() returns (swapped: bool)
      requires Wired() && ReadOk(bm.View(), recvBuf.View()) && WriteOk(bm.View(), sendBuf.View())
      requires Apart(bm.View(), Owned(recvBuf.View()) + Owned(sendBuf.View()))
      modifies this`recvBuf, this`sendBuf, recvBuf, bm
      ensures Wired() && if swapped then recvBuf == old(sendBuf) && sendBuf == old(recvBuf)
                         else recvBuf == old(recvBuf) && sendBuf == old(sendBuf)
      ensures swapped <==> old(recvBuf.len == 0 && |recvBuf.slices| == 1 && recvBuf.slices[0].fromShm)
      ensures swapped ==> sendBuf.pinned == [] && recvBuf.pinned == old(sendBuf.pinned)
      ensures !swapped ==> recvBuf.pinned == [] && sendBuf.View() == old(sendBuf.View())
      ensures Exchange(old(bm.View()), old(Owned(recvBuf.View()) + Owned(sendBuf.View())),
                       bm.View(), Owned(recvBuf.View()) + Owned(sendBuf.View()))
      ensures WriteOk(bm.View(), sendBuf.View())
      ensures !swapped || old(sendBuf.len) == 0 ==> ReadOk(bm.View(), recvBuf.View())
      ensures old(recvBuf.isFromShm) && (!swapped || old(sendBuf.len) == 0) ==> recvBuf.isFromShm
      ensures Unread(bm.View(), recvBuf.View()) == old(Unread(bm.View(), recvBuf.View())) <==>
        !swapped || old(sendBuf.len) == 0
      ensures !swapped || old(sendBuf.len) == 0 ==>
        Unread(bm.View(), sendBuf.View()) == old(Unread(bm.View(), sendBuf.View()))
    {
      hide PoolOk, Apart, Exchange, Offsets, Contents, WriteOk, ReadOk, Kept, BufCore, Unread, Owned;
      ghost var p, b, c := bm.View(), recvBuf.View(), sendBuf.View();
      recvBuf.ReleasePreviousReadAndReserve();
      ghost var q, d := bm.View(), recvBuf.View();
      ReuseFrame(p, b, c, q, d);
      swapped := recvBuf.len == 0 && |recvBuf.slices| == 1;
      if swapped {
        recvBuf, sendBuf := sendBuf, recvBuf;
        ReuseSwap(q, d, c);
      }
    }

    /** clean, as run by close: waiting parcels, received slices and written slices all go back. */
    method Clean()
      requires Wired() && pending.Matches()
      requires RecvOk(bm.View(), recvBuf.View(), pending.parcels) && WriteOk(bm.View(), sendBuf.View())
      requires Apart(bm.View(), Owned(recvBuf.View()) + ParcelSlots(pending.parcels) + Owned(sendBuf.View()))
      modifies recvBuf, sendBuf, pending`unread, pending`parcels, bm
      ensures pending.unread == [] && pending.parcels == []
      ensures recvBuf.View() == old(Cleaned(recvBuf.View())) && sendBuf.View() == old(Cleaned(sendBuf.View()))
      ensures bm.Valid()
      ensures Exchange(old(bm.View()), old(Owned(recvBuf.View()) + ParcelSlots(pending.parcels)
        + Owned(sendBuf.View())),
                       bm.View(), Owned(recvBuf.View()) + Owned(sendBuf.View()))
    {
      hide PoolOk, Apart, Exchange, Offsets, Contents, WriteOk, ReadOk, BufCore, ParcelSlots, ParcelsOk, Owned;
      ghost var p, b, c, ps := bm.View(), recvBuf.View(), sendBuf.View(), pending.parcels;
      CleanPending(p, b, c, ps);
      pending.Clear(bm);
      ghost var q := bm.View();
      CleanRecv(p, b, c, ps, q);
      recvBuf.Recycle();
      ghost var r := bm.View();
      CleanSend(p, b, c, q, r);
      sendBuf.Recycle();
      CleanEnd(p, b, c, ps, q, r, bm.View());
    }

    method SliceData(s: Slice) returns (part: seq<byte>)
      requires SliceOk(bm.slots, s)
      ensures part == SliceBytes(bm.slots, s)
    {
      part := if s.fromShm then bm.slots[s.offset].data[s.r..s.w] else s.heap[s.r..s.w];
    }
  }

  lemma SendFacts(p: Pool, b: Buf)
    requires WriteOk(p, b)
    ensures WriteCore(p, b) && BufCore(p, b) && b.len == |Unread(p, b)| && b.writeAt == |b.slices| - 1
    ensures b.len > 0 ==> b.slices != []
  {
  }

  /** After `done` the buffer still holds the same bytes, in slices that were written. */
  lemma DoneSendFacts(p: Pool, b: Buf, q: Pool, c: Buf)
    requires WriteOk(p, b) && b.len > 0
    requires if b.isFromShm then Published(p, b, q, c, OffsetSeq(c.slices)) else q == p && c == b
    ensures BufCore(q, c) && Exchange(p, Owned(b), q, Owned(c)) && c == b && c.slices != []
    ensures Unread(q, c) == Unread(p, b) && SlicesOk(q.slots, c.slices)
  {
    hide PoolOk, Apart, Offsets, SliceOk, AllUnsent, AllEmpty, IsChain, ChainBytes, Exchange;
    if b.isFromShm {
      assert b.slices[..b.writeAt + 1] == b.slices;
    } else {
      ExchangeRefl(p, Owned(b));
    }
  }

  lemma CleanedWriteOk(p: Pool, b: Buf)
    requires PoolOk(p) && Apart(p, Offsets(b.pinned)) && SlicesOk(p.slots, b.pinned) && AllShm(b.pinned)
    ensures WriteOk(p, Cleaned(b)) && Owned(Cleaned(b)) == Offsets(b.pinned)
  {
    hide PoolOk, SliceOk, Apart, Offsets;
    NoOffsets();
    assert multiset{} + Offsets(b.pinned) == Offsets(b.pinned);
  }

  lemma NoOffsets()
    ensures Offsets([]) == multiset{}
  {
  }

  /** The slices are given back, the pinned slots stay. */
  lemma RecycledGaveBack(p: Pool, b: Buf, q: Pool, c: Buf, r: Pool)
    requires BufCore(q, c) && Exchange(p, Owned(b), q, Owned(c)) && c == b && Unread(q, c) == Unread(p, b)
    requires PoolOk(r) && Exchange(q, Offsets(c.slices), r, multiset{})
    ensures GaveBack(p, b, r, Cleaned(b), Unread(p, b)) && WriteOk(r, Cleaned(b))
  {
    hide PoolOk, Apart, Offsets, SliceOk, Exchange, Contents, WriteOk;
    ClearMoved(q, Offsets(c.slices), Offsets(c.pinned), r);
    SlicesIntact(q.slots, r.slots, c.pinned);
    CleanedWriteOk(r, c);
    ExchangeTrans(p, Owned(b), q, Owned(c), r, Owned(Cleaned(b)));
  }

  lemma PublishedHandedOver(p: Pool, b: Buf, q: Pool)
    requires WriteOk(p, b) && b.len > 0 && b.isFromShm && Published(p, b, q, b, OffsetSeq(b.slices))
    ensures HandedOver(p, b, q, Cleaned(b), OffsetSeq(b.slices)) && WriteOk(q, Cleaned(b))
    ensures OffsetSeq(b.slices) != [] && OffsetSeq(b.slices)[0] == b.slices[0].offset
  {
    hide PoolOk, Apart, Offsets, SliceOk, Exchange, Contents, ChainBytes, IsChain, WriteCore;
    ApartPart(q, Offsets(b.slices), Offsets(b.pinned));
    CleanedWriteOk(q, b);
    assert Owned(b) == Owned(Cleaned(b)) + multiset(OffsetSeq(b.slices));
  }

  lemma EmptyContents(slots: map<nat, Slot>)
    ensures Contents(slots, []) == []
  {
  }

  /** Releasing the receive buffer leaves the send buffer alone. */
  lemma ReuseFrame(p: Pool, b: Buf, c: Buf, q: Pool, d: Buf)
    requires ReadOk(p, b) && WriteOk(p, c) && Apart(p, Owned(b) + Owned(c))
    requires Kept(p, b, q, d) && ReadOk(q, d)
    ensures Exchange(p, Owned(b) + Owned(c), q, Owned(d) + Owned(c))
    ensures WriteOk(q, c) && Unread(q, c) == Unread(p, c) && Unread(q, d) == Unread(p, b)
    ensures d.len == b.len && d.isFromShm == b.isFromShm
  {
    hide Offsets, Contents, Exchange, Apart, ReadOk, WriteOk;
    ExchangeFrame(p, Owned(b), q, Owned(d), Owned(c));
    ExchangeApart(p, Owned(b) + Owned(c), q, Owned(d) + Owned(c));
    OtherIntact(p, Owned(b), q, Owned(d), Owned(c));
    ApartPart(q, Owned(d), Owned(c));
    WriteOkKept(p, c, q);
  }

  /** A send buffer whose slots nobody touched is as good as before. */
  lemma WriteOkKept(p: Pool, b: Buf, q: Pool)
    requires WriteOk(p, b) && PoolOk(q) && Apart(q, Owned(b)) && Intact(p.slots, q.slots, Owned(b))
    ensures WriteOk(q, b) && Unread(q, b) == Unread(p, b)
  {
    hide PoolOk, Apart, Offsets, Contents, AllEmpty, SliceOk;
    SlicesIntact(p.slots, q.slots, b.slices);
    SlicesIntact(p.slots, q.slots, b.pinned);
    forall i | 0 <= i < |b.slices| ensures Unsent(q.slots, b.slices[i]) {
      assert Unsent(p.slots, b.slices[i]);
      if b.slices[i].fromShm {
        OffsetsMember(b.slices, i);
      }
    }
  }

  lemma ReuseSwap(p: Pool, d: Buf, c: Buf)
    requires ReadOk(p, d) && WriteOk(p, c) && d.len == 0
    ensures c.len == 0 ==> ReadOk(p, c) && c.isFromShm && Unread(p, c) == Unread(p, d) == []
    ensures c.len != 0 ==> Unread(p, c) != Unread(p, d)
    ensures Owned(c) + Owned(d) == Owned(d) + Owned(c)
  {
    hide PoolOk, Apart, Offsets, Contents, AllEmpty, AllUnsent, SlicesOk;
  }

  lemma CleanPending(p: Pool, b: Buf, c: Buf, ps: seq<Parcel>)
    requires RecvOk(p, b, ps) && Apart(p, Owned(b) + ParcelSlots(ps) + Owned(c))
    ensures PoolOk(p) && Apart(p, multiset{}) && ParcelsOk(p.slots, ps) && Apart(p, ParcelSlots(ps))
  {
    hide PoolOk, Apart, Offsets, Contents, ParcelSlots, SlicesOk;
    CoreValid(p, b);
    assert Owned(b) + ParcelSlots(ps) + Owned(c) == ParcelSlots(ps) + (Owned(b) + Owned(c));
    ApartPart(p, ParcelSlots(ps), Owned(b) + Owned(c));
  }

  lemma BufCoreKept(p: Pool, b: Buf, q: Pool)
    requires BufCore(p, b) && PoolOk(q) && Apart(q, Owned(b)) && Intact(p.slots, q.slots, Owned(b))
    ensures BufCore(q, b) && Unread(q, b) == Unread(p, b)
  {
    hide PoolOk, Apart, Offsets, Contents, SliceOk;
    SlicesIntact(p.slots, q.slots, b.slices);
    SlicesIntact(p.slots, q.slots, b.pinned);
  }

  lemma CleanRecv(p: Pool, b: Buf, c: Buf, ps: seq<Parcel>, q: Pool)
    requires RecvOk(p, b, ps) && WriteOk(p, c) && Apart(p, Owned(b) + ParcelSlots(ps) + Owned(c))
    requires PoolOk(q) && Exchange(p, ParcelSlots(ps), q, multiset{})
    ensures BufCore(q, b) && BufCore(q, c) && Apart(q, Owned(b) + Owned(c))
    ensures Exchange(p, Owned(b) + ParcelSlots(ps) + Owned(c), q, Owned(b) + Owned(c))
  {
    hide PoolOk, Apart, Offsets, Contents, ParcelSlots, Exchange, SlicesOk;
    var own := Owned(b) + Owned(c);
    assert Owned(b) + ParcelSlots(ps) + Owned(c) == ParcelSlots(ps) + own;
    ClearMoved(p, ParcelSlots(ps), own, q);
    ApartPart(q, Owned(b), Owned(c));
    BufCoreKept(p, b, q);
    BufCoreKept(p, c, q);
  }

  lemma CleanSend(p: Pool, b: Buf, c: Buf, q: Pool, r: Pool)
    requires BufCore(q, b) && BufCore(q, c) && Apart(q, Owned(b) + Owned(c))
    requires PoolOk(r) && Exchange(q, Offsets(b.slices), r, multiset{})
    ensures BufCore(r, c) && Apart(r, Owned(Cleaned(b)) + Owned(c))
    ensures Exchange(q, Owned(b) + Owned(c), r, Owned(Cleaned(b)) + Owned(c))
  {
    hide PoolOk, Apart, Offsets, Contents, Exchange, SlicesOk;
    CleanedOwned(b);
    var kept := Owned(Cleaned(b)) + Owned(c);
    assert Owned(b) + Owned(c) == Offsets(b.slices) + kept;
    ClearMoved(q, Offsets(b.slices), kept, r);
    ApartPart(r, Owned(Cleaned(b)), Owned(c));
    BufCoreKept(q, c, r);
  }

  lemma CleanedOwned(b: Buf)
    ensures Owned(Cleaned(b)) == Offsets(b.pinned)
  {
    assert multiset{} + Offsets(b.pinned) == Offsets(b.pinned);
  }

  lemma CleanEnd(p: Pool, b: Buf, c: Buf, ps: seq<Parcel>, q: Pool, r: Pool, s: Pool)
    requires Exchange(p, Owned(b) + ParcelSlots(ps) + Owned(c), q, Owned(b) + Owned(c))
    requires Exchange(q, Owned(b) + Owned(c), r, Owned(Cleaned(b)) + Owned(c))
    requires Apart(r, Owned(Cleaned(b)) + Owned(c)) && Exchange(r, Offsets(c.slices), s, multiset{})
    ensures Exchange(p, Owned(b) + ParcelSlots(ps) + Owned(c), s, Owned(Cleaned(b)) + Owned(Cleaned(c)))
  {
    hide Apart, Offsets, Contents, Exchange, ParcelSlots;
    CleanedOwned(c);
    var all, kept := Owned(b) + ParcelSlots(ps) + Owned(c), Owned(Cleaned(b)) + Owned(Cleaned(c));
    assert Owned(Cleaned(b)) + Owned(c) == Offsets(c.slices) + kept;
    ClearMoved(r, Offsets(c.slices), kept, s);
    ExchangeTrans(p, all, q, Owned(b) + Owned(c), r, Owned(Cleaned(b)) + Owned(c));
    ExchangeTrans(p, all, r, Owned(Cleaned(b)) + Owned(c), s, kept);
  }
}
