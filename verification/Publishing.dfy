/**
 What `done` leaves in shared memory: the slices of a send buffer turned into a header chain that
 the peer can follow from its first offset.
 */
module Publishing {
  import opened Slots
  import opened BufferManagers
  import opened BufferSpec

  ghost function OffsetSeq(ss: seq<Slice>): (r: seq<nat>)
    ensures |r| == |ss| && forall i :: 0 <= i < |ss| ==> r[i] == ss[i].offset
  {
    if ss == [] then [] else [ss[0].offset] + OffsetSeq(ss[1..])
  }

  lemma {:induction false} OffsetSeqMultiset(ss: seq<Slice>)
    requires AllShm(ss)
    ensures multiset(OffsetSeq(ss)) == Offsets(ss)
  {
    if ss != [] {
      OffsetSeqMultiset(ss[1..]);
      assert OffsetSeq(ss) == [ss[0].offset] + OffsetSeq(ss[1..]);
    }
  }

  /** bufferSlice.update on slice `i` of `ss`. */
  function UpdatedSlot(slots: map<nat, Slot>, ss: seq<Slice>, i: nat): Slot
    requires i < |ss| && ss[i].offset in slots && ss[i].r <= ss[i].w
  {
    var h := slots[ss[i].offset].(size := ss[i].w - ss[i].r, start := ss[i].start);
    if i + 1 < |ss| then h.(next := ss[i + 1].offset, hasNext := true) else h
  }

  /** The headers of the first `n` slices are written; nothing else differs from `slots`. */
  ghost predicate Updated(slots: map<nat, Slot>, slots': map<nat, Slot>, ss: seq<Slice>, n: nat)
  {
    && n <= |ss|
    && slots'.Keys == slots.Keys
    && (forall i :: 0 <= i < |ss| ==> ss[i].offset in slots && ss[i].r <= ss[i].w)
    && (forall i :: 0 <= i < n ==> slots'[ss[i].offset] == UpdatedSlot(slots, ss, i))
    && (forall i :: n <= i < |ss| ==> slots'[ss[i].offset] == slots[ss[i].offset])
    && (forall o :: o in slots && NoneAt(ss, o) ==> slots'[o] == slots[o])
  }

  /** No slice of `ss` is slot `o`. */
  ghost predicate NoneAt(ss: seq<Slice>, o: nat)
  {
    forall i :: 0 <= i < |ss| ==> ss[i].offset != o
  }

  lemma UpdateHere(slots: map<nat, Slot>, slots': map<nat, Slot>, ss: seq<Slice>, n: nat)
    requires Updated(slots, slots', ss, n) && n < |ss|
    ensures ss[n].offset in slots' && ss[n].r <= ss[n].w
  {
  }

  lemma UpdateStep(p: Pool, own: multiset<nat>, slots': map<nat, Slot>, ss: seq<Slice>, n: nat)
    requires Apart(p, own) && Offsets(ss) <= own && AllShm(ss)
    requires Updated(p.slots, slots', ss, n) && n < |ss|
    ensures Updated(p.slots, slots'[ss[n].offset := UpdatedSlot(slots', ss, n)], ss, n + 1)
  {
    hide Apart, Offsets, NoneAt, UpdatedSlot;
    forall j | 0 <= j < |ss| && j != n ensures ss[j].offset != ss[n].offset {
      AtDistinct(p, own, ss, n, j);
    }
    SameSlot(p.slots, slots', ss, n);
    forall o | o in p.slots && NoneAt(ss, o) ensures o != ss[n].offset {
      NotThere(ss, o, n);
    }
  }

  lemma NotThere(ss: seq<Slice>, o: nat, n: nat)
    requires NoneAt(ss, o) && n < |ss|
    ensures ss[n].offset != o
  {
  }

  lemma SameSlot(slots: map<nat, Slot>, slots': map<nat, Slot>, ss: seq<Slice>, n: nat)
    requires n < |ss| && ss[n].offset in slots && ss[n].offset in slots' && ss[n].r <= ss[n].w
    requires slots'[ss[n].offset] == slots[ss[n].offset]
    ensures UpdatedSlot(slots', ss, n) == UpdatedSlot(slots, ss, n)
  {
  }

  /** Writing headers of owned slots keeps everything except those headers. */
  lemma UpdatedKeeps(p: Pool, b: Buf, slots': map<nat, Slot>, ss: seq<Slice>, n: nat)
    requires BufCore(p, b) && AllShm(ss) && Offsets(ss) <= Offsets(b.slices)
    requires Updated(p.slots, slots', ss, n)
    requires SlicesOk(p.slots, ss)
    ensures PoolOk(p.(slots := slots')) && Apart(p.(slots := slots'), Owned(b))
    ensures Exchange(p, Owned(b), p.(slots := slots'), Owned(b))
    ensures forall o :: o in p.slots ==> o in slots' && slots'[o].data == p.slots[o].data
  {
    hide Offsets, SlicesOk, Updated;
    var q := p.(slots := slots');
    UpdatedSame(p.slots, slots', ss, n);
    forall o | o in p.slots && o !in FreeSlots(p.free) + Owned(b) ensures slots'[o] == p.slots[o] {
      forall i | 0 <= i < |ss| ensures ss[i].offset != o {
        OffsetsMember(ss, i);
      }
    }
    forall i, k | 0 <= i < |p.free| && 0 <= k < |p.free[i]| ensures FreeSlotOk(q, i, p.free[i][k]) {
      var o := p.free[i][k];
      assert FreeSlotOk(p, i, o);
      FreeMember(p.free, i);
      assert o in FreeSlots(p.free);
      forall j | 0 <= j < |ss| ensures ss[j].offset != o {
        OffsetsMember(ss, j);
        ApartOne(p, Owned(b), ss[j].offset);
      }
    }
  }

  lemma UpdatedSame(slots: map<nat, Slot>, slots': map<nat, Slot>, ss: seq<Slice>, n: nat)
    requires Updated(slots, slots', ss, n) && SlicesOk(slots, ss)
    ensures slots'.Keys == slots.Keys
    ensures forall o :: o in slots ==> slots'[o].data == slots[o].data && (slots[o].start == 0 ==> slots'[o].start == 0)
    ensures forall o :: o in slots && NoneAt(ss, o) ==> slots'[o] == slots[o]
  {
    forall o | o in slots ensures slots'[o].data == slots[o].data && (slots[o].start == 0 ==> slots'[o].start == 0) {
      if i :| 0 <= i < |ss| && ss[i].offset == o {
        assert SliceOk(slots, ss[i]);
      }
    }
  }

  /** Once all headers are written, following them yields the unread bytes. */
  lemma {:induction false} ChainContents(slots: map<nat, Slot>, ss: seq<Slice>)
    requires SlicesOk(slots, ss) && AllShm(ss)
    requires forall i :: 0 <= i < |ss| ==> ss[i].r == 0
    requires forall i :: 0 <= i < |ss| ==> slots[ss[i].offset].size == ss[i].w && slots[ss[i].offset].start == 0
    ensures ChainBytes(slots, OffsetSeq(ss)) == Contents(slots, ss)
  {
    if ss != [] {
      assert SliceOk(slots, ss[0]);
      ChainContents(slots, ss[1..]);
      assert OffsetSeq(ss)[1..] == OffsetSeq(ss[1..]);
      assert SlotBytes(slots, ss[0].offset) == SliceBytes(slots, ss[0]);
    }
  }

  /** The effect of `done` on a buffer whose slices are all in shared memory. */
  ghost predicate Published(p: Pool, b: Buf, q: Pool, c: Buf, ch: seq<nat>)
  {
    && 0 <= b.writeAt < |b.slices| && c == b.(slices := b.slices[..b.writeAt + 1])
    && BufCore(q, c) && Exchange(p, Owned(b), q, Owned(c))
    && ch == OffsetSeq(c.slices) && multiset(ch) == Offsets(c.slices)
    && ChainBytes(q.slots, ch) == Unread(p, b) == Unread(q, c)
    && (IsChain(q.slots, ch) <==> b.writeAt == |b.slices| - 1)
  }

  /** Before the slices behind the write slice are given back. */
  lemma UpdatedPublished(p: Pool, b: Buf, slots': map<nat, Slot>)
    requires WriteCore(p, b) && 0 <= b.writeAt && AllShm(b.slices)
    requires Updated(p.slots, slots', b.slices, b.writeAt + 1)
    ensures var ch := OffsetSeq(b.slices[..b.writeAt + 1]);
      && ChainBytes(slots', ch) == Unread(p, b)
      && (IsChain(slots', ch) <==> b.writeAt == |b.slices| - 1)
    ensures Contents(slots', b.slices[..b.writeAt + 1]) == Unread(p, b)
    ensures SlicesOk(slots', b.slices) && SlicesOk(slots', b.pinned)
  {
    hide Offsets, Apart, PoolOk, Contents, SliceBytes, SlotBytes, ChainBytes, Exchange, AllEmpty, IsChain, SliceOk,
         Unsent, Updated, UpdatedSlot;
    var ss := b.slices[..b.writeAt + 1];
    UpdatedContents(p, b, slots');
    PublishedBytes(p, b, slots');
    HeadersChain(p.slots, slots', b.slices, b.writeAt + 1);
  }

  /** The bytes of the slices are what they were, and those behind the write slice have none. */
  lemma UpdatedContents(p: Pool, b: Buf, slots': map<nat, Slot>)
    requires WriteCore(p, b) && 0 <= b.writeAt && Updated(p.slots, slots', b.slices, b.writeAt + 1)
    ensures Contents(slots', b.slices[..b.writeAt + 1]) == Unread(p, b)
    ensures SlicesOk(slots', b.slices) && SlicesOk(slots', b.pinned)
  {
    hide Offsets, Apart, PoolOk, Contents, Exchange, AllEmpty, Updated, SlicesOk, AllUnsent;
    var ss, behind := b.slices[..b.writeAt + 1], b.slices[b.writeAt + 1..];
    UpdatedList(p.slots, slots', b.slices, b.writeAt + 1, b.slices);
    UpdatedList(p.slots, slots', b.slices, b.writeAt + 1, b.pinned);
    assert b.slices == ss + behind;
    ContentsAppend(slots', ss, behind);
    ContentsEmpty(slots', behind);
    assert Contents(slots', ss) + [] == Contents(slots', ss);
  }

  lemma UpdatedList(slots: map<nat, Slot>, slots': map<nat, Slot>, ss: seq<Slice>, n: nat, list: seq<Slice>)
    requires Updated(slots, slots', ss, n) && SlicesOk(slots, ss) && SlicesOk(slots, list)
    ensures SlicesOk(slots', list) && Contents(slots', list) == Contents(slots, list)
  {
    hide Contents, Updated;
    UpdatedSame(slots, slots', ss, n);
    ContentsFrame(slots, slots', list);
  }

  /** The updated headers carry what the slices contain. */
  lemma PublishedBytes(p: Pool, b: Buf, slots': map<nat, Slot>)
    requires WriteCore(p, b) && 0 <= b.writeAt && AllShm(b.slices) && SlicesOk(slots', b.slices)
    requires Updated(p.slots, slots', b.slices, b.writeAt + 1)
    ensures var ss := b.slices[..b.writeAt + 1]; ChainBytes(slots', OffsetSeq(ss)) == Contents(slots', ss)
  {
    hide Offsets, Apart, PoolOk, Contents, Exchange, AllEmpty, ChainBytes;
    var ss := b.slices[..b.writeAt + 1];
    forall i | 0 <= i < |ss| ensures SliceOk(slots', ss[i]) && ss[i].fromShm && ss[i].r == 0
      && slots'[ss[i].offset] == UpdatedSlot(p.slots, b.slices, i)
    {
      assert ss[i] == b.slices[i] && Unsent(p.slots, b.slices[i]) && SliceOk(slots', b.slices[i]);
    }
    ChainContents(slots', ss);
  }

  lemma HeadersChain(slots: map<nat, Slot>, slots': map<nat, Slot>, ss: seq<Slice>, n: nat)
    requires 0 < n <= |ss| && Updated(slots, slots', ss, n) && SlicesOk(slots, ss)
    requires AllShm(ss) && forall i :: 0 <= i < |ss| ==> Unsent(slots, ss[i])
    ensures IsChain(slots', OffsetSeq(ss[..n])) <==> n == |ss|
  {
    hide SlicesOk, AllShm, Updated, Unsent;
    var ch := OffsetSeq(ss[..n]);
    forall i | 0 <= i < n ensures ch[i] == ss[i].offset && HeaderOk(slots', ss, i) {
      assert ss[..n][i] == ss[i];
      HeaderAt(slots, slots', ss, n, i);
    }
    assert HeaderOk(slots', ss, n - 1);
  }

  /** The header behind slice `i` describes it and points to the slice after it, if there is one. */
  ghost predicate HeaderOk(slots: map<nat, Slot>, ss: seq<Slice>, i: nat)
    requires i < |ss|
  {
    && ss[i].offset in slots
    && slots[ss[i].offset].size <= |slots[ss[i].offset].data|
    && (slots[ss[i].offset].hasNext <==> i + 1 < |ss|)
    && (i + 1 < |ss| ==> slots[ss[i].offset].next == ss[i + 1].offset)
  }

  lemma HeaderAt(slots: map<nat, Slot>, slots': map<nat, Slot>, ss: seq<Slice>, n: nat, i: nat)
    requires i < n <= |ss| && Updated(slots, slots', ss, n) && SlicesOk(slots, ss) && AllShm(ss) && Unsent(slots, ss[i])
    ensures HeaderOk(slots', ss, i)
  {
    assert SliceOk(slots, ss[i]) && slots'[ss[i].offset] == UpdatedSlot(slots, ss, i);
  }

  /** Giving back the slices behind the write slice leaves the published part alone. */
  lemma TrimmedPublished(p: Pool, b: Buf, q: Pool, r: Pool)
    requires WriteCore(p, b) && 0 <= b.writeAt && AllShm(b.slices)
    requires q == p.(slots := q.slots) && Updated(p.slots, q.slots, b.slices, b.writeAt + 1)
    requires PoolOk(r) && Exchange(q, Offsets(b.slices[b.writeAt + 1..]), r, multiset{})
    ensures Published(p, b, r, b.(slices := b.slices[..b.writeAt + 1]), OffsetSeq(b.slices[..b.writeAt + 1]))
  {
    hide PoolOk, Apart, Exchange, Offsets, Contents, ChainBytes, Updated, AllUnsent, AllEmpty, SliceOk, IsChain,
         OffsetSeq;
    var n := b.writeAt + 1;
    var ss, tail := b.slices[..n], b.slices[n..];
    var c := b.(slices := ss);
    UpdatedPublished(p, b, q.slots);
    UpdatedKeeps(p, b, q.slots, b.slices, n);
    assert b.slices == ss + tail;
    OffsetsAppend(ss, tail);
    OffsetSeqMultiset(ss);
    assert Owned(b) == Offsets(tail) + Owned(c);
    ExchangeFrame(q, Offsets(tail), r, multiset{}, Owned(c));
    assert multiset{} + Owned(c) == Owned(c);
    ExchangeTrans(p, Owned(b), q, Owned(b), r, Owned(c));
    ExchangeApart(q, Owned(b), r, Owned(c));
    KeptOutside(q, Offsets(tail), Owned(c), r, ss, b.pinned);
    ContentsFrame(q.slots, r.slots, ss);
    ContentsFrame(q.slots, r.slots, b.pinned);
    ChainFrame(q.slots, r.slots, OffsetSeq(ss));
    ChainFrame(r.slots, q.slots, OffsetSeq(ss));
  }

  /** An exchange by the owner of `gone` does not touch the slots in `kept`. */
  lemma KeptOutside(p: Pool, gone: multiset<nat>, kept: multiset<nat>, q: Pool, ss: seq<Slice>, pinned: seq<Slice>)
    requires Apart(p, gone + kept) && kept == Offsets(ss) + Offsets(pinned)
    requires Exchange(p, gone, q, multiset{})
    ensures forall i :: 0 <= i < |ss| && ss[i].fromShm ==>
      ss[i].offset in p.slots && ss[i].offset in q.slots && q.slots[ss[i].offset] == p.slots[ss[i].offset]
    ensures forall i :: 0 <= i < |pinned| && pinned[i].fromShm ==>
      pinned[i].offset in p.slots && pinned[i].offset in q.slots
        && q.slots[pinned[i].offset] == p.slots[pinned[i].offset]
  {
    hide Apart, Offsets;
    forall o | o in kept ensures o in p.slots && o in q.slots && q.slots[o] == p.slots[o] {
      ApartOne(p, gone + kept, o);
      ApartPart(p, gone, kept);
    }
    forall i | 0 <= i < |ss| && ss[i].fromShm ensures ss[i].offset in kept {
      OffsetsMember(ss, i);
    }
    forall i | 0 <= i < |pinned| && pinned[i].fromShm ensures pinned[i].offset in kept {
      OffsetsMember(pinned, i);
    }
  }
}
