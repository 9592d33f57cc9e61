/**
 The linked buffer: a byte queue kept as a list of slots. Writes append to the write slice and
 allocate when it is full; reads take from the front slice, with a zero-copy fast path that pins
 the slot it lends out.
 */
module LinkedBuffers {
  import opened Bytes
  import opened Slots
  import opened BufferManagers
  import opened BufferSpec
  import opened Reserving
  import opened Publishing
  import opened ReadSpec
  import opened ArrivalSpec

  /** The conversion of a length to uint32. */
  function Cut32(x: nat): (r: nat)
    ensures r <= x && (x < WORD_LIMIT ==> r == x)
  {
    x % WORD_LIMIT
  }

  /** Slots are only taken, and a buffer leaves shared memory only when no list has a slot to give. */
  ghost predicate KeepsTo(p: Pool, b: Buf, q: Pool, c: Buf)
  {
    Fewer(p, q) && (b.isFromShm && !c.isFromShm ==> Drained(q))
  }

  lemma KeepsToNow(p: Pool, b: Buf)
    ensures KeepsTo(p, b, p, b)
  {
  }

  lemma KeepsToTrans(p: Pool, b: Buf, q: Pool, c: Buf, r: Pool, d: Buf)
    requires KeepsTo(p, b, q, c) && KeepsTo(q, c, r, d)
    ensures KeepsTo(p, b, r, d)
  {
  }

  /** Writing into slots takes none. */
  lemma KeepsToFree(p: Pool, b: Buf, q: Pool, c: Buf, r: Pool, d: Buf)
    requires KeepsTo(p, b, q, c) && r.free == q.free && d.isFromShm == c.isFromShm
    ensures KeepsTo(p, b, r, d)
  {
  }

  lemma ChosenOne(p: Pool, q: Pool, s: Slice, size: nat)
    requires exists i :: BestFit(p, size, i) && Popped(p, i, q, s)
    ensures Chosen(p, q, [s], size)
  {
    var i :| BestFit(p, size, i) && Popped(p, i, q, s);
    forall j | BestFit(p, size, j) ensures j == i {
      BestFitOnce(p, size, i, j);
    }
    assert !NoFit(p, size);
  }

  lemma PickedOne(p: Pool, q: Pool, s: Slice, size: nat)
    requires exists i :: BestFit(p, Cut32(size), i) && Popped(p, i, q, s)
    ensures Picked(p, q, s, size)
  {
    ChosenOne(p, q, s, Cut32(size));
    assert s.fromShm && !NoFit(p, Cut32(size));
  }

  lemma PickedHeap(p: Pool, s: Slice, size: nat)
    requires NoFit(p, Cut32(size)) && s == HeapBlock(size)
    ensures Picked(p, p, s, size)
  {
  }

  /** A reservation adds a heap block only when no list can hold it. */
  lemma PlacedLeaves(p: Pool, ss: seq<Slice>, at: int, q: Pool, ts: seq<Slice>, to: int, size: nat)
    requires Placed(p, ss, at, q, ts, to, size)
    ensures NoFit(p, Cut32(size)) ==> NoFit(q, Cut32(size))
    ensures |ts| > |ss| && !ts[to].fromShm ==> NoFit(q, Cut32(size))
  {
  }

  lemma ChosenSlots(p: Pool, q: Pool, got: seq<Slice>, size: nat)
    requires NoFit(p, size) && Fewer(p, q) && got != [] && AllShm(got) && Greedy(q, got)
    ensures Chosen(p, q, got, size)
  {
    hide Greedy, Fewer;
    assert got[|got| - 1].fromShm;
  }

  lemma ChosenHeap(p: Pool, q: Pool, got: seq<Slice>, h: Slice, size: nat)
    requires NoFit(p, size) && Fewer(p, q) && Greedy(q, got) && Drained(q)
    requires TotalCap(got) < size && h == HeapBlock(size - TotalCap(got))
    ensures Chosen(p, q, got + [h], size)
  {
    hide Greedy, Fewer, Drained, TotalCap;
    assert SlotsOf(got + [h]) == got;
  }

  lemma ChosenKeeps(p: Pool, b: Buf, q: Pool, added: seq<Slice>, size: nat, allShm: bool)
    requires Chosen(p, q, added, size) && (allShm <==> AllShm(added)) && AllShm(added[..|added| - 1])
    ensures KeepsTo(p, b, q, Extended(b, added, allShm))
  {
    hide Greedy, Fewer, Drained, NoFit, BestFit, Popped;
    if !allShm {
      assert !added[|added| - 1].fromShm;
    }
  }

  /** The slot a slice lends to a read of `size` bytes: its own, when it is a slot with that many unread bytes. */
  function LentBy(s: Slice, size: nat): Option<nat>
  {
    if s.fromShm && s.w - s.r >= size then Some(s.offset) else None
  }

  /** The slot lent by the first slice, an exhausted front slice skipped. */
  function Lendable(ss: seq<Slice>, size: nat): Option<nat>
  {
    var k := if ss != [] && ss[0].r == ss[0].w then 1 else 0;
    if k < |ss| then LentBy(ss[k], size) else None
  }

  /** Of the write slice and the next one, only the last slice has room for `size` bytes. */
  predicate OnlyLastFits(ss: seq<Slice>, at: int, size: nat)
  {
    && 0 <= at < |ss|
    && (ss[at].cap - ss[at].w >= size ==> at == |ss| - 1)
    && (at + 1 < |ss| && ss[at + 1].cap - ss[at + 1].w >= size ==> at + 1 == |ss| - 1)
  }

  lemma LastFits(ss: seq<Slice>, size: nat)
    requires ss != []
    ensures OnlyLastFits(ss, |ss| - 1, size)
  {
  }

  /** The window `from..from + size` of slice `at`, the write slice, was appended to the buffer. */
  ghost predicate Windowed(p: Pool, b: Buf, q: Pool, c: Buf, size: nat, at: nat, from: nat)
  {
    && at == c.writeAt < |c.slices| && from + size == c.slices[at].w <= |Backing(q.slots, c.slices[at])|
    && Wrote(p, b, q, c, Backing(q.slots, c.slices[at])[from..from + size])
  }

  /** The last slice is a slot for the cut length only. */
  predicate TooShort(ss: seq<Slice>, size: nat)
  {
    && size >= WORD_LIMIT && ss != [] && ss[|ss| - 1].fromShm
    && Cut32(size) <= ss[|ss| - 1].cap < size
  }

  /** The slice added for a reservation: the head of the best fitting list, or a heap block when no list fits. */
  ghost predicate Picked(p: Pool, q: Pool, s: Slice, size: nat)
  {
    && (forall i :: BestFit(p, Cut32(size), i) ==> Popped(p, i, q, s))
    && (NoFit(p, Cut32(size)) ==> q == p && s == HeapBlock(size))
    && (s.fromShm <==> !NoFit(p, Cut32(size)))
  }

  /** Where a reservation goes: the write slice `at`, else the next one, else a slice picked and added for it. */
  ghost predicate Placed(p: Pool, ss: seq<Slice>, at: int, q: Pool, ts: seq<Slice>, to: int, size: nat)
  {
    && 0 <= at < |ss| && 0 <= to < |ts|
    && if ss[at].cap - ss[at].w >= size then q == p && |ts| == |ss| && to == at
       else if at + 1 < |ss| && ss[at + 1].cap - ss[at + 1].w >= size then q == p && |ts| == |ss| && to == at + 1
       else |ts| == |ss| + 1 && to == |ss| && Picked(p, q, ts[to].(w := 0), size)
  }

  /** A first reservation is preceded by an allocation. */
  ghost predicate PlacedFirst(p: Pool, m: Pool, ss: seq<Slice>, q: Pool, ts: seq<Slice>, to: int, size: nat)
  {
    Chosen(p, m, ss, Cut32(size)) && Placed(m, ss, 0, q, ts, to, size)
  }

  /** A buffer leaves shared memory only when no list can hold the reservation. */
  ghost predicate LeavesFor(b: Buf, q: Pool, c: Buf, size: nat)
  {
    b.isFromShm && !c.isFromShm ==> NoFit(q, Cut32(size))
  }

  /** The outcome of Reserve: a window, a slot that is too short, or no slice at all. */
  datatype Reserved = Given(at: nat, from: nat) | Short | Missing

  /** What the session hands to a stream: the root offset of a chain, or a fallback payload. */
  datatype Wrapper = Shm(offset: nat) | Fallback(data: seq<byte>)

  /**
   Messages received for a stream and not yet moved into its receive buffer. `fellBack` is the
   stream's inFallbackState, which the arrival of a fallback payload sets too.
   */
  class PendingData {
    var unread: seq<Wrapper>
    var fellBack: bool
    ghost var parcels: seq<Parcel>

    ghost predicate Matches()
      reads this
    {
      |unread| == |parcels| && forall i :: 0 <= i < |unread| ==> Describes(unread[i], parcels[i])
    }

    constructor ()
      ensures unread == [] && parcels == [] && !fellBack
    {
      unread, parcels, fellBack := [], [], false;
    }

    /** pendingData.add */
    method Add(w: Wrapper, ghost x: Parcel)
      requires Matches() && Describes(w, x)
      modifies this`unread, this`parcels
      ensures Matches() && unread == old(unread) + [w] && parcels == old(parcels) + [x]
    {
      unread, parcels := unread + [w], parcels + [x];
    }

    /** pendingData.clear: every waiting chain goes back to the free lists. */
    method Clear(bm: BufferManager)
      requires Matches() && bm.Valid() && ParcelsOk(bm.slots, parcels) && Apart(bm.View(), ParcelSlots(parcels))
      modifies this`unread, this`parcels, bm
      ensures unread == [] && parcels == []
      ensures bm.Valid() && Exchange(old(bm.View()), old(ParcelSlots(parcels)), bm.View(), multiset{})
    {
      hide PoolOk, Apart, Exchange, ParcelSlots, IsChain, ChainBytes, SliceOk;
      ghost var p, ps := bm.View(), parcels;
      ClearInit(p, ps);
      for i := 0 to |unread|
        invariant Matches() && parcels == ps && bm.Valid() && |unread| == |ps|
        invariant Exchange(p, ParcelSlots(ps), bm.View(), ParcelSlots(ps[i..]))
        invariant Apart(bm.View(), ParcelSlots(ps[i..]))
        invariant ParcelsOk(bm.slots, ps[i..])
      {
        ghost var q := bm.View();
        ClearFacts(q, ps[i..]);
        assert Describes(unread[i], ps[i]) && ps[i..][0] == ps[i];
        match unread[i] {
          case Fallback(_) =>
          case Shm(offset) =>
            var slice := bm.ReadSlice(offset);
            bm.RecycleChain(slice.value, ps[i].ch);
        }
        ClearStep(q, ps[i..], bm.View());
        assert ps[i..][1..] == ps[i + 1..];
        ExchangeTrans(p, ParcelSlots(ps), q, ParcelSlots(ps[i..]), bm.View(), ParcelSlots(ps[i + 1..]));
      }
      ClearEnd(ps);
      unread, parcels := [], [];
    }
  }

  ghost predicate Describes(w: Wrapper, x: Parcel)
  {
    match w
    case Shm(o) => x.Chain? && x.ch != [] && x.ch[0] == o
    case Fallback(d) => x == Heap(d)
  }

  lemma NoHeapYet(ps: seq<Parcel>)
    ensures !HasHeap(ps[..0])
  {
  }

  lemma HeapSoFar(ps: seq<Parcel>, k: nat)
    requires k < |ps|
    ensures HasHeap(ps[..k + 1]) <==> HasHeap(ps[..k]) || ps[k].Heap?
  {
    if HasHeap(ps[..k]) {
      var i :| 0 <= i < k && ps[i].Heap?;
      assert ps[..k + 1][i].Heap?;
    }
    if ps[k].Heap? {
      assert ps[..k + 1][k].Heap?;
    }
  }

  lemma ClearInit(p: Pool, ps: seq<Parcel>)
    ensures Exchange(p, ParcelSlots(ps), p, ParcelSlots(ps)) && ps[0..] == ps
  {
  }

  lemma ClearEnd(ps: seq<Parcel>)
    ensures ParcelSlots(ps[|ps|..]) == multiset{}
  {
  }

  lemma ClearFacts(p: Pool, ps: seq<Parcel>)
    requires ps != [] && ParcelsOk(p.slots, ps) && Apart(p, ParcelSlots(ps))
    ensures ps[0].Chain? ==> IsChain(p.slots, ps[0].ch) && Apart(p, multiset(ps[0].ch))
    ensures ps[0].Chain? ==> ps[0].ch[0] in p.slots && p.slots[ps[0].ch[0]].size <= |p.slots[ps[0].ch[0]].data|
  {
    assert ParcelOk(p.slots, ps[0]);
    ApartPart(p, ParcelSlot(ps[0]), ParcelSlots(ps[1..]));
  }

  lemma ClearStep(p: Pool, ps: seq<Parcel>, q: Pool)
    requires ps != [] && ParcelsOk(p.slots, ps) && Apart(p, ParcelSlots(ps))
    requires if ps[0].Chain? then Exchange(p, multiset(ps[0].ch), q, multiset{}) else q == p
    ensures Exchange(p, ParcelSlots(ps), q, ParcelSlots(ps[1..])) && Apart(q, ParcelSlots(ps[1..]))
    ensures ParcelsOk(q.slots, ps[1..])
  {
    hide Apart, ParcelOk;
    var rest := ParcelSlots(ps[1..]);
    ExchangeRefl(p, multiset{});
    assert Exchange(p, ParcelSlot(ps[0]), q, multiset{});
    ClearMoved(p, ParcelSlot(ps[0]), rest, q);
    ParcelsIntact(p.slots, q.slots, ps[1..]);
  }

  lemma ClearMoved(p: Pool, gone: multiset<nat>, rest: multiset<nat>, q: Pool)
    requires Apart(p, gone + rest) && Exchange(p, gone, q, multiset{})
    ensures Exchange(p, gone + rest, q, rest) && Apart(q, rest) && Intact(p.slots, q.slots, rest)
  {
    hide Exchange, Apart;
    ExchangeFrame(p, gone, q, multiset{}, rest);
    assert multiset{} + rest == rest;
    ExchangeApart(p, gone + rest, q, rest);
    OtherIntact(p, gone, q, multiset{}, rest);
  }

  class LinkedBuffer {
    const bm: BufferManager
    const pending: PendingData
    var slices: seq<Slice>
    var writeAt: int
    var pinned: seq<Slice>
    var currentPinned: bool
    var isFromShm: bool
    var len: int

    ghost function View(): Buf
      reads this
    {
      Buf(slices, writeAt, pinned, currentPinned, isFromShm, len)
    }

    constructor (bm: BufferManager, pending: PendingData)
      requires bm.Valid()
      ensures this.bm == bm && this.pending == pending && View() == Buf([], -1, [], false, true, 0)
      ensures WriteOk(bm.View(), View()) && ReadOk(bm.View(), View())
    {
      this.bm, this.pending := bm, pending;
      slices, writeAt, pinned, currentPinned, isFromShm, len := [], -1, [], false, true, 0;
    }

    /** Copies as much of `data` as fits behind the write index of the write slice. */
    method AppendToWriteSlice(data: seq<byte>) returns (n: nat)
      requires WriteCore(bm.View(), View()) && 0 <= writeAt
      modifies this`slices, bm`slots
      ensures n <= |data| && n <= old(slices[writeAt].cap - slices[writeAt].w)
      ensures n == |data| || n == old(slices[writeAt].cap - slices[writeAt].w)
      ensures |slices| == |old(slices)| && slices == old(slices)[writeAt := slices[writeAt]]
      ensures Building(old(bm.View()), old(View()), bm.View(), View(), data[..n])
    {
      hide Apart, Exchange, PoolOk, Contents, Offsets, AllEmpty, AllUnsent, SliceBytes, Building;
      var s := slices[writeAt];
      assert SliceOk(bm.slots, s);
      n := if |data| <= s.cap - s.w then |data| else s.cap - s.w;
      var bytes := data[..n];
      ghost var p, b := bm.View(), View();
      FillStep(p, b, bytes);
      bm.slots := FilledSlots(bm.slots, s, bytes);
      slices := slices[writeAt := FilledSlice(s, bytes)];
      assert View() == Filled(b, bytes);
    }

    /**
     alloc: one fitting slot, else several slots, else a heap block for what is still missing. A
     request for nothing is met by any slot, and adds none when there is none to give.
     */
    method Alloc(size: nat) returns (ok: bool)
      requires WriteCore(bm.View(), View())
      modifies this`slices, this`isFromShm, bm
      ensures !ok <==> size == 0 && old(Drained(bm.View()))
      ensures !ok ==> bm.View() == old(bm.View()) && View() == old(View())
      ensures ok ==> |slices| > |old(slices)| && slices[..|old(slices)|] == old(slices)
      ensures ok ==> Alloced(old(bm.View()), bm.View(), slices[|old(slices)|..], size)
      ensures ok ==> Chosen(old(bm.View()), bm.View(), slices[|old(slices)|..], size)
      ensures KeepsTo(old(bm.View()), old(View()), bm.View(), View())
      ensures size == 0 ==> isFromShm == old(isFromShm)
      ensures Building(old(bm.View()), old(View()), bm.View(), View(), [])
    {
      hide Apart, Exchange, PoolOk, Contents, Offsets, BufCore, Taken, TotalCap, Building, Alloced, AllEmpty, AllUnsent,
           Drained, Chosen, KeepsTo, Greedy, Fewer, NoFit, BestFit, Popped;
      ghost var p, b := bm.View(), View();
      CoreValid(p, b);
      ok := true;
      var buf := bm.AllocOne(size);
      if buf.Some? {
        slices := slices + [buf.value];
        AllocedOne(p, bm.View(), buf.value, size);
        ChosenOne(p, bm.View(), buf.value, size);
        AllocStep(p, b, bm.View(), [buf.value], size, true);
        ChosenKeeps(p, b, bm.View(), [buf.value], size, true);
        assert slices[|b.slices|..] == [buf.value];
        assert View() == Extended(b, [buf.value], true);
        return;
      }
      var got, allocSize := bm.AllocMany(size);
      if size == 0 {
        BuildingNothing(p, b);
        KeepsToNow(p, b);
        return false;
      }
      slices := slices + got;
      var remain := size - allocSize;
      AllocedMany(p, bm.View(), got, size);
      if remain > 0 {
        if remain < DEFAULT_SINGLE_BUFFER_SIZE {
          remain := DEFAULT_SINGLE_BUFFER_SIZE;
        }
        var h := Slice(0, false, remain, 0, 0, 0, seq(remain, _ => 0));
        slices := slices + [h];
        isFromShm := false;
        AllocedHeap(p, bm.View(), got, h, size);
        assert !(got + [h])[|got|].fromShm && (got + [h])[..|got|] == got;
        ChosenHeap(p, bm.View(), got, h, size);
        AllocStep(p, b, bm.View(), got + [h], size, false);
        ChosenKeeps(p, b, bm.View(), got + [h], size, false);
        assert slices == b.slices + (got + [h]);
        assert slices[|b.slices|..] == got + [h];
        assert View() == Extended(b, got + [h], false);
      } else {
        ChosenSlots(p, bm.View(), got, size);
        AllocStep(p, b, bm.View(), got, size, true);
        ChosenKeeps(p, b, bm.View(), got, size, true);
        assert slices[|b.slices|..] == got;
        assert View() == Extended(b, got, true);
      }
    }

    /** alloc, then make the first slice it added the write slice. */
    method AllocAndMove(size: nat) returns (ok: bool)
      requires WriteCore(bm.View(), View()) && writeAt == |slices| - 1
      modifies this`slices, this`isFromShm, this`writeAt, bm
      ensures !ok <==> size == 0 && old(Drained(bm.View()))
      ensures !ok ==> bm.View() == old(bm.View()) && View() == old(View())
      ensures ok ==> writeAt == |old(slices)| < |slices| && EndsInLast(slices, writeAt, size)
      ensures ok ==> slices[writeAt].w == 0 < slices[writeAt].cap
      ensures ok && |slices| > |old(slices)| + 1 ==> slices[writeAt].cap < size
      ensures ok ==> forall i :: writeAt < i < |slices| - 1 ==> slices[i].cap <= slices[writeAt].cap
      ensures ok && |slices| > |old(slices)| + 1 && slices[|slices| - 1].fromShm ==>
        slices[|slices| - 1].cap <= slices[writeAt].cap
      ensures size == 0 ==> isFromShm == old(isFromShm)
      ensures ok ==> Chosen(old(bm.View()), bm.View(), slices[|old(slices)|..], size)
      ensures KeepsTo(old(bm.View()), old(View()), bm.View(), View())
      ensures Building(old(bm.View()), old(View()), bm.View(), View(), [])
    {
      hide Apart, Exchange, PoolOk, Contents, Offsets, BufCore, Building, AllUnsent, AllEmpty, Room, EndsInLast,
           Alloced, Drained, Chosen;
      ghost var p, b := bm.View(), View();
      ok := Alloc(size);
      if !ok {
        return;
      }
      ghost var added := slices[|b.slices|..];
      assert slices == b.slices + added;
      EndsAfterAlloc(p, bm.View(), b.slices, added, size);
      AllocedShape(p, bm.View(), added, size);
      ghost var q, c := bm.View(), View();
      writeAt := writeAt + 1;
      MoveTo(p, b, q, c, c.writeAt + 1, []);
    }

    /**
     Goes on to the next slice, allocating for the `left` bytes still to come if there is none. The
     request is cut to 32 bits; when that leaves nothing and no slot is to be had there is no next slice.
     */
    method NextWriteSlice(left: nat) returns (ok: bool)
      requires WriteCore(bm.View(), View()) && 0 <= writeAt < |slices| && left >= 1
      requires writeAt + 1 < |slices| ==> EndsInLast(slices, writeAt + 1, left)
      modifies this`slices, this`isFromShm, this`writeAt, bm
      ensures !ok <==> old(writeAt + 1 == |slices|) && Cut32(left) == 0 && old(Drained(bm.View()))
      ensures !ok ==> bm.View() == old(bm.View()) && View() == old(View())
      ensures ok ==> 0 <= writeAt < |slices| && EndsInLast(slices, writeAt, left)
      ensures ok ==> slices[writeAt].w == 0 < slices[writeAt].cap
      ensures KeepsTo(old(bm.View()), old(View()), bm.View(), View())
      ensures Building(old(bm.View()), old(View()), bm.View(), View(), [])
    {
      hide Apart, Exchange, PoolOk, Contents, Offsets, Building, AllUnsent, AllEmpty, Room, EndsInLast, BufCore,
           WriteCore, Drained, Cut32;
      ghost var p, b := bm.View(), View();
      ok := true;
      if writeAt + 1 == |slices| {
        ok := AllocAndMove(Cut32(left));
        if ok {
          EndsAllTheMore(slices, writeAt, Cut32(left), left);
        }
      } else {
        BuildingNothing(p, b);
        BuildingCore(p, b, p, b, []);
        MoveStep(p, b, writeAt + 1);
        writeAt := writeAt + 1;
      }
    }

    /** Appends one byte. */
    method WriteByte(b: byte)
      requires WriteOk(bm.View(), View())
      modifies this, bm
      ensures Wrote(old(bm.View()), old(View()), bm.View(), View(), [b])
      ensures KeepsTo(old(bm.View()), old(View()), bm.View(), View())
    {
      hide Apart, Exchange, PoolOk, Contents, Offsets, Building, AllUnsent, AllEmpty, Room, EndsInLast, Wrote, BufCore,
           KeepsTo;
      ghost var p0, b0 := bm.View(), View();
      BuildingNothing(p0, b0);
      KeepsToNow(p0, b0);
      if writeAt == -1 {
        var _ := AllocAndMove(1);
      }
      BuildingCore(p0, b0, bm.View(), View(), []);
      ghost var p1, b1 := bm.View(), View();
      var n := AppendToWriteSlice([b]);
      BuildingTrans(p0, b0, p1, b1, bm.View(), View(), [], [b][..n]);
      if n == 1 {
        assert [] + [b][..n] == [b];
        ghost var c := View();
        len := len + 1;
        KeepsToFree(p0, b0, p1, b1, bm.View(), View());
        FinishWrite(p0, b0, bm.View(), c, [b]);
        return;
      }
      assert [] + [b][..n] == [];
      BuildingCore(p0, b0, bm.View(), View(), []);
      ghost var p2, b2 := bm.View(), View();
      KeepsToFree(p0, b0, p1, b1, p2, b2);
      var _ := AllocAndMove(1);
      KeepsToTrans(p0, b0, p2, b2, bm.View(), View());
      BuildingIdle(p0, b0, p2, b2, bm.View(), View(), []);
      BuildingCore(p0, b0, bm.View(), View(), []);
      ghost var p3, b3 := bm.View(), View();
      n := AppendToWriteSlice([b]);
      BuildingTrans(p0, b0, p3, b3, bm.View(), View(), [], [b][..n]);
      assert [] + [b][..n] == [b];
      ghost var c := View();
      len := len + 1;
      KeepsToFree(p0, b0, p3, b3, bm.View(), View());
      FinishWrite(p0, b0, bm.View(), c, [b]);
    }

    /**
     Appends all of `data`; the write slice ends up being the last slice. What is still to be written
     is cut to 32 bits when slots are asked for. With a whole multiple of 4 GiB left and no slot to be
     had, no slice is added and the code goes on to a missing one: `ok` is false, the length is not updated.
     */
    method WriteBytes(data: seq<byte>) returns (n: nat, ok: bool)
      requires WriteOk(bm.View(), View())
      modifies this, bm
      ensures ok ==> n == |data| && Wrote(old(bm.View()), old(View()), bm.View(), View(), data)
      ensures !ok ==> n < |data| && Cut32(|data| - n) == 0 && Drained(bm.View())
      ensures !ok ==> Building(old(bm.View()), old(View()), bm.View(), View(), data[..n]) && len == old(len)
      ensures |data| < WORD_LIMIT ==> ok
      ensures KeepsTo(old(bm.View()), old(View()), bm.View(), View())
    {
      hide Apart, Exchange, PoolOk, Contents, Offsets, Building, AllUnsent, AllEmpty, Room, EndsInLast, Wrote, BufCore,
           WriteCore, Unread, SliceOk, Drained, Cut32, KeepsTo;
      n, ok := 0, true;
      ghost var p0, b0 := bm.View(), View();
      BuildingNothing(p0, b0);
      KeepsToNow(p0, b0);
      if data == [] {
        FinishWrite(p0, b0, p0, b0, []);
        return;
      }
      assert data[..0] == [];
      if writeAt == -1 {
        ok := AllocAndMove(Cut32(|data| - n));
        if !ok {
          return;
        }
        EndsAllTheMore(slices, writeAt, Cut32(|data|), |data|);
      }
      EndsAtLast(slices, writeAt, |data|);
      n, ok := FillSlices(data, p0, b0);
      if !ok {
        return;
      }
      assert data[..n] == data;
      ghost var c := View();
      len := len + n;
      KeepsToFree(p0, b0, bm.View(), c, bm.View(), View());
      FinishWrite(p0, b0, bm.View(), c, data);
    }

    /** The loop of WriteBytes: slice after slice until all of `data` is copied. */
    method FillSlices(data: seq<byte>, ghost p0: Pool, ghost b0: Buf) returns (n: nat, ok: bool)
      requires 0 <= writeAt < |slices| && len == b0.len && data != []
      requires Building(p0, b0, bm.View(), View(), []) && EndsInLast(slices, writeAt, |data|)
      requires KeepsTo(p0, b0, bm.View(), View())
      modifies this`slices, this`writeAt, this`isFromShm, bm
      ensures n <= |data| && Building(p0, b0, bm.View(), View(), data[..n]) && KeepsTo(p0, b0, bm.View(), View())
      ensures ok ==> n == |data| && 0 <= writeAt == |slices| - 1
      ensures !ok ==> n < |data| && Cut32(|data| - n) == 0 && Drained(bm.View())
    {
      hide Apart, Exchange, PoolOk, Contents, Offsets, Building, AllUnsent, AllEmpty, Room, EndsInLast, BufCore,
           WriteCore, Unread, SliceOk, Drained, Cut32, KeepsTo;
      n, ok := 0, true;
      assert data[..0] == [];
      BuildingCore(p0, b0, bm.View(), View(), []);
      while true
        invariant 0 <= n <= |data|
        invariant 0 <= writeAt < |slices| && len == b0.len
        invariant Building(p0, b0, bm.View(), View(), data[..n]) && KeepsTo(p0, b0, bm.View(), View())
        invariant EndsInLast(slices, writeAt, |data| - n)
        invariant slices[writeAt].w <= slices[writeAt].cap
        decreases |data| - n, slices[writeAt].w == slices[writeAt].cap
      {
        ghost var p1, b1, m := bm.View(), View(), n;
        BuildingCore(p0, b0, p1, b1, data[..n]);
        var k := AppendToWriteSlice(data[n..]);
        BuildingTrans(p0, b0, p1, b1, bm.View(), View(), data[..m], data[m..][..k]);
        KeepsToFree(p0, b0, p1, b1, bm.View(), View());
        n := n + k;
        assert data[..m] + data[m..][..k] == data[..n];
        BuildingCore(p0, b0, bm.View(), View(), data[..n]);
        FilledUp(p1, b1, bm.View(), View(), |data| - m, k);
        if n < |data| {
          ghost var p2, b2 := bm.View(), View();
          ok := NextWriteSlice(|data| - n);
          KeepsToTrans(p0, b0, p2, b2, bm.View(), View());
          if !ok {
            return;
          }
          BuildingIdle(p0, b0, p2, b2, bm.View(), View(), data[..n]);
        } else {
          break;
        }
      }
    }

    /**
     Reserve: `size` contiguous bytes in the current slice, else in the next one, else in a newly
     allocated one. The window handed out is `slices[at]`, positions `from..from + size`. The length
     is cut to 32 bits when a slot is asked for. With nothing left of it, nothing written and no slot
     to be had, the code uses a missing slice. A slot that is enough for the cut length only is added,
     the bytes are counted, and the window is refused.
     */
    method Reserve(size: nat) returns (r: Reserved)
      requires WriteOk(bm.View(), View())
      modifies this, bm
      ensures r.Missing? <==> Cut32(size) == 0 && old(writeAt) == -1 && old(Drained(bm.View()))
      ensures r.Missing? ==> bm.View() == old(bm.View()) && View() == old(View())
      ensures r.Short? ==> TooShort(slices, size) && len == old(len) + size
      ensures r.Short? ==> Building(old(bm.View()), old(View()), bm.View(), View(), [])
      ensures r.Given? ==> Windowed(old(bm.View()), old(View()), bm.View(), View(), size, r.at, r.from)
      ensures old(writeAt) >= 0 ==> Placed(old(bm.View()), old(slices), old(writeAt), bm.View(), slices, writeAt, size)
      ensures old(writeAt) == -1 && !r.Missing? ==>
        exists m, ss :: PlacedFirst(old(bm.View()), m, ss, bm.View(), slices, writeAt, size)
      ensures LeavesFor(old(View()), bm.View(), View(), size)
    {
      hide Apart, Exchange, PoolOk, Contents, Offsets, Building, AllUnsent, AllEmpty, Wrote, BufCore, Drained, Cut32,
           OnlyLastFits, WriteCore, Windowed, TooShort, Placed, Chosen, NoFit;
      ghost var p0, b0 := bm.View(), View();
      BuildingNothing(p0, b0);
      if writeAt == -1 {
        var ok := ReserveFirst(size);
        if !ok {
          return Missing;
        }
      } else {
        LastFits(slices, size);
      }
      ghost var m, c := bm.View(), View();
      r := ReserveOn(size, p0, b0);
      PlacedLeaves(m, c.slices, c.writeAt, bm.View(), slices, writeAt, size);
      assert b0.writeAt == -1 ==> PlacedFirst(p0, m, c.slices, bm.View(), slices, writeAt, size);
    }

    /** The first allocation of Reserve, for the cut length. */
    method ReserveFirst(size: nat) returns (ok: bool)
      requires WriteCore(bm.View(), View()) && writeAt == -1 && slices == []
      modifies this`slices, this`isFromShm, this`writeAt, bm
      ensures !ok <==> Cut32(size) == 0 && old(Drained(bm.View()))
      ensures !ok ==> bm.View() == old(bm.View()) && View() == old(View())
      ensures ok ==> OnlyLastFits(slices, writeAt, size)
      ensures ok && size == 0 ==> |slices| == 1 && isFromShm == old(isFromShm)
      ensures ok ==> writeAt == 0 && Chosen(old(bm.View()), bm.View(), slices, Cut32(size))
      ensures LeavesFor(old(View()), bm.View(), View(), size)
      ensures Building(old(bm.View()), old(View()), bm.View(), View(), [])
    {
      hide Apart, Exchange, PoolOk, Contents, Offsets, Building, AllUnsent, AllEmpty, EndsInLast, BufCore, Cut32,
           WriteCore, Chosen, Fewer;
      ok := AllocAndMove(Cut32(size));
      if ok {
        assert slices[0..] == slices;
        BuildingCore(old(bm.View()), old(View()), bm.View(), View(), []);
      }
    }

    /** The three places Reserve looks at. */
    method ReserveOn(size: nat, ghost p0: Pool, ghost b0: Buf) returns (r: Reserved)
      requires len == b0.len && LenOk(p0, b0) && Building(p0, b0, bm.View(), View(), [])
      requires OnlyLastFits(slices, writeAt, size) && (b0.len + size == 0 ==> |slices| <= 1 && isFromShm)
      modifies this, bm
      ensures !r.Missing?
      ensures r.Short? ==> TooShort(slices, size) && len == old(len) + size
      ensures r.Short? ==> Building(p0, b0, bm.View(), View(), [])
      ensures r.Given? ==> Windowed(p0, b0, bm.View(), View(), size, r.at, r.from)
      ensures Placed(old(bm.View()), old(slices), old(writeAt), bm.View(), slices, writeAt, size)
      ensures isFromShm == (old(isFromShm) && (|slices| > |old(slices)| ==> slices[writeAt].fromShm))
    {
      hide Apart, Exchange, PoolOk, Contents, Offsets, Building, AllUnsent, AllEmpty, BufCore, Cut32, WriteCore,
           Windowed, Picked;
      var from;
      BuildingCore(p0, b0, bm.View(), View(), []);
      // 1. the current slice
      if slices[writeAt].cap - slices[writeAt].w >= size {
        from := ReserveHere(size, p0, b0);
        return Given(writeAt, from);
      }
      // 2. the next slice
      if writeAt + 1 < |slices| && slices[writeAt + 1].cap - slices[writeAt + 1].w >= size {
        MoveTo(p0, b0, bm.View(), View(), writeAt + 1, []);
        writeAt := writeAt + 1;
        from := ReserveHere(size, p0, b0);
        return Given(writeAt, from);
      }
      // 3. a new slice
      var fits := PushForReserve(size, p0, b0);
      if !fits {
        ghost var b := View();
        len := len + size;
        BuildingAnyLength(p0, b0, bm.View(), b, View());
        return Short;
      }
      from := ReserveHere(size, p0, b0);
      r := Given(writeAt, from);
    }

    /**
     The caller of Reserve fills (part of) its window: the bytes from `from` on of slice `at`. It may
     do so at any time before the buffer is flushed, also after further writes.
     */
    method FillReserved(at: nat, from: nat, bytes: seq<byte>)
      requires WriteOk(bm.View(), View()) && at < |slices|
      requires slices[at].r <= from && from + |bytes| <= slices[at].w
      modifies this`slices, bm`slots
      ensures Patched(old(bm.View()), old(View()), bm.View(), View(),
                      old(|Contents(bm.slots, slices[..at])| + (from - slices[at].r)), bytes)
    {
      hide PoolOk, Apart, Exchange, Offsets, Contents, Patched, AllUnsent, AllEmpty, Overwrite;
      ghost var p, b := bm.View(), View();
      var s := slices[at];
      assert SliceOk(bm.slots, s);
      PatchedOk(p, b, at, from, bytes);
      bm.slots := PatchedSlots(bm.slots, s, from, bytes);
      slices := slices[at := PatchedSlice(s, from, bytes)];
    }

    /** The third way of Reserve: a fitting slot, or a heap block, becomes the last and write slice. */
    method PushForReserve(size: nat, ghost p0: Pool, ghost b0: Buf) returns (fits: bool)
      requires size >= 1 && len == b0.len && Building(p0, b0, bm.View(), View(), [])
      modifies this`slices, this`isFromShm, this`writeAt, bm
      ensures writeAt == |slices| - 1 && |slices| == |old(slices)| + 1
      ensures fits <==> slices[writeAt].cap - slices[writeAt].w >= size
      ensures !fits ==> slices[writeAt].fromShm && Cut32(size) <= slices[writeAt].cap < size
      ensures slices[writeAt].w == 0 && Picked(old(bm.View()), bm.View(), slices[writeAt], size)
      ensures isFromShm == (old(isFromShm) && slices[writeAt].fromShm)
      ensures Building(p0, b0, bm.View(), View(), [])
    {
      hide Apart, Exchange, PoolOk, Contents, Offsets, Building, AllUnsent, AllEmpty, BufCore, Alloced, Cut32, Unread,
           Owned, Picked;
      BuildingCore(p0, b0, bm.View(), View(), []);
      ghost var p, b := bm.View(), View();
      CoreValid(p, b);
      var s := SliceForReserve(size);
      if !s.fromShm {
        isFromShm := false;
      }
      slices := slices + [s];
      assert [s][0] == s;
      AllocStep(p, b, bm.View(), [s], if s.fromShm then Cut32(size) else size, s.fromShm);
      BuildingIdle(p0, b0, p, b, bm.View(), View(), []);
      ghost var c := View();
      writeAt := |slices| - 1;
      fits := s.cap >= size;
      MoveTo(p0, b0, bm.View(), c, |slices| - 1, []);
    }

    /** A slot for the cut length, or else a heap block for the whole. */
    method SliceForReserve(size: nat) returns (s: Slice)
      requires bm.Valid()
      modifies bm
      ensures s.w == 0 && s.cap >= if s.fromShm then Cut32(size) else size
      ensures Alloced(old(bm.View()), bm.View(), [s], if s.fromShm then Cut32(size) else size)
      ensures Picked(old(bm.View()), bm.View(), s, size)
    {
      hide Apart, Exchange, Offsets, Alloced, Cut32, Picked;
      ghost var p := bm.View();
      var buf := bm.AllocOne(Cut32(size));
      if buf.Some? {
        AllocedOne(p, bm.View(), buf.value, Cut32(size));
        PickedOne(p, bm.View(), buf.value, size);
        return buf.value;
      }
      var allocSize := if size < DEFAULT_SINGLE_BUFFER_SIZE then DEFAULT_SINGLE_BUFFER_SIZE else size;
      s := Slice(0, false, allocSize, 0, 0, 0, seq(allocSize, _ => 0));
      AllocedHeapOnly(p, s, size);
      PickedHeap(p, s, size);
    }

    /** bufferSlice.reserve on the write slice, which has room and is the last slice. */
    method ReserveHere(size: nat, ghost p0: Pool, ghost b0: Buf) returns (from: nat)
      requires 0 <= writeAt == |slices| - 1 && slices[writeAt].cap - slices[writeAt].w >= size
      requires len == b0.len && LenOk(p0, b0) && Building(p0, b0, bm.View(), View(), [])
      requires b0.len + size == 0 ==> |slices| <= 1 && isFromShm
      modifies this`slices, this`len
      ensures writeAt >= 0 && Windowed(p0, b0, bm.View(), View(), size, writeAt, from)
      ensures |slices| == |old(slices)| && slices[writeAt].(w := 0) == old(slices[writeAt]).(w := 0)
    {
      hide Apart, Exchange, PoolOk, Contents, Offsets, Building, AllUnsent, AllEmpty, Wrote, WriteCore, Unread, Owned,
           FilledSlots, FilledSlice;
      BuildingCore(p0, b0, bm.View(), View(), []);
      var s := slices[writeAt];
      assert SliceOk(bm.slots, s) by { CoreSlice(bm.View(), View(), writeAt); }
      from := s.w;
      ghost var p, b := bm.View(), View();
      ghost var bytes := Backing(bm.slots, s)[from..from + size];
      slices := slices[writeAt := s.(w := s.w + size)];
      FillStep(p, b, bytes);
      FilledInPlace(p.slots, s, size);
      assert View() == Filled(b, bytes);
      BuildingTrans(p0, b0, p, b, bm.View(), View(), [], bytes);
      assert [] + bytes == bytes;
      ghost var c := View();
      len := len + size;
      FinishWrite(p0, b0, bm.View(), c, bytes);
    }

    /**
     done: writes the headers up to the write slice and gives back what lies behind it. The result
     is a chain the peer can follow exactly when the write slice was the last slice, because its
     header is written before the slices behind it are cut off.
     */
    method Done()
      requires WriteCore(bm.View(), View()) && 0 <= writeAt
      modifies this`slices, bm
      ensures old(isFromShm) ==> Published(old(bm.View()), old(View()), bm.View(), View(), OffsetSeq(slices))
      ensures !old(isFromShm) ==> bm.View() == old(bm.View()) && View() == old(View())
    {
      hide PoolOk, Apart, Exchange, Offsets, WriteCore, Published, Updated, UpdatedSlot, SliceOk;
      if isFromShm {
        ghost var p, b := bm.View(), View();
        DoneFacts(p, b);
        for i := 0 to writeAt + 1
          invariant bm.View() == p.(slots := bm.slots) && View() == b
          invariant Updated(p.slots, bm.slots, slices, i)
        {
          var s := slices[i];
          UpdateHere(p.slots, bm.slots, slices, i);
          UpdateStep(p, Offsets(slices), bm.slots, slices, i);
          bm.slots := bm.slots[s.offset := UpdatedSlot(bm.slots, slices, i)];
        }
        ghost var q := bm.View();
        BeforeTrim(p, b, q);
        var head := slices[writeAt + 1..];
        slices := slices[..writeAt + 1];
        bm.RecycleAll(head);
        TrimmedPublished(p, b, q, bm.View());
      }
    }

    // ---------- arrivals ----------

    /** appendBufferSlice */
    method AppendBufferSlice(s: Slice)
      requires s.r <= s.w
      modifies this`slices, this`writeAt, this`isFromShm, this`len
      ensures View() == Appended(old(View()), s)
    {
      slices := slices + [s];
      if !s.fromShm {
        isFromShm := false;
      }
      len := len + (s.w - s.r);
      writeAt := |slices| - 1;
    }

    /**
     An empty slot of an arriving chain. When slices are already queued, the last of them is linked
     past it, or marked as the end when nothing follows. The slot itself goes back.
     */
    method ElideSlot(slice: Slice, next: nat, hasNext: bool, ghost rest: multiset<nat>)
      requires ReadOk(bm.View(), View()) && isFromShm
      requires slice.fromShm && SliceOk(bm.slots, slice)
      requires Apart(bm.View(), Owned(View()) + (multiset{slice.offset} + rest))
      modifies bm
      ensures Moving(old(bm.View()), View(), multiset{slice.offset} + rest, bm.View(), View(), rest, [])
    {
      hide PoolOk, Apart, Exchange, Offsets, Contents, SliceBytes, ReadOk, Moving, SliceOk, IsPinned, Owned;
      ghost var q, c, o := bm.View(), View(), slice.offset;
      SlotValid(q, c, o, rest);
      if slices == [] {
        bm.Recycle(slice);
        SkipSlot(q, c, bm.View(), o, rest);
      } else {
        LastSlice(q, c);
        var pre := slices[|slices| - 1];
        var h := bm.slots[pre.offset];
        h := if hasNext then h.(next := next, hasNext := true) else h.(hasNext := false, inUsed := true);
        RelinkSlot(q, c, h, pre.offset, multiset{o} + rest);
        bm.slots := bm.slots[pre.offset := h];
        ghost var r := bm.View();
        MovingFacts(q, c, multiset{o} + rest, r, c, multiset{o} + rest, []);
        SlotValid(r, c, o, rest);
        RelinkSliceOk(q.slots, pre.offset, h, slice);
        bm.Recycle(slice);
        SkipSlot(r, c, bm.View(), o, rest);
        MovingTrans(q, c, multiset{o} + rest, r, c, multiset{o} + rest, bm.View(), c, rest, [], []);
        NothingTwice(q, c, multiset{o} + rest, bm.View(), c, rest);
      }
    }

    /**
     The inner loop of moveTo: walks one published chain, appends the slots that carry bytes and
     elides the empty ones.
     */
    method MoveChain(first: nat, ghost ch: seq<nat>, ghost t: multiset<nat>)
      requires ReadOk(bm.View(), View()) && isFromShm
      requires IsChain(bm.slots, ch) && ch[0] == first && ChainBytes(bm.slots, ch) != []
      requires Apart(bm.View(), Owned(View()) + (multiset(ch) + t))
      modifies this`slices, this`writeAt, this`isFromShm, this`len, bm
      ensures Moving(old(bm.View()), old(View()), multiset(ch) + t, bm.View(), View(), t, old(ChainBytes(bm.slots, ch)))
      ensures isFromShm
    {
      hide PoolOk, Apart, Exchange, Offsets, Contents, ChainBytes, SlotBytes, SliceBytes, ReadOk, Moving, SliceOk,
           IsPinned, Owned, IsChain, Intact;
      ghost var p0, b0, all := bm.View(), View(), multiset(ch) + t;
      MovingNothing(p0, b0, all);
      var offset := first;
      ghost var k := 0;
      ChainStart(p0.slots, ch);
      while true
        invariant 0 <= k < |ch| && offset == ch[k] && isFromShm
        invariant Moving(p0, b0, all, bm.View(), View(), multiset(ch[k..]) + t, ChainBytes(p0.slots, ch[..k]))
        invariant slices == [] ==> ChainBytes(p0.slots, ch[..k]) == []
        decreases |ch| - k
      {
        ghost var q, c, rest := bm.View(), View(), multiset(ch[k + 1..]) + t;
        MovingFacts(p0, b0, all, q, c, multiset(ch[k..]) + t, ChainBytes(p0.slots, ch[..k]));
        ChainCursor(p0.slots, q.slots, ch, k, t);
        SlotValid(q, c, ch[k], rest);
        var got := bm.ReadSlice(offset);
        var slice := got.value;
        var next, hasNext := bm.slots[offset].next, bm.slots[offset].hasNext;
        CursorBytes(p0.slots, q.slots, ch, k, slice);
        if slice.r == slice.w {
          ElideSlot(slice, next, hasNext, rest);
          MovedOn(p0, b0, all, q, c, bm.View(), View(), ch, k, t, []);
        } else {
          AppendSlice(q, c, slice, rest);
          AppendBufferSlice(slice);
          MovedOn(p0, b0, all, q, c, bm.View(), View(), ch, k, t, SliceBytes(q.slots, slice));
        }
        if slices != [] && !hasNext {
          ChainStop(ch, t);
          break;
        }
        LastNotEmpty(p0.slots, ch, k);
        offset := next;
        k := k + 1;
      }
    }

    // ---------- reading ----------

    ghost predicate ValidForRead()
      reads this, bm, pending
    {
      pending.Matches() && RecvOk(bm.View(), View(), pending.parcels)
    }

    /** moveTo: all waiting parcels become slices of this buffer, in order. */
    method MoveFromPending()
      requires ValidForRead()
      modifies this`slices, this`writeAt, this`isFromShm, this`len, bm, pending
      ensures ValidForRead() && pending.parcels == []
      ensures Delivered(old(bm.View()), old(View()), old(pending.parcels), bm.View(), View(), [], [])
      ensures pending.fellBack <==> old(pending.fellBack || HasHeap(pending.parcels))
      ensures len == |old(Available(bm.View(), View(), pending.parcels))|
    {
      hide PoolOk, Apart, Exchange, Offsets, Contents, ReadOk, Moving, IsPinned, Owned, Intact, ParcelBytes,
           ParcelSlots, ParcelsOk, ChainsFirst, NoChain, SliceOk, Delivered, ChainBytes, IsChain, HasHeap;
      ghost var p0, b0, ps := bm.View(), View(), pending.parcels;
      var unread := pending.unread;
      MoveStart(p0, b0, ps);
      NoHeapYet(ps);
      for i := 0 to |unread|
        invariant pending.unread == unread && pending.parcels == ps && pending.Matches()
        invariant Moving(p0, b0, ParcelSlots(ps), bm.View(), View(), ParcelSlots(ps[i..]),
          ParcelBytes(p0.slots, ps[..i]))
        invariant Acceptable(View(), ps[i..])
        invariant pending.fellBack <==> old(pending.fellBack) || HasHeap(ps[..i])
        invariant !isFromShm ==> !b0.isFromShm || HasHeap(ps[..i])
      {
        HeapSoFar(ps, i);
        ghost var q, c, rest := bm.View(), View(), ParcelSlots(ps[i + 1..]);
        MovingFacts(p0, b0, ParcelSlots(ps), q, c, ParcelSlots(ps[i..]), ParcelBytes(p0.slots, ps[..i]));
        ParcelCursor(p0.slots, q.slots, c, ps, i);
        assert Describes(unread[i], ps[i]);
        match unread[i] {
          case Fallback(data) =>
            var s := Slice(0, false, |data|, 0, 0, |data|, data);
            HeapSlice(q.slots, data);
            assert ParcelSlot(ps[i]) + rest == rest;
            AppendHeap(q, c, s, rest);
            AppendBufferSlice(s);
            pending.fellBack := true;
          case Shm(offset) =>
            MoveChain(offset, ps[i].ch, rest);
        }
        MovedParcel(p0, b0, ps, q, c, bm.View(), View(), i);
      }
      MoveStop(p0, b0, ps, bm.View(), View());
      assert ps[..|unread|] == ps;
      pending.unread, pending.parcels := [], [];
    }

    /**
     readMore without its waiting: moves what has arrived and says whether `minSize` bytes are
     there. A reader that would block sees `false` and calls again when more has arrived.
     */
    method ReadMore(minSize: nat) returns (ok: bool)
      requires ValidForRead()
      modifies this`slices, this`writeAt, this`isFromShm, this`len, bm, pending
      ensures ValidForRead() && pending.parcels == []
      ensures Marks(old(pending.fellBack), old(pending.parcels), pending.parcels, pending.fellBack)
      ensures Delivered(old(bm.View()), old(View()), old(pending.parcels), bm.View(), View(), pending.parcels, [])
      ensures len == |old(Available(bm.View(), View(), pending.parcels))| && ok == (len >= minSize)
    {
      hide Delivered, RecvOk, HasHeap, Marks, Available;
      ghost var was, ps := pending.fellBack, pending.parcels;
      MoveFromPending();
      MarksAll(was, ps, pending.fellBack);
      ok := len >= minSize;
    }

    /** bufferSlice.read on the front slice: at most `size` bytes, all of them when it has enough. */
    method FrontRead(size: nat) returns (data: seq<byte>)
      requires ReadCore(bm.View(), View()) && slices != []
      modifies this`slices
      ensures |slices| == |old(slices)| && slices[0].offset == old(slices)[0].offset
      ensures slices[0].fromShm == old(slices)[0].fromShm
      ensures |data| == if old(slices[0].w - slices[0].r) < size then old(slices[0].w - slices[0].r) else size
      ensures |data| < size ==> slices[0].r == slices[0].w
      ensures Reading(bm.View(), old(View()), bm.View(), View(), data)
      ensures slices[0].fromShm ==> Window(bm.slots, slices[0].offset, data)
    {
      hide PoolOk, Apart, Exchange, Offsets, Contents, IsPinned, Reading, SliceBytes;
      var s := slices[0];
      assert SliceOk(bm.slots, s);
      var n := if s.w - s.r < size then s.w - s.r else size;
      data := if s.fromShm then bm.slots[s.offset].data[s.r..s.r + n] else s.heap[s.r..s.r + n];
      TakeStep(bm.View(), View(), n);
      FrontBytes(bm.slots, s, n);
      slices := slices[0 := s.(r := s.r + n)];
      assert View() == Took(old(View()), n);
    }

    /** readNextSlice: drops the exhausted front slice, keeping its slot when it was lent out. */
    method NextSlice()
      requires ReadCore(bm.View(), View()) && slices != [] && slices[0].r == slices[0].w
      modifies this`slices, this`writeAt, this`pinned, this`currentPinned, bm
      ensures View() == Advanced(old(View()))
      ensures Reading(old(bm.View()), old(View()), bm.View(), View(), [])
    {
      hide PoolOk, Apart, Exchange, Offsets, Contents, IsPinned, Reading;
      ghost var p, b := bm.View(), View();
      var s := slices[0];
      NextFacts(p, b);
      slices := slices[1..];
      writeAt := if writeAt > 0 then writeAt - 1 else if writeAt == 0 then -2 else writeAt;
      if s.fromShm {
        if currentPinned {
          pinned := pinned + [s];
        } else {
          bm.Recycle(s);
        }
      }
      currentPinned := false;
      ExchangeRefl(p, multiset{});
      NextStep(p, b, bm.View());
    }

    /** ReadByte */
    method ReadByte() returns (r: Option<byte>)
      requires ValidForRead()
      modifies this, bm, pending
      ensures ValidForRead()
      ensures r.None? <==> |old(Available(bm.View(), View(), pending.parcels))| < 1
      ensures Marks(old(pending.fellBack), old(pending.parcels), pending.parcels, pending.fellBack)
      ensures Delivered(old(bm.View()), old(View()), old(pending.parcels), bm.View(), View(), pending.parcels,
                        if r.None? then [] else [r.value])
    {
      hide PoolOk, Apart, Exchange, Offsets, Contents, IsPinned, Reading, Delivered, Pins, ParcelSlots, ParcelBytes,
           BufCore, ReadCore, Unread, Owned, ParcelsOk, Acceptable, Marks;
      ghost var p0, b0, ps0 := bm.View(), View(), pending.parcels;
      MarksNothing(pending.fellBack, ps0);
      DeliveredNothing(p0, b0, ps0);
      if len < 1 {
        var ok := ReadMore(1);
        if !ok {
          return None;
        }
      }
      ghost var p1, b1, ps1 := bm.View(), View(), pending.parcels;
      DeliveredRecv(p0, b0, ps0, p1, b1, ps1, []);
      var data := TakeByte();
      ghost var c := View();
      len := len - 1;
      FinishRead(p0, b0, ps0, p1, b1, ps1, bm.View(), c, data);
      assert data == [data[0]];
      r := Some(data[0]);
      ReadDone(p0, b0, ps0, bm.View(), View(), ps1, data);
    }

    /** ReadByte, when a byte is there: from the front slice, or from the next when the front is exhausted. */
    method TakeByte() returns (data: seq<byte>)
      requires ReadCore(bm.View(), View()) && |Unread(bm.View(), View())| >= 1
      modifies this`slices, this`writeAt, this`pinned, this`currentPinned, bm
      ensures |data| == 1 && Reading(old(bm.View()), old(View()), bm.View(), View(), data)
    {
      hide PoolOk, Apart, Exchange, Offsets, Contents, IsPinned, Reading, Pins, BufCore, ReadCore, Unread, Owned;
      ghost var p1, b1 := bm.View(), View();
      EnoughFront(p1, b1, 1);
      data := FrontRead(1);
      ReadingCore(p1, b1, bm.View(), View(), data);
      if |data| == 1 {
        return;
      }
      ghost var p2, b2 := bm.View(), View();
      NextSlice();
      ReadingTrans(p1, b1, p2, b2, bm.View(), View(), data, []);
      ReadingCore(p1, b1, bm.View(), View(), data + []);
      ghost var p3, b3 := bm.View(), View();
      EnoughFront(p3, b3, 1);
      data := FrontRead(1);
      ReadingTrans(p1, b1, p3, b3, bm.View(), View(), [] + [], data);
      assert [] + [] + data == data;
    }

    /**
     ReadBytes: a window of the front slot, lent to the caller and pinned, when the front slice
     has enough; otherwise a copy collected across slices. `lent` names the slot that was lent.
     */
    method ReadBytes(size: int) returns (r: Option<seq<byte>>, lent: Option<nat>)
      requires ValidForRead()
      modifies this, bm, pending
      ensures ValidForRead()
      ensures r.None? <==> |old(Available(bm.View(), View(), pending.parcels))| < size
      ensures r.Some? ==> |r.value| == if size < 0 then 0 else size
      ensures Marks(old(pending.fellBack), old(pending.parcels), pending.parcels, pending.fellBack)
      ensures Delivered(old(bm.View()), old(View()), old(pending.parcels), bm.View(), View(), pending.parcels,
                        if r.None? then [] else r.value)
      ensures old(len) >= size > 0 ==> lent == Lendable(old(slices), size)
      ensures lent.Some? ==> r.Some? && IsPinned(View(), lent.value) && Window(bm.slots, lent.value, r.value)
    {
      hide PoolOk, Apart, Exchange, Offsets, Contents, Reading, Delivered, Pins, ParcelSlots, ParcelBytes, BufCore,
           ReadCore, Unread, Owned, ParcelsOk, Acceptable, Window, Marks;
      ghost var p0, b0, ps0 := bm.View(), View(), pending.parcels;
      MarksNothing(pending.fellBack, ps0);
      DeliveredNothing(p0, b0, ps0);
      RecvLen(p0, b0, ps0);
      lent := None;
      if size <= 0 {
        return Some([]), None;
      }
      if len < size {
        var ok := ReadMore(size);
        if !ok {
          return None, None;
        }
      }
      ghost var p1, b1, ps1 := bm.View(), View(), pending.parcels;
      DeliveredRecv(p0, b0, ps0, p1, b1, ps1, []);
      var result: seq<byte>;
      result, lent := TakeBytes(size);
      ghost var c := View();
      len := len - size;
      FinishRead(p0, b0, ps0, p1, b1, ps1, bm.View(), c, result);
      ReadDone(p0, b0, ps0, bm.View(), View(), ps1, result);
      r := Some(result);
    }

    /** ReadBytes, when enough bytes are there: the front slice decides between a window and a copy. */
    method TakeBytes(size: nat) returns (result: seq<byte>, lent: Option<nat>)
      requires ReadCore(bm.View(), View()) && |Unread(bm.View(), View())| >= size > 0
      modifies this`slices, this`writeAt, this`pinned, this`currentPinned, bm
      ensures |result| == size && Reading(old(bm.View()), old(View()), bm.View(), View(), result)
      ensures lent == Lendable(old(slices), size)
      ensures lent.Some? ==> IsPinned(View(), lent.value) && Window(bm.slots, lent.value, result)
    {
      hide PoolOk, Apart, Exchange, Offsets, Contents, Reading, Pins, BufCore, ReadCore, Unread, Owned, Window;
      ghost var p1, b1 := bm.View(), View();
      lent := None;
      ReadingNothing(p1, b1);
      EnoughFront(p1, b1, size);
      if slices[0].r == slices[0].w {
        NextSlice();
      }
      ReadingCore(p1, b1, bm.View(), View(), []);
      ghost var p2, b2 := bm.View(), View();
      EnoughFront(p2, b2, size);
      if slices[0].w - slices[0].r >= size {
        result, lent := ReadLent(size, p1, b1);
      } else {
        result := CollectBytes(size, p1, b1);
      }
    }

    /** The fast path of ReadBytes: a window of the front slot, which becomes pinned. */
    method ReadLent(size: nat, ghost p1: Pool, ghost b1: Buf) returns (result: seq<byte>, lent: Option<nat>)
      requires Reading(p1, b1, bm.View(), View(), []) && slices != [] && slices[0].w - slices[0].r >= size
      modifies this`slices, this`currentPinned
      ensures |result| == size && Reading(p1, b1, bm.View(), View(), result)
      ensures lent == (if old(slices)[0].fromShm then Some(old(slices)[0].offset) else None) && currentPinned
      ensures lent.Some? ==> IsPinned(View(), lent.value) && Window(bm.slots, lent.value, result)
    {
      hide Contents, Reading, ReadCore, Window, Offsets, Unread;
      ghost var p, b := bm.View(), View();
      ReadingCore(p1, b1, p, b, []);
      PinStep(p, b);
      currentPinned := true;
      ghost var c := View();
      ReadingIdle(p1, b1, p, b, p, c, []);
      ReadingCore(p1, b1, p, c, []);
      result := FrontRead(size);
      ReadingFirst(p1, b1, p, c, bm.View(), View(), result);
      lent := if slices[0].fromShm then Some(slices[0].offset) else None;
    }

    /** The slow path of ReadBytes: copies `size` bytes slice by slice. */
    method CollectBytes(size: nat, ghost p1: Pool, ghost b1: Buf) returns (result: seq<byte>)
      requires Reading(p1, b1, bm.View(), View(), []) && |Unread(bm.View(), View())| >= size
      modifies this`slices, this`writeAt, this`pinned, this`currentPinned, bm
      ensures |result| == size && Reading(p1, b1, bm.View(), View(), result)
    {
      hide PoolOk, Apart, Exchange, Offsets, Contents, Reading, Pins, BufCore, IsPinned, Unread;
      result := [];
      var left := size;
      ReadingCore(p1, b1, bm.View(), View(), []);
      ghost var total := |Unread(p1, b1)|;
      while left > 0
        invariant 0 <= left <= size && |result| == size - left
        invariant Reading(p1, b1, bm.View(), View(), result)
        invariant |Unread(bm.View(), View())| >= left && ReadCore(bm.View(), View())
        decreases left, |slices|
      {
        ghost var p, b, had := bm.View(), View(), result;
        NonEmpty(p, b);
        var data := FrontRead(left);
        ReadingTrans(p1, b1, p, b, bm.View(), View(), had, data);
        result := result + data;
        ReadingCore(p1, b1, bm.View(), View(), result);
        ReadingCore(p, b, bm.View(), View(), data);
        if |data| != left {
          ghost var q, c := bm.View(), View();
          NextSlice();
          ReadingIdle(p1, b1, q, c, bm.View(), View(), result);
          ReadingCore(p1, b1, bm.View(), View(), result);
          ReadingCore(q, c, bm.View(), View(), []);
        }
        left := left - |data|;
      }
    }

    /** ReadString: always a copy, so nothing gets pinned. */
    method ReadString(size: int) returns (r: Option<seq<byte>>)
      requires ValidForRead()
      modifies this, bm, pending
      ensures ValidForRead()
      ensures r.None? <==> |old(Available(bm.View(), View(), pending.parcels))| < size
      ensures r.Some? ==> |r.value| == if size < 0 then 0 else size
      ensures Marks(old(pending.fellBack), old(pending.parcels), pending.parcels, pending.fellBack)
      ensures Delivered(old(bm.View()), old(View()), old(pending.parcels), bm.View(), View(), pending.parcels,
                        if r.None? then [] else r.value)
      ensures currentPinned ==> old(currentPinned)
    {
      hide PoolOk, Apart, Exchange, Offsets, Contents, IsPinned, Reading, Delivered, Pins, ParcelSlots, ParcelBytes,
           BufCore, ReadCore, Unread, Owned, ParcelsOk, Acceptable, Marks;
      ghost var p0, b0, ps0 := bm.View(), View(), pending.parcels;
      MarksNothing(pending.fellBack, ps0);
      DeliveredNothing(p0, b0, ps0);
      if size <= 0 {
        return Some([]);
      }
      if len < size {
        var ok := ReadMore(size);
        if !ok {
          return None;
        }
      }
      ghost var p1, b1, ps1 := bm.View(), View(), pending.parcels;
      DeliveredRecv(p0, b0, ps0, p1, b1, ps1, []);
      ReadingNothing(p1, b1);
      EnoughFront(p1, b1, size);
      var result: seq<byte> := [];
      if slices[0].w - slices[0].r >= size {
        result := FrontRead(size);
      } else {
        result := CollectString(size, p1, b1);
      }
      ghost var c := View();
      len := len - size;
      FinishRead(p0, b0, ps0, p1, b1, ps1, bm.View(), c, result);
      ReadDone(p0, b0, ps0, bm.View(), View(), ps1, result);
      r := Some(result);
    }

    /** The slow path of ReadString: moves on before reading, not after. */
    method CollectString(size: nat, ghost p1: Pool, ghost b1: Buf) returns (result: seq<byte>)
      requires Reading(p1, b1, bm.View(), View(), []) && |Unread(bm.View(), View())| >= size
      modifies this`slices, this`writeAt, this`pinned, this`currentPinned, bm
      ensures |result| == size && Reading(p1, b1, bm.View(), View(), result)
      ensures currentPinned ==> old(currentPinned)
    {
      hide PoolOk, Apart, Exchange, Offsets, Contents, Reading, Pins, BufCore, IsPinned, Unread;
      result := [];
      ReadingCore(p1, b1, bm.View(), View(), []);
      while |result| < size
        invariant |result| <= size && (currentPinned ==> old(currentPinned))
        invariant Reading(p1, b1, bm.View(), View(), result)
        invariant |Unread(bm.View(), View())| >= size - |result| && ReadCore(bm.View(), View())
        decreases size - |result|, |slices|
      {
        ghost var p, b, had := bm.View(), View(), result;
        NonEmpty(p, b);
        if slices[0].r == slices[0].w {
          NextSlice();
          ReadingIdle(p1, b1, p, b, bm.View(), View(), result);
          ReadingCore(p1, b1, bm.View(), View(), result);
          ReadingCore(p, b, bm.View(), View(), []);
          NonEmpty(bm.View(), View());
        }
        ghost var q, c := bm.View(), View();
        var data := FrontRead(size - |result|);
        ReadingTrans(p1, b1, q, c, bm.View(), View(), had, data);
        result := result + data;
        ReadingCore(p1, b1, bm.View(), View(), result);
        ReadingCore(q, c, bm.View(), View(), data);
      }
    }

    /** Discard: drops exactly `size` bytes. It uses a front slice even to drop nothing: `ok` says there is one. */
    method Discard(size: nat) returns (ok: bool, r: Option<nat>)
      requires ValidForRead()
      modifies this, bm, pending
      ensures ValidForRead()
      ensures !ok <==> size == 0 && old(slices) == []
      ensures ok ==> (r.None? <==> |old(Available(bm.View(), View(), pending.parcels))| < size)
      ensures !ok ==> r.None? && bm.View() == old(bm.View()) && View() == old(View())
      ensures r.Some? ==> r.value == size <= |old(Available(bm.View(), View(), pending.parcels))|
      ensures Marks(old(pending.fellBack), old(pending.parcels), pending.parcels, pending.fellBack)
      ensures Delivered(old(bm.View()), old(View()), old(pending.parcels), bm.View(), View(), pending.parcels,
                        if r.None? then [] else old(Available(bm.View(), View(), pending.parcels))[..size])
    {
      hide PoolOk, Apart, Exchange, Offsets, Contents, IsPinned, Reading, Delivered, Pins, ParcelSlots, ParcelBytes,
           BufCore, ReadCore, Unread, Owned, ParcelsOk, Acceptable, Marks;
      ghost var p0, b0, ps0 := bm.View(), View(), pending.parcels;
      MarksNothing(pending.fellBack, ps0);
      DeliveredNothing(p0, b0, ps0);
      if len < size {
        var more := ReadMore(size);
        if !more {
          return true, None;
        }
      } else if size == 0 && slices == [] {
        return false, None;
      }
      ghost var p1, b1, ps1 := bm.View(), View(), pending.parcels;
      DeliveredRecv(p0, b0, ps0, p1, b1, ps1, []);
      ghost var gone;
      var n;
      n, gone := DropBytes(size);
      ghost var c := View();
      len := len - n;
      FinishRead(p0, b0, ps0, p1, b1, ps1, bm.View(), c, gone);
      ReadDone(p0, b0, ps0, bm.View(), View(), ps1, gone);
      ok, r := true, Some(n);
    }

    /** The loop of Discard. */
    method DropBytes(size: nat) returns (n: nat, ghost gone: seq<byte>)
      requires ReadCore(bm.View(), View()) && |Unread(bm.View(), View())| >= size && (size > 0 || slices != [])
      modifies this`slices, this`writeAt, this`pinned, this`currentPinned, bm
      ensures n == size == |gone| && Reading(old(bm.View()), old(View()), bm.View(), View(), gone)
    {
      hide PoolOk, Apart, Exchange, Offsets, Contents, IsPinned, Reading, Pins, BufCore, ReadCore, Unread, Owned;
      ghost var p1, b1 := bm.View(), View();
      ReadingNothing(p1, b1);
      var left := size;
      n, gone := 0, [];
      while true
        invariant 0 <= left <= size && n == size - left == |gone| && (left > 0 || slices != [])
        invariant Reading(p1, b1, bm.View(), View(), gone)
        invariant |Unread(bm.View(), View())| >= left && ReadCore(bm.View(), View())
        decreases left, |slices|
      {
        ghost var p, b, had := bm.View(), View(), gone;
        if left > 0 {
          EnoughFront(p, b, left);
        }
        var skipped := FrontRead(left);
        n, left := n + |skipped|, left - |skipped|;
        ReadingTrans(p1, b1, p, b, bm.View(), View(), had, skipped);
        gone := gone + skipped;
        ReadingCore(p1, b1, bm.View(), View(), gone);
        ReadingCore(p, b, bm.View(), View(), skipped);
        if left == 0 {
          break;
        }
        ghost var q, c := bm.View(), View();
        NextSlice();
        ReadingIdle(p1, b1, q, c, bm.View(), View(), gone);
        ReadingCore(p1, b1, bm.View(), View(), gone);
        ReadingCore(q, c, bm.View(), View(), []);
      }
    }

    /** read: copies out at most `size` bytes, at least one unless nothing has arrived. */
    method Read(size: nat) returns (r: Option<seq<byte>>)
      requires ValidForRead()
      modifies this, bm, pending
      ensures ValidForRead()
      ensures r.None? <==> size > 0 && old(Available(bm.View(), View(), pending.parcels)) == []
      ensures r.Some? ==> |r.value| <= size && (size > 0 ==> |r.value| > 0)
      ensures r.Some? && |r.value| < size ==> Unread(bm.View(), View()) == []
      ensures Marks(old(pending.fellBack), old(pending.parcels), pending.parcels, pending.fellBack)
      ensures Delivered(old(bm.View()), old(View()), old(pending.parcels), bm.View(), View(), pending.parcels,
                        if r.None? then [] else r.value)
    {
      hide PoolOk, Apart, Exchange, Offsets, Contents, IsPinned, Reading, Delivered, Pins, ParcelSlots, ParcelBytes,
           BufCore, ReadCore, Unread, Owned, ParcelsOk, Acceptable, Marks;
      ghost var p0, b0, ps0 := bm.View(), View(), pending.parcels;
      MarksNothing(pending.fellBack, ps0);
      DeliveredNothing(p0, b0, ps0);
      if size <= 0 {
        return Some([]);
      }
      if len < 1 {
        var ok := ReadMore(1);
        if !ok {
          return None;
        }
      }
      ghost var p1, b1, ps1 := bm.View(), View(), pending.parcels;
      DeliveredRecv(p0, b0, ps0, p1, b1, ps1, []);
      ReadingNothing(p1, b1);
      var result := CopyOut(size, p1, b1);
      ghost var c := View();
      len := len - |result|;
      UnreadWhatever(bm.View(), c, len);
      FinishRead(p0, b0, ps0, p1, b1, ps1, bm.View(), c, result);
      ReadDone(p0, b0, ps0, bm.View(), View(), ps1, result);
      r := Some(result);
    }

    /** The loop of read: takes bytes until it has `size` or no slice is left. */
    method CopyOut(size: nat, ghost p1: Pool, ghost b1: Buf) returns (result: seq<byte>)
      requires Reading(p1, b1, bm.View(), View(), [])
      modifies this`slices, this`writeAt, this`pinned, this`currentPinned, bm
      ensures |result| <= size && Reading(p1, b1, bm.View(), View(), result)
      ensures |result| < size ==> Unread(bm.View(), View()) == []
    {
      hide PoolOk, Apart, Exchange, Offsets, Reading, Pins, BufCore, IsPinned;
      result := [];
      ReadingCore(p1, b1, bm.View(), View(), []);
      while slices != [] && size > |result|
        invariant |result| <= size
        invariant Reading(p1, b1, bm.View(), View(), result) && ReadCore(bm.View(), View())
        decreases size - |result|, |slices|
      {
        ghost var p, b, had := bm.View(), View(), result;
        var data := FrontRead(size - |result|);
        ReadingTrans(p1, b1, p, b, bm.View(), View(), had, data);
        result := result + data;
        ReadingCore(p1, b1, bm.View(), View(), result);
        if |result| == size {
          break;
        }
        ghost var q, c := bm.View(), View();
        NextSlice();
        ReadingIdle(p1, b1, q, c, bm.View(), View(), result);
        ReadingCore(p1, b1, bm.View(), View(), result);
      }
    }

    /** Peek: the next `size` bytes without consuming them, lent from the front slot if it has enough. */
    method Peek(size: int) returns (r: Option<seq<byte>>, lent: Option<nat>)
      requires ValidForRead()
      modifies this, bm, pending
      ensures ValidForRead()
      ensures r.None? <==> |old(Available(bm.View(), View(), pending.parcels))| < size
      ensures r.Some? && size > 0 ==> r.value == old(Available(bm.View(), View(), pending.parcels))[..size]
      ensures Marks(old(pending.fellBack), old(pending.parcels), pending.parcels, pending.fellBack)
      ensures Delivered(old(bm.View()), old(View()), old(pending.parcels), bm.View(), View(), pending.parcels, [])
      ensures old(len) >= size > 0 ==> old(slices) != [] && lent == LentBy(old(slices)[0], size)
      ensures lent.Some? ==> r.Some? && IsPinned(View(), lent.value) && Window(bm.slots, lent.value, r.value)
    {
      hide PoolOk, Apart, Exchange, Contents, Delivered, ParcelBytes, ParcelSlots, ParcelsOk, Acceptable, ReadCore,
           BufCore, Window, Unread, Owned, Offsets, IsPinned, Marks, Pins, Reading;
      ghost var p0, b0, ps0 := bm.View(), View(), pending.parcels;
      MarksNothing(pending.fellBack, ps0);
      DeliveredNothing(p0, b0, ps0);
      RecvLen(p0, b0, ps0);
      lent := None;
      if size <= 0 {
        return Some([]), None;
      }
      if len < size {
        var ok := ReadMore(size);
        if !ok {
          return None, None;
        }
      }
      ghost var p1, b1, ps1 := bm.View(), View(), pending.parcels;
      DeliveredRecv(p0, b0, ps0, p1, b1, ps1, []);
      EnoughFront(p1, b1, size);
      var data;
      if slices[0].w - slices[0].r >= size {
        data, lent := PeekLent(size);
        FinishRead(p0, b0, ps0, p1, b1, ps1, p1, View(), []);
      } else {
        data := PeekCopy(size);
      }
      PeekedAvailable(p0, b0, ps0, p1, b1, ps1, data);
      ReadDone(p0, b0, ps0, bm.View(), View(), ps1, []);
      r := Some(data);
    }

    /** The fast path of Peek: a window of the front slot, which becomes pinned. */
    method PeekLent(size: nat) returns (data: seq<byte>, lent: Option<nat>)
      requires ReadCore(bm.View(), View()) && slices != [] && slices[0].w - slices[0].r >= size
      modifies this`currentPinned
      ensures |data| == size && data <= Unread(bm.View(), View()) == old(Unread(bm.View(), View()))
      ensures Reading(bm.View(), old(View()), bm.View(), View(), [])
      ensures lent == (if slices[0].fromShm then Some(slices[0].offset) else None) && currentPinned
      ensures lent.Some? ==> IsPinned(View(), lent.value) && Window(bm.slots, lent.value, data)
    {
      hide PoolOk, Apart, Exchange, Offsets, Reading, Contents, Window;
      ghost var b := View();
      var s := slices[0];
      assert SliceOk(bm.slots, s);
      currentPinned := true;
      PinStep(bm.View(), b);
      FrontBytes(bm.slots, s, size);
      PeekFront(bm.View(), b, size);
      data := PeekSlice(s, size);
      lent := if s.fromShm then Some(s.offset) else None;
    }

    /** The slow path of Peek: collects a copy across slices. */
    method PeekCopy(size: nat) returns (result: seq<byte>)
      requires ReadCore(bm.View(), View()) && |Unread(bm.View(), View())| >= size
      requires slices != [] && slices[0].w - slices[0].r < size
      ensures |result| == size && result <= Unread(bm.View(), View())
    {
      hide PoolOk, Apart, Offsets, Contents, SliceOk;
      ghost var p, b := bm.View(), View();
      PeekFacts(p, b);
      result := PeekSlice(slices[0], size);
      var i := 1;
      PeekFront(p, b, slices[0].w - slices[0].r);
      while |result| < size && i < |slices|
        invariant 1 <= i <= |slices| && |result| <= size
        invariant result <= Unread(p, b)
        invariant |result| < size ==> result == Contents(bm.slots, slices[..i])
      {
        var more := PeekSlice(slices[i], size - |result|);
        PeekNext(p, b, i, more, size - |result|);
        result := result + more;
        i := i + 1;
      }
      assert slices[..|slices|] == slices;
    }

    /** bufferSlice.peek */
    method PeekSlice(s: Slice, size: nat) returns (data: seq<byte>)
      requires SliceOk(bm.slots, s)
      ensures data == Backing(bm.slots, s)[s.r..s.r + (if s.w - s.r < size then s.w - s.r else size)]
      ensures |data| == if s.w - s.r < size then s.w - s.r else size
    {
      var n := if s.w - s.r < size then s.w - s.r else size;
      data := if s.fromShm then bm.slots[s.offset].data[s.r..s.r + n] else s.heap[s.r..s.r + n];
    }

    // ---------- releasing ----------

    /** cleanPinnedList: the lent slots go back; an empty list leaves even the front pin in place. */
    method CleanPinnedList()
      requires BufCore(bm.View(), View())
      modifies this`pinned, this`currentPinned, bm
      ensures pinned == [] && currentPinned == (old(currentPinned) && old(pinned) == [])
      ensures Kept(old(bm.View()), old(View()), bm.View(), View())
    {
      hide PoolOk, Apart, Exchange, Offsets, SliceOk, Kept;
      ghost var p, b := bm.View(), View();
      KeptSame(p, b);
      if pinned == [] {
        return;
      }
      currentPinned := false;
      CleanFacts(p, b);
      bm.RecycleAll(pinned);
      pinned := [];
      CleanedPins(p, b, bm.View(), View());
    }

    /** ReleasePreviousRead: lent slots go back, and so does an exhausted last slice. */
    method ReleasePreviousRead()
      requires ReadOk(bm.View(), View())
      modifies this`slices, this`writeAt, this`pinned, this`currentPinned, bm
      ensures ReadOk(bm.View(), View()) && pinned == []
      ensures Kept(old(bm.View()), old(View()), bm.View(), View())
      ensures len == 0 ==> slices == []
      ensures len > 0 ==> slices == if old(slices != [] && slices[0].r == slices[0].w && writeAt == 0)
                                    then old(slices)[1..] else old(slices)
    {
      hide PoolOk, Apart, Exchange, Offsets, SliceOk, Kept, Contents, BufCore;
      ghost var p, b := bm.View(), View();
      CleanPinnedList();
      KeptRead(p, b, bm.View(), View());
      if slices == [] {
        return;
      }
      EmptyShape(bm.View(), View());
      if slices[0].r == slices[0].w && writeAt == 0 {
        ghost var q, c := bm.View(), View();
        var s := slices[0];
        NextFacts(q, c);
        slices, writeAt := slices[1..], -1;
        bm.Recycle(s);
        DroppedFront(q, c, bm.View(), View());
        KeptTrans(p, b, q, c, bm.View(), View());
      }
    }

    /** releasePreviousReadAndReserve: keeps an exhausted shared slot, wiped, for the next write. */
    method ReleasePreviousReadAndReserve()
      requires ReadOk(bm.View(), View())
      modifies this`slices, this`writeAt, this`pinned, this`currentPinned, bm
      ensures ReadOk(bm.View(), View()) && pinned == []
      ensures Kept(old(bm.View()), old(View()), bm.View(), View())
      ensures len == 0 && |slices| == 1 ==> WriteOk(bm.View(), View())
      ensures slices == if old(len) > 0 || |old(slices)| != 1 then old(slices)
                        else if old(slices)[0].fromShm then [old(slices)[0].(r := 0, w := 0)] else []
    {
      hide PoolOk, Apart, Exchange, Offsets, SliceOk, Kept, Contents, BufCore;
      ghost var p, b := bm.View(), View();
      CleanPinnedList();
      KeptRead(p, b, bm.View(), View());
      EmptyShape(bm.View(), View());
      if len == 0 && |slices| == 1 {
        ghost var q, c := bm.View(), View();
        var s := slices[0];
        NextFacts(q, c);
        if s.fromShm {
          ReserveFacts(q, c);
          bm.slots := bm.slots[s.offset := Reset(bm.slots[s.offset])];
          slices := [s.(r := 0, w := 0)];
          ReservedFront(q, c, bm.View(), View());
        } else {
          slices, writeAt := [], -2;
          ExchangeRefl(q, multiset{});
          DroppedFront(q, c, bm.View(), View());
        }
        KeptTrans(p, b, q, c, bm.View(), View());
      }
    }

    /** clean: forgets the slices without giving their slots back; pinned slots are not touched. */
    method Clean()
      modifies this`slices, this`writeAt, this`currentPinned, this`isFromShm, this`len
      ensures View() == Buf([], -1, pinned, false, true, 0)
    {
      slices, writeAt, currentPinned, isFromShm, len := [], -1, false, true, 0;
    }

    /** recycle: gives every slice back, then cleans; pinned slots are not touched. */
    method Recycle()
      requires BufCore(bm.View(), View())
      modifies this`slices, this`writeAt, this`currentPinned, this`isFromShm, this`len, bm
      ensures View() == Buf([], -1, pinned, false, true, 0)
      ensures bm.Valid() && Exchange(old(bm.View()), old(Offsets(slices)), bm.View(), multiset{})
    {
      hide PoolOk, Apart, Exchange, Offsets, SliceOk;
      CoreValid(bm.View(), View());
      RecycleFacts(bm.View(), View());
      bm.RecycleAll(slices);
      Clean();
    }
  }

  /** Nothing was read or written; slots only moved between the buffer and the free lists. */
  ghost predicate Kept(p: Pool, b: Buf, q: Pool, c: Buf)
  {
    && BufCore(q, c) && Exchange(p, Owned(b), q, Owned(c))
    && Unread(q, c) == Unread(p, b) && c.len == b.len && c.isFromShm == b.isFromShm
    && (ReadOk(p, b) ==> ReadOk(q, c))
  }

  /** A receive buffer without unread bytes has at most one slice, and that one is exhausted. */
  lemma EmptyShape(p: Pool, b: Buf)
    requires ReadOk(p, b)
    ensures b.len == 0 ==> |b.slices| <= 1
    ensures b.len == 0 && b.slices != [] ==> b.slices[0].r == b.slices[0].w && b.writeAt == 0
  {
    hide PoolOk, Apart, Offsets, Contents;
    if b.len == 0 && b.slices != [] {
      assert SliceOk(p.slots, b.slices[0]);
      ContentsLength(p.slots, b.slices, 0);
      if |b.slices| > 1 {
        ContentsLength(p.slots, b.slices, 1);
      }
    }
  }

  lemma KeptSame(p: Pool, b: Buf)
    requires BufCore(p, b)
    ensures Kept(p, b, p, b)
  {
    hide BufCore, Owned, Unread;
    ExchangeRefl(p, Owned(b));
  }

  lemma KeptTrans(p: Pool, b: Buf, q: Pool, c: Buf, r: Pool, d: Buf)
    requires Kept(p, b, q, c) && Kept(q, c, r, d)
    ensures Kept(p, b, r, d)
  {
    hide BufCore, Owned, Unread, Exchange, ReadOk;
    ExchangeTrans(p, Owned(b), q, Owned(c), r, Owned(d));
  }

  lemma KeptRead(p: Pool, b: Buf, q: Pool, c: Buf)
    requires Kept(p, b, q, c) && ReadOk(p, b)
    ensures ReadOk(q, c) && BufCore(q, c) && Unread(q, c) == Unread(p, b) && c.len == b.len
  {
  }

  lemma CleanFacts(p: Pool, b: Buf)
    requires BufCore(p, b)
    ensures PoolOk(p) && Apart(p, multiset{}) && Apart(p, Offsets(b.pinned)) && SlicesOk(p.slots, b.pinned)
  {
    hide PoolOk, Apart, Offsets;
    CoreValid(p, b);
    ApartPart(p, Offsets(b.slices), Offsets(b.pinned));
  }

  lemma RecycleFacts(p: Pool, b: Buf)
    requires BufCore(p, b)
    ensures Apart(p, Offsets(b.slices)) && SlicesOk(p.slots, b.slices)
  {
    hide PoolOk, Apart, Offsets;
    ApartPart(p, Offsets(b.slices), Offsets(b.pinned));
  }

  lemma CleanedPins(p: Pool, b: Buf, q: Pool, c: Buf)
    requires BufCore(p, b) && PoolOk(q) && Exchange(p, Offsets(b.pinned), q, multiset{})
    requires c == b.(pinned := [], currentPinned := c.currentPinned)
    ensures Kept(p, b, q, c)
  {
    hide PoolOk, Apart, Exchange, Offsets, Contents, SliceOk;
    OffsetsNone();
    assert Owned(b) == Offsets(b.pinned) + Offsets(b.slices);
    assert Owned(c) == Offsets(b.slices);
    ClearMoved(p, Offsets(b.pinned), Offsets(b.slices), q);
    SlicesIntact(p.slots, q.slots, b.slices);
  }

  lemma SlicesIntact(slots: map<nat, Slot>, slots': map<nat, Slot>, ss: seq<Slice>)
    requires Intact(slots, slots', Offsets(ss)) && SlicesOk(slots, ss)
    ensures SlicesOk(slots', ss) && Contents(slots', ss) == Contents(slots, ss)
  {
    hide Offsets, Contents, SliceOk;
    forall i | 0 <= i < |ss| ensures SameData(slots, slots', ss[i]) {
      if ss[i].fromShm {
        OffsetsMember(ss, i);
      }
    }
    ContentsFrame(slots, slots', ss);
  }

  /** The only slice, exhausted, leaves the list. */
  lemma DroppedFront(p: Pool, b: Buf, q: Pool, c: Buf)
    requires ReadOk(p, b) && |b.slices| == 1 && b.slices[0].r == b.slices[0].w && b.pinned == []
    requires PoolOk(q) && if b.slices[0].fromShm then Exchange(p, multiset{b.slices[0].offset}, q, multiset{})
      else q == p
    requires c == b.(slices := [], writeAt := c.writeAt) && -2 <= c.writeAt < 0
    ensures Kept(p, b, q, c) && ReadOk(q, c)
  {
    hide PoolOk, Apart;
    assert SliceOk(p.slots, b.slices[0]);
    assert b.slices[1..] == [];
    assert Contents(p.slots, b.slices) == SliceBytes(p.slots, b.slices[0]) + Contents(p.slots, b.slices[1..]);
    assert Owned(c) == multiset{} && Owned(b) == if b.slices[0].fromShm then multiset{b.slices[0].offset}
      else multiset{};
    ExchangeRefl(p, multiset{});
    ExchangeApart(p, Owned(b), q, Owned(c));
  }

  lemma ReserveFacts(p: Pool, b: Buf)
    requires ReadOk(p, b) && b.slices != [] && b.slices[0].fromShm
    ensures b.slices[0].offset in p.slots
  {
    hide PoolOk, Apart, Offsets, Contents;
    assert SliceOk(p.slots, b.slices[0]);
  }

  /** The only slice, exhausted, is wiped and can be written to. */
  lemma ReservedFront(p: Pool, b: Buf, q: Pool, c: Buf)
    requires ReadOk(p, b) && |b.slices| == 1 && b.slices[0].fromShm && b.len == 0 && b.pinned == []
    requires b.slices[0].offset in p.slots
    requires q == p.(slots := p.slots[b.slices[0].offset := Reset(p.slots[b.slices[0].offset])])
    requires c == b.(slices := [b.slices[0].(r := 0, w := 0)])
    ensures Kept(p, b, q, c) && WriteOk(q, c) && ReadOk(q, c)
  {
    hide Offsets, Exchange, Apart, PoolOk, Contents;
    var o := b.slices[0].offset;
    assert SliceOk(p.slots, b.slices[0]);
    OffsetsMember(b.slices, 0);
    ApartOne(p, Owned(b), o);
    assert p.slots[o].start == 0 by { StartsAtZero(p, o); }
    RelinkPool(p, o, Reset(p.slots[o]));
    OffsetsUpdate(b.slices, 0, c.slices[0]);
    assert c.slices == b.slices[0 := c.slices[0]];
    ResetExchange(p, q, o, Owned(b));
    ContentsOne(q.slots, c.slices[0]);
  }

  lemma StartsAtZero(p: Pool, o: nat)
    requires PoolOk(p) && o in p.slots
    ensures p.slots[o].start == 0
  {
  }

  lemma ResetExchange(p: Pool, q: Pool, o: nat, own: multiset<nat>)
    requires Apart(p, own) && o in own && o in p.slots && q == p.(slots := p.slots[o := Reset(p.slots[o])])
    ensures Exchange(p, own, q, own) && Apart(q, own)
  {
    assert q.slots.Keys == p.slots.Keys;
  }

  lemma RecvLen(p: Pool, b: Buf, ps: seq<Parcel>)
    requires RecvOk(p, b, ps)
    ensures b.len == |Unread(p, b)| <= |Available(p, b, ps)|
  {
  }

  lemma PeekFacts(p: Pool, b: Buf)
    requires ReadCore(p, b)
    ensures SlicesOk(p.slots, b.slices)
    ensures forall i :: 0 <= i < |b.slices| ==> SliceOk(p.slots, b.slices[i]) && b.slices[i].r <= b.slices[i].w
  {
  }

  lemma PeekFront(p: Pool, b: Buf, n: nat)
    requires SlicesOk(p.slots, b.slices) && b.slices != [] && n <= b.slices[0].w - b.slices[0].r
    ensures n <= |Unread(p, b)| && b.slices[0].r + n <= |Backing(p.slots, b.slices[0])|
    ensures Backing(p.slots, b.slices[0])[b.slices[0].r..b.slices[0].r + n] <= Unread(p, b)
    ensures n == b.slices[0].w - b.slices[0].r ==>
      Backing(p.slots, b.slices[0])[b.slices[0].r..b.slices[0].r + n] == Contents(p.slots, b.slices[..1])
  {
    var s := b.slices[0];
    assert SliceOk(p.slots, s);
    FrontBytes(p.slots, s, n);
    assert Contents(p.slots, b.slices[..1]) == SliceBytes(p.slots, s) + Contents(p.slots, b.slices[..1][1..]);
  }

  lemma PeekNext(p: Pool, b: Buf, i: nat, more: seq<byte>, left: nat)
    requires SlicesOk(p.slots, b.slices) && i < |b.slices|
    requires SliceOk(p.slots, b.slices[i])
    requires var s := b.slices[i];
      more == Backing(p.slots, s)[s.r..s.r + (if s.w - s.r < left then s.w - s.r else left)]
    ensures Contents(p.slots, b.slices[..i]) + more <= Unread(p, b)
    ensures |more| < left ==> Contents(p.slots, b.slices[..i]) + more == Contents(p.slots, b.slices[..i + 1])
  {
    hide Contents, Backing;
    var s := b.slices[i];
    ContentsAt(p.slots, b.slices, i);
    FrontBytes(p.slots, s, |more|);
    assert b.slices[..i + 1] == b.slices[..i] + [s];
    ContentsAppend(p.slots, b.slices[..i], [s]);
    ContentsOne(p.slots, s);
  }

  lemma ContentsOne(slots: map<nat, Slot>, s: Slice)
    ensures Contents(slots, [s]) == SliceBytes(slots, s)
  {
    assert Contents(slots, [s]) == SliceBytes(slots, s) + Contents(slots, []);
  }

  /** What is unread now was available before. */
  lemma PeekedAvailable(p: Pool, b: Buf, ps: seq<Parcel>, q: Pool, c: Buf, qs: seq<Parcel>, data: seq<byte>)
    requires Delivered(p, b, ps, q, c, qs, []) && data <= Unread(q, c)
    ensures data <= Available(p, b, ps)
  {
    hide Exchange, RecvOk;
  }

  lemma UnreadWhatever(p: Pool, b: Buf, len: int)
    ensures Unread(p, b.(len := len)) == Unread(p, b)
  {
  }

  lemma NonEmpty(p: Pool, b: Buf)
    ensures |Unread(p, b)| > 0 ==> b.slices != []
  {
  }

  /** `data` is a window of the memory of slot `o`. */
  ghost predicate Window(slots: map<nat, Slot>, o: nat, data: seq<byte>)
  {
    o in slots && exists i :: WindowAt(slots[o].data, i, data)
  }

  ghost predicate WindowAt(d: seq<byte>, i: int, data: seq<byte>)
  {
    0 <= i <= |d| - |data| && d[i..i + |data|] == data
  }

  lemma FrontBytes(slots: map<nat, Slot>, s: Slice, n: nat)
    requires SliceOk(slots, s) && n <= s.w - s.r
    ensures n <= |SliceBytes(slots, s)|
    ensures SliceBytes(slots, s)[..n] == Backing(slots, s)[s.r..s.r + n]
    ensures s.fromShm ==> Window(slots, s.offset, Backing(slots, s)[s.r..s.r + n])
  {
    var d := Backing(slots, s);
    assert d[s.r..s.w][..n] == d[s.r..s.r + n];
    assert WindowAt(d, s.r, d[s.r..s.r + n]);
  }

  lemma NextFacts(p: Pool, b: Buf)
    requires ReadCore(p, b) && b.slices != []
    ensures PoolOk(p) && Apart(p, multiset{}) && SliceOk(p.slots, b.slices[0])
    ensures b.slices[0].fromShm ==> Apart(p, multiset{b.slices[0].offset})
  {
    hide PoolOk, Apart;
    CoreValid(p, b);
    if b.slices[0].fromShm {
      var rest := Offsets(b.slices[1..]) + Offsets(b.pinned);
      assert Owned(b) == multiset{b.slices[0].offset} + rest;
      ApartPart(p, multiset{b.slices[0].offset}, rest);
    }
  }

  /** A buffer with unread bytes has a front slice. */
  lemma BuildingAnyLength(p: Pool, b: Buf, q: Pool, c: Buf, c': Buf)
    requires Building(p, b, q, c, []) && c' == c.(len := c'.len)
    ensures Building(p, b, q, c', [])
  {
    hide PoolOk, Apart, Exchange, Contents, Offsets;
    assert Unread(q, c') == Unread(q, c) && Owned(c') == Owned(c);
  }

  lemma EnoughFront(p: Pool, b: Buf, size: nat)
    requires |Unread(p, b)| >= size > 0
    ensures b.slices != []
  {
  }

  lemma ReadDone(p: Pool, b: Buf, ps: seq<Parcel>, q: Pool, c: Buf, qs: seq<Parcel>, out: seq<byte>)
    requires Delivered(p, b, ps, q, c, qs, out)
    ensures RecvOk(q, c, qs) && |Available(p, b, ps)| >= |out| && Available(p, b, ps)[..|out|] == out
  {
    hide Exchange, RecvOk, Available;
  }

  lemma MoveStart(p: Pool, b: Buf, ps: seq<Parcel>)
    requires RecvOk(p, b, ps)
    ensures Moving(p, b, ParcelSlots(ps), p, b, ParcelSlots(ps[0..]), ParcelBytes(p.slots, ps[..0]))
    ensures Acceptable(b, ps[0..])
  {
    hide Moving, ReadOk, Apart;
    assert ps[0..] == ps && ps[..0] == [];
    MovingNothing(p, b, ParcelSlots(ps));
  }

  lemma ParcelCursor(slots: map<nat, Slot>, slots': map<nat, Slot>, b: Buf, ps: seq<Parcel>, i: nat)
    requires ParcelsOk(slots, ps) && i < |ps| && Intact(slots, slots', ParcelSlots(ps[i..])) && Acceptable(b, ps[i..])
    ensures ParcelOk(slots, ps[i]) && ParcelOk(slots', ps[i])
    ensures ParcelSlots(ps[i..]) == ParcelSlot(ps[i]) + ParcelSlots(ps[i + 1..])
    ensures ParcelBytes(slots, ps[..i + 1]) == ParcelBytes(slots, ps[..i]) + ParcelData(slots, ps[i])
    ensures ParcelData(slots', ps[i]) == ParcelData(slots, ps[i])
    ensures ps[i].Chain? ==> b.isFromShm
    ensures Acceptable(b.(isFromShm := b.isFromShm && ps[i].Chain?), ps[i + 1..])
  {
    hide ParcelSlot, ParcelData, ParcelOk;
    assert ps[i..][1..] == ps[i + 1..] && ps[i..][0] == ps[i];
    ParcelIntact(slots, slots', ps[i]);
    assert ps[..i + 1] == ps[..i] + [ps[i]];
    ParcelBytesAppend(slots, ps[..i], [ps[i]]);
    assert ParcelBytes(slots, [ps[i]]) == ParcelData(slots, ps[i]) + ParcelBytes(slots, []);
    assert ps[i + 1..] == ps[i..][1..];
  }

  lemma HeapSlice(slots: map<nat, Slot>, data: seq<byte>)
    requires data != []
    ensures SliceOk(slots, Slice(0, false, |data|, 0, 0, |data|, data))
  {
  }

  lemma AppendHeap(p: Pool, b: Buf, s: Slice, t: multiset<nat>)
    requires ReadOk(p, b) && !s.fromShm && SliceOk(p.slots, s) && s.r < s.w && s.r == 0 && s.w == |s.heap|
    requires Apart(p, Owned(b) + t)
    ensures Moving(p, b, t, p, Appended(b, s), t, s.heap)
  {
    hide Moving, ReadOk, Apart, Owned;
    assert SlotOf(s) + t == t;
    AppendSlice(p, b, s, t);
    assert s.heap[0..|s.heap|] == s.heap;
  }

  lemma MovedParcel(p: Pool, b: Buf, ps: seq<Parcel>, q: Pool, c: Buf, r: Pool, d: Buf, i: nat)
    requires i < |ps| && ParcelSlots(ps[i..]) == ParcelSlot(ps[i]) + ParcelSlots(ps[i + 1..])
    requires Moving(p, b, ParcelSlots(ps), q, c, ParcelSlots(ps[i..]), ParcelBytes(p.slots, ps[..i]))
    requires Moving(q, c, ParcelSlots(ps[i..]), r, d, ParcelSlots(ps[i + 1..]), ParcelData(p.slots, ps[i]))
    requires ParcelBytes(p.slots, ps[..i + 1]) == ParcelBytes(p.slots, ps[..i]) + ParcelData(p.slots, ps[i])
    ensures Moving(p, b, ParcelSlots(ps), r, d, ParcelSlots(ps[i + 1..]), ParcelBytes(p.slots, ps[..i + 1]))
  {
    hide Moving, ParcelSlots, ParcelBytes, ParcelData;
    MovingTrans(p, b, ParcelSlots(ps), q, c, ParcelSlots(ps[i..]), r, d, ParcelSlots(ps[i + 1..]),
                ParcelBytes(p.slots, ps[..i]), ParcelData(p.slots, ps[i]));
  }

  lemma MoveStop(p: Pool, b: Buf, ps: seq<Parcel>, q: Pool, c: Buf)
    requires RecvOk(p, b, ps)
    requires Moving(p, b, ParcelSlots(ps), q, c, ParcelSlots(ps[|ps|..]), ParcelBytes(p.slots, ps[..|ps|]))
    requires !c.isFromShm ==> !b.isFromShm || HasHeap(ps[..|ps|])
    ensures Delivered(p, b, ps, q, c, [], []) && RecvOk(q, c, [])
    ensures c.len == |Available(p, b, ps)|
  {
    hide Moving, ParcelBytes, Available, ReadCore, Contents, HasHeap, Apart, Exchange, Arrived, Pins, Acceptable;
    assert ps[|ps|..] == [] && ps[..|ps|] == ps;
    MovedDelivered(p, b, ps, q, c);
  }

  lemma MovingFacts(p: Pool, b: Buf, t: multiset<nat>, q: Pool, c: Buf, u: multiset<nat>, x: seq<byte>)
    requires Moving(p, b, t, q, c, u, x)
    ensures ReadOk(q, c) && Apart(q, Owned(c) + u) && Intact(p.slots, q.slots, u)
  {
  }

  lemma SlotValid(p: Pool, b: Buf, o: nat, rest: multiset<nat>)
    requires ReadOk(p, b) && Apart(p, Owned(b) + (multiset{o} + rest))
    ensures PoolOk(p) && Apart(p, multiset{}) && Apart(p, multiset{o}) && o in p.slots
  {
    hide PoolOk, Apart, Offsets, Contents, SlicesOk;
    assert Owned(b) + (multiset{o} + rest) == multiset{o} + (Owned(b) + rest);
    ApartPart(p, multiset{o}, Owned(b) + rest);
    ApartOne(p, multiset{o}, o);
    assert multiset{} + multiset{o} == multiset{o};
    ApartPart(p, multiset{}, multiset{o});
  }

  lemma LastSlice(p: Pool, b: Buf)
    requires ReadOk(p, b) && b.isFromShm && b.slices != []
    ensures var s := b.slices[|b.slices| - 1]; s.fromShm && s.offset in p.slots && s.offset in Owned(b)
  {
    hide PoolOk, Apart, Offsets, Contents;
    assert SliceOk(p.slots, b.slices[|b.slices| - 1]);
    OffsetsMember(b.slices, |b.slices| - 1);
  }

  lemma RelinkSliceOk(slots: map<nat, Slot>, o: nat, h: Slot, s: Slice)
    requires SliceOk(slots, s) && o in slots && h.data == slots[o].data
    ensures SliceOk(slots[o := h], s)
  {
  }

  lemma NothingTwice(p: Pool, b: Buf, t: multiset<nat>, q: Pool, c: Buf, u: multiset<nat>)
    requires Moving(p, b, t, q, c, u, [] + [])
    ensures Moving(p, b, t, q, c, u, [])
  {
    hide Moving;
    var none: seq<byte> := [];
    assert none + none == none;
  }

  lemma ChainStart(slots: map<nat, Slot>, ch: seq<nat>)
    ensures ch[0..] == ch && ch[..0] == [] && ChainBytes(slots, ch[..0]) == []
  {
  }

  lemma ChainStop(ch: seq<nat>, t: multiset<nat>)
    ensures ch[..|ch|] == ch && multiset(ch[|ch|..]) + t == t
  {
  }

  /** The slice read at the cursor carries the bytes the sender's header announced. */
  lemma CursorBytes(slots: map<nat, Slot>, slots': map<nat, Slot>, ch: seq<nat>, k: nat, s: Slice)
    requires k < |ch| && ch[k] in slots && ch[k] in slots' && slots'[ch[k]] == slots[ch[k]]
    requires SliceOk(slots', s) && SliceBytes(slots', s) == SlotBytes(slots', ch[k])
    ensures SliceBytes(slots', s) == SlotBytes(slots, ch[k])
    ensures s.r == s.w <==> SlotBytes(slots, ch[k]) == []
  {
  }

  lemma MovedOn(p: Pool, b: Buf, all: multiset<nat>, q: Pool, c: Buf, r: Pool, d: Buf,
                ch: seq<nat>, k: nat, t: multiset<nat>, bytes: seq<byte>)
    requires k < |ch| && bytes == SlotBytes(p.slots, ch[k])
    requires Moving(p, b, all, q, c, multiset(ch[k..]) + t, ChainBytes(p.slots, ch[..k]))
    requires Moving(q, c, multiset(ch[k..]) + t, r, d, multiset(ch[k + 1..]) + t, bytes)
    requires ChainBytes(p.slots, ch[..k + 1]) == ChainBytes(p.slots, ch[..k]) + SlotBytes(p.slots, ch[k])
    ensures Moving(p, b, all, r, d, multiset(ch[k + 1..]) + t, ChainBytes(p.slots, ch[..k + 1]))
  {
    hide Moving, ChainBytes, SlotBytes;
    MovingTrans(p, b, all, q, c, multiset(ch[k..]) + t, r, d, multiset(ch[k + 1..]) + t,
                ChainBytes(p.slots, ch[..k]), bytes);
  }

  lemma LastNotEmpty(slots: map<nat, Slot>, ch: seq<nat>, k: nat)
    requires k < |ch| && ChainBytes(slots, ch) != []
    ensures ChainBytes(slots, ch[..k + 1]) == [] ==> k < |ch| - 1
  {
    hide ChainBytes;
    if k == |ch| - 1 {
      assert ch[..k + 1] == ch;
    }
  }

  lemma DoneFacts(p: Pool, b: Buf)
    requires WriteCore(p, b) && b.isFromShm
    ensures AllShm(b.slices) && Updated(p.slots, p.slots, b.slices, 0)
    ensures Apart(p, Offsets(b.slices)) && b.writeAt < |b.slices|
  {
    hide PoolOk, Offsets, AllEmpty;
    ApartPart(p, Offsets(b.slices), Offsets(b.pinned));
    forall i | 0 <= i < |b.slices| ensures b.slices[i].offset in p.slots && b.slices[i].r <= b.slices[i].w {
      assert SliceOk(p.slots, b.slices[i]);
    }
  }

  lemma BeforeTrim(p: Pool, b: Buf, q: Pool)
    requires WriteCore(p, b) && 0 <= b.writeAt && AllShm(b.slices)
    requires q == p.(slots := q.slots) && Updated(p.slots, q.slots, b.slices, b.writeAt + 1)
    ensures PoolOk(q) && Apart(q, multiset{}) && Apart(q, Offsets(b.slices[b.writeAt + 1..]))
    ensures SlicesOk(q.slots, b.slices[b.writeAt + 1..])
  {
    hide PoolOk, Apart, Exchange, Offsets, Updated, AllUnsent, AllEmpty, SliceOk;
    var n := b.writeAt + 1;
    UpdatedKeeps(p, b, q.slots, b.slices, n);
    UpdatedPublished(p, b, q.slots);
    assert b.slices == b.slices[..n] + b.slices[n..];
    OffsetsAppend(b.slices[..n], b.slices[n..]);
    assert Owned(b) == Offsets(b.slices[n..]) + (Offsets(b.slices[..n]) + Offsets(b.pinned));
    ApartPart(q, Offsets(b.slices[n..]), Offsets(b.slices[..n]) + Offsets(b.pinned));
    assert multiset{} + Owned(b) == Owned(b);
    ApartPart(q, multiset{}, Owned(b));
  }

  /** Advancing the write index over bytes that are already there is the same as copying them. */
  lemma FilledInPlace(slots: map<nat, Slot>, s: Slice, size: nat)
    requires SliceOk(slots, s) && s.w + size <= s.cap
    ensures var bytes := Backing(slots, s)[s.w..s.w + size];
      FilledSlots(slots, s, bytes) == slots && FilledSlice(s, bytes) == s.(w := s.w + size)
  {
    var d := Backing(slots, s);
    assert Overwrite(d, s.w, d[s.w..s.w + size]) == d;
  }

  lemma AllocedHeapOnly(p: Pool, s: Slice, size: nat)
    requires PoolOk(p) && !s.fromShm && Fresh(p.slots, s) && s.cap >= size
    ensures Alloced(p, p, [s], size)
  {
    assert Offsets([s]) == multiset{};
    assert [s][..0] == [];
  }

  lemma MoveTo(p: Pool, b: Buf, q: Pool, c: Buf, i: nat, data: seq<byte>)
    requires Building(p, b, q, c, data) && c.writeAt <= i < |c.slices|
    ensures Building(p, b, q, c.(writeAt := i), data)
  {
    hide Building;
    BuildingCore(p, b, q, c, data);
    MoveStep(q, c, i);
    BuildingIdle(p, b, q, c, q, c.(writeAt := i), data);
  }

  lemma CoreSlice(p: Pool, b: Buf, i: nat)
    requires WriteCore(p, b) && i < |b.slices|
    ensures SliceOk(p.slots, b.slices[i])
  {
  }

  lemma BuildingCore(p: Pool, b: Buf, q: Pool, c: Buf, data: seq<byte>)
    requires Building(p, b, q, c, data)
    ensures WriteCore(q, c) && -1 <= c.writeAt < |c.slices|
    ensures forall i :: 0 <= i < |c.slices| ==> c.slices[i].w <= c.slices[i].cap
    ensures c.writeAt + 1 < |c.slices| ==> c.slices[c.writeAt + 1].w == 0 < c.slices[c.writeAt + 1].cap
  {
    hide Apart, PoolOk, Exchange, Contents, Offsets;
    if c.writeAt + 1 < |c.slices| {
      assert c.slices[c.writeAt + 1..][0] == c.slices[c.writeAt + 1];
      assert Unsent(q.slots, c.slices[c.writeAt + 1]) && SliceOk(q.slots, c.slices[c.writeAt + 1]);
    }
  }

  /** A write that ends in the last slice with fewer bytes left does so with more. */
  lemma EndsAllTheMore(ss: seq<Slice>, at: int, less: nat, left: nat)
    requires EndsInLast(ss, at, less) && less <= left
    ensures EndsInLast(ss, at, left)
  {
  }

  lemma EndsAtLast(ss: seq<Slice>, at: int, left: int)
    ensures 0 <= at == |ss| - 1 ==> EndsInLast(ss, at, left)
  {
  }

  /** After an append that could not store all `left` bytes the write slice is full. */
  lemma FilledUp(p: Pool, b: Buf, q: Pool, c: Buf, left: nat, n: nat)
    requires 0 <= b.writeAt < |b.slices|
    requires EndsInLast(b.slices, b.writeAt, left) && n <= left
    requires n == left || n == b.slices[b.writeAt].cap - b.slices[b.writeAt].w
    requires |c.slices| == |b.slices| && c.slices == b.slices[b.writeAt := c.slices[b.writeAt]]
    requires forall i :: 0 <= i < |b.slices| ==> b.slices[i].w <= b.slices[i].cap
    requires n <= b.slices[b.writeAt].cap - b.slices[b.writeAt].w
    ensures n == left ==> b.writeAt == |b.slices| - 1
    ensures n < left && b.writeAt + 1 < |b.slices| ==> EndsInLast(c.slices, b.writeAt + 1, left - n)
  {
    hide EndsInLast, Room;
    if b.writeAt < |b.slices| - 1 {
      EndsAfterFill(b.slices, b.writeAt, c.slices[b.writeAt], left, b.slices[b.writeAt].cap - b.slices[b.writeAt].w);
    }
  }

  lemma AllocedShape(p: Pool, q: Pool, added: seq<Slice>, size: nat)
    requires Alloced(p, q, added, size)
    ensures added != [] && added[0].w == 0 < added[0].cap
    ensures |added| > 1 ==> added[0].cap < size
    ensures forall i :: 0 < i < |added| - 1 ==> added[i].cap <= added[0].cap
    ensures |added| > 1 && added[|added| - 1].fromShm ==> added[|added| - 1].cap <= added[0].cap
  {
    hide Exchange, PoolOk, Offsets;
    assert Fresh(q.slots, added[0]);
    if |added| > 1 {
      assert TotalCap(added[..|added| - 1]) >= added[0].cap;
    }
    forall i | 0 < i < |added| - 1 ensures added[i].cap <= added[0].cap {
      assert added[..|added| - 1][i].fromShm;
    }
  }

  lemma AllocedOne(p: Pool, q: Pool, s: Slice, size: nat)
    requires PoolOk(q) && Exchange(p, multiset{}, q, multiset{s.offset})
    requires Fresh(q.slots, s) && s.fromShm && s.cap >= size
    ensures Alloced(p, q, [s], size)
  {
    hide Exchange, PoolOk, Fresh;
    assert Offsets([s]) == multiset{s.offset};
    assert [s][..0] == [];
  }

  lemma AllocedMany(p: Pool, q: Pool, got: seq<Slice>, size: nat)
    requires Taken(p, q, got, size)
    ensures PoolOk(q) && Exchange(p, multiset{}, q, Offsets(got)) && AllFresh(q.slots, got) && AllShm(got)
    ensures size >= 1 && TotalCap(got) >= size ==> got != [] && Alloced(p, q, got, size)
  {
    hide Exchange, PoolOk, Fresh;
  }

  lemma AllocedHeap(p: Pool, q: Pool, got: seq<Slice>, h: Slice, size: nat)
    requires Taken(p, q, got, size) && TotalCap(got) < size
    requires !h.fromShm && Fresh(q.slots, h) && h.cap >= size - TotalCap(got)
    ensures Alloced(p, q, got + [h], size)
  {
    hide Exchange, PoolOk, Fresh, TotalCap, Offsets, FromNonEmpty;
    OffsetsSnocHeap(got, h);
    TotalCapSnoc(got, h);
    assert (got + [h])[..|got|] == got;
  }

  lemma OffsetsSnocHeap(ss: seq<Slice>, h: Slice)
    requires !h.fromShm
    ensures Offsets(ss + [h]) == Offsets(ss)
  {
    OffsetsAppend(ss, [h]);
    assert Offsets([h]) == multiset{};
  }
}
