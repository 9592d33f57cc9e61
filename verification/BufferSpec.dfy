/**
 The linked buffer as a value, what must hold of it, and the two relations its operations build up
 step by step: `Building` for writes and `Reading` for reads. Both say which bytes went in or came
 out, that slots were only exchanged with the free lists, and both compose.
 */
module BufferSpec {
  import opened Bytes
  import opened Slots
  import opened BufferManagers

  /**
   A linked buffer. `writeAt` is the index of the write slice, -1 when there is none and -2 when
   the slice it pointed to has been popped by a reader.
   */
  datatype Buf = Buf(slices: seq<Slice>, writeAt: int, pinned: seq<Slice>,
                     currentPinned: bool, isFromShm: bool, len: int)

  ghost function Owned(b: Buf): multiset<nat>
  {
    Offsets(b.slices) + Offsets(b.pinned)
  }

  ghost function Unread(p: Pool, b: Buf): seq<byte>
  {
    Contents(p.slots, b.slices)
  }

  ghost predicate BufCore(p: Pool, b: Buf)
  {
    && PoolOk(p) && Apart(p, Owned(b))
    && SlicesOk(p.slots, b.slices) && SlicesOk(p.slots, b.pinned) && AllShm(b.pinned)
    && -2 <= b.writeAt < |b.slices|
    && (b.isFromShm ==> AllShm(b.slices))
  }

  lemma CoreValid(p: Pool, b: Buf)
    requires BufCore(p, b)
    ensures PoolOk(p) && Apart(p, multiset{})
  {
    hide PoolOk, SlicesOk, Offsets;
    ApartPart(p, multiset{}, Owned(b));
  }

  ghost predicate LenOk(p: Pool, b: Buf)
  {
    b.len == |Unread(p, b)|
  }

  // ---------- writing ----------

  /** A slice of a send buffer: nothing read from it, not yet linked to a next one. */
  ghost predicate Unsent(slots: map<nat, Slot>, s: Slice)
  {
    s.r == 0 && (s.fromShm ==> s.offset in slots && !slots[s.offset].hasNext)
  }

  ghost predicate AllUnsent(slots: map<nat, Slot>, ss: seq<Slice>)
  {
    forall i :: 0 <= i < |ss| ==> Unsent(slots, ss[i])
  }

  ghost predicate AllEmpty(ss: seq<Slice>)
  {
    forall i :: 0 <= i < |ss| ==> ss[i].r == ss[i].w
  }

  /** The buffer in the middle of a write: everything behind the write slice is still empty. */
  ghost predicate WriteCore(p: Pool, b: Buf)
  {
    && BufCore(p, b) && AllUnsent(p.slots, b.slices)
    && b.writeAt != -2
    && AllEmpty(b.slices[b.writeAt + 1..])
  }

  /** A send buffer between two public writes: the write slice is the last slice. */
  ghost predicate WriteOk(p: Pool, b: Buf)
  {
    && WriteCore(p, b) && LenOk(p, b)
    && b.writeAt == |b.slices| - 1
    && (b.len == 0 ==> |b.slices| <= 1 && b.isFromShm)
  }

  /** From `(p, b)` to `(q, c)` exactly the bytes `data` were appended. */
  ghost predicate Building(p: Pool, b: Buf, q: Pool, c: Buf, data: seq<byte>)
  {
    && WriteCore(q, c)
    && Exchange(p, Owned(b), q, Owned(c))
    && Unread(q, c) == Unread(p, b) + data
    && c.pinned == b.pinned && c.currentPinned == b.currentPinned
    && Extends(b.slices, c.slices)
    && (c.isFromShm <==> b.isFromShm && AllShm(c.slices))
  }

  /** No slice was dropped, and each still stands where it stood. */
  ghost predicate Extends(old_: seq<Slice>, new_: seq<Slice>)
  {
    && |old_| <= |new_|
    && forall i :: 0 <= i < |old_| ==> new_[i].fromShm == old_[i].fromShm && new_[i].offset == old_[i].offset
  }

  /** The contract of every public write. */
  ghost predicate Wrote(p: Pool, b: Buf, q: Pool, c: Buf, data: seq<byte>)
  {
    WriteOk(q, c) && Building(p, b, q, c, data)
  }

  lemma BuildingTrans(p: Pool, b: Buf, q: Pool, c: Buf, r: Pool, d: Buf, x: seq<byte>, y: seq<byte>)
    requires Building(p, b, q, c, x) && Building(q, c, r, d, y)
    ensures Building(p, b, r, d, x + y)
  {
    hide Exchange, WriteCore, Owned, Unread;
    ExchangeTrans(p, Owned(b), q, Owned(c), r, Owned(d));
    assert (Unread(p, b) + x) + y == Unread(p, b) + (x + y);
    assert AllShm(d.slices) ==> AllShm(c.slices);
  }

  /** A step that appends nothing. */
  lemma BuildingIdle(p: Pool, b: Buf, q: Pool, c: Buf, r: Pool, d: Buf, x: seq<byte>)
    requires Building(p, b, q, c, x) && Building(q, c, r, d, [])
    ensures Building(p, b, r, d, x)
  {
    hide Building;
    BuildingTrans(p, b, q, c, r, d, x, []);
    assert x + [] == x;
  }

  lemma BuildingNothing(p: Pool, b: Buf)
    requires WriteCore(p, b)
    ensures Building(p, b, p, b, [])
  {
    hide Owned, Unread, SlicesOk, AllUnsent, AllEmpty, PoolOk, Apart;
    ExchangeRefl(p, Owned(b));
  }

  // ---------- reading ----------

  /**
   A receive buffer: only its front slice can be empty, arrivals go behind the last slice, and
   after a fallback has arrived the last slice is a heap block.
   */
  ghost predicate ReadCore(p: Pool, b: Buf)
  {
    && BufCore(p, b)
    && (b.slices != [] ==> b.writeAt == |b.slices| - 1)
    && (b.slices != [] && !b.isFromShm ==> !b.slices[|b.slices| - 1].fromShm)
    && (forall i :: 1 <= i < |b.slices| ==> b.slices[i].r < b.slices[i].w)
  }

  ghost predicate ReadOk(p: Pool, b: Buf)
  {
    ReadCore(p, b) && LenOk(p, b)
  }

  /** The slots whose bytes may be in the hands of the caller: pinned ones, and a pinned front. */
  ghost predicate IsPinned(b: Buf, o: nat)
  {
    || o in Offsets(b.pinned)
    || (b.currentPinned && b.slices != [] && b.slices[0].fromShm && b.slices[0].offset == o)
  }

  /** Pinned slots stay pinned and keep their bytes. */
  ghost predicate Pins(p: Pool, b: Buf, q: Pool, c: Buf)
  {
    forall o :: IsPinned(b, o) && o in p.slots ==>
      IsPinned(c, o) && o in q.slots && q.slots[o].data == p.slots[o].data
  }

  /** From `(p, b)` to `(q, c)` exactly the bytes `out` were taken from the front. */
  ghost predicate Reading(p: Pool, b: Buf, q: Pool, c: Buf, out: seq<byte>)
  {
    && ReadCore(q, c)
    && Exchange(p, Owned(b), q, Owned(c))
    && Unread(p, b) == out + Unread(q, c)
    && Pins(p, b, q, c)
    && c.isFromShm == b.isFromShm
  }

  lemma ReadingTrans(p: Pool, b: Buf, q: Pool, c: Buf, r: Pool, d: Buf, x: seq<byte>, y: seq<byte>)
    requires Reading(p, b, q, c, x) && Reading(q, c, r, d, y)
    ensures Reading(p, b, r, d, x + y)
  {
    hide Exchange, ReadCore, Owned, Unread, IsPinned;
    ExchangeTrans(p, Owned(b), q, Owned(c), r, Owned(d));
    assert x + (y + Unread(r, d)) == (x + y) + Unread(r, d);
  }

  /** A step that takes nothing. */
  lemma ReadingIdle(p: Pool, b: Buf, q: Pool, c: Buf, r: Pool, d: Buf, x: seq<byte>)
    requires Reading(p, b, q, c, x) && Reading(q, c, r, d, [])
    ensures Reading(p, b, r, d, x)
  {
    hide Reading;
    ReadingTrans(p, b, q, c, r, d, x, []);
    assert x + [] == x;
  }

  /** A step that takes the first bytes. */
  lemma ReadingFirst(p: Pool, b: Buf, q: Pool, c: Buf, r: Pool, d: Buf, y: seq<byte>)
    requires Reading(p, b, q, c, []) && Reading(q, c, r, d, y)
    ensures Reading(p, b, r, d, y)
  {
    hide Reading;
    ReadingTrans(p, b, q, c, r, d, [], y);
    assert [] + y == y;
  }

  lemma ReadingNothing(p: Pool, b: Buf)
    requires ReadCore(p, b)
    ensures Reading(p, b, p, b, [])
  {
    hide ReadCore, Owned, Unread, IsPinned;
    ExchangeRefl(p, Owned(b));
    assert [] + Unread(p, b) == Unread(p, b);
  }

  // ---------- contents of a list, piece by piece ----------

  lemma ContentsAt(slots: map<nat, Slot>, ss: seq<Slice>, i: nat)
    requires i < |ss|
    ensures Contents(slots, ss) == Contents(slots, ss[..i]) + SliceBytes(slots, ss[i]) + Contents(slots, ss[i + 1..])
  {
    hide SliceBytes;
    assert ss == ss[..i] + ss[i..];
    ContentsAppend(slots, ss[..i], ss[i..]);
    assert ss[i..][1..] == ss[i + 1..];
    assert Contents(slots, ss[i..]) == SliceBytes(slots, ss[i]) + Contents(slots, ss[i + 1..]);
  }

  lemma {:induction false} ContentsEmpty(slots: map<nat, Slot>, ss: seq<Slice>)
    requires AllEmpty(ss)
    ensures Contents(slots, ss) == []
  {
    if ss != [] {
      ContentsEmpty(slots, ss[1..]);
    }
  }

  lemma AtDistinct(p: Pool, own: multiset<nat>, ss: seq<Slice>, i: nat, j: nat)
    requires Apart(p, own) && Offsets(ss) <= own
    requires i < |ss| && j < |ss| && i != j && ss[i].fromShm && ss[j].fromShm
    ensures ss[i].offset != ss[j].offset
  {
    hide Apart, Offsets;
    OffsetsDistinct(ss, if i < j then i else j, if i < j then j else i);
    OffsetsMember(ss, i);
    ApartOne(p, own, ss[i].offset);
  }

  // ---------- copying bytes into a slice ----------

  function Overwrite(d: seq<byte>, at: nat, bytes: seq<byte>): (r: seq<byte>)
    requires at + |bytes| <= |d|
    ensures |r| == |d|
    ensures r[..at] == d[..at] && r[at..at + |bytes|] == bytes && r[at + |bytes|..] == d[at + |bytes|..]
  {
    d[..at] + bytes + d[at + |bytes|..]
  }

  /** The slice after `bytes` were copied behind its write index. */
  function FilledSlice(s: Slice, bytes: seq<byte>): Slice
    requires !s.fromShm ==> s.w + |bytes| <= |s.heap|
  {
    s.(w := s.w + |bytes|, heap := if s.fromShm then s.heap else Overwrite(s.heap, s.w, bytes))
  }

  function FilledSlots(slots: map<nat, Slot>, s: Slice, bytes: seq<byte>): map<nat, Slot>
    requires s.fromShm ==> s.offset in slots && s.w + |bytes| <= |slots[s.offset].data|
  {
    if s.fromShm
    then slots[s.offset := slots[s.offset].(data := Overwrite(slots[s.offset].data, s.w, bytes))]
    else slots
  }

  lemma FilledBytes(slots: map<nat, Slot>, s: Slice, bytes: seq<byte>)
    requires SliceOk(slots, s) && s.w + |bytes| <= s.cap
    ensures SliceOk(FilledSlots(slots, s, bytes), FilledSlice(s, bytes))
    ensures SliceBytes(FilledSlots(slots, s, bytes), FilledSlice(s, bytes)) == SliceBytes(slots, s) + bytes
  {
    var d := Backing(slots, s);
    var e := Overwrite(d, s.w, bytes);
    assert Backing(FilledSlots(slots, s, bytes), FilledSlice(s, bytes)) == e;
    assert e[s.r..s.w + |bytes|] == e[..s.w][s.r..] + e[s.w..s.w + |bytes|];
    assert d[s.r..s.w] == d[..s.w][s.r..];
  }

  /** Other slices of the buffer do not see the copy. */
  lemma FilledOthers(p: Pool, own: multiset<nat>, ss: seq<Slice>, i: nat, bytes: seq<byte>)
    requires Apart(p, own) && Offsets(ss) <= own && i < |ss| && SliceOk(p.slots, ss[i])
    requires ss[i].w + |bytes| <= ss[i].cap
    requires SlicesOk(p.slots, ss)
    ensures forall j :: 0 <= j < |ss| && j != i ==> SameData(p.slots, FilledSlots(p.slots, ss[i], bytes), ss[j])
  {
    hide Apart, Offsets;
    forall j | 0 <= j < |ss| && j != i ensures SameData(p.slots, FilledSlots(p.slots, ss[i], bytes), ss[j]) {
      assert SliceOk(p.slots, ss[j]);
      if ss[i].fromShm && ss[j].fromShm {
        AtDistinct(p, own, ss, i, j);
      }
    }
  }

  /** Copying behind the write index of slice `i`, when all later slices are empty, appends. */
  lemma FilledContents(p: Pool, own: multiset<nat>, ss: seq<Slice>, i: nat, bytes: seq<byte>)
    requires Apart(p, own) && Offsets(ss) <= own && i < |ss| && ss[i].w + |bytes| <= ss[i].cap
    requires SlicesOk(p.slots, ss) && AllEmpty(ss[i + 1..])
    requires SliceOk(p.slots, ss[i])
    ensures Contents(FilledSlots(p.slots, ss[i], bytes), ss[i := FilledSlice(ss[i], bytes)])
         == Contents(p.slots, ss) + bytes
    ensures SlicesOk(FilledSlots(p.slots, ss[i], bytes), ss[i := FilledSlice(ss[i], bytes)])
  {
    hide Apart, Offsets, SliceBytes, FilledSlots, FilledSlice, SameData, Contents, AllEmpty;
    var slots', s' := FilledSlots(p.slots, ss[i], bytes), FilledSlice(ss[i], bytes);
    var ss' := ss[i := s'];
    FilledOthers(p, own, ss, i, bytes);
    FilledBytes(p.slots, ss[i], bytes);
    ContentsAt(p.slots, ss, i);
    ContentsAt(slots', ss', i);
    assert ss'[..i] == ss[..i] && ss'[i + 1..] == ss[i + 1..];
    ContentsFrame(p.slots, slots', ss[..i]);
    ContentsFrame(p.slots, slots', ss[i + 1..]);
    ContentsEmpty(p.slots, ss[i + 1..]);
    forall j | 0 <= j < |ss'| ensures SliceOk(slots', ss'[j]) {
      if j < i {
        assert ss'[j] == ss[..i][j];
      } else if j > i {
        assert ss'[j] == ss[i + 1..][j - i - 1];
      }
    }
  }

  // ---------- elementary write steps ----------

  /** The buffer after `bytes` were copied into its write slice. */
  function Filled(b: Buf, bytes: seq<byte>): Buf
    requires 0 <= b.writeAt < |b.slices|
    requires !b.slices[b.writeAt].fromShm ==> b.slices[b.writeAt].w + |bytes| <= |b.slices[b.writeAt].heap|
  {
    b.(slices := b.slices[b.writeAt := FilledSlice(b.slices[b.writeAt], bytes)])
  }

  lemma FillStep(p: Pool, b: Buf, bytes: seq<byte>)
    requires WriteCore(p, b) && 0 <= b.writeAt < |b.slices|
    requires b.slices[b.writeAt].w + |bytes| <= b.slices[b.writeAt].cap
    requires SliceOk(p.slots, b.slices[b.writeAt])
    ensures Building(p, b, p.(slots := FilledSlots(p.slots, b.slices[b.writeAt], bytes)), Filled(b, bytes), bytes)
  {
    hide Contents, Offsets, SliceBytes, Apart, Exchange, AllEmpty;
    var i := b.writeAt;
    var s := b.slices[i];
    var q, c := p.(slots := FilledSlots(p.slots, s, bytes)), Filled(b, bytes);
    FilledContents(p, Owned(b), b.slices, i, bytes);
    OffsetsUpdate(b.slices, i, FilledSlice(s, bytes));
    FillExchange(p, b, bytes);
    FillKeepsCore(p, b, bytes);
    assert c.slices[i + 1..] == b.slices[i + 1..];
  }

  lemma FillExchange(p: Pool, b: Buf, bytes: seq<byte>)
    requires BufCore(p, b) && 0 <= b.writeAt < |b.slices|
    requires SliceOk(p.slots, b.slices[b.writeAt])
    requires b.slices[b.writeAt].w + |bytes| <= b.slices[b.writeAt].cap
    ensures Exchange(p, Owned(b), p.(slots := FilledSlots(p.slots, b.slices[b.writeAt], bytes)), Owned(b))
    ensures Apart(p.(slots := FilledSlots(p.slots, b.slices[b.writeAt], bytes)), Owned(b))
  {
    hide Offsets, PoolOk, SlicesOk;
    if b.slices[b.writeAt].fromShm {
      OffsetsMember(b.slices, b.writeAt);
    }
  }

  lemma FillKeepsCore(p: Pool, b: Buf, bytes: seq<byte>)
    requires WriteCore(p, b) && 0 <= b.writeAt < |b.slices|
    requires SliceOk(p.slots, b.slices[b.writeAt])
    requires b.slices[b.writeAt].w + |bytes| <= b.slices[b.writeAt].cap
    ensures PoolOk(p.(slots := FilledSlots(p.slots, b.slices[b.writeAt], bytes)))
    ensures SlicesOk(FilledSlots(p.slots, b.slices[b.writeAt], bytes), b.pinned)
    ensures AllUnsent(FilledSlots(p.slots, b.slices[b.writeAt], bytes), Filled(b, bytes).slices)
  {
    hide Offsets, Apart, AllEmpty;
    var s := b.slices[b.writeAt];
    var slots' := FilledSlots(p.slots, s, bytes);
    var q := p.(slots := slots');
    forall i, k | 0 <= i < |p.free| && 0 <= k < |p.free[i]| ensures FreeSlotOk(q, i, p.free[i][k]) {
      assert FreeSlotOk(p, i, p.free[i][k]);
    }
    forall i | 0 <= i < |b.pinned| ensures SliceOk(slots', b.pinned[i]) {
      assert SliceOk(p.slots, b.pinned[i]);
    }
    var ss := Filled(b, bytes).slices;
    forall i | 0 <= i < |ss| ensures Unsent(slots', ss[i]) {
      assert Unsent(p.slots, b.slices[i]);
    }
  }

  /** `added` was allocated for a request of `size` bytes, heap block and all. */
  ghost predicate Alloced(p: Pool, q: Pool, added: seq<Slice>, size: nat)
  {
    && PoolOk(q) && Exchange(p, multiset{}, q, Offsets(added))
    && |added| >= 1 && AllFresh(q.slots, added)
    && AllShm(added[..|added| - 1])
    && TotalCap(added) >= size
    && (|added| > 1 ==> TotalCap(added[..|added| - 1]) < size)
    && (forall i, j :: 0 <= i < j < |added| && added[j].fromShm ==> added[j].cap <= added[i].cap)
  }

  /**
   How the slices were chosen: one slot of the best class if there is one; otherwise slots from the
   largest class downwards, and a heap block for the rest only when no list has a slot to give.
   */
  ghost predicate Chosen(p: Pool, q: Pool, added: seq<Slice>, size: nat)
  {
    && Fewer(p, q) && |added| >= 1
    && (forall i :: BestFit(p, size, i) ==> |added| == 1 && Popped(p, i, q, added[0]))
    && (NoFit(p, size) ==> Greedy(q, SlotsOf(added)))
    && (!added[|added| - 1].fromShm ==>
          Drained(q) && TotalCap(SlotsOf(added)) < size
          && added[|added| - 1] == HeapBlock(size - TotalCap(SlotsOf(added))))
  }

  const DEFAULT_SINGLE_BUFFER_SIZE: nat := 4096

  /** The heap block made for `size` bytes. */
  function HeapBlock(size: nat): Slice
  {
    var n := if size < DEFAULT_SINGLE_BUFFER_SIZE then DEFAULT_SINGLE_BUFFER_SIZE else size;
    Slice(0, false, n, 0, 0, 0, seq(n, _ => 0))
  }

  /** The slots among some slices of which only the last can be a heap block. */
  ghost function SlotsOf(added: seq<Slice>): seq<Slice>
  {
    if added != [] && !added[|added| - 1].fromShm then added[..|added| - 1] else added
  }

  function Extended(b: Buf, added: seq<Slice>, allShm: bool): Buf
  {
    b.(slices := b.slices + added, isFromShm := b.isFromShm && allShm)
  }

  lemma AllocStep(p: Pool, b: Buf, q: Pool, added: seq<Slice>, size: nat, allShm: bool)
    requires WriteCore(p, b) && Alloced(p, q, added, size)
    requires allShm <==> AllShm(added)
    ensures Building(p, b, q, Extended(b, added, allShm), []) && added != []
  {
    hide PoolOk, Contents, Offsets, Apart, Exchange, AllEmpty, SliceOk, SlicesOk, Fresh, AllUnsent;
    var c := Extended(b, added, allShm);
    AllocExchange(p, b, q, c, added);
    AllocKeeps(p, b, q, added);
    ContentsAppend(q.slots, b.slices, added);
    ContentsEmpty(q.slots, added);
    assert c.slices[b.writeAt + 1..] == b.slices[b.writeAt + 1..] + added;
    AllEmptyJoin(b.slices[b.writeAt + 1..], added);
    assert Unread(p, b) + [] == Unread(p, b);
    SlicesOkJoin(q.slots, b.slices, added);
    AllShmJoin(b.slices, added);
  }

  lemma AllShmJoin(a: seq<Slice>, b: seq<Slice>)
    ensures AllShm(a + b) <==> AllShm(a) && AllShm(b)
  {
    if AllShm(a + b) {
      forall i | 0 <= i < |a| ensures a[i].fromShm {
        assert (a + b)[i] == a[i];
      }
      forall i | 0 <= i < |b| ensures b[i].fromShm {
        assert (a + b)[|a| + i] == b[i];
      }
    }
  }

  lemma AllEmptyJoin(a: seq<Slice>, b: seq<Slice>)
    requires AllEmpty(a) && AllEmpty(b)
    ensures AllEmpty(a + b)
  {
  }

  lemma SlicesOkJoin(slots: map<nat, Slot>, a: seq<Slice>, b: seq<Slice>)
    requires SlicesOk(slots, a) && SlicesOk(slots, b)
    ensures SlicesOk(slots, a + b)
  {
  }

  lemma AllocExchange(p: Pool, b: Buf, q: Pool, c: Buf, added: seq<Slice>)
    requires Apart(p, Owned(b)) && Exchange(p, multiset{}, q, Offsets(added))
    requires c.slices == b.slices + added && c.pinned == b.pinned
    ensures Exchange(p, Owned(b), q, Owned(c)) && Apart(q, Owned(c))
  {
    hide Exchange, Apart, Offsets;
    OffsetsAppend(b.slices, added);
    ExchangeFrame(p, multiset{}, q, Offsets(added), Owned(b));
    assert multiset{} + Owned(b) == Owned(b);
    assert Offsets(added) + Owned(b) == Owned(c);
    ExchangeApart(p, Owned(b), q, Owned(c));
  }

  lemma AllocKeeps(p: Pool, b: Buf, q: Pool, added: seq<Slice>)
    requires WriteCore(p, b) && Exchange(p, multiset{}, q, Offsets(added)) && AllFresh(q.slots, added)
    ensures Contents(q.slots, b.slices) == Contents(p.slots, b.slices)
    ensures SlicesOk(q.slots, b.slices) && SlicesOk(q.slots, b.pinned) && SlicesOk(q.slots, added)
    ensures AllUnsent(q.slots, b.slices + added) && AllEmpty(added)
  {
    hide PoolOk, Contents, AllEmpty, Offsets, SliceBytes, Apart, Exchange;
    OwnedKept(p, Owned(b), q, Offsets(added), b.slices, b.pinned);
    ContentsFrame(p.slots, q.slots, b.slices);
    ContentsFrame(p.slots, q.slots, b.pinned);
    FreshFacts(q.slots, added);
    forall i | 0 <= i < |b.slices| ensures Unsent(q.slots, b.slices[i]) {
      assert Unsent(p.slots, b.slices[i]);
    }
  }

  lemma FreshFacts(slots: map<nat, Slot>, added: seq<Slice>)
    requires AllFresh(slots, added)
    ensures SlicesOk(slots, added) && AllEmpty(added) && AllUnsent(slots, added)
  {
  }

  /** Somebody else's exchange with the free lists does not touch the slots of this buffer. */
  lemma OwnedKept(p: Pool, own: multiset<nat>, q: Pool, more: multiset<nat>, ss: seq<Slice>, pinned: seq<Slice>)
    requires Apart(p, own) && Offsets(ss) + Offsets(pinned) == own
    requires Exchange(p, multiset{}, q, more)
    ensures forall i :: 0 <= i < |ss| ==> SameData(p.slots, q.slots, ss[i])
    ensures forall i :: 0 <= i < |ss| && ss[i].fromShm ==>
      ss[i].offset in p.slots && ss[i].offset in q.slots && q.slots[ss[i].offset] == p.slots[ss[i].offset]
    ensures forall i :: 0 <= i < |pinned| ==> SameData(p.slots, q.slots, pinned[i])
  {
    hide Offsets, Apart;
    forall i | 0 <= i < |ss| && ss[i].fromShm
      ensures ss[i].offset in p.slots && ss[i].offset in q.slots && q.slots[ss[i].offset] == p.slots[ss[i].offset]
    {
      OffsetsMember(ss, i);
      ApartOne(p, own, ss[i].offset);
    }
    forall i | 0 <= i < |pinned| ensures SameData(p.slots, q.slots, pinned[i]) {
      if pinned[i].fromShm {
        OffsetsMember(pinned, i);
        ApartOne(p, own, pinned[i].offset);
      }
    }
  }

  /** Moving the write slice forward, onto an empty slice. */
  lemma MoveStep(p: Pool, b: Buf, i: nat)
    requires WriteCore(p, b) && b.writeAt <= i < |b.slices|
    ensures Building(p, b, p, b.(writeAt := i), [])
  {
    hide PoolOk, Apart, SlicesOk, Owned, Contents, Exchange, AllUnsent;
    var c := b.(writeAt := i);
    assert b.slices[i + 1..] == b.slices[b.writeAt + 1..][i - b.writeAt..];
    ExchangeRefl(p, Owned(b));
    assert Unread(p, c) == Unread(p, b) == Unread(p, b) + [];
    BufCoreMoved(p, b, i);
  }

  lemma BufCoreMoved(p: Pool, b: Buf, i: int)
    requires BufCore(p, b) && -2 <= i < |b.slices|
    ensures BufCore(p, b.(writeAt := i)) && Owned(b.(writeAt := i)) == Owned(b)
  {
  }

  // ---------- room left by an allocation ----------

  /** Bytes that still fit into a run of slices. */
  ghost function Room(ss: seq<Slice>): int
  {
    if ss == [] then 0 else ss[0].cap - ss[0].w + Room(ss[1..])
  }

  lemma {:induction false} RoomFresh(slots: map<nat, Slot>, ss: seq<Slice>)
    requires AllFresh(slots, ss)
    ensures Room(ss) == TotalCap(ss) && Room(ss) >= |ss|
  {
    if ss != [] {
      assert Fresh(slots, ss[0]);
      RoomFresh(slots, ss[1..]);
    }
  }

  lemma {:induction false} RoomNonNegative(ss: seq<Slice>)
    requires forall i :: 0 <= i < |ss| ==> ss[i].w <= ss[i].cap
    ensures Room(ss) >= 0
  {
    if ss != [] {
      RoomNonNegative(ss[1..]);
    }
  }

  /**
   The write slice is the last one, or the slices up to the last cannot hold `left` bytes, so that
   storing them all must end in the last slice.
   */
  ghost predicate EndsInLast(ss: seq<Slice>, at: int, left: int)
  {
    0 <= at < |ss| && (at == |ss| - 1 || Room(ss[at..|ss| - 1]) < left)
  }

  lemma EndsAfterAlloc(p: Pool, q: Pool, ss: seq<Slice>, added: seq<Slice>, left: nat)
    requires Alloced(p, q, added, left)
    ensures EndsInLast(ss + added, |ss|, left)
  {
    hide Exchange, PoolOk, Room, TotalCap, Fresh;
    var all := ss + added;
    assert all[|ss|..|all| - 1] == added[..|added| - 1];
    RoomFresh(q.slots, added[..|added| - 1]);
  }

  /** Filling the write slice completely and moving on keeps the promise. */
  lemma EndsAfterFill(ss: seq<Slice>, at: nat, s: Slice, left: int, n: nat)
    requires EndsInLast(ss, at, left) && at < |ss| - 1
    requires n == ss[at].cap - ss[at].w
    requires forall i :: 0 <= i < |ss| ==> ss[i].w <= ss[i].cap
    ensures EndsInLast(ss[at := s], at + 1, left - n) && n < left
  {
    var t := ss[at := s];
    assert t[at + 1..|t| - 1] == ss[at..|ss| - 1][1..];
    assert Room(ss[at..|ss| - 1]) == n + Room(ss[at..|ss| - 1][1..]);
    RoomNonNegative(ss[at..|ss| - 1][1..]);
  }

  /** A write that has stored all its bytes and stopped in the last slice updates the length. */
  lemma FinishWrite(p: Pool, b: Buf, q: Pool, c: Buf, data: seq<byte>)
    requires LenOk(p, b) && Building(p, b, q, c, data) && c.writeAt == |c.slices| - 1
    requires b.len + |data| == 0 ==> |c.slices| <= 1 && c.isFromShm
    ensures Wrote(p, b, q, c.(len := b.len + |data|), data)
  {
    hide Exchange, Contents, Offsets, PoolOk, Apart, SlicesOk, AllUnsent, AllEmpty;
    var d := c.(len := b.len + |data|);
    assert Unread(q, d) == Unread(q, c) && Owned(d) == Owned(c);
  }
}
