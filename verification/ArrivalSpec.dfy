/**
 Parcels on their way to a reader: a header chain in shared memory or, after a fallback, a private
 block of bytes. `Moving` describes how they are turned into slices of a receive buffer.
 */
module ArrivalSpec {
  import opened Bytes
  import opened Slots
  import opened BufferManagers
  import opened BufferSpec

  datatype Parcel = Chain(ch: seq<nat>) | Heap(data: seq<byte>)

  ghost function ParcelSlot(x: Parcel): multiset<nat>
  {
    if x.Chain? then multiset(x.ch) else multiset{}
  }

  ghost function ParcelSlots(ps: seq<Parcel>): multiset<nat>
  {
    if ps == [] then multiset{} else ParcelSlot(ps[0]) + ParcelSlots(ps[1..])
  }

  ghost function ParcelData(slots: map<nat, Slot>, x: Parcel): seq<byte>
  {
    match x
    case Chain(ch) => ChainBytes(slots, ch)
    case Heap(data) => data
  }

  ghost function ParcelBytes(slots: map<nat, Slot>, ps: seq<Parcel>): seq<byte>
  {
    if ps == [] then [] else ParcelData(slots, ps[0]) + ParcelBytes(slots, ps[1..])
  }

  /** A flush never sends an empty message, so a parcel always carries at least one byte. */
  ghost predicate ParcelOk(slots: map<nat, Slot>, x: Parcel)
  {
    ParcelData(slots, x) != [] && (x.Chain? ==> IsChain(slots, x.ch))
  }

  ghost predicate ParcelsOk(slots: map<nat, Slot>, ps: seq<Parcel>)
  {
    forall i :: 0 <= i < |ps| ==> ParcelOk(slots, ps[i])
  }

  /** Once a stream has fallen back to the socket it stays there: no chain follows a heap parcel. */
  ghost predicate ChainsFirst(ps: seq<Parcel>)
  {
    forall i, j :: 0 <= i < j < |ps| && ps[i].Heap? ==> ps[j].Heap?
  }

  ghost predicate NoChain(ps: seq<Parcel>)
  {
    forall i :: 0 <= i < |ps| ==> ps[i].Heap?
  }

  ghost predicate HasHeap(ps: seq<Parcel>)
  {
    exists i :: 0 <= i < |ps| && ps[i].Heap?
  }

  /**
   `b` became `c` by moving in parcels from the front of `ps`: `ps'` is what still waits, and only
   a heap parcel can have ended the run of shared memory slices.
   */
  ghost predicate Arrived(b: Buf, ps: seq<Parcel>, c: Buf, ps': seq<Parcel>)
  {
    && |ps'| <= |ps| && ps' == ps[|ps| - |ps'|..]
    && (!c.isFromShm ==> !b.isFromShm || HasHeap(ps[..|ps| - |ps'|]))
  }

  /** The fallback flag of the stream after those parcels were moved in: sticky, and set by a heap parcel. */
  ghost predicate Marks(was: bool, ps: seq<Parcel>, ps': seq<Parcel>, now: bool)
  {
    |ps'| <= |ps| && (now <==> was || HasHeap(ps[..|ps| - |ps'|]))
  }

  lemma MarksNothing(was: bool, ps: seq<Parcel>)
    ensures Marks(was, ps, ps, was)
  {
  }

  lemma MarksAll(was: bool, ps: seq<Parcel>, now: bool)
    requires now <==> was || HasHeap(ps)
    ensures Marks(was, ps, [], now)
  {
    assert ps[..|ps| - 0] == ps;
  }

  lemma ArrivedTrans(b: Buf, ps: seq<Parcel>, c: Buf, qs: seq<Parcel>, d: Buf, rs: seq<Parcel>)
    requires Arrived(b, ps, c, qs) && Arrived(c, qs, d, rs)
    ensures Arrived(b, ps, d, rs)
  {
    var m, n := |ps| - |qs|, |ps| - |rs|;
    if HasHeap(qs[..n - m]) {
      var i :| 0 <= i < n - m && qs[i].Heap?;
      assert ps[..n][m + i].Heap?;
    } else if HasHeap(ps[..m]) {
      var i :| 0 <= i < m && ps[i].Heap?;
      assert ps[..n][i].Heap?;
    }
  }

  /** What may arrive at `b`: chains only while all of its own slices are in shared memory. */
  ghost predicate Acceptable(b: Buf, ps: seq<Parcel>)
  {
    ChainsFirst(ps) && (!b.isFromShm ==> NoChain(ps))
  }

  lemma {:induction false} ParcelSlotsAppend(a: seq<Parcel>, b: seq<Parcel>)
    ensures ParcelSlots(a + b) == ParcelSlots(a) + ParcelSlots(b)
  {
    hide ParcelSlot;
    if a == [] {
      assert a + b == b;
    } else {
      ParcelSlotsAppend(a[1..], b);
      assert (a + b)[1..] == a[1..] + b && (a + b)[0] == a[0];
    }
  }

  lemma {:induction false} ParcelBytesAppend(slots: map<nat, Slot>, a: seq<Parcel>, b: seq<Parcel>)
    ensures ParcelBytes(slots, a + b) == ParcelBytes(slots, a) + ParcelBytes(slots, b)
  {
    hide ParcelData;
    if a == [] {
      assert a + b == b;
    } else {
      ParcelBytesAppend(slots, a[1..], b);
      assert (a + b)[1..] == a[1..] + b && (a + b)[0] == a[0];
      var head, mid, tail := ParcelData(slots, a[0]), ParcelBytes(slots, a[1..]), ParcelBytes(slots, b);
      assert head + (mid + tail) == (head + mid) + tail;
    }
  }

  /** The slots in `t` are as they were. */
  ghost predicate Intact(slots: map<nat, Slot>, slots': map<nat, Slot>, t: multiset<nat>)
  {
    forall o :: o in t ==> o in slots && o in slots' && slots'[o] == slots[o]
  }

  lemma ParcelIntact(slots: map<nat, Slot>, slots': map<nat, Slot>, x: Parcel)
    requires Intact(slots, slots', ParcelSlot(x))
    ensures ParcelData(slots', x) == ParcelData(slots, x)
    ensures ParcelOk(slots, x) ==> ParcelOk(slots', x)
  {
    hide IsChain, ChainBytes;
    if x.Chain? {
      forall i | 0 <= i < |x.ch| ensures x.ch[i] in slots && x.ch[i] in slots' && slots'[x.ch[i]] == slots[x.ch[i]] {
        assert x.ch[i] in x.ch;
      }
      ChainFrame(slots, slots', x.ch);
    }
  }

  lemma {:induction false} ParcelsIntact(slots: map<nat, Slot>, slots': map<nat, Slot>, ps: seq<Parcel>)
    requires Intact(slots, slots', ParcelSlots(ps))
    ensures ParcelBytes(slots', ps) == ParcelBytes(slots, ps)
    ensures ParcelsOk(slots, ps) ==> ParcelsOk(slots', ps)
  {
    hide ParcelOk, ParcelData, ParcelSlot;
    if ps != [] {
      ParcelIntact(slots, slots', ps[0]);
      ParcelsIntact(slots, slots', ps[1..]);
      if ParcelsOk(slots, ps) {
        assert ParcelOk(slots, ps[0]) && ParcelsOk(slots, ps[1..]);
        forall i | 0 <= i < |ps| ensures ParcelOk(slots', ps[i]) {
          assert i > 0 ==> ps[i] == ps[1..][i - 1];
        }
      }
    }
  }

  /**
   From `(p, b)` with the slots `t` pending to `(q, c)` with `t'` still pending: the bytes `data`
   arrived behind what was unread, and the slots that carried none were given back.
   */
  ghost predicate Moving(p: Pool, b: Buf, t: multiset<nat>, q: Pool, c: Buf, t': multiset<nat>, data: seq<byte>)
  {
    && ReadOk(q, c) && Apart(q, Owned(c) + t')
    && Exchange(p, Owned(b) + t, q, Owned(c) + t')
    && Unread(q, c) == Unread(p, b) + data
    && Pins(p, b, q, c)
    && Intact(p.slots, q.slots, t') && t' <= t
  }

  lemma MovingTrans(p: Pool, b: Buf, t: multiset<nat>, q: Pool, c: Buf, u: multiset<nat>, r: Pool, d: Buf,
                    v: multiset<nat>, x: seq<byte>, y: seq<byte>)
    requires Moving(p, b, t, q, c, u, x) && Moving(q, c, u, r, d, v, y)
    ensures Moving(p, b, t, r, d, v, x + y)
  {
    hide Exchange, ReadOk, Owned, Unread, IsPinned, Apart;
    ExchangeTrans(p, Owned(b) + t, q, Owned(c) + u, r, Owned(d) + v);
    assert (Unread(p, b) + x) + y == Unread(p, b) + (x + y);
    forall o | o in v ensures o in p.slots && o in r.slots && r.slots[o] == p.slots[o] {
      assert o in u;
    }
  }

  lemma MovingNothing(p: Pool, b: Buf, t: multiset<nat>)
    requires ReadOk(p, b) && Apart(p, Owned(b) + t)
    ensures Moving(p, b, t, p, b, t, [])
  {
    hide ReadOk, Owned, Unread, IsPinned;
    ExchangeRefl(p, Owned(b) + t);
    forall o | o in t ensures o in p.slots {
      ApartOne(p, Owned(b) + t, o);
    }
  }

  // ---------- appending one slice ----------

  /** The buffer after appendBufferSlice. */
  function Appended(b: Buf, s: Slice): Buf
  {
    b.(slices := b.slices + [s], writeAt := |b.slices|,
       isFromShm := b.isFromShm && s.fromShm, len := b.len + (s.w - s.r))
  }

  lemma AppendSlice(p: Pool, b: Buf, s: Slice, t: multiset<nat>)
    requires ReadOk(p, b) && SliceOk(p.slots, s) && s.r < s.w && (s.fromShm ==> b.isFromShm)
    requires Apart(p, Owned(b) + (SlotOf(s) + t))
    ensures Moving(p, b, SlotOf(s) + t, p, Appended(b, s), t, SliceBytes(p.slots, s))
  {
    hide PoolOk, Exchange, Offsets, Contents, SliceBytes, SliceOk, Apart;
    var c := Appended(b, s);
    AppendOwned(b, s);
    assert Owned(c) + t == Owned(b) + (SlotOf(s) + t);
    ExchangeRefl(p, Owned(c) + t);
    ApartPart(p, Owned(c), t);
    AppendContents(p, b, s);
    AppendShape(p, b, s);
    forall o | o in t ensures o in p.slots {
      ApartOne(p, Owned(c) + t, o);
    }
  }

  lemma AppendOwned(b: Buf, s: Slice)
    ensures Owned(Appended(b, s)) == Owned(b) + SlotOf(s)
  {
    hide Offsets;
    OffsetsAppend(b.slices, [s]);
    OffsetsSingle(s);
  }

  lemma OffsetsSingle(s: Slice)
    ensures Offsets([s]) == SlotOf(s)
  {
  }

  lemma AppendContents(p: Pool, b: Buf, s: Slice)
    requires SliceOk(p.slots, s) && LenOk(p, b)
    ensures Unread(p, Appended(b, s)) == Unread(p, b) + SliceBytes(p.slots, s)
    ensures LenOk(p, Appended(b, s))
  {
    ContentsAppend(p.slots, b.slices, [s]);
    assert Contents(p.slots, [s]) == SliceBytes(p.slots, s) + Contents(p.slots, []);
  }

  lemma AppendShape(p: Pool, b: Buf, s: Slice)
    requires ReadCore(p, b) && SliceOk(p.slots, s) && s.r < s.w
    ensures var c := Appended(b, s);
      && SlicesOk(p.slots, c.slices)
      && (c.isFromShm ==> AllShm(c.slices))
      && (forall i :: 1 <= i < |c.slices| ==> c.slices[i].r < c.slices[i].w)
      && Pins(p, b, p, c)
  {
    hide PoolOk, Apart, Offsets, SliceOk;
    var c := Appended(b, s);
    SlicesOkJoin(p.slots, b.slices, [s]);
    AllShmJoin(b.slices, [s]);
  }

  // ---------- eliding one empty slot ----------

  /** An empty slot goes back to the free lists. */
  lemma SkipSlot(p: Pool, b: Buf, q: Pool, o: nat, t: multiset<nat>)
    requires ReadOk(p, b) && Apart(p, Owned(b) + (multiset{o} + t))
    requires PoolOk(q) && Exchange(p, multiset{o}, q, multiset{})
    ensures Moving(p, b, multiset{o} + t, q, b, t, [])
  {
    hide PoolOk, Exchange, BufCore, Unread, Owned, Apart, Pins;
    SkipOwned(p, b, q, o, t);
    ApartPart(q, Owned(b), t);
    SkipCore(p, b, q);
    SkipPins(p, b, q);
  }

  lemma SkipCore(p: Pool, b: Buf, q: Pool)
    requires BufCore(p, b) && PoolOk(q) && Apart(q, Owned(b))
    requires forall i :: 0 <= i < |b.slices| ==> SameData(p.slots, q.slots, b.slices[i])
    requires forall i :: 0 <= i < |b.pinned| ==> SameData(p.slots, q.slots, b.pinned[i])
    ensures BufCore(q, b) && Unread(q, b) == Unread(p, b)
  {
    hide PoolOk, Exchange, Offsets, Contents, SliceOk, Apart;
    ContentsFrame(p.slots, q.slots, b.slices);
    ContentsFrame(p.slots, q.slots, b.pinned);
  }

  lemma SkipOwned(p: Pool, b: Buf, q: Pool, o: nat, t: multiset<nat>)
    requires BufCore(p, b) && Apart(p, Owned(b) + (multiset{o} + t))
    requires Exchange(p, multiset{o}, q, multiset{})
    ensures Exchange(p, Owned(b) + (multiset{o} + t), q, Owned(b) + t) && Apart(q, Owned(b) + t)
    ensures Intact(p.slots, q.slots, Owned(b) + t)
    ensures forall i :: 0 <= i < |b.slices| ==> SameData(p.slots, q.slots, b.slices[i])
    ensures forall i :: 0 <= i < |b.pinned| ==> SameData(p.slots, q.slots, b.pinned[i])
  {
    hide PoolOk, Offsets, SlicesOk, Apart, Exchange;
    var kept := Owned(b) + t;
    assert Owned(b) + (multiset{o} + t) == multiset{o} + kept;
    ExchangeFrame(p, multiset{o}, q, multiset{}, kept);
    assert multiset{} + kept == kept;
    ExchangeApart(p, multiset{o} + kept, q, kept);
    OtherIntact(p, multiset{o}, q, multiset{}, kept);
    forall i | 0 <= i < |b.slices| ensures SameData(p.slots, q.slots, b.slices[i]) {
      if b.slices[i].fromShm {
        OffsetsMember(b.slices, i);
      }
    }
    forall i | 0 <= i < |b.pinned| ensures SameData(p.slots, q.slots, b.pinned[i]) {
      if b.pinned[i].fromShm {
        OffsetsMember(b.pinned, i);
      }
    }
  }

  lemma SkipPins(p: Pool, b: Buf, q: Pool)
    requires Intact(p.slots, q.slots, Owned(b))
    ensures Pins(p, b, q, b)
  {
    hide Offsets;
    forall o | IsPinned(b, o) ensures o in Owned(b) {
      if o !in Offsets(b.pinned) {
        OffsetsMember(b.slices, 0);
      }
    }
  }

  // ---------- rewriting the header of the last slice ----------

  /** linkNext, or clearFlag followed by setInUsed, on a slot the buffer owns. */
  lemma RelinkSlot(p: Pool, b: Buf, h: Slot, o: nat, t: multiset<nat>)
    requires ReadOk(p, b) && Apart(p, Owned(b) + t) && o in Owned(b) && o in p.slots
    requires h.data == p.slots[o].data && h.start == p.slots[o].start
    ensures Moving(p, b, t, p.(slots := p.slots[o := h]), b, t, [])
  {
    hide PoolOk, Apart, Offsets, Contents, SlicesOk, SameData;
    var q := p.(slots := p.slots[o := h]);
    ApartPart(p, Owned(b), t);
    ApartOne(p, Owned(b), o);
    RelinkPool(p, o, h);
    RelinkSame(p.slots, o, h, b.slices);
    RelinkSame(p.slots, o, h, b.pinned);
    ContentsFrame(p.slots, q.slots, b.slices);
    ContentsFrame(p.slots, q.slots, b.pinned);
    RelinkApart(p, o, h, Owned(b), t);
  }

  lemma RelinkApart(p: Pool, o: nat, h: Slot, own: multiset<nat>, t: multiset<nat>)
    requires Apart(p, own + t) && o in own && o in p.slots && |h.data| == |p.slots[o].data|
    ensures var q := p.(slots := p.slots[o := h]);
      && Apart(q, own + t) && Apart(q, own)
      && Exchange(p, own + t, q, own + t) && Intact(p.slots, q.slots, t)
  {
    var q := p.(slots := p.slots[o := h]);
    assert q.slots.Keys == p.slots.Keys;
    ApartPart(p, own, t);
    forall x | x in t ensures x in p.slots && q.slots[x] == p.slots[x] {
      ApartOne(p, own + t, x);
    }
  }

  lemma RelinkSame(slots: map<nat, Slot>, o: nat, h: Slot, ss: seq<Slice>)
    requires o in slots && h.data == slots[o].data && SlicesOk(slots, ss)
    ensures forall i :: 0 <= i < |ss| ==> SameData(slots, slots[o := h], ss[i])
  {
    forall i | 0 <= i < |ss| ensures SameData(slots, slots[o := h], ss[i]) {
      assert SliceOk(slots, ss[i]);
    }
  }

  lemma RelinkPool(p: Pool, o: nat, h: Slot)
    requires PoolOk(p) && o in p.slots && o !in FreeSlots(p.free)
    requires h.data == p.slots[o].data && h.start == p.slots[o].start
    ensures PoolOk(p.(slots := p.slots[o := h]))
  {
    var q := p.(slots := p.slots[o := h]);
    forall i, k | 0 <= i < |p.free| && 0 <= k < |p.free[i]| ensures FreeSlotOk(q, i, p.free[i][k]) {
      assert FreeSlotOk(p, i, p.free[i][k]);
      FreeMember(p.free, i);
      assert p.free[i][k] in multiset(p.free[i]);
    }
  }

  // ---------- walking a chain ----------

  /** What a reader that has come to position `k` of a chain sees, and has seen. */
  lemma ChainCursor(slots: map<nat, Slot>, slots': map<nat, Slot>, ch: seq<nat>, k: nat, t: multiset<nat>)
    requires IsChain(slots, ch) && k < |ch| && Intact(slots, slots', multiset(ch[k..]) + t)
    ensures ch[k] in slots && ch[k] in slots' && slots'[ch[k]] == slots[ch[k]]
    ensures slots[ch[k]].size <= |slots[ch[k]].data|
    ensures slots[ch[k]].hasNext <==> k < |ch| - 1
    ensures k < |ch| - 1 ==> slots[ch[k]].next == ch[k + 1]
    ensures multiset(ch[k..]) + t == multiset{ch[k]} + (multiset(ch[k + 1..]) + t)
    ensures ChainBytes(slots, ch[..k + 1]) == ChainBytes(slots, ch[..k]) + SlotBytes(slots, ch[k])
  {
    hide ChainBytes, SlotBytes;
    CursorSlots(ch, k, t);
    CursorBytesSnoc(slots, ch, k);
  }

  lemma CursorSlots(ch: seq<nat>, k: nat, t: multiset<nat>)
    requires k < |ch|
    ensures multiset(ch[k..]) + t == multiset{ch[k]} + (multiset(ch[k + 1..]) + t) && ch[k] in multiset(ch[k..]) + t
  {
    assert ch[k..] == [ch[k]] + ch[k + 1..];
  }

  lemma CursorBytesSnoc(slots: map<nat, Slot>, ch: seq<nat>, k: nat)
    requires k < |ch|
    ensures ChainBytes(slots, ch[..k + 1]) == ChainBytes(slots, ch[..k]) + SlotBytes(slots, ch[k])
  {
    hide ChainBytes, SlotBytes;
    assert ch[..k + 1] == ch[..k] + [ch[k]];
    ChainBytesSnoc(slots, ch[..k], ch[k]);
  }

  lemma {:induction false} ChainBytesSnoc(slots: map<nat, Slot>, ch: seq<nat>, o: nat)
    ensures ChainBytes(slots, ch + [o]) == ChainBytes(slots, ch) + SlotBytes(slots, o)
  {
    hide SlotBytes;
    if ch == [] {
      assert ch + [o] == [o];
      assert ChainBytes(slots, [o]) == SlotBytes(slots, o) + ChainBytes(slots, []);
    } else {
      ChainBytesSnoc(slots, ch[1..], o);
      assert (ch + [o])[1..] == ch[1..] + [o];
      assert (SlotBytes(slots, ch[0]) + ChainBytes(slots, ch[1..])) + SlotBytes(slots, o)
          == SlotBytes(slots, ch[0]) + (ChainBytes(slots, ch[1..]) + SlotBytes(slots, o));
    }
  }

  // ---------- what a reader can count on ----------

  /** A receive buffer together with the parcels waiting to be moved into it. */
  ghost predicate RecvOk(p: Pool, b: Buf, ps: seq<Parcel>)
  {
    && ReadOk(p, b) && ParcelsOk(p.slots, ps) && Acceptable(b, ps)
    && Apart(p, Owned(b) + ParcelSlots(ps))
  }

  /** Everything the reader has not been given yet. */
  ghost function Available(p: Pool, b: Buf, ps: seq<Parcel>): seq<byte>
  {
    Unread(p, b) + ParcelBytes(p.slots, ps)
  }

  /** The contract of every read: exactly `out` left the front of what was available. */
  ghost predicate Delivered(p: Pool, b: Buf, ps: seq<Parcel>, q: Pool, c: Buf, ps': seq<Parcel>, out: seq<byte>)
  {
    && RecvOk(q, c, ps')
    && Exchange(p, Owned(b) + ParcelSlots(ps), q, Owned(c) + ParcelSlots(ps'))
    && Available(p, b, ps) == out + Available(q, c, ps')
    && Pins(p, b, q, c) && Arrived(b, ps, c, ps')
  }

  lemma DeliveredTrans(p: Pool, b: Buf, ps: seq<Parcel>, q: Pool, c: Buf, qs: seq<Parcel>, r: Pool, d: Buf,
                       rs: seq<Parcel>, x: seq<byte>, y: seq<byte>)
    requires Delivered(p, b, ps, q, c, qs, x) && Delivered(q, c, qs, r, d, rs, y)
    ensures Delivered(p, b, ps, r, d, rs, x + y)
  {
    hide Exchange, RecvOk, Owned, ParcelSlots, Available, IsPinned, Arrived;
    ArrivedTrans(b, ps, c, qs, d, rs);
    ExchangeTrans(p, Owned(b) + ParcelSlots(ps), q, Owned(c) + ParcelSlots(qs), r, Owned(d) + ParcelSlots(rs));
    assert x + (y + Available(r, d, rs)) == (x + y) + Available(r, d, rs);
  }

  lemma DeliveredNothing(p: Pool, b: Buf, ps: seq<Parcel>)
    requires RecvOk(p, b, ps)
    ensures Delivered(p, b, ps, p, b, ps, [])
  {
    hide RecvOk, Owned, ParcelSlots, Available, IsPinned;
    ExchangeRefl(p, Owned(b) + ParcelSlots(ps));
    assert [] + Available(p, b, ps) == Available(p, b, ps);
  }

  /** A read that only looked at the buffer left the waiting parcels alone. */
  lemma ReadingDelivered(p: Pool, b: Buf, ps: seq<Parcel>, q: Pool, c: Buf, out: seq<byte>)
    requires RecvOk(p, b, ps) && Reading(p, b, q, c, out) && LenOk(q, c)
    ensures Delivered(p, b, ps, q, c, ps, out)
  {
    hide PoolOk, Apart, Exchange, Offsets, Contents, ParcelSlots, ParcelBytes, ParcelsOk, Pins, ReadCore;
    var t := ParcelSlots(ps);
    ExchangeFrame(p, Owned(b), q, Owned(c), t);
    ExchangeApart(p, Owned(b) + t, q, Owned(c) + t);
    OtherIntact(p, Owned(b), q, Owned(c), t);
    ParcelsIntact(p.slots, q.slots, ps);
    assert out + (Unread(q, c) + ParcelBytes(q.slots, ps)) == (out + Unread(q, c)) + ParcelBytes(q.slots, ps);
  }

  lemma OtherIntact(p: Pool, own: multiset<nat>, q: Pool, own': multiset<nat>, t: multiset<nat>)
    requires Apart(p, own + t) && Exchange(p, own, q, own')
    ensures Intact(p.slots, q.slots, t)
  {
    hide Apart;
    ApartPart(p, own, t);
    forall o | o in t ensures o in p.slots && o in q.slots && q.slots[o] == p.slots[o] {
      ApartOne(p, own + t, o);
      ApartOne(p, t, o);
    }
  }

  /** Moving all waiting parcels in delivers nothing and changes nothing the reader can see. */
  lemma MovedDelivered(p: Pool, b: Buf, ps: seq<Parcel>, q: Pool, c: Buf)
    requires RecvOk(p, b, ps)
    requires Moving(p, b, ParcelSlots(ps), q, c, multiset{}, ParcelBytes(p.slots, ps))
    requires !c.isFromShm ==> !b.isFromShm || HasHeap(ps)
    ensures Delivered(p, b, ps, q, c, [], [])
    ensures |Unread(q, c)| == |Available(p, b, ps)|
  {
    hide PoolOk, Apart, Exchange, Offsets, Contents, Pins, ReadOk, HasHeap, ParcelOk, ParcelData, ParcelSlot, Owned,
         Unread;
    assert ParcelSlots([]) == multiset{} && ParcelBytes(q.slots, []) == [] && ps[..|ps|] == ps && ps[|ps|..] == [];
    assert Available(q, c, []) == Unread(q, c) == [] + Available(q, c, []);
  }

  /** A read that first moved parcels in (or not), then took `out`, and now updates the length. */
  lemma FinishRead(p0: Pool, b0: Buf, ps0: seq<Parcel>, p: Pool, b: Buf, ps: seq<Parcel>, q: Pool, c: Buf,
                   out: seq<byte>)
    requires Delivered(p0, b0, ps0, p, b, ps, []) && Reading(p, b, q, c, out)
    ensures Delivered(p0, b0, ps0, q, c.(len := b.len - |out|), ps, out)
  {
    hide Delivered, Reading;
    var d := c.(len := b.len - |out|);
    DeliveredRecv(p0, b0, ps0, p, b, ps, []);
    ReadingLen(p, b, q, c, out);
    ReadingDelivered(p, b, ps, q, d, out);
    DeliveredTrans(p0, b0, ps0, p, b, ps, q, d, ps, [], out);
    assert [] + out == out;
  }

  lemma DeliveredRecv(p: Pool, b: Buf, ps: seq<Parcel>, q: Pool, c: Buf, qs: seq<Parcel>, out: seq<byte>)
    requires Delivered(p, b, ps, q, c, qs, out)
    ensures RecvOk(q, c, qs) && ReadOk(q, c) && ReadCore(q, c) && c.len == |Unread(q, c)|
  {
  }

  lemma ReadingLen(p: Pool, b: Buf, q: Pool, c: Buf, out: seq<byte>)
    requires LenOk(p, b) && Reading(p, b, q, c, out)
    ensures Reading(p, b, q, c.(len := b.len - |out|), out) && LenOk(q, c.(len := b.len - |out|))
  {
    hide PoolOk, Apart, Exchange, Offsets, Contents;
    var d := c.(len := b.len - |out|);
    assert Unread(q, d) == Unread(q, c) && Owned(d) == Owned(c);
    forall o | IsPinned(c, o) ensures IsPinned(d, o) {
    }
  }

  lemma ReadingCore(p: Pool, b: Buf, q: Pool, c: Buf, out: seq<byte>)
    requires Reading(p, b, q, c, out)
    ensures ReadCore(q, c) && Unread(p, b) == out + Unread(q, c)
    ensures |Unread(q, c)| > 0 ==> c.slices != []
  {
  }
}
