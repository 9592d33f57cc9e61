/**
 Reserved bytes: Reserve hands out a window of the write slice that its caller fills later. Until
 the buffer is flushed, filling a window replaces bytes in place and moves nothing.
 */
module Reserving {
  import opened Bytes
  import opened Slots
  import opened BufferManagers
  import opened BufferSpec

  function PatchedSlice(s: Slice, from: nat, bytes: seq<byte>): Slice
    requires !s.fromShm ==> from + |bytes| <= |s.heap|
  {
    if s.fromShm then s else s.(heap := Overwrite(s.heap, from, bytes))
  }

  function PatchedSlots(slots: map<nat, Slot>, s: Slice, from: nat, bytes: seq<byte>): map<nat, Slot>
    requires s.fromShm ==> s.offset in slots && from + |bytes| <= |slots[s.offset].data|
  {
    if s.fromShm
    then slots[s.offset := slots[s.offset].(data := Overwrite(slots[s.offset].data, from, bytes))]
    else slots
  }

  /** The bytes at position `k` of the unread bytes were replaced by `bytes`; nothing else changed. */
  ghost predicate Patched(p: Pool, b: Buf, q: Pool, c: Buf, k: nat, bytes: seq<byte>)
  {
    && WriteOk(q, c) && Exchange(p, Owned(b), q, Owned(c)) && c == b.(slices := c.slices)
    && k + |bytes| <= |Unread(p, b)| && Unread(q, c) == Overwrite(Unread(p, b), k, bytes)
  }

  lemma PatchedBytes(slots: map<nat, Slot>, s: Slice, from: nat, bytes: seq<byte>)
    requires SliceOk(slots, s) && s.r <= from && from + |bytes| <= s.w
    ensures SliceOk(PatchedSlots(slots, s, from, bytes), PatchedSlice(s, from, bytes))
    ensures from - s.r + |bytes| <= |SliceBytes(slots, s)|
    ensures SliceBytes(PatchedSlots(slots, s, from, bytes), PatchedSlice(s, from, bytes))
         == Overwrite(SliceBytes(slots, s), from - s.r, bytes)
  {
    var d, n := Backing(slots, s), |bytes|;
    var e := Overwrite(d, from, bytes);
    assert Backing(PatchedSlots(slots, s, from, bytes), PatchedSlice(s, from, bytes)) == e;
    var x, y := d[s.r..s.w], e[s.r..s.w];
    forall i | 0 <= i < |x| ensures y[i] == Overwrite(x, from - s.r, bytes)[i] {
      assert y[i] == e[s.r + i];
    }
  }

  lemma PatchedOthers(p: Pool, own: multiset<nat>, ss: seq<Slice>, i: nat, from: nat, bytes: seq<byte>)
    requires Apart(p, own) && Offsets(ss) <= own && i < |ss| && SlicesOk(p.slots, ss) && SliceOk(p.slots, ss[i])
    requires from + |bytes| <= ss[i].cap
    ensures forall j :: 0 <= j < |ss| && j != i ==> SameData(p.slots, PatchedSlots(p.slots, ss[i], from, bytes), ss[j])
  {
    hide Apart, Offsets;
    forall j | 0 <= j < |ss| && j != i ensures SameData(p.slots, PatchedSlots(p.slots, ss[i], from, bytes), ss[j]) {
      assert SliceOk(p.slots, ss[j]);
      if ss[i].fromShm && ss[j].fromShm {
        AtDistinct(p, own, ss, i, j);
      }
    }
  }

  lemma Middle(a: seq<byte>, x: seq<byte>, c: seq<byte>, k: nat, bytes: seq<byte>)
    requires k + |bytes| <= |x|
    ensures a + Overwrite(x, k, bytes) + c == Overwrite(a + x + c, |a| + k, bytes)
  {
    var all, n := a + x + c, |bytes|;
    assert all[..|a| + k] == a + x[..k];
    assert all[|a| + k + n..] == x[k + n..] + c;
    Assoc(a, x[..k], bytes, x[k + n..], c);
  }

  lemma Assoc(a: seq<byte>, b: seq<byte>, c: seq<byte>, d: seq<byte>, e: seq<byte>)
    ensures a + (b + c + d) + e == (a + b) + c + (d + e)
  {
  }

  /** Filling a window of slice `i` replaces exactly those bytes of the contents. */
  lemma PatchedContents(p: Pool, own: multiset<nat>, ss: seq<Slice>, i: nat, from: nat, bytes: seq<byte>)
    requires Apart(p, own) && Offsets(ss) <= own && i < |ss| && SlicesOk(p.slots, ss) && SliceOk(p.slots, ss[i])
    requires ss[i].r <= from && from + |bytes| <= ss[i].w
    ensures var k := |Contents(p.slots, ss[..i])| + (from - ss[i].r);
      && k + |bytes| <= |Contents(p.slots, ss)|
      && Contents(PatchedSlots(p.slots, ss[i], from, bytes), ss[i := PatchedSlice(ss[i], from, bytes)])
        == Overwrite(Contents(p.slots, ss), k, bytes)
    ensures SlicesOk(PatchedSlots(p.slots, ss[i], from, bytes), ss[i := PatchedSlice(ss[i], from, bytes)])
  {
    hide Apart, Offsets, SliceBytes, PatchedSlots, PatchedSlice, SameData, Contents, Overwrite;
    var slots', s' := PatchedSlots(p.slots, ss[i], from, bytes), PatchedSlice(ss[i], from, bytes);
    var ss' := ss[i := s'];
    PatchedOthers(p, own, ss, i, from, bytes);
    PatchedBytes(p.slots, ss[i], from, bytes);
    ContentsAt(p.slots, ss, i);
    ContentsAt(slots', ss', i);
    assert ss'[..i] == ss[..i] && ss'[i + 1..] == ss[i + 1..];
    ContentsFrame(p.slots, slots', ss[..i]);
    ContentsFrame(p.slots, slots', ss[i + 1..]);
    Middle(Contents(p.slots, ss[..i]), SliceBytes(p.slots, ss[i]), Contents(p.slots, ss[i + 1..]), from - ss[i].r,
      bytes);
    forall j | 0 <= j < |ss'| ensures SliceOk(slots', ss'[j]) {
      if j < i {
        assert ss'[j] == ss[..i][j];
      } else if j > i {
        assert ss'[j] == ss[i + 1..][j - i - 1];
      }
    }
  }

  lemma PatchExchange(p: Pool, b: Buf, i: nat, from: nat, bytes: seq<byte>)
    requires WriteCore(p, b) && i < |b.slices| && SliceOk(p.slots, b.slices[i]) && from + |bytes| <= b.slices[i].cap
    ensures var q := p.(slots := PatchedSlots(p.slots, b.slices[i], from, bytes));
      Exchange(p, Owned(b), q, Owned(b)) && Apart(q, Owned(b)) && PoolOk(q) && SlicesOk(q.slots, b.pinned)
  {
    hide Offsets, SlicesOk, AllEmpty, AllUnsent;
    var q := p.(slots := PatchedSlots(p.slots, b.slices[i], from, bytes));
    assert q.slots.Keys == p.slots.Keys;
    if b.slices[i].fromShm {
      OffsetsMember(b.slices, i);
    }
    forall j, k | 0 <= j < |p.free| && 0 <= k < |p.free[j]| ensures FreeSlotOk(q, j, p.free[j][k]) {
      assert FreeSlotOk(p, j, p.free[j][k]);
    }
    PatchPinned(p, b, i, from, bytes);
  }

  lemma PatchPinned(p: Pool, b: Buf, i: nat, from: nat, bytes: seq<byte>)
    requires SlicesOk(p.slots, b.pinned) && i < |b.slices| && SliceOk(p.slots, b.slices[i])
    requires from + |bytes| <= b.slices[i].cap
    ensures SlicesOk(PatchedSlots(p.slots, b.slices[i], from, bytes), b.pinned)
  {
    var slots' := PatchedSlots(p.slots, b.slices[i], from, bytes);
    forall j | 0 <= j < |b.pinned| ensures SliceOk(slots', b.pinned[j]) {
      assert SliceOk(p.slots, b.pinned[j]);
    }
  }

  lemma PatchedOk(p: Pool, b: Buf, i: nat, from: nat, bytes: seq<byte>)
    requires WriteOk(p, b) && i < |b.slices| && SliceOk(p.slots, b.slices[i])
    requires b.slices[i].r <= from && from + |bytes| <= b.slices[i].w
    ensures Patched(p, b, p.(slots := PatchedSlots(p.slots, b.slices[i], from, bytes)),
                    b.(slices := b.slices[i := PatchedSlice(b.slices[i], from, bytes)]),
                    |Contents(p.slots, b.slices[..i])| + (from - b.slices[i].r), bytes)
  {
    hide PoolOk, Apart, Exchange, Offsets, Contents, PatchedSlots, Overwrite;
    var s' := PatchedSlice(b.slices[i], from, bytes);
    var q, c := p.(slots := PatchedSlots(p.slots, b.slices[i], from, bytes)), b.(slices := b.slices[i := s']);
    PatchedContents(p, Owned(b), b.slices, i, from, bytes);
    PatchExchange(p, b, i, from, bytes);
    OffsetsUpdate(b.slices, i, s');
    PatchUnsent(p, b, i, from, bytes);
    assert c.slices[c.writeAt + 1..] == [] && b.slices[b.writeAt + 1..] == [];
  }

  lemma PatchUnsent(p: Pool, b: Buf, i: nat, from: nat, bytes: seq<byte>)
    requires AllUnsent(p.slots, b.slices) && i < |b.slices| && SliceOk(p.slots, b.slices[i])
    requires from + |bytes| <= b.slices[i].cap
    requires b.isFromShm ==> AllShm(b.slices)
    ensures AllUnsent(PatchedSlots(p.slots, b.slices[i], from, bytes),
      b.slices[i := PatchedSlice(b.slices[i], from, bytes)])
    ensures b.isFromShm ==> AllShm(b.slices[i := PatchedSlice(b.slices[i], from, bytes)])
  {
    var slots', ss := PatchedSlots(p.slots, b.slices[i], from, bytes),
      b.slices[i := PatchedSlice(b.slices[i], from, bytes)];
    forall j | 0 <= j < |ss| ensures Unsent(slots', ss[j]) {
      assert Unsent(p.slots, b.slices[j]);
    }
  }
}
