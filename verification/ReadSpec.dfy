/** The three elementary steps every read is made of, as instances of `Reading`. */
module ReadSpec {
  import opened Slots
  import opened BufferManagers
  import opened BufferSpec

  /** The buffer after `k` bytes were taken from its front slice. */
  function Took(b: Buf, k: nat): Buf
    requires b.slices != []
  {
    b.(slices := b.slices[0 := b.slices[0].(r := b.slices[0].r + k)])
  }

  lemma TakeStep(p: Pool, b: Buf, k: nat)
    requires ReadCore(p, b) && b.slices != [] && k <= b.slices[0].w - b.slices[0].r
    ensures k <= |SliceBytes(p.slots, b.slices[0])|
    ensures Reading(p, b, p, Took(b, k), SliceBytes(p.slots, b.slices[0])[..k])
  {
    hide PoolOk, Apart, Exchange, Offsets, Contents, SliceBytes, SliceOk;
    var c := Took(b, k);
    TakeBytes(p, b, k);
    TakeShape(p, b, k);
    OffsetsUpdate(b.slices, 0, c.slices[0]);
    ExchangeRefl(p, Owned(b));
  }

  lemma TakeBytes(p: Pool, b: Buf, k: nat)
    requires SlicesOk(p.slots, b.slices) && b.slices != [] && k <= b.slices[0].w - b.slices[0].r
    ensures k <= |SliceBytes(p.slots, b.slices[0])|
    ensures Unread(p, b) == SliceBytes(p.slots, b.slices[0])[..k] + Unread(p, Took(b, k))
  {
    hide SliceBytes;
    var s, c := b.slices[0], Took(b, k);
    assert SliceOk(p.slots, s);
    var front, rest := SliceBytes(p.slots, s), SliceBytes(p.slots, c.slices[0]);
    assert c.slices[1..] == b.slices[1..];
    TakeSlice(p.slots, s, c.slices[0], k);
    var tail := Contents(p.slots, b.slices[1..]);
    assert (front[..k] + rest) + tail == front[..k] + (rest + tail);
  }

  lemma TakeSlice(slots: map<nat, Slot>, s: Slice, t: Slice, k: nat)
    requires SliceOk(slots, s) && k <= s.w - s.r && t == s.(r := s.r + k)
    ensures k <= |SliceBytes(slots, s)| && SliceBytes(slots, s) == SliceBytes(slots, s)[..k] + SliceBytes(slots, t)
  {
  }

  lemma TakeShape(p: Pool, b: Buf, k: nat)
    requires SlicesOk(p.slots, b.slices) && b.slices != [] && k <= b.slices[0].w - b.slices[0].r
    ensures SlicesOk(p.slots, Took(b, k).slices)
    ensures AllShm(b.slices) ==> AllShm(Took(b, k).slices)
  {
    var c := Took(b, k);
    forall i | 0 <= i < |c.slices| ensures SliceOk(p.slots, c.slices[i]) && c.slices[i].fromShm == b.slices[i].fromShm {
      assert SliceOk(p.slots, b.slices[i]);
    }
  }

  lemma PinStep(p: Pool, b: Buf)
    requires ReadCore(p, b)
    ensures Reading(p, b, p, b.(currentPinned := true), [])
  {
    hide PoolOk, Apart, Exchange, Offsets, Contents;
    var c := b.(currentPinned := true);
    ExchangeRefl(p, Owned(b));
    assert Unread(p, b) == [] + Unread(p, c);
  }

  /** The buffer after readNextSlice: the front slice is gone, pinned when it was lent out. */
  function Advanced(b: Buf): Buf
    requires b.slices != []
  {
    b.(slices := b.slices[1..],
       writeAt := if b.writeAt > 0 then b.writeAt - 1 else if b.writeAt == 0 then -2 else b.writeAt,
       pinned := if b.slices[0].fromShm && b.currentPinned then b.pinned + [b.slices[0]] else b.pinned,
       currentPinned := false)
  }

  /** The slot that readNextSlice gives back, if any. */
  ghost function Released(b: Buf): multiset<nat>
    requires b.slices != []
  {
    if b.slices[0].fromShm && !b.currentPinned then multiset{b.slices[0].offset} else multiset{}
  }

  lemma OwnedAdvanced(b: Buf)
    requires b.slices != []
    ensures Owned(b) == Released(b) + Owned(Advanced(b))
  {
    var s := b.slices[0];
    var rest := Offsets(b.slices[1..]);
    if s.fromShm && b.currentPinned {
      OffsetsAppend(b.pinned, [s]);
      assert Offsets([s]) == multiset{s.offset};
    }
  }

  lemma NextStep(p: Pool, b: Buf, q: Pool)
    requires ReadCore(p, b) && b.slices != [] && b.slices[0].r == b.slices[0].w
    requires PoolOk(q) && Exchange(p, Released(b), q, multiset{})
    ensures Reading(p, b, q, Advanced(b), [])
  {
    hide PoolOk, Apart, Exchange, Offsets, Contents, SliceOk;
    var c := Advanced(b);
    OwnedAdvanced(b);
    ExchangeFrame(p, Released(b), q, multiset{}, Owned(c));
    assert multiset{} + Owned(c) == Owned(c);
    ExchangeApart(p, Owned(b), q, Owned(c));
    NextKeeps(p, b, q);
    NextContents(p, b, q);
    forall i | 1 <= i < |c.slices| ensures c.slices[i].r < c.slices[i].w {
      assert c.slices[i] == b.slices[i + 1];
    }
    forall i | 0 <= i < |c.slices| && b.isFromShm ensures c.slices[i].fromShm {
      assert c.slices[i] == b.slices[i + 1];
    }
    assert AllShm(c.pinned);
    NextPins(p, b, q);
  }

  lemma NextContents(p: Pool, b: Buf, q: Pool)
    requires ReadCore(p, b) && b.slices != [] && b.slices[0].r == b.slices[0].w
    requires forall i :: 0 <= i < |Advanced(b).slices| ==> SameData(p.slots, q.slots, Advanced(b).slices[i])
    requires forall i :: 0 <= i < |Advanced(b).pinned| ==> SameData(p.slots, q.slots, Advanced(b).pinned[i])
    ensures Unread(p, b) == [] + Unread(q, Advanced(b))
    ensures SlicesOk(q.slots, Advanced(b).slices) && SlicesOk(q.slots, Advanced(b).pinned)
  {
    hide PoolOk, Apart, Offsets, Backing, SameData;
    var c := Advanced(b);
    ContentsFrame(p.slots, q.slots, c.slices);
    ContentsFrame(p.slots, q.slots, c.pinned);
    assert SliceOk(p.slots, b.slices[0]);
    assert SliceBytes(p.slots, b.slices[0]) == [];
    forall i | 0 <= i < |c.slices| ensures SliceOk(p.slots, c.slices[i]) {
      assert SliceOk(p.slots, b.slices[i + 1]);
    }
    forall i | 0 <= i < |c.pinned| ensures SliceOk(p.slots, c.pinned[i]) {
      assert i < |b.pinned| ==> SliceOk(p.slots, b.pinned[i]);
    }
  }

  /** Every slot still owned after readNextSlice is untouched. */
  lemma NextKeeps(p: Pool, b: Buf, q: Pool)
    requires BufCore(p, b) && b.slices != [] && Exchange(p, Released(b), q, multiset{})
    ensures forall o :: o in Owned(Advanced(b)) ==> o in p.slots && o in q.slots && q.slots[o] == p.slots[o]
    ensures forall i :: 0 <= i < |Advanced(b).slices| ==> SameData(p.slots, q.slots, Advanced(b).slices[i])
    ensures forall i :: 0 <= i < |Advanced(b).pinned| ==> SameData(p.slots, q.slots, Advanced(b).pinned[i])
  {
    hide PoolOk, Apart, Offsets, SlicesOk, Released;
    var c := Advanced(b);
    OwnedAdvanced(b);
    forall o | o in Owned(c) ensures o in p.slots && o in q.slots && q.slots[o] == p.slots[o] {
      ApartOne(p, Released(b) + Owned(c), o);
      ApartPart(p, Released(b), Owned(c));
    }
    forall i | 0 <= i < |c.slices| ensures SameData(p.slots, q.slots, c.slices[i]) {
      if c.slices[i].fromShm {
        OffsetsMember(c.slices, i);
      }
    }
    forall i | 0 <= i < |c.pinned| ensures SameData(p.slots, q.slots, c.pinned[i]) {
      if c.pinned[i].fromShm {
        OffsetsMember(c.pinned, i);
      }
    }
  }

  lemma NextPins(p: Pool, b: Buf, q: Pool)
    requires b.slices != []
    requires forall o :: o in Owned(Advanced(b)) ==> o in p.slots && o in q.slots && q.slots[o] == p.slots[o]
    ensures Pins(p, b, q, Advanced(b))
  {
    hide Offsets;
    var c := Advanced(b);
    forall o | IsPinned(b, o) ensures IsPinned(c, o) && o in Owned(c) {
      if b.slices[0].fromShm && b.currentPinned {
        OffsetsAppend(b.pinned, [b.slices[0]]);
        OffsetsMember([b.slices[0]], 0);
      }
    }
  }
}
