/**
 The shared slab as a value: fixed-capacity slots with their headers, the free lists that hold
 the unallocated ones, and the slices through which a linked buffer views the slots it owns.

 The file also defines the one relation that all buffer operations keep, `Exchange`: slots move
 between the free lists and an owner, none appears, none disappears, and nothing else changes.
 */
module Slots {
  import opened Bytes

  /** A slot: the header words a peer can read, and `|data|` bytes of capacity. */
  datatype Slot = Slot(size: nat, start: nat, next: nat, hasNext: bool, inUsed: bool, data: seq<byte>)

  /** `free[i]` lists, from head to tail, the offsets of the free slots of capacity `caps[i]`. */
  datatype Pool = Pool(caps: seq<nat>, free: seq<seq<nat>>, slots: map<nat, Slot>)

  /** A window on a slot (`fromShm`) or on a private heap block (`heap`); bytes `r..w` are unread. */
  datatype Slice = Slice(offset: nat, fromShm: bool, cap: nat, start: nat, r: nat, w: nat, heap: seq<byte>)

  // ---------- free lists ----------

  ghost function FreeSlots(free: seq<seq<nat>>): multiset<nat>
  {
    if free == [] then multiset{} else multiset(free[0]) + FreeSlots(free[1..])
  }

  lemma {:induction false} FreeWithoutHead(free: seq<seq<nat>>, i: nat)
    requires i < |free| && free[i] != []
    ensures FreeSlots(free) == FreeSlots(free[i := free[i][1..]]) + multiset{free[i][0]}
  {
    if i == 0 {
      assert free[0 := free[0][1..]][1..] == free[1..];
      assert free[0] == [free[0][0]] + free[0][1..];
    } else {
      FreeWithoutHead(free[1..], i - 1);
      assert free[i := free[i][1..]][1..] == free[1..][i - 1 := free[i][1..]];
    }
  }

  lemma {:induction false} FreeWithTail(free: seq<seq<nat>>, i: nat, o: nat)
    requires i < |free|
    ensures FreeSlots(free[i := free[i] + [o]]) == FreeSlots(free) + multiset{o}
  {
    if i == 0 {
      assert free[0 := free[0] + [o]][1..] == free[1..];
    } else {
      FreeWithTail(free[1..], i - 1, o);
      assert free[i := free[i] + [o]][1..] == free[1..][i - 1 := free[i] + [o]];
    }
  }

  lemma {:induction false} FreeMember(free: seq<seq<nat>>, i: nat)
    requires i < |free|
    ensures multiset(free[i]) <= FreeSlots(free)
  {
    if i > 0 {
      FreeMember(free[1..], i - 1);
    }
  }

  ghost predicate Ascending(caps: seq<nat>)
  {
    forall i, j :: 0 <= i < j < |caps| ==> caps[i] < caps[j]
  }

  ghost predicate IsCap(caps: seq<nat>, c: nat)
  {
    exists i :: 0 <= i < |caps| && caps[i] == c
  }

  /** A free slot of list `i`: right capacity, header wiped by `reset`. */
  ghost predicate FreeSlotOk(p: Pool, i: nat, o: nat)
    requires i < |p.caps|
  {
    o in p.slots && |p.slots[o].data| == p.caps[i] && p.slots[o].size == 0
  }

  /**
   The size classes are pairwise different and ascending, every list keeps at least one slot, and
   every slot belongs to some class. No code path ever writes a start offset other than 0.
   */
  ghost predicate PoolOk(p: Pool)
  {
    && |p.caps| == |p.free| > 0
    && p.caps[0] > 0
    && Ascending(p.caps)
    && (forall i :: 0 <= i < |p.free| ==> |p.free[i]| >= 1)
    && (forall i, k :: 0 <= i < |p.free| && 0 <= k < |p.free[i]| ==> FreeSlotOk(p, i, p.free[i][k]))
    && (forall o :: o in p.slots ==> IsCap(p.caps, |p.slots[o].data|) && p.slots[o].start == 0)
  }

  /** The owner's slots and the free slots are all different. */
  ghost predicate Apart(p: Pool, own: multiset<nat>)
  {
    FreeSlots(p.free) + own <= multiset(p.slots.Keys)
  }

  // ---------- the exchange relation ----------

  /**
   An owner that held the slots `own` now holds `own'`. Every slot it gained came off a free list
   and every slot it gave up went onto one; slots held by anybody else are untouched.
   */
  ghost predicate Exchange(p: Pool, own: multiset<nat>, q: Pool, own': multiset<nat>)
  {
    && q.caps == p.caps
    && q.slots.Keys == p.slots.Keys
    && (forall o :: o in p.slots ==> |q.slots[o].data| == |p.slots[o].data|)
    && FreeSlots(q.free) + own' == FreeSlots(p.free) + own
    && (forall o :: o in p.slots && o !in FreeSlots(p.free) + own ==> q.slots[o] == p.slots[o])
  }

  lemma ExchangeRefl(p: Pool, a: multiset<nat>)
    ensures Exchange(p, a, p, a)
  {
  }

  lemma ExchangeTrans(p: Pool, a: multiset<nat>, q: Pool, b: multiset<nat>, r: Pool, c: multiset<nat>)
    requires Exchange(p, a, q, b) && Exchange(q, b, r, c)
    ensures Exchange(p, a, r, c)
  {
  }

  /** An exchange by one owner is an exchange by a larger owner that keeps `x` aside. */
  lemma ExchangeFrame(p: Pool, a: multiset<nat>, q: Pool, b: multiset<nat>, x: multiset<nat>)
    requires Exchange(p, a, q, b)
    ensures Exchange(p, a + x, q, b + x)
  {
    assert FreeSlots(q.free) + (b + x) == (FreeSlots(q.free) + b) + x;
    assert FreeSlots(p.free) + (a + x) == (FreeSlots(p.free) + a) + x;
  }

  lemma ExchangeApart(p: Pool, a: multiset<nat>, q: Pool, b: multiset<nat>)
    requires Exchange(p, a, q, b) && Apart(p, a)
    ensures Apart(q, b)
  {
  }

  /** What an owner may rely on for one of its slots. */
  lemma ApartOne(p: Pool, own: multiset<nat>, o: nat)
    requires Apart(p, own) && o in own
    ensures o in p.slots && o !in FreeSlots(p.free) && own[o] == 1
  {
    assert (FreeSlots(p.free) + own)[o] <= multiset(p.slots.Keys)[o];
  }

  lemma ApartPart(p: Pool, a: multiset<nat>, b: multiset<nat>)
    requires Apart(p, a + b)
    ensures Apart(p, a) && Apart(p, b)
    ensures forall o :: o in a ==> o !in b
  {
    forall o | o in a ensures o !in b {
      ApartOne(p, a + b, o);
      assert (a + b)[o] == a[o] + b[o];
    }
  }

  // ---------- slices ----------

  ghost function Backing(slots: map<nat, Slot>, s: Slice): seq<byte>
  {
    if s.fromShm then (if s.offset in slots then slots[s.offset].data else []) else s.heap
  }

  /** The unread bytes of a slice. */
  ghost function SliceBytes(slots: map<nat, Slot>, s: Slice): seq<byte>
  {
    var d := Backing(slots, s);
    if s.r <= s.w <= |d| then d[s.r..s.w] else []
  }

  ghost predicate SliceOk(slots: map<nat, Slot>, s: Slice)
  {
    && (s.fromShm ==> s.offset in slots)
    && s.cap == |Backing(slots, s)| > 0
    && s.start == 0
    && s.r <= s.w <= s.cap
  }

  ghost predicate SlicesOk(slots: map<nat, Slot>, ss: seq<Slice>)
  {
    forall i :: 0 <= i < |ss| ==> SliceOk(slots, ss[i])
  }

  /** All unread bytes of a list of slices, in order: the abstract value of a linked buffer. */
  ghost function Contents(slots: map<nat, Slot>, ss: seq<Slice>): seq<byte>
  {
    if ss == [] then [] else SliceBytes(slots, ss[0]) + Contents(slots, ss[1..])
  }

  /** The slots a list of slices stands on. */
  ghost function Offsets(ss: seq<Slice>): multiset<nat>
  {
    if ss == [] then multiset{} else SlotOf(ss[0]) + Offsets(ss[1..])
  }

  ghost function SlotOf(s: Slice): multiset<nat>
  {
    if s.fromShm then multiset{s.offset} else multiset{}
  }

  ghost function TotalCap(ss: seq<Slice>): nat
  {
    if ss == [] then 0 else ss[0].cap + TotalCap(ss[1..])
  }

  lemma {:induction false} TotalCapAppend(a: seq<Slice>, b: seq<Slice>)
    ensures TotalCap(a + b) == TotalCap(a) + TotalCap(b)
  {
    if a == [] {
      assert a + b == b;
    } else {
      TotalCapAppend(a[1..], b);
      assert (a + b)[1..] == a[1..] + b;
    }
  }

  lemma TotalCapSnoc(a: seq<Slice>, s: Slice)
    ensures TotalCap(a + [s]) == TotalCap(a) + s.cap
  {
    TotalCapAppend(a, [s]);
  }

  lemma {:induction false} OffsetsAppend(a: seq<Slice>, b: seq<Slice>)
    ensures Offsets(a + b) == Offsets(a) + Offsets(b)
  {
    hide SlotOf;
    if a == [] {
      assert a + b == b;
    } else {
      OffsetsAppend(a[1..], b);
      assert (a + b)[1..] == a[1..] + b && (a + b)[0] == a[0];
      assert SlotOf(a[0]) + (Offsets(a[1..]) + Offsets(b)) == (SlotOf(a[0]) + Offsets(a[1..])) + Offsets(b);
    }
  }

  lemma {:induction false} OffsetsMember(ss: seq<Slice>, i: nat)
    requires i < |ss| && ss[i].fromShm
    ensures ss[i].offset in Offsets(ss)
  {
    if i > 0 {
      OffsetsMember(ss[1..], i - 1);
    }
  }

  /** Two different slices of a list without repeated slots stand on different slots. */
  lemma {:induction false} OffsetsDistinct(ss: seq<Slice>, i: nat, j: nat)
    requires i < j < |ss| && ss[i].fromShm && ss[j].fromShm
    ensures ss[i].offset == ss[j].offset ==> Offsets(ss)[ss[i].offset] >= 2
  {
    if i == 0 {
      OffsetsMember(ss[1..], j - 1);
    } else {
      OffsetsDistinct(ss[1..], i - 1, j - 1);
    }
  }

  /** The slots of a list depend only on which slot each slice stands on. */
  lemma {:induction false} OffsetsUpdate(ss: seq<Slice>, i: nat, s: Slice)
    requires i < |ss| && s.fromShm == ss[i].fromShm && s.offset == ss[i].offset
    ensures Offsets(ss[i := s]) == Offsets(ss)
  {
    if i == 0 {
      assert ss[0 := s][1..] == ss[1..];
    } else {
      OffsetsUpdate(ss[1..], i - 1, s);
      assert ss[i := s][1..] == ss[1..][i - 1 := s];
    }
  }

  lemma {:induction false} ContentsAppend(slots: map<nat, Slot>, a: seq<Slice>, b: seq<Slice>)
    ensures Contents(slots, a + b) == Contents(slots, a) + Contents(slots, b)
  {
    hide SliceBytes;
    if a == [] {
      assert a + b == b;
    } else {
      ContentsAppend(slots, a[1..], b);
      assert (a + b)[1..] == a[1..] + b && (a + b)[0] == a[0];
      var head, mid, tail := SliceBytes(slots, a[0]), Contents(slots, a[1..]), Contents(slots, b);
      assert head + (mid + tail) == (head + mid) + tail;
    }
  }

  ghost predicate SameData(slots: map<nat, Slot>, slots': map<nat, Slot>, s: Slice)
  {
    s.fromShm ==> s.offset in slots && s.offset in slots' && slots'[s.offset].data == slots[s.offset].data
  }

  lemma {:induction false} ContentsFrame(slots: map<nat, Slot>, slots': map<nat, Slot>, ss: seq<Slice>)
    requires forall i :: 0 <= i < |ss| ==> SameData(slots, slots', ss[i])
    ensures Contents(slots', ss) == Contents(slots, ss)
    ensures SlicesOk(slots, ss) ==> SlicesOk(slots', ss)
  {
    if ss != [] {
      assert SameData(slots, slots', ss[0]);
      forall i | 0 <= i < |ss[1..]| ensures SameData(slots, slots', ss[1..][i]) {
        assert ss[1..][i] == ss[i + 1];
      }
      ContentsFrame(slots, slots', ss[1..]);
      if SlicesOk(slots, ss) {
        forall i | 0 <= i < |ss| ensures SliceOk(slots', ss[i]) {
          assert SliceOk(slots, ss[i]) && SameData(slots, slots', ss[i]);
        }
      }
    }
  }

  lemma {:induction false} ContentsLength(slots: map<nat, Slot>, ss: seq<Slice>, i: nat)
    requires i < |ss| && SlicesOk(slots, ss)
    ensures |Contents(slots, ss)| >= ss[i].w - ss[i].r
  {
    assert SliceOk(slots, ss[0]);
    if i > 0 {
      assert SlicesOk(slots, ss[1..]);
      ContentsLength(slots, ss[1..], i - 1);
    }
  }

  // ---------- published chains ----------

  /** The bytes a slot's header announces. */
  ghost function SlotBytes(slots: map<nat, Slot>, o: nat): seq<byte>
  {
    if o in slots && slots[o].start + slots[o].size <= |slots[o].data|
    then slots[o].data[slots[o].start..slots[o].start + slots[o].size] else []
  }

  ghost function ChainBytes(slots: map<nat, Slot>, ch: seq<nat>): seq<byte>
  {
    if ch == [] then [] else SlotBytes(slots, ch[0]) + ChainBytes(slots, ch[1..])
  }

  /** `ch` is what a reader finds by following headers from `ch[0]`. */
  ghost predicate IsChain(slots: map<nat, Slot>, ch: seq<nat>)
  {
    && |ch| > 0
    && (forall i :: 0 <= i < |ch| ==> ch[i] in slots && slots[ch[i]].size <= |slots[ch[i]].data|)
    && (forall i :: 0 <= i < |ch| - 1 ==> slots[ch[i]].hasNext && slots[ch[i]].next == ch[i + 1])
    && !slots[ch[|ch| - 1]].hasNext
  }

  ghost predicate SameSlots(slots: map<nat, Slot>, slots': map<nat, Slot>, ch: seq<nat>)
  {
    forall i :: 0 <= i < |ch| ==> ch[i] in slots && ch[i] in slots' && slots'[ch[i]] == slots[ch[i]]
  }

  lemma {:induction false} ChainBytesFrame(slots: map<nat, Slot>, slots': map<nat, Slot>, ch: seq<nat>)
    requires SameSlots(slots, slots', ch)
    ensures ChainBytes(slots', ch) == ChainBytes(slots, ch)
  {
    if ch != [] {
      assert SlotBytes(slots', ch[0]) == SlotBytes(slots, ch[0]);
      assert SameSlots(slots, slots', ch[1..]);
      ChainBytesFrame(slots, slots', ch[1..]);
    }
  }

  lemma ChainFrame(slots: map<nat, Slot>, slots': map<nat, Slot>, ch: seq<nat>)
    requires SameSlots(slots, slots', ch)
    ensures ChainBytes(slots', ch) == ChainBytes(slots, ch)
    ensures IsChain(slots, ch) ==> IsChain(slots', ch)
  {
    hide ChainBytes;
    ChainBytesFrame(slots, slots', ch);
  }
}
