/**
 A run of Transfer that loses a slot: the reader is lent the first slot of a message, reads on, and
 closes its stream without releasing. The slot stays on the pinned list, which nothing empties any more.
 */
module PinnedLeak {
  import opened Bytes
  import opened Slots
  import opened BufferSpec
  import opened ArrivalSpec
  import opened Streams
  import opened Transfer

  /** Three slots of one byte; the message takes slots 0 and 1. */
  function Three(free: seq<nat>, a: Slot, b: Slot): Pool
  {
    Pool([1], [free], map[0 := a, 1 := b, 2 := Slot(0, 0, 0, false, false, [0])])
  }

  /** A slice of slot `o`, of which `r` of `w` bytes have been read. */
  function Piece(o: nat, r: nat, w: nat): Slice
  {
    Slice(o, true, 1, 0, r, w, [])
  }

  /** The memory with the free list `free`. */
  ghost predicate Memory(p: Pool, free: seq<nat>)
  {
    && PoolOk(p) && FreeSlots(p.free) == multiset(free)
    && p.caps == [1] && p.slots.Keys == {0, 1, 2} && forall o :: o in p.slots ==> |p.slots[o].data| == 1
  }

  lemma ThreeOk(free: seq<nat>, a: Slot, b: Slot)
    requires |a.data| == |b.data| == 1 && a.start == b.start == 0 && free != []
    requires forall k :: 0 <= k < |free| ==> 0 <= free[k] <= 2
    requires (0 in free ==> a.size == 0) && (1 in free ==> b.size == 0)
    ensures Memory(Three(free, a, b), free)
  {
    var p := Three(free, a, b);
    assert p.free[1..] == [];
    assert p.slots.Keys == {0, 1, 2};
    assert p.caps[0] == 1;
    forall o | o in p.slots ensures IsCap(p.caps, |p.slots[o].data|) {
      assert p.caps[0] == |p.slots[o].data|;
    }
    forall i, k | 0 <= i < |p.free| && 0 <= k < |p.free[i]| ensures FreeSlotOk(p, i, p.free[i][k]) {
    }
  }

  lemma AllSlots(p: Pool, free: seq<nat>, own: multiset<nat>)
    requires Memory(p, free) && multiset(free) + own == multiset{0, 1, 2}
    ensures Apart(p, own) && forall o :: o in p.slots ==> o in FreeSlots(p.free) + own
  {
    hide PoolOk, FreeSlots;
    assert multiset(p.slots.Keys) == multiset{0, 1, 2};
    forall o | o in p.slots ensures o in FreeSlots(p.free) + own {
      assert o in multiset{0, 1, 2};
    }
  }

  /** Exchanges on this memory only have to balance: every slot is free or owned by the one stream. */
  lemma Traded(p: Pool, free: seq<nat>, own: multiset<nat>, q: Pool, free2: seq<nat>, own2: multiset<nat>)
    requires Memory(p, free) && Memory(q, free2)
    requires multiset(free) + own == multiset{0, 1, 2} == multiset(free2) + own2
    ensures Exchange(p, own, q, own2) && Apart(p, own) && Apart(q, own2)
  {
    hide PoolOk, FreeSlots, Apart;
    AllSlots(p, free, own);
    AllSlots(q, free2, own2);
  }

  lemma {:induction false} Two(slots: map<nat, Slot>, x: Slice, y: Slice)
    ensures Contents(slots, [x, y]) == SliceBytes(slots, x) + SliceBytes(slots, y)
    ensures Offsets([x, y]) == SlotOf(x) + SlotOf(y)
  {
    hide SliceBytes, SlotOf;
    One(slots, y);
    var ss := [x, y];
    assert ss[1..] == [y];
    assert Contents(slots, ss) == SliceBytes(slots, ss[0]) + Contents(slots, ss[1..]);
    assert Offsets(ss) == SlotOf(ss[0]) + Offsets(ss[1..]);
  }

  lemma One(slots: map<nat, Slot>, x: Slice)
    ensures Contents(slots, [x]) == SliceBytes(slots, x) && Offsets([x]) == SlotOf(x)
  {
    hide SliceBytes, SlotOf;
    var ss := [x];
    assert ss[1..] == [];
    assert Contents(slots, ss) == SliceBytes(slots, ss[0]) + Contents(slots, ss[1..]);
    assert Offsets(ss) == SlotOf(ss[0]) + Offsets(ss[1..]);
  }

  /** The two slots hold the message. */
  ghost predicate Holds(p: Pool, x: byte, y: byte)
  {
    0 in p.slots && 1 in p.slots && p.slots[0].data == [x] && p.slots[1].data == [y]
  }

  lemma Writing(p: Pool, q: Pool, c: Buf, x: byte, y: byte)
    requires Memory(p, [0, 1, 2]) && Memory(q, [2]) && Holds(q, x, y) && !q.slots[0].hasNext && !q.slots[1].hasNext
    requires c == Buf([Piece(0, 0, 1), Piece(1, 0, 1)], 1, [], false, true, 2)
    ensures Wrote(p, FreshBuf(), q, c, [x, y])
  {
    hide PoolOk, FreeSlots, Apart, Exchange, Offsets, Contents;
    Two(q.slots, c.slices[0], c.slices[1]);
    NoSlices(p.slots);
    assert Owned(c) == multiset{0, 1} && Owned(FreshBuf()) == multiset{};
    assert Unread(q, c) == [x, y] && Unread(p, FreshBuf()) == [];
    Traded(p, [0, 1, 2], multiset{}, q, [2], multiset{0, 1});
    assert c.slices[2..] == [];
  }

  lemma NoSlices(slots: map<nat, Slot>)
    ensures Contents(slots, []) == [] && Offsets([]) == multiset{}
  {
  }

  /** The headers say that the message is slot 0 and then slot 1. */
  ghost predicate Linked(p: Pool)
  {
    && 0 in p.slots && 1 in p.slots
    && p.slots[0].(data := []) == Slot(1, 0, 1, true, true, [])
      && p.slots[1].(data := []) == Slot(1, 0, 0, false, true, [])
  }

  lemma MessageIs(p: Pool, x: byte, y: byte)
    requires Memory(p, [2]) && Holds(p, x, y) && Linked(p)
    ensures IsChain(p.slots, [0, 1]) && ChainBytes(p.slots, [0, 1]) == [x, y]
    ensures ParcelSlots([Chain([0, 1])]) == multiset{0, 1} && ParcelBytes(p.slots, [Chain([0, 1])]) == [x, y]
    ensures ParcelsOk(p.slots, [Chain([0, 1])])
  {
    hide PoolOk, FreeSlots;
    var ch: seq<nat> := [0, 1];
    assert ch[1..] == [1] && ch[1..][1..] == [];
    assert ChainBytes(p.slots, ch) == SlotBytes(p.slots, 0) + ChainBytes(p.slots, ch[1..]);
    assert ChainBytes(p.slots, ch[1..]) == SlotBytes(p.slots, 1) + ChainBytes(p.slots, ch[1..][1..]);
    assert ChainBytes(p.slots, ch) == [x, y];
    ParcelSlotsOne(Chain(ch));
    ParcelBytesOne(p.slots, Chain(ch));
  }

  lemma Sending(p: Pool, b: Buf, q: Pool, x: byte, y: byte)
    requires Memory(p, [2]) && Holds(p, x, y) && Memory(q, [2]) && Holds(q, x, y) && Linked(q)
    requires b == Buf([Piece(0, 0, 1), Piece(1, 0, 1)], 1, [], false, true, 2)
    ensures HandedOver(p, b, q, FreshBuf(), [0, 1])
  {
    hide PoolOk, FreeSlots, Apart, Exchange, Offsets, Contents, IsChain, ChainBytes, ParcelSlots, ParcelBytes,
      ParcelsOk;
    Two(p.slots, b.slices[0], b.slices[1]);
    NoSlices(q.slots);
    MessageIs(q, x, y);
    assert Owned(b) == multiset{0, 1} && Owned(FreshBuf()) + multiset([0, 1]) == multiset{0, 1};
    assert Unread(p, b) == [x, y];
    Traded(p, [2], multiset{0, 1}, q, [2], multiset{0, 1});
    assert Owned(FreshBuf()) == multiset{};
    ApartPart(q, multiset{}, multiset{0, 1});
  }

  /** After the first read the front slice is exhausted and its slot is lent. */
  function Half(): Buf
  {
    Buf([Piece(0, 1, 1), Piece(1, 0, 1)], 1, [], true, true, 1)
  }

  /** After the second read the first slot is on the pinned list. */
  function Whole(): Buf
  {
    Buf([Piece(1, 1, 1)], 0, [Piece(0, 1, 1)], true, true, 0)
  }

  lemma HalfIs(p: Pool, x: byte, y: byte)
    requires Memory(p, [2]) && Holds(p, x, y)
    ensures ReadOk(p, Half()) && Owned(Half()) == multiset{0, 1} && Unread(p, Half()) == [y]
  {
    hide PoolOk, FreeSlots, Apart, Offsets, Contents;
    var c := Half();
    Two(p.slots, c.slices[0], c.slices[1]);
    NoSlices(p.slots);
    assert SliceBytes(p.slots, c.slices[0]) == [] && SliceBytes(p.slots, c.slices[1]) == [y];
    assert Owned(c) == multiset{0, 1} && Unread(p, c) == [y];
    AllSlots(p, [2], multiset{0, 1});
  }

  lemma WholeIs(p: Pool, x: byte, y: byte)
    requires Memory(p, [2]) && Holds(p, x, y)
    ensures ReadOk(p, Whole()) && Owned(Whole()) == multiset{0, 1} && Unread(p, Whole()) == []
    ensures Offsets(Whole().pinned) == multiset{0}
  {
    hide PoolOk, FreeSlots, Apart, Offsets, Contents;
    var c := Whole();
    One(p.slots, c.slices[0]);
    One(p.slots, c.pinned[0]);
    assert Owned(c) == multiset{0, 1} && Unread(p, c) == [];
    AllSlots(p, [2], multiset{0, 1});
  }

  lemma FirstRead(p: Pool, x: byte, y: byte)
    requires Memory(p, [2]) && Holds(p, x, y) && Linked(p)
    ensures Delivered(p, FreshBuf(), [Chain([0, 1])], p, Half(), [], [x]) && IsPinned(Half(), 0)
  {
    hide PoolOk, FreeSlots, Apart, Exchange, Offsets, Contents, IsChain, ChainBytes, ParcelSlots, ParcelBytes,
      ParcelsOk, ReadOk, Unread;
    MessageIs(p, x, y);
    HalfIs(p, x, y);
    NoSlices(p.slots);
    FreshUnread(p);
    assert Owned(FreshBuf()) + multiset{0, 1} == multiset{0, 1} && Owned(Half()) + multiset{} == multiset{0, 1};
    NoParcels();
    Traded(p, [2], multiset{0, 1}, p, [2], multiset{0, 1});
    assert [x] + [y] == [x, y];
    NothingPinned(p, p, Half());
  }

  lemma FreshUnread(p: Pool)
    ensures Unread(p, FreshBuf()) == [] && ParcelBytes(p.slots, []) == [] && ParcelsOk(p.slots, [])
  {
  }

  lemma NothingPinned(p: Pool, q: Pool, c: Buf)
    ensures Pins(p, FreshBuf(), q, c)
  {
  }

  lemma SecondRead(p: Pool, x: byte, y: byte)
    requires Memory(p, [2]) && Holds(p, x, y)
    ensures Delivered(p, Half(), [], p, Whole(), [], [y]) && IsPinned(Whole(), 1)
  {
    hide PoolOk, FreeSlots, Apart, Exchange, Offsets, Contents, ParcelSlots, ParcelBytes, ParcelsOk, ReadOk, Unread;
    HalfIs(p, x, y);
    WholeIs(p, x, y);
    FreshUnread(p);
    NoSlices(p.slots);
    NoParcels();
    Traded(p, [2], multiset{0, 1}, p, [2], multiset{0, 1});
    assert multiset{0, 1} + multiset{} == multiset{0, 1};
    assert [y] + [] == [y];
  }

  lemma Closing(p: Pool, q: Pool, w: Way, v: Way, w': Way, v': Way, x: byte, y: byte)
    requires Memory(p, [2]) && Holds(p, x, y) && Memory(q, [2, 1])
    requires w.recv == Whole() && w.pending == [] && v.send == FreshBuf()
    requires w' == w.(recv := Cleaned(w.recv), pending := [], reader := false, lent := map[])
    requires v' == v.(send := Cleaned(v.send), draft := [], writer := false)
    ensures Closes(p, w, v, q, w', v')
  {
    hide PoolOk, FreeSlots, Apart, Exchange, Offsets, Contents, ParcelSlots, ReadOk, Unread;
    WholeIs(p, x, y);
    CleanedOwned(w.recv);
    CleanedOwned(v.send);
    NoSlices(p.slots);
    NoParcels();
    assert Owned(w.recv) + ParcelSlots(w.pending) + Owned(v.send) == multiset{0, 1};
    assert Owned(w'.recv) + Owned(v'.send) == multiset{0};
    Traded(p, [2], multiset{0, 1}, q, [2, 1], multiset{0});
  }

  /** The direction of the message, step by step. */
  function WayAt(k: nat, x: byte, y: byte): Way
  {
    var w := FreshWay();
    if k == 0 then w
    else if k == 1 then
      w.(send := Buf([Piece(0, 0, 1), Piece(1, 0, 1)], 1, [], false, true, 2), draft := [x, y])
    else if k == 2 then w.(flight := [Chain([0, 1])], flushed := [x, y])
    else if k == 3 then w.(pending := [Chain([0, 1])], flushed := [x, y])
    else if k == 4 then w.(recv := Half(), flushed := [x, y], read := [x], lent := map[0 := [x]])
    else if k == 5 then w.(recv := Whole(), flushed := [x, y], read := [x, y], lent := map[0 := [x], 1 := [y]])
    else w.(recv := Buf([], -1, Whole().pinned, false, true, 0), flushed := [x, y], read := [x, y], reader := false)
  }

  function PoolAt(k: nat, x: byte, y: byte): Pool
  {
    var blank := Slot(0, 0, 0, false, false, [0]);
    if k == 0 then Three([0, 1, 2], blank, blank)
    else if k == 1 then Three([2], Slot(0, 0, 0, false, true, [x]), Slot(0, 0, 0, false, true, [y]))
    else if k < 6 then Three([2], Slot(1, 0, 1, true, true, [x]), Slot(1, 0, 0, false, true, [y]))
    else Three([2, 1], Slot(1, 0, 1, true, true, [x]), Slot(0, 0, 0, false, false, [y]))
  }

  function StateAt(k: nat, x: byte, y: byte): Sys
  {
    Sys(PoolAt(k, x, y), [Conn(WayAt(k, x, y), if k < 6 then FreshWay() else FreshWay().(writer := false), false)])
  }

  function ActAt(k: nat, x: byte, y: byte): Action
  {
    if k == 0 then Write([x, y])
    else if k == 1 then Queue([0, 1])
    else if k == 2 then Deliver
    else if k == 3 then Action.Read([x], Some(0))
    else if k == 4 then Action.Read([y], Some(1))
    else Close
  }

  lemma PoolsOk(x: byte, y: byte)
    ensures Memory(PoolAt(0, x, y), [0, 1, 2]) && Memory(PoolAt(1, x, y), [2]) && Memory(PoolAt(6, x, y), [2, 1])
    ensures forall k :: 2 <= k < 6 ==> Memory(PoolAt(k, x, y), [2])
  {
    hide Memory;
    var blank := Slot(0, 0, 0, false, false, [0]);
    ThreeOk([0, 1, 2], blank, blank);
    ThreeOk([2], Slot(0, 0, 0, false, true, [x]), Slot(0, 0, 0, false, true, [y]));
    ThreeOk([2], Slot(1, 0, 1, true, true, [x]), Slot(1, 0, 0, false, true, [y]));
    ThreeOk([2, 1], Slot(1, 0, 1, true, true, [x]), Slot(0, 0, 0, false, false, [y]));
  }

  lemma WriterStepAt(k: nat, x: byte, y: byte)
    requires k < 3
    ensures Step(StateAt(k, x, y), 0, true, ActAt(k, x, y), StateAt(k + 1, x, y))
  {
    hide Memory, Wrote, HandedOver, Half, Whole, Piece, IsPinned, HasHeap;
    PoolsOk(x, y);
    var p, q, w, w' := PoolAt(k, x, y), PoolAt(k + 1, x, y), WayAt(k, x, y), WayAt(k + 1, x, y);
    if k == 0 {
      Writing(p, q, w'.send, x, y);
    } else if k == 1 {
      Sending(p, w.send, q, x, y);
    }
  }

  lemma ReaderStepAt(k: nat, x: byte, y: byte)
    requires 3 <= k < 6
    ensures Step(StateAt(k, x, y), 0, true, ActAt(k, x, y), StateAt(k + 1, x, y))
  {
    hide Memory, Delivered, Closes, Half, Whole, Piece, IsPinned, HasHeap;
    PoolsOk(x, y);
    var p, q, w, w' := PoolAt(k, x, y), PoolAt(k + 1, x, y), WayAt(k, x, y), WayAt(k + 1, x, y);
    if k == 3 {
      FirstRead(p, x, y);
      NoHeap();
    } else if k == 4 {
      SecondRead(p, x, y);
      NoHeap();
    } else {
      Closing(p, q, w, FreshWay(), w', FreshWay().(writer := false), x, y);
    }
  }

  lemma StepAt(k: nat, x: byte, y: byte)
    requires k < 6
    ensures Step(StateAt(k, x, y), 0, true, ActAt(k, x, y), StateAt(k + 1, x, y))
  {
    hide Step, StateAt, ActAt;
    if k < 3 {
      WriterStepAt(k, x, y);
    } else {
      ReaderStepAt(k, x, y);
    }
  }

  lemma NoHeap()
    ensures !HasHeap([Chain([0, 1])][..1]) && !HasHeap([][..0])
  {
  }

  /**
   The run: written, flushed, delivered, read with two zero-copy reads, closed and never released.
   Nothing is buffered or on its way any more, all bytes were read, and slot 0 is not free.
   */
  lemma ClosedWithoutRelease(x: byte, y: byte) returns (tr: seq<Sys>, ms: seq<Move>)
    ensures Run(tr, ms) && ms != [] && ms[|ms| - 1].a.Close?
    ensures forall k :: 0 <= k < |ms| ==> !ms[k].a.Release? && !ms[k].a.Reuse?
    ensures var s := tr[|tr| - 1];
      && (forall i, d :: 0 <= i < |s.conns| ==> Idle(Side(s.conns[i], d)))
      && 0 in s.pool.slots && 0 !in FreeSlots(s.pool.free)
      && |s.conns| == 1 && s.conns[0].there.read == s.conns[0].there.flushed == [x, y]
  {
    hide Step, PoolAt, Init, FreeSlots;
    tr := seq(7, k requires 0 <= k => StateAt(k, x, y));
    ms := seq(6, k requires 0 <= k => Move(0, true, ActAt(k, x, y)));
    Begins(x, y);
    forall k | 0 <= k < |ms| ensures Step(tr[k], ms[k].i, ms[k].d, ms[k].a, tr[k + 1]) {
      StepAt(k, x, y);
    }
    Ends(x, y);
  }

  lemma Begins(x: byte, y: byte)
    ensures Init(StateAt(0, x, y))
  {
    hide PoolOk, FreeSlots, PoolAt;
    PoolsOk(x, y);
    assert multiset(PoolAt(0, x, y).slots.Keys) == multiset{0, 1, 2};
  }

  lemma Ends(x: byte, y: byte)
    ensures var p := PoolAt(6, x, y); 0 in p.slots && 0 !in FreeSlots(p.free)
  {
    hide PoolOk, FreeSlots, PoolAt;
    PoolsOk(x, y);
  }
}
