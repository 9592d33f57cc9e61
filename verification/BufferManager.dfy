/**
 The slot allocator seen by one process: allocation of one slot, allocation of several slots,
 and the ways of giving slots back. Free lists are sequences here; how they are threaded through
 slot headers, and what concurrent pushes and pops do to them, is in ShmLayout and FreeListRace.
 */
module BufferManagers {
  import opened Bytes
  import opened Slots

  /** `s` is the head of list `i`, now in use; nothing else of the pool changed. */
  ghost predicate Popped(p: Pool, i: nat, q: Pool, s: Slice)
  {
    && i < |p.caps| == |p.free|
    && |p.free[i]| > 1
    && p.free[i][0] in p.slots
    && s == Slice(p.free[i][0], true, p.caps[i], 0, 0, 0, [])
    && q == Pool(p.caps, p.free[i := p.free[i][1..]],
                 p.slots[s.offset := p.slots[s.offset].(hasNext := false, inUsed := true)])
  }

  /** Slot `o` is back at the tail of the list of its size class, its header wiped. */
  ghost predicate Pushed(p: Pool, o: nat, q: Pool)
  {
    && o in p.slots
    && |p.caps| == |p.free|
    && exists i: nat :: i < |p.caps| && p.caps[i] == |p.slots[o].data|
         && q == Pool(p.caps, p.free[i := p.free[i] + [o]], p.slots[o := Reset(p.slots[o])])
  }

  function Reset(s: Slot): Slot
  {
    s.(size := 0, start := 0, hasNext := false, inUsed := false)
  }

  /** List `i` is the smallest class that can serve `size` bytes now. */
  ghost predicate BestFit(p: Pool, size: nat, i: nat)
  {
    && i < |p.caps| == |p.free| && size <= p.caps[i] && |p.free[i]| > 1
    && forall j :: 0 <= j < i && size <= p.caps[j] ==> |p.free[j]| <= 1
  }

  /** There is one best fit. */
  lemma BestFitOnce(p: Pool, size: nat, i: nat, j: nat)
    requires BestFit(p, size, i) && BestFit(p, size, j)
    ensures i == j
  {
  }

  /** No class that can hold `size` bytes has a slot to give. */
  ghost predicate NoFit(p: Pool, size: nat)
  {
    forall i :: 0 <= i < |p.caps| == |p.free| && size <= p.caps[i] ==> |p.free[i]| <= 1
  }

  /** A slot was taken only when every larger class was down to its last slot. */
  ghost predicate Greedy(q: Pool, got: seq<Slice>)
  {
    forall k, j :: 0 <= k < |got| && 0 <= j < |q.caps| == |q.free| && q.caps[j] > got[k].cap ==> |q.free[j]| <= 1
  }

  /** Slots have only been taken. */
  ghost predicate Fewer(p: Pool, q: Pool)
  {
    |q.free| == |p.free| && forall i :: 0 <= i < |p.free| ==> |q.free[i]| <= |p.free[i]|
  }

  /** Every list is down to its last slot, which it keeps. */
  ghost predicate Drained(p: Pool)
  {
    forall i :: 0 <= i < |p.free| ==> |p.free[i]| <= 1
  }

  /** A slice nothing has been written to. */
  ghost predicate Fresh(slots: map<nat, Slot>, s: Slice)
  {
    SliceOk(slots, s) && s.r == s.w == 0 && (s.fromShm ==> !slots[s.offset].hasNext)
  }

  ghost predicate AllFresh(slots: map<nat, Slot>, ss: seq<Slice>)
  {
    forall i :: 0 <= i < |ss| ==> Fresh(slots, ss[i])
  }

  ghost predicate AllShm(ss: seq<Slice>)
  {
    forall i :: 0 <= i < |ss| ==> ss[i].fromShm
  }

  /** Capacities never grow along the list. */
  ghost predicate NonIncreasing(ss: seq<Slice>)
  {
    forall i, j :: 0 <= i < j < |ss| ==> ss[j].cap <= ss[i].cap
  }

  /** `s` came from a class that was not exhausted in `p`. */
  ghost predicate FromNonEmpty(p: Pool, s: Slice)
  {
    exists i :: 0 <= i < |p.caps| == |p.free| && p.caps[i] == s.cap && |p.free[i]| > 1
  }

  /**
   `got` was taken from `p` for a request of `size` bytes: fresh slots of never increasing
   capacity, none of them superfluous, none from a list that was down to its last slot.
   */
  ghost predicate Taken(p: Pool, q: Pool, got: seq<Slice>, size: nat)
  {
    && PoolOk(q) && Exchange(p, multiset{}, q, Offsets(got)) && Apart(q, multiset{})
    && AllFresh(q.slots, got) && AllShm(got) && NonIncreasing(got)
    && (got != [] ==> TotalCap(got[..|got| - 1]) < size)
    && (forall k :: 0 <= k < |got| ==> FromNonEmpty(p, got[k]))
  }

  lemma PoppedExchange(p: Pool, i: nat, q: Pool, s: Slice)
    requires PoolOk(p) && Apart(p, multiset{}) && Popped(p, i, q, s)
    ensures PoolOk(q) && Exchange(p, multiset{}, q, multiset{s.offset})
    ensures Fresh(q.slots, s)
  {
    assert FreeSlotOk(p, i, p.free[i][0]);
    FreeWithoutHead(p.free, i);
    PoppedOk(p, i, q, s);
  }

  lemma PoppedOk(p: Pool, i: nat, q: Pool, s: Slice)
    requires PoolOk(p) && Popped(p, i, q, s)
    ensures PoolOk(q)
  {
    forall k, j | 0 <= k < |q.free| && 0 <= j < |q.free[k]| ensures FreeSlotOk(q, k, q.free[k][j]) {
      assert q.free[k][j] == p.free[k][if k == i then j + 1 else j];
    }
  }

  lemma PushedExchange(p: Pool, o: nat, q: Pool)
    requires PoolOk(p) && Pushed(p, o, q)
    ensures PoolOk(q) && Exchange(p, multiset{o}, q, multiset{})
  {
    hide PoolOk, FreeSlots;
    var i: nat :| i < |p.caps| && p.caps[i] == |p.slots[o].data|
         && q == Pool(p.caps, p.free[i := p.free[i] + [o]], p.slots[o := Reset(p.slots[o])]);
    FreeWithTail(p.free, i, o);
    PushedOk(p, i, o, q);
  }

  lemma PushedOk(p: Pool, i: nat, o: nat, q: Pool)
    requires PoolOk(p) && o in p.slots && i < |p.caps| && p.caps[i] == |p.slots[o].data|
    requires q == Pool(p.caps, p.free[i := p.free[i] + [o]], p.slots[o := Reset(p.slots[o])])
    ensures PoolOk(q)
  {
    forall k, j | 0 <= k < |q.free| && 0 <= j < |q.free[k]| ensures FreeSlotOk(q, k, q.free[k][j]) {
      if j < |p.free[k]| {
        assert FreeSlotOk(p, k, p.free[k][j]);
      }
    }
  }

  class BufferManager {
    const caps: seq<nat>
    var free: seq<seq<nat>>
    var slots: map<nat, Slot>

    ghost function View(): Pool
      reads this
    {
      Pool(caps, free, slots)
    }

    ghost predicate Valid()
      reads this
    {
      PoolOk(View()) && Apart(View(), multiset{})
    }

    /** One uncontended `pop`: the last slot of a list is never handed out. */
    method Pop(i: nat) returns (r: Option<Slice>)
      requires Valid() && i < |free|
      modifies this
      ensures r.None? <==> |old(free)[i]| <= 1
      ensures r.None? ==> View() == old(View())
      ensures r.Some? ==> Popped(old(View()), i, View(), r.value)
      ensures r.Some? ==> Exchange(old(View()), multiset{}, View(), multiset{r.value.offset})
      ensures r.Some? ==> Fresh(slots, r.value)
      ensures Valid()
    {
      var remain := |free[i]| - 1;
      if remain <= 0 {
        return None;
      }
      var o := free[i][0];
      assert FreeSlotOk(View(), i, free[i][0]);
      var h := slots[o];
      free := free[i := free[i][1..]];
      slots := slots[o := h.(hasNext := false, inUsed := true)];
      r := Some(Slice(o, true, caps[i], h.start, h.start, h.start + h.size, []));
      PoppedExchange(old(View()), i, View(), r.value);
    }

    /** allocShmBuffer: one slot from the smallest class that fits and is not exhausted. */
    method AllocOne(size: nat) returns (r: Option<Slice>)
      requires Valid()
      modifies this
      ensures r.None? <==> forall i :: 0 <= i < |caps| && size <= caps[i] ==> |old(free)[i]| <= 1
      ensures r.None? <==> NoFit(old(View()), size)
      ensures r.None? && size == 0 <==> size == 0 && Drained(old(View()))
      ensures r.None? ==> View() == old(View())
      ensures r.Some? ==> exists i :: BestFit(old(View()), size, i) && Popped(old(View()), i, View(), r.value)
      ensures r.Some? ==> Exchange(old(View()), multiset{}, View(), multiset{r.value.offset})
      ensures r.Some? ==> Fresh(slots, r.value) && r.value.fromShm && r.value.cap >= size
      ensures Valid()
    {
      if size <= caps[|caps| - 1] {
        for i := 0 to |caps|
          invariant View() == old(View()) && Valid()
          invariant forall j :: 0 <= j < i && size <= caps[j] ==> |free[j]| <= 1
        {
          if size <= caps[i] {
            var buf := Pop(i);
            if buf.Some? {
              assert BestFit(old(View()), size, i);
              return buf;
            }
          }
        }
      }
      r := None;
    }

    /**
     allocShmBuffers: slots from the largest class downwards until `size` bytes are covered.
     Capacities never increase along the result, only the last slot can overshoot, and when the
     request is not covered every list is down to its last slot.
     */
    method AllocMany(size: nat) returns (got: seq<Slice>, allocSize: nat)
      requires Valid()
      modifies this
      ensures Taken(old(View()), View(), got, size)
      ensures allocSize == TotalCap(got)
      ensures allocSize < size ==> Drained(View())
      ensures Greedy(View(), got) && Fewer(old(View()), View())
      ensures size == 0 ==> got == [] && View() == old(View())
    {
      hide Exchange, Apart, SliceOk, TotalCap, Offsets, Fresh, NonIncreasing;
      got, allocSize := [], 0;
      var remain: int := size;
      var i := |caps| - 1;
      ghost var p := View();
      TakenNone(p, size);
      while i >= 0 && remain > 0
        invariant -1 <= i < |caps|
        invariant remain == size - TotalCap(got) && allocSize == TotalCap(got)
        invariant Taken(p, View(), got, size)
        invariant forall k :: 0 <= k < |got| && 0 <= i ==> got[k].cap >= caps[i]
        invariant remain > 0 ==> forall j :: i < j < |free| ==> |free[j]| <= 1
        invariant |free| == |p.free| && forall j :: 0 <= j <= i ==> free[j] == p.free[j]
        invariant Greedy(View(), got) && Fewer(p, View())
        invariant size == 0 ==> got == [] && View() == p
        decreases i
      {
        ghost var q, had := View(), got;
        got, allocSize, remain := TakeFrom(i, size, got, allocSize, remain, p);
        GreedyOn(q, had, View(), got, i);
        i := i - 1;
      }
    }

    /** The inner loop: slots of class `i` until the request is covered or the list is down to its last slot. */
    method TakeFrom(i: nat, ghost size: nat, had: seq<Slice>, hadSize: nat, left: int, ghost p: Pool)
      returns (got: seq<Slice>, allocSize: nat, remain: int)
      requires Valid() && PoolOk(p) && Apart(p, multiset{}) && p.caps == caps && i < |caps| == |free| == |p.free|
      requires left == size - TotalCap(had) && hadSize == TotalCap(had) && Taken(p, View(), had, size)
      requires (forall k :: 0 <= k < |had| ==> had[k].cap >= caps[i]) && free[i] == p.free[i]
      modifies this
      ensures remain == size - TotalCap(got) && allocSize == TotalCap(got) && Taken(p, View(), got, size)
      ensures (forall k :: 0 <= k < |got| ==> got[k].cap >= caps[i]) && |free| == |old(free)|
      ensures forall j :: 0 <= j < |free| && j != i ==> free[j] == old(free[j])
      ensures remain > 0 ==> |free[i]| <= 1
      ensures |free[i]| <= |old(free[i])| && had <= got && forall k :: |had| <= k < |got| ==> got[k].cap == caps[i]
    {
      hide Exchange, Apart, SliceOk, TotalCap, Offsets, Fresh, NonIncreasing;
      got, allocSize, remain := had, hadSize, left;
      while remain > 0
        invariant remain == size - TotalCap(got) && allocSize == TotalCap(got) && Taken(p, View(), got, size)
        invariant forall k :: 0 <= k < |got| ==> got[k].cap >= caps[i]
        invariant |free| == |p.free| && |free[i]| <= |p.free[i]| && had <= got
        invariant forall k :: |had| <= k < |got| ==> got[k].cap == caps[i]
        invariant forall j :: 0 <= j < |free| && j != i ==> free[j] == old(free[j])
        decreases |free[i]|
      {
        ghost var q := View();
        var buf := Pop(i);
        if buf.None? {
          break;
        }
        TakeOneMore(p, q, View(), got, size, i, buf.value);
        got := got + [buf.value];
        allocSize := allocSize + buf.value.cap;
        remain := remain - buf.value.cap;
      }
    }

    /** recycleBuffer: the slot goes to the tail of the list of its capacity; heap blocks are dropped. */
    method Recycle(s: Slice)
      requires Valid() && SliceOk(slots, s)
      requires s.fromShm ==> Apart(View(), multiset{s.offset})
      modifies this
      ensures s.fromShm ==> Pushed(old(View()), s.offset, View())
      ensures s.fromShm ==> Exchange(old(View()), multiset{s.offset}, View(), multiset{})
      ensures !s.fromShm ==> View() == old(View())
      ensures Valid()
    {
      if s.fromShm {
        assert IsCap(caps, s.cap);
        for i := 0 to |caps|
          invariant View() == old(View())
          invariant IsCap(caps[i..], s.cap)
        {
          if s.cap == caps[i] {
            slots := slots[s.offset := Reset(slots[s.offset])];
            free := free[i := free[i] + [s.offset]];
            assert Pushed(old(View()), s.offset, View());
            PushedExchange(old(View()), s.offset, View());
            return;
          }
        }
      }
    }

    /** The loop around recycleBuffer that gives back a whole list of slices. */
    method RecycleAll(list: seq<Slice>)
      requires Valid() && SlicesOk(slots, list) && Apart(View(), Offsets(list))
      modifies this
      ensures Exchange(old(View()), Offsets(list), View(), multiset{}) && Valid()
    {
      hide PoolOk, Apart, Exchange, Offsets, Pushed, SliceOk;
      ghost var p := View();
      ExchangeRefl(p, Offsets(list));
      assert list[0..] == list;
      for i := 0 to |list|
        invariant Valid() && SlicesOk(slots, list[i..])
        invariant Exchange(p, Offsets(list), View(), Offsets(list[i..])) && Apart(View(), Offsets(list[i..]))
      {
        ghost var q := View();
        GiveBackFirst(q, list[i..]);
        Recycle(list[i]);
        GaveBackFirst(q, list[i..], View());
        assert list[i..][1..] == list[i + 1..];
        ExchangeTrans(p, Offsets(list), q, Offsets(list[i..]), View(), Offsets(list[i + 1..]));
      }
      OffsetsNone();
    }

    /** readBufferSlice: a slice over the slot at `o`, with the window its header announces. */
    method ReadSlice(o: nat) returns (r: Option<Slice>)
      requires Valid()
      ensures r.None? <==> o !in slots
      ensures r.Some? ==> r.value.fromShm && r.value.offset == o && r.value.cap == |slots[o].data|
      ensures r.Some? && slots[o].size <= |slots[o].data| ==>
        SliceOk(slots, r.value) && SliceBytes(slots, r.value) == SlotBytes(slots, o)
    {
      if o !in slots {
        return None;
      }
      var h := slots[o];
      r := Some(Slice(o, true, |h.data|, h.start, h.start, h.start + h.size, []));
      assert IsCap(caps, |h.data|);
    }

    /** recycleBuffers: every slot of a published chain goes back, each exactly once. */
    method RecycleChain(s: Slice, ghost ch: seq<nat>)
      requires Valid() && IsChain(slots, ch) && SliceOk(slots, s) && s.fromShm && s.offset == ch[0]
      requires Apart(View(), multiset(ch))
      modifies this
      ensures Exchange(old(View()), multiset(ch), View(), multiset{}) && Valid()
    {
      hide PoolOk, Apart, Exchange, ChainRest, Pushed, SliceOk, Backing, SliceBytes;
      var slice := s;
      ghost var k := 0;
      ghost var p := View();
      ChainRestInit(p, ch);
      while slots[slice.offset].hasNext
        invariant Valid() && 0 <= k < |ch|
        invariant slice.fromShm && slice.offset == ch[k] && SliceOk(slots, slice)
        invariant ChainRest(p, View(), ch, k)
        invariant ch[k] in slots && slots[ch[k]] == p.slots[ch[k]]
        decreases |ch| - k
      {
        var next := slots[slice.offset].next;
        assert next == ch[k + 1];
        ghost var q := View();
        ChainRestHead(p, q, ch, k);
        Recycle(slice);
        ChainRestStep(p, q, View(), ch, k);
        k := k + 1;
        ChainRestHead(p, View(), ch, k);
        var got := ReadSlice(next);
        slice := got.value;
      }
      ghost var q := View();
      ChainRestHead(p, q, ch, k);
      Recycle(slice);
      ChainRestStep(p, q, View(), ch, k);
      ChainRestEnd(p, View(), ch);
    }
  }

  lemma OffsetsNone()
    ensures Offsets([]) == multiset{}
  {
  }

  lemma GiveBackFirst(p: Pool, ss: seq<Slice>)
    requires ss != [] && SlicesOk(p.slots, ss) && Apart(p, Offsets(ss))
    ensures ss[0].fromShm ==> Apart(p, multiset{ss[0].offset})
    ensures SliceOk(p.slots, ss[0])
  {
    hide SliceOk;
    if ss[0].fromShm {
      ApartPart(p, multiset{ss[0].offset}, Offsets(ss[1..]));
    }
  }

  lemma GaveBackFirst(p: Pool, ss: seq<Slice>, q: Pool)
    requires ss != [] && SlicesOk(p.slots, ss) && Apart(p, Offsets(ss))
    requires if ss[0].fromShm then Exchange(p, multiset{ss[0].offset}, q, multiset{}) else q == p
    ensures Exchange(p, Offsets(ss), q, Offsets(ss[1..])) && Apart(q, Offsets(ss[1..]))
    ensures SlicesOk(q.slots, ss[1..])
  {
    var rest := ss[1..];
    if ss[0].fromShm {
      GaveBackSlot(p, ss, q);
      forall i | 0 <= i < |rest| ensures SliceOk(q.slots, rest[i]) {
        assert SliceOk(p.slots, ss[i + 1]);
      }
    } else {
      assert multiset{} + Offsets(rest) == Offsets(rest);
    }
  }

  lemma GaveBackSlot(p: Pool, ss: seq<Slice>, q: Pool)
    requires ss != [] && ss[0].fromShm && Apart(p, Offsets(ss))
    requires Exchange(p, multiset{ss[0].offset}, q, multiset{})
    ensures Exchange(p, Offsets(ss), q, Offsets(ss[1..])) && Apart(q, Offsets(ss[1..]))
  {
    hide Exchange, Apart;
    var rest := Offsets(ss[1..]);
    assert Offsets(ss) == multiset{ss[0].offset} + rest;
    ExchangeFrame(p, multiset{ss[0].offset}, q, multiset{}, rest);
    assert multiset{} + rest == rest;
    ExchangeApart(p, Offsets(ss), q, rest);
  }

  /** The part of chain `ch` from position `k` is still held, exactly as published. */
  ghost predicate ChainRest(p: Pool, q: Pool, ch: seq<nat>, k: nat)
  {
    && k <= |ch|
    && Exchange(p, multiset(ch), q, multiset(ch[k..])) && Apart(q, multiset(ch[k..]))
    && forall j :: k <= j < |ch| ==> ch[j] in p.slots && ch[j] in q.slots && q.slots[ch[j]] == p.slots[ch[j]]
  }

  lemma ChainRestInit(p: Pool, ch: seq<nat>)
    requires IsChain(p.slots, ch) && Apart(p, multiset(ch))
    ensures ChainRest(p, p, ch, 0)
  {
    assert ch[0..] == ch;
  }

  lemma ChainRestHead(p: Pool, q: Pool, ch: seq<nat>, k: nat)
    requires ChainRest(p, q, ch, k) && k < |ch|
    ensures ch[k] in p.slots && ch[k] in q.slots && q.slots[ch[k]] == p.slots[ch[k]]
    ensures Apart(q, multiset{ch[k]})
    ensures forall j :: k < j < |ch| ==> ch[j] != ch[k] && ch[j] !in FreeSlots(q.free)
  {
    hide Exchange;
    assert ch[k..] == [ch[k]] + ch[k + 1..];
    ApartPart(q, multiset{ch[k]}, multiset(ch[k + 1..]));
    forall j | k < j < |ch| ensures ch[j] != ch[k] && ch[j] !in FreeSlots(q.free) {
      assert ch[j] == ch[k + 1..][j - k - 1];
      assert ch[j] in ch[k + 1..];
      ApartOne(q, multiset(ch[k + 1..]), ch[j]);
    }
  }

  lemma ChainRestStep(p: Pool, q: Pool, r: Pool, ch: seq<nat>, k: nat)
    requires ChainRest(p, q, ch, k) && k < |ch|
    requires Exchange(q, multiset{ch[k]}, r, multiset{})
    ensures ChainRest(p, r, ch, k + 1)
  {
    ChainRestHead(p, q, ch, k);
    ChainRestMoved(p, q, r, ch, k);
    forall j | k < j < |ch| ensures ch[j] in r.slots && r.slots[ch[j]] == p.slots[ch[j]] {
      assert q.slots[ch[j]] == p.slots[ch[j]];
    }
  }

  lemma ChainRestMoved(p: Pool, q: Pool, r: Pool, ch: seq<nat>, k: nat)
    requires ChainRest(p, q, ch, k) && k < |ch|
    requires Exchange(q, multiset{ch[k]}, r, multiset{})
    ensures Exchange(p, multiset(ch), r, multiset(ch[k + 1..])) && Apart(r, multiset(ch[k + 1..]))
  {
    hide Exchange, Apart;
    var rest := multiset(ch[k + 1..]);
    assert ch[k..] == [ch[k]] + ch[k + 1..];
    assert multiset(ch[k..]) == multiset{ch[k]} + rest;
    ExchangeFrame(q, multiset{ch[k]}, r, multiset{}, rest);
    assert multiset{} + rest == rest;
    ExchangeApart(q, multiset(ch[k..]), r, rest);
    ExchangeTrans(p, multiset(ch), q, multiset(ch[k..]), r, rest);
  }

  lemma ChainRestEnd(p: Pool, q: Pool, ch: seq<nat>)
    requires ChainRest(p, q, ch, |ch|)
    ensures Exchange(p, multiset(ch), q, multiset{})
  {
    assert ch[|ch|..] == [];
  }

  /** Slots of class `i` continue a greedy allocation when the larger classes have nothing left to give. */
  lemma GreedyOn(q: Pool, had: seq<Slice>, r: Pool, got: seq<Slice>, i: nat)
    requires Greedy(q, had) && i < |q.caps| == |q.free| && r.caps == q.caps && |r.free| == |q.free|
    requires forall j, k :: 0 <= j < k < |q.caps| ==> q.caps[j] < q.caps[k]
    requires forall j :: i < j < |q.free| ==> |q.free[j]| <= 1
    requires forall j :: 0 <= j < |q.free| && j != i ==> r.free[j] == q.free[j]
    requires |r.free[i]| <= |q.free[i]|
    requires had <= got && forall k :: |had| <= k < |got| ==> got[k].cap == q.caps[i]
    ensures Greedy(r, got)
  {
    forall k, j | 0 <= k < |got| && 0 <= j < |r.caps| && r.caps[j] > got[k].cap ensures |r.free[j]| <= 1 {
      if k < |had| {
        assert got[k] == had[k];
      } else {
        assert j > i;
      }
    }
  }

  lemma TakeOneMore(p: Pool, q: Pool, r: Pool, had: seq<Slice>, size: nat, i: nat, s: Slice)
    requires PoolOk(p) && Apart(p, multiset{}) && Taken(p, q, had, size) && TotalCap(had) < size
    requires i < |p.caps| == |p.free| && |p.free[i]| > 1
    requires PoolOk(r) && Exchange(q, multiset{}, r, multiset{s.offset})
    requires Fresh(r.slots, s) && s.fromShm && s.cap == p.caps[i]
    requires forall k :: 0 <= k < |had| ==> had[k].cap >= s.cap
    ensures Taken(p, r, had + [s], size)
    ensures TotalCap(had + [s]) == TotalCap(had) + s.cap
  {
    hide Exchange, Apart, PoolOk, SliceOk, Fresh, TotalCap, Offsets;
    TotalCapSnoc(had, s);
    TakenExchange(p, q, r, had, s);
    ExchangeApart(p, multiset{}, q, Offsets(had));
    StillFresh(q, r, had, multiset{s.offset});
    var all := had + [s];
    assert all[..|had|] == had;
    forall k | 0 <= k < |all| ensures Fresh(r.slots, all[k]) && all[k].fromShm && FromNonEmpty(p, all[k]) {
      if k == |had| {
        assert p.caps[i] == s.cap;
      } else {
        assert all[k] == had[k];
      }
    }
    assert NonIncreasing(all);
  }

  lemma TakenNone(p: Pool, size: nat)
    requires PoolOk(p) && Apart(p, multiset{})
    ensures Taken(p, p, [], size) && TotalCap([]) == 0
  {
  }

  lemma TakenExchange(p: Pool, q: Pool, r: Pool, had: seq<Slice>, s: Slice)
    requires Apart(p, multiset{}) && Exchange(p, multiset{}, q, Offsets(had))
    requires Exchange(q, multiset{}, r, multiset{s.offset}) && s.fromShm
    ensures Exchange(p, multiset{}, r, Offsets(had + [s])) && Apart(r, multiset{})
  {
    OffsetsAppend(had, [s]);
    ExchangeFrame(q, multiset{}, r, multiset{s.offset}, Offsets(had));
    assert multiset{} + Offsets(had) == Offsets(had);
    assert multiset{s.offset} + Offsets(had) == Offsets(had + [s]);
    ExchangeTrans(p, multiset{}, q, Offsets(had), r, Offsets(had + [s]));
    ExchangeApart(p, multiset{}, r, Offsets(had + [s]));
  }

  lemma StillFresh(q: Pool, r: Pool, had: seq<Slice>, more: multiset<nat>)
    requires AllFresh(q.slots, had) && Apart(q, Offsets(had))
    requires Exchange(q, multiset{}, r, more)
    ensures AllFresh(r.slots, had)
  {
    forall i | 0 <= i < |had| ensures Fresh(r.slots, had[i]) {
      assert Fresh(q.slots, had[i]);
      if had[i].fromShm {
        OffsetsMember(had, i);
        ApartOne(q, Offsets(had), had[i].offset);
      }
    }
  }
}
