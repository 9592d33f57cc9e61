/**
 The streams of the class model take part in the runs of Transfer: every call of a stream or of its
 buffers is a step there, taken by the end that the stream object stands for.
 */
module Endpoints {
  import opened Bytes
  import opened Slots
  import opened BufferManagers
  import opened BufferSpec
  import opened Reserving
  import opened ArrivalSpec
  import opened LinkedBuffers
  import opened Streams
  import opened Transfer

  /** `st` writes direction `v` and reads direction `w`. */
  ghost predicate EndIs(st: Stream, v: Way, w: Way)
    reads st, st.pending, st.recvBuf, st.sendBuf
  {
    && st.Wired() && st.pending.Matches()
    && v.send == st.sendBuf.View() && w.recv == st.recvBuf.View() && w.pending == st.pending.parcels
    && v.fellBack == st.pending.fellBack && (v.writer <==> st.state == Opened) && (w.reader <==> st.state != Closed)
  }

  /** `st` is the end of connection `i` that writes direction `d` and reads the other one. */
  ghost predicate Stands(st: Stream, s: Sys, i: nat, d: bool)
    reads st, st.bm, st.pending, st.recvBuf, st.sendBuf
  {
    && i < |s.conns| && !s.conns[i].spoilt && st.bm.View() == s.pool
    && EndIs(st, Side(s.conns[i], d), Side(s.conns[i], !d))
  }

  /** Stands, piece by piece. */
  lemma StandsAgain(st: Stream, s: Sys, i: nat, d: bool)
    requires i < |s.conns| && !s.conns[i].spoilt && st.bm.View() == s.pool
    requires st.Wired()
    requires st.pending.Matches()
    requires Side(s.conns[i], d).send == st.sendBuf.View()
    requires Side(s.conns[i], !d).recv == st.recvBuf.View()
    requires Side(s.conns[i], !d).pending == st.pending.parcels
    requires Side(s.conns[i], d).fellBack == st.pending.fellBack
    requires Side(s.conns[i], d).writer <==> st.state == Opened
    requires Side(s.conns[i], !d).reader <==> st.state != Closed
    ensures Stands(st, s, i, d)
  {
  }

  /** What the stream itself may rely on in a system that satisfies the invariant. */
  lemma EndOk(s: Sys, i: nat, d: bool)
    requires Inv(s) && i < |s.conns| && !s.conns[i].spoilt
    ensures var p, v, w := s.pool, Side(s.conns[i], d), Side(s.conns[i], !d);
      && PoolOk(p) && WriteOk(p, v.send) && v.send.pinned == [] && v.draft == Unread(p, v.send)
      && v.send.len == |v.draft|
      && RecvOk(p, w.recv, w.pending) && ReadOk(p, w.recv) && ParcelsOk(p.slots, w.flight)
      && Apart(p, multiset{})
      && Apart(p, Owned(w.recv) + ParcelSlots(w.pending) + Owned(v.send)) && Apart(p, Owned(w.recv) + Owned(v.send))
      && Apart(p, ParcelSlots(w.flight))
  {
    hide PoolOk, WriteOk, RecvOk, ParcelsOk, InOrder, LentOk, Complete, Owned, ParcelSlots, Held, FreeSlots, ReadOk;
    var v, w := Side(s.conns[i], d), Side(s.conns[i], !d);
    InvWay(s, i, d);
    SendFacts(s.pool, v.send);
    InvWay(s, i, !d);
    RecvPool(s.pool, w.recv, w.pending);
    HeldSplit(s.conns, i);
    var all := Held(s.conns);
    assert WaySlots(v) + WaySlots(w) <= all;
    ApartLess(s.pool, all, multiset{});
    ApartLess(s.pool, all, Owned(w.recv) + ParcelSlots(w.pending) + Owned(v.send));
    ApartLess(s.pool, all, Owned(w.recv) + Owned(v.send));
    ApartLess(s.pool, all, ParcelSlots(w.flight));
  }

  /** The system after direction `d` of connection `i` has become `v` and the pool `p`. */
  ghost function After(s: Sys, p: Pool, i: nat, d: bool, v: Way): Sys
    requires i < |s.conns|
  {
    Sys(p, s.conns[i := With(s.conns[i], d, v)])
  }

  /** Any write call that did what it promises. */
  lemma WriteStep(s: Sys, i: nat, d: bool, q: Pool, c: Buf, data: seq<byte>) returns (t: Sys)
    requires Inv(s) && i < |s.conns| && !s.conns[i].spoilt && Wrote(s.pool, Side(s.conns[i], d).send, q, c, data)
    ensures Step(s, i, d, Write(data), t) && Inv(t)
    ensures t == After(s, q, i, d, Side(t.conns[i], d)) && Side(t.conns[i], d).send == c
    ensures Side(t.conns[i], d) == Side(s.conns[i], d).(send := c, draft := Side(s.conns[i], d).draft + data)
  {
    hide Inv, Wrote;
    var v := Side(s.conns[i], d);
    t := After(s, q, i, d, v.(send := c, draft := v.draft + data));
    StepKeeps(s, i, d, Write(data), t);
  }

  method WriteByte(st: Stream, b: byte, ghost s: Sys, ghost i: nat, ghost d: bool) returns (ghost t: Sys)
    requires Inv(s) && Stands(st, s, i, d)
    modifies st.sendBuf, st.bm
    ensures Stands(st, t, i, d) && Inv(t) && Step(s, i, d, Write([b]), t)
  {
    hide Inv, Wrote, Step, WriteOk, PoolOk, RecvOk, ParcelsOk, Apart, ReadOk;
    EndOk(s, i, d);
    st.sendBuf.WriteByte(b);
    t := WriteStep(s, i, d, st.bm.View(), st.sendBuf.View(), [b]);
  }

  /** WriteBytes; a WriteString is the same on the string's bytes. */
  method WriteBytes(st: Stream, data: seq<byte>, ghost s: Sys, ghost i: nat, ghost d: bool)
    returns (n: nat, ok: bool, ghost t: Sys)
    requires Inv(s) && Stands(st, s, i, d)
    modifies st.sendBuf, st.bm
    ensures ok ==> Stands(st, t, i, d) && Inv(t) && Step(s, i, d, Write(data), t)
    ensures |data| < WORD_LIMIT ==> ok
  {
    hide Inv, Wrote, Step, WriteOk, PoolOk, RecvOk, ParcelsOk, Apart, ReadOk, Building;
    EndOk(s, i, d);
    n, ok := st.sendBuf.WriteBytes(data);
    t := s;
    if ok {
      t := WriteStep(s, i, d, st.bm.View(), st.sendBuf.View(), data);
    }
  }

  /** Reserve writes whatever bytes were in the window; Fill is what its caller then does. */
  method Reserve(st: Stream, size: nat, ghost s: Sys, ghost i: nat, ghost d: bool)
    returns (r: Reserved, ghost t: Sys)
    requires Inv(s) && Stands(st, s, i, d)
    modifies st.sendBuf, st.bm
    ensures !r.Short? ==> Stands(st, t, i, d) && Inv(t)
    ensures r.Given? ==> r.at < |st.sendBuf.slices|
    ensures r.Given? ==> r.from + size <= |Backing(st.bm.slots, st.sendBuf.slices[r.at])|
    ensures r.Given? ==>
      Step(s, i, d, Write(Backing(st.bm.slots, st.sendBuf.slices[r.at])[r.from..r.from + size]), t)
    ensures (r.Missing? ==> t == s) && (r.Short? ==> size >= WORD_LIMIT)
  {
    hide Inv, Wrote, Step, WriteOk, PoolOk, RecvOk, ParcelsOk, Apart, ReadOk, Drained, Backing, Building, Cut32;
    EndOk(s, i, d);
    r := st.sendBuf.Reserve(size);
    t := s;
    if r.Given? {
      ghost var bytes := Backing(st.bm.slots, st.sendBuf.slices[r.at])[r.from..r.from + size];
      t := WriteStep(s, i, d, st.bm.View(), st.sendBuf.View(), bytes);
    }
  }

  method FillReserved(st: Stream, at: nat, from: nat, bytes: seq<byte>, ghost s: Sys, ghost i: nat, ghost d: bool)
    returns (ghost t: Sys)
    requires Inv(s) && Stands(st, s, i, d) && at < |st.sendBuf.slices|
    requires st.sendBuf.slices[at].r <= from && from + |bytes| <= st.sendBuf.slices[at].w
    modifies st.sendBuf, st.bm
    ensures Stands(st, t, i, d) && Inv(t)
    ensures var k := old(|Contents(st.bm.slots, st.sendBuf.slices[..at])| + (from - st.sendBuf.slices[at].r));
      Step(s, i, d, Fill(k, bytes), t)
  {
    hide Inv, Step, WriteOk, PoolOk, RecvOk, ParcelsOk, Apart, ReadOk, Contents, Patched, Unread;
    EndOk(s, i, d);
    ghost var k := |Contents(st.bm.slots, st.sendBuf.slices[..at])| + (from - st.sendBuf.slices[at].r);
    st.sendBuf.FillReserved(at, from, bytes);
    t := FillStep(s, i, d, st.bm.View(), st.sendBuf.View(), k, bytes);
  }

  lemma PatchRoom(p: Pool, b: Buf, q: Pool, c: Buf, k: nat, bytes: seq<byte>)
    requires Patched(p, b, q, c, k, bytes)
    ensures k + |bytes| <= |Unread(p, b)|
  {
  }

  lemma FillStep(s: Sys, i: nat, d: bool, q: Pool, c: Buf, k: nat, bytes: seq<byte>) returns (t: Sys)
    requires Inv(s) && i < |s.conns| && !s.conns[i].spoilt && Patched(s.pool, Side(s.conns[i], d).send, q, c, k, bytes)
    ensures Step(s, i, d, Fill(k, bytes), t) && Inv(t)
    ensures t == After(s, q, i, d, Side(t.conns[i], d))
    ensures Side(t.conns[i], d) == Side(s.conns[i], d).(send := c, draft := Side(t.conns[i], d).draft)
  {
    hide Inv, WriteOk, Exchange, PoolOk, RecvOk, ParcelsOk, Apart, ReadOk, Patched,
      Unread, Overwrite;
    EndOk(s, i, d);
    var v := Side(s.conns[i], d);
    PatchRoom(s.pool, v.send, q, c, k, bytes);
    t := After(s, q, i, d, v.(send := c, draft := Overwrite(v.draft, k, bytes)));
    StepKeeps(s, i, d, Fill(k, bytes), t);
  }

  /** What a flush amounts to: a chain or a frame on its way, dropped bytes, or nothing. */
  ghost function FlushAction(r: FlushResult, ch: seq<nat>): Option<Action>
  {
    match r
    case NothingToSend => None
    case Rejected => Some(Drop)
    case Failed(_) => Some(Drop)
    case Framed(_) => Some(Frame)
    case Lost => Some(Lose)
    case Queued(_) => Some(Queue(ch))
  }

  method Flush(st: Stream, outcomes: seq<PutOutcome>, taken: bool, ghost s: Sys, ghost i: nat, ghost d: bool)
    returns (r: FlushResult, ghost ch: seq<nat>, ghost t: Sys)
    requires Inv(s) && Stands(st, s, i, d) && |outcomes| == RETRIES + 1
    modifies st.pending, st.sendBuf, st.bm
    ensures Stands(st, t, i, d) && Inv(t)
    ensures match FlushAction(r, ch) case None => t == s case Some(a) => Step(s, i, d, a, t)
  {
    hide Inv, Step, WriteOk, PoolOk, RecvOk, ParcelsOk, Apart, ReadOk, GaveBack, HandedOver, Unread, Flushed;
    EndOk(s, i, d);
    r, ch := st.Flush(outcomes, taken);
    FlushedWay(s.pool, Side(s.conns[i], d), st.bm.View(), st.sendBuf.View(), r, ch, st.pending.fellBack);
    t := FlushStep(s, i, d, st.bm.View(), st.sendBuf.View(), r, ch, st.pending.fellBack);
    StandsAgain(st, t, i, d);
  }

  /** What the contract of Flush says in each case. */
  ghost predicate Flushes(p: Pool, v: Way, q: Pool, c: Buf, r: FlushResult, ch: seq<nat>, fell: bool)
  {
    && fell == (v.fellBack || r.Framed? || r.Lost?)
    && match r
      case NothingToSend => q == p && c == v.send
      case Queued(_) =>
        v.writer && !v.fellBack && v.send.len > 0 && v.send.isFromShm && HandedOver(p, v.send, q, c, ch)
      case Framed(data) =>
        v.writer && v.send.len > 0 && (v.fellBack || !v.send.isFromShm) && GaveBack(p, v.send, q, c, data)
      case Lost =>
        && v.writer && v.send.len > 0 && (v.fellBack || !v.send.isFromShm)
        && GaveBack(p, v.send, q, c, Unread(p, v.send))
      case _ => GaveBack(p, v.send, q, c, Unread(p, v.send))
  }

  /** The direction after a flush. */
  ghost function Flushed(p: Pool, v: Way, c: Buf, r: FlushResult, ch: seq<nat>): Way
  {
    match r
    case NothingToSend => v
    case Queued(_) => v.(send := c, flight := v.flight + [Chain(ch)], flushed := v.flushed + v.draft, draft := [])
    case Framed(_) =>
      v.(send := c, flight := v.flight + [Heap(Unread(p, v.send))], flushed := v.flushed + v.draft, draft := [],
         fellBack := true)
    case Lost => v.(send := c, draft := [], fellBack := true)
    case _ => v.(send := c, draft := [])
  }

  lemma FlushStep(s: Sys, i: nat, d: bool, q: Pool, c: Buf, r: FlushResult, ch: seq<nat>, fell: bool) returns (t: Sys)
    requires Inv(s) && i < |s.conns| && !s.conns[i].spoilt && Flushes(s.pool, Side(s.conns[i], d), q, c, r, ch, fell)
    ensures Inv(t) && match FlushAction(r, ch) case None => t == s case Some(a) => Step(s, i, d, a, t)
    ensures t == After(s, q, i, d, Flushed(s.pool, Side(s.conns[i], d), c, r, ch))
  {
    hide Inv, Flushed, Flushes, Queues, Frames, Drops, Loses;
    var v := Side(s.conns[i], d);
    t := After(s, q, i, d, Flushed(s.pool, v, c, r, ch));
    FlushIsStep(s.pool, v, q, c, r, ch, fell);
    if r.NothingToSend? {
      FlushedNothing(s.pool, v, q, c, r, ch, fell);
      assert s.conns[i := With(s.conns[i], d, v)] == s.conns;
    } else {
      StepKeeps(s, i, d, FlushAction(r, ch).value, t);
    }
  }

  lemma FlushIsStep(p: Pool, v: Way, q: Pool, c: Buf, r: FlushResult, ch: seq<nat>, fell: bool)
    requires Flushes(p, v, q, c, r, ch, fell)
    ensures var v' := Flushed(p, v, c, r, ch);
      match r
      case NothingToSend => true
      case Queued(_) => Queues(p, v, q, v', ch)
      case Framed(_) => Frames(p, v, q, v')
      case Lost => Loses(p, v, q, v')
      case _ => Drops(p, v, q, v')
  {
    hide HandedOver, Unread, WriteOk, Exchange, Cleaned, Owned;
  }

  lemma FlushedNothing(p: Pool, v: Way, q: Pool, c: Buf, r: FlushResult, ch: seq<nat>, fell: bool)
    requires Flushes(p, v, q, c, r, ch, fell) && r.NothingToSend?
    ensures Flushed(p, v, c, r, ch) == v && q == p
  {
  }

  lemma FlushedWay(p: Pool, v: Way, q: Pool, c: Buf, r: FlushResult, ch: seq<nat>, fell: bool)
    requires Flushes(p, v, q, c, r, ch, fell)
    ensures Flushed(p, v, c, r, ch).send == c && Flushed(p, v, c, r, ch).fellBack == fell
    ensures var v' := Flushed(p, v, c, r, ch); v'.writer == v.writer
  {
    hide HandedOver, GaveBack, Unread;
  }

  /** The session takes in the next parcel of the direction this end reads; a closed stream is gone. */
  method Deliver(st: Stream, wrapper: Wrapper, ghost s: Sys, ghost i: nat, ghost d: bool) returns (ghost t: Sys)
    requires Inv(s) && Stands(st, s, i, d)
    requires Side(s.conns[i], !d).flight != [] && Describes(wrapper, Side(s.conns[i], !d).flight[0])
    modifies st.pending, st.bm
    ensures Stands(st, t, i, d) && Inv(t) && Step(s, i, !d, Action.Deliver, t)
  {
    hide Inv, Step, WriteOk, PoolOk, RecvOk, Apart, ReadOk, ParcelSlots, Exchange, IsChain, SliceOk, ChainBytes;
    EndOk(s, i, d);
    ghost var w := Side(s.conns[i], !d);
    ghost var x := w.flight[0];
    if st.state != Closed {
      st.pending.Add(wrapper, x);
    } else {
      ClearFacts(s.pool, w.flight);
      ExchangeRefl(s.pool, multiset{});
      match wrapper {
        case Fallback(_) =>
        case Shm(offset) =>
          var slice := st.bm.ReadSlice(offset);
          st.bm.RecycleChain(slice.value, x.ch);
      }
    }
    t := DeliverStep(s, i, d, st.bm.View(), st.pending.parcels);
    StandsAgain(st, t, i, d);
  }

  lemma DeliverStep(s: Sys, i: nat, d: bool, q: Pool, ps: seq<Parcel>) returns (t: Sys)
    requires Inv(s) && i < |s.conns| && !s.conns[i].spoilt && Side(s.conns[i], !d).flight != []
    requires var w := Side(s.conns[i], !d);
      if w.reader then q == s.pool && ps == w.pending + [w.flight[0]]
      else PoolOk(q) && Exchange(s.pool, ParcelSlot(w.flight[0]), q, multiset{}) && ps == w.pending
    ensures Inv(t) && Step(s, i, !d, Action.Deliver, t) && t == After(s, q, i, !d, Side(t.conns[i], !d))
    ensures var w, w' := Side(s.conns[i], !d), Side(t.conns[i], !d);
      w' == w.(pending := ps, flight := w'.flight)
  {
    hide Inv, PoolOk, Exchange, ParcelSlot;
    var w := Side(s.conns[i], !d);
    t := After(s, q, i, !d, w.(flight := w.flight[1..], pending := ps));
    StepKeeps(s, i, !d, Action.Deliver, t);
  }

  // ---------- reading ----------

  /** Any read call that did what it promises. */
  lemma ReadStep(s: Sys, i: nat, d: bool, q: Pool, c: Buf, ps: seq<Parcel>, fell: bool, out: seq<byte>,
                 lend: Option<nat>)
    returns (t: Sys)
    requires Inv(s) && i < |s.conns| && !s.conns[i].spoilt
    requires var v, w := Side(s.conns[i], d), Side(s.conns[i], !d);
      Delivered(s.pool, w.recv, w.pending, q, c, ps, out) && Marks(v.fellBack, w.pending, ps, fell)
    requires lend.Some? ==> IsPinned(c, lend.value) && lend.value in q.slots
    ensures Step(s, i, !d, Action.Read(out, lend), t) && Inv(t) && t.pool == q && |t.conns| == |s.conns|
    ensures !t.conns[i].spoilt && Side(t.conns[i], d) == Side(s.conns[i], d).(fellBack := fell)
    ensures var w, w' := Side(s.conns[i], !d), Side(t.conns[i], !d);
      w' == w.(recv := c, pending := ps, read := w.read + out, lent := w'.lent)
  {
    hide Inv, Delivered, HasHeap, IsPinned;
    var v, w := Side(s.conns[i], d), Side(s.conns[i], !d);
    var lent := if lend.Some? then w.lent[lend.value := q.slots[lend.value].data] else w.lent;
    var conn := With(With(s.conns[i], !d, w.(recv := c, pending := ps, read := w.read + out, lent := lent)), d,
                     v.(fellBack := fell));
    t := Sys(q, s.conns[i := conn]);
    StepKeeps(s, i, !d, Action.Read(out, lend), t);
  }

  lemma LentSlot(slots: map<nat, Slot>, lent: Option<nat>, r: Option<seq<byte>>)
    requires lent.Some? ==> r.Some? && Window(slots, lent.value, r.value)
    ensures lent.Some? ==> lent.value in slots
  {
  }

  /** The bytes a read call has taken. */
  function Got(r: Option<seq<byte>>): seq<byte>
  {
    if r.None? then [] else r.value
  }

  method ReadByte(st: Stream, ghost s: Sys, ghost i: nat, ghost d: bool)
    returns (r: Option<byte>, ghost t: Sys)
    requires Inv(s) && Stands(st, s, i, d)
    modifies st.recvBuf, st.bm, st.pending
    ensures Stands(st, t, i, d) && Inv(t)
    ensures Step(s, i, !d, Action.Read(if r.None? then [] else [r.value], None), t)
  {
    hide Inv, Step, WriteOk, PoolOk, ParcelsOk, Apart, ReadOk, RecvOk, Delivered, Marks, IsPinned, Available, Window,
      Acceptable, ParcelSlots, Owned, Offsets;
    EndOk(s, i, d);
    r := st.recvBuf.ReadByte();
    ghost var out: seq<byte> := if r.None? then [] else [r.value];
    t := ReadStep(s, i, d, st.bm.View(), st.recvBuf.View(), st.pending.parcels, st.pending.fellBack, out, None);
    StandsAgain(st, t, i, d);
  }

  method ReadBytes(st: Stream, size: int, ghost s: Sys, ghost i: nat, ghost d: bool)
    returns (r: Option<seq<byte>>, lent: Option<nat>, ghost t: Sys)
    requires Inv(s) && Stands(st, s, i, d)
    modifies st.recvBuf, st.bm, st.pending
    ensures Stands(st, t, i, d) && Inv(t)
    ensures Step(s, i, !d, Action.Read(Got(r), lent), t)
    ensures old(st.recvBuf.len) >= size > 0 ==> lent == Lendable(old(st.recvBuf.slices), size)
  {
    hide Inv, Step, WriteOk, PoolOk, ParcelsOk, Apart, ReadOk, RecvOk, Delivered, Marks, IsPinned, Available, Window,
      Acceptable, ParcelSlots, Owned, Offsets;
    EndOk(s, i, d);
    r, lent := st.recvBuf.ReadBytes(size);
    LentSlot(st.bm.slots, lent, r);
    t := ReadStep(s, i, d, st.bm.View(), st.recvBuf.View(), st.pending.parcels, st.pending.fellBack, Got(r),
                  lent);
    StandsAgain(st, t, i, d);
  }

  method ReadString(st: Stream, size: int, ghost s: Sys, ghost i: nat, ghost d: bool)
    returns (r: Option<seq<byte>>, ghost t: Sys)
    requires Inv(s) && Stands(st, s, i, d)
    modifies st.recvBuf, st.bm, st.pending
    ensures Stands(st, t, i, d) && Inv(t)
    ensures Step(s, i, !d, Action.Read(Got(r), None), t)
  {
    hide Inv, Step, WriteOk, PoolOk, ParcelsOk, Apart, ReadOk, RecvOk, Delivered, Marks, IsPinned, Available, Window,
      Acceptable, ParcelSlots, Owned, Offsets;
    EndOk(s, i, d);
    r := st.recvBuf.ReadString(size);
    t := ReadStep(s, i, d, st.bm.View(), st.recvBuf.View(), st.pending.parcels, st.pending.fellBack, Got(r),
                  None);
    StandsAgain(st, t, i, d);
  }

  method Read(st: Stream, size: nat, ghost s: Sys, ghost i: nat, ghost d: bool)
    returns (r: Option<seq<byte>>, ghost t: Sys)
    requires Inv(s) && Stands(st, s, i, d)
    modifies st.recvBuf, st.bm, st.pending
    ensures Stands(st, t, i, d) && Inv(t)
    ensures Step(s, i, !d, Action.Read(Got(r), None), t)
  {
    hide Inv, Step, WriteOk, PoolOk, ParcelsOk, Apart, ReadOk, RecvOk, Delivered, Marks, IsPinned, Available, Window,
      Acceptable, ParcelSlots, Owned, Offsets;
    EndOk(s, i, d);
    r := st.recvBuf.Read(size);
    t := ReadStep(s, i, d, st.bm.View(), st.recvBuf.View(), st.pending.parcels, st.pending.fellBack, Got(r),
                  None);
    StandsAgain(st, t, i, d);
  }

  method Peek(st: Stream, size: int, ghost s: Sys, ghost i: nat, ghost d: bool)
    returns (r: Option<seq<byte>>, lent: Option<nat>, ghost t: Sys)
    requires Inv(s) && Stands(st, s, i, d)
    modifies st.recvBuf, st.bm, st.pending
    ensures Stands(st, t, i, d) && Inv(t)
    ensures Step(s, i, !d, Action.Read([], lent), t)
    ensures old(st.recvBuf.len) >= size > 0 ==>
      old(st.recvBuf.slices) != [] && lent == LentBy(old(st.recvBuf.slices)[0], size)
  {
    hide Inv, Step, WriteOk, PoolOk, ParcelsOk, Apart, ReadOk, RecvOk, Delivered, Marks, IsPinned, Available, Window,
      Acceptable, ParcelSlots, Owned, Offsets;
    EndOk(s, i, d);
    r, lent := st.recvBuf.Peek(size);
    LentSlot(st.bm.slots, lent, r);
    t := ReadStep(s, i, d, st.bm.View(), st.recvBuf.View(), st.pending.parcels, st.pending.fellBack, [],
                  lent);
    StandsAgain(st, t, i, d);
  }

  method Discard(st: Stream, size: nat, ghost s: Sys, ghost i: nat, ghost d: bool)
    returns (ok: bool, r: Option<nat>, ghost out: seq<byte>, ghost t: Sys)
    requires Inv(s) && Stands(st, s, i, d)
    modifies st.recvBuf, st.bm, st.pending
    ensures Stands(st, t, i, d) && Inv(t) && |out| == (if r.None? then 0 else size)
    ensures Step(s, i, !d, Action.Read(out, None), t)
  {
    hide Inv, Step, WriteOk, PoolOk, ParcelsOk, Apart, ReadOk, RecvOk, Delivered, Marks, IsPinned, Available, Window,
      Acceptable, ParcelSlots, Owned, Offsets;
    EndOk(s, i, d);
    ghost var all := Available(st.bm.View(), st.recvBuf.View(), st.pending.parcels);
    ok, r := st.recvBuf.Discard(size);
    out := if r.None? then [] else all[..size];
    t := ReadStep(s, i, d, st.bm.View(), st.recvBuf.View(), st.pending.parcels, st.pending.fellBack, out, None);
    StandsAgain(st, t, i, d);
  }

  // ---------- giving back ----------

  method ReleasePreviousRead(st: Stream, ghost s: Sys, ghost i: nat, ghost d: bool) returns (ghost t: Sys)
    requires Inv(s) && Stands(st, s, i, d)
    modifies st.recvBuf, st.bm
    ensures Stands(st, t, i, d) && Inv(t) && Step(s, i, !d, Release, t)
  {
    hide Inv, WriteOk, PoolOk, RecvOk, ParcelsOk, Apart, ReadOk, Kept, Step, Owned, Unread, ParcelSlots;
    EndOk(s, i, d);
    st.recvBuf.ReleasePreviousRead();
    t := ReleaseStep(s, i, d, st.bm.View(), st.recvBuf.View());
    StandsAgain(st, t, i, d);
  }

  lemma ReleaseStep(s: Sys, i: nat, d: bool, q: Pool, c: Buf) returns (t: Sys)
    requires Inv(s) && i < |s.conns| && !s.conns[i].spoilt
    requires Kept(s.pool, Side(s.conns[i], !d).recv, q, c) && c.pinned == []
    ensures Step(s, i, !d, Release, t) && Inv(t)
    ensures t == After(s, q, i, !d, Side(s.conns[i], !d).(recv := c, lent := map[]))
  {
    hide Inv, Kept;
    t := After(s, q, i, !d, Side(s.conns[i], !d).(recv := c, lent := map[]));
    StepKeeps(s, i, !d, Release, t);
  }

  /**
   ReleaseReadAndReuse, whatever is in the send buffer. When written bytes were swapped into the
   reader's place the connection is spoilt; the runs of all other connections go on.
   */
  method ReleaseReadAndReuse(st: Stream, ghost s: Sys, ghost i: nat, ghost d: bool)
    returns (swapped: bool, ghost t: Sys)
    requires Inv(s) && Stands(st, s, i, d)
    modifies st`recvBuf, st`sendBuf, st.recvBuf, st.bm
    ensures Step(s, i, !d, Reuse(!swapped || old(st.sendBuf.len) == 0), t) && Inv(t) && t.pool == st.bm.View()
    ensures !swapped || old(st.sendBuf.len) == 0 ==> Stands(st, t, i, d)
  {
    hide Inv, ReusedTo, Step;
    ghost var kept := st.sendBuf.len == 0;
    swapped := ReuseBuffers(st, s, i, d);
    t := ReuseStep(s, i, d, st.bm.View(), st.recvBuf.View(), st.sendBuf.View(), !swapped || kept);
    if !swapped || kept {
      StandsAgain(st, t, i, d);
    }
  }

  /** What becomes of the receive buffer and the send buffer: `c` and `e`, over pool `q`. */
  ghost predicate ReusedTo(s: Sys, i: nat, d: bool, q: Pool, c: Buf, e: Buf, kept: bool)
    requires i < |s.conns|
  {
    var p, v, w := s.pool, Side(s.conns[i], d), Side(s.conns[i], !d);
    && WriteOk(q, e) && c.pinned == e.pinned == []
    && Exchange(p, Owned(w.recv) + Owned(v.send), q, Owned(c) + Owned(e))
    && (!kept ==> v.send.len > 0 && c == v.send)
    && (kept ==> ReadOk(q, c) && (w.recv.isFromShm ==> c.isFromShm))
    && (kept ==> Unread(q, c) == Unread(p, w.recv) && Unread(q, e) == Unread(p, v.send))
  }

  method ReuseBuffers(st: Stream, ghost s: Sys, ghost i: nat, ghost d: bool) returns (swapped: bool)
    requires Inv(s) && Stands(st, s, i, d)
    modifies st`recvBuf, st`sendBuf, st.recvBuf, st.bm
    ensures st.Wired()
    ensures ReusedTo(s, i, d, st.bm.View(), st.recvBuf.View(), st.sendBuf.View(), !swapped || old(st.sendBuf.len) == 0)
  {
    hide Inv, WriteOk, PoolOk, RecvOk, ParcelsOk, Apart, ReadOk, Exchange, Owned, Unread, ParcelSlots, Offsets, Side;
    EndOk(s, i, d);
    ghost var v, w := Side(s.conns[i], d), Side(s.conns[i], !d);
    assert v.send == st.sendBuf.View() && w.recv == st.recvBuf.View();
    swapped := st.ReleaseReadAndReuse();
    assert swapped ==> st.recvBuf.View() == v.send;
  }

  lemma ReuseStep(s: Sys, i: nat, d: bool, q: Pool, c: Buf, e: Buf, kept: bool) returns (t: Sys)
    requires Inv(s) && i < |s.conns| && !s.conns[i].spoilt && ReusedTo(s, i, d, q, c, e, kept)
    ensures Step(s, i, !d, Reuse(kept), t) && Inv(t) && t.pool == q
    ensures |t.conns| == |s.conns| && t.conns[i].spoilt == !kept
    ensures Side(t.conns[i], d) == Side(s.conns[i], d).(send := e)
    ensures Side(t.conns[i], !d) == Side(s.conns[i], !d).(recv := c, lent := map[])
  {
    hide Inv, WriteOk, PoolOk, ReadOk, Exchange, Owned, Unread;
    var v, w := Side(s.conns[i], d), Side(s.conns[i], !d);
    var conn := With(With(s.conns[i], !d, w.(recv := c, lent := map[])), d, v.(send := e)).(spoilt := !kept);
    t := Sys(q, s.conns[i := conn]);
    StepKeeps(s, i, !d, Reuse(kept), t);
  }

  /** close, once it has won: the stream is closed and gives back all it has but what is pinned. */
  method Close(st: Stream, ghost s: Sys, ghost i: nat, ghost d: bool) returns (ghost t: Sys)
    requires Inv(s) && Stands(st, s, i, d)
    modifies st, st.recvBuf, st.sendBuf, st.pending, st.bm
    ensures Stands(st, t, i, d) && Inv(t) && Step(s, i, !d, Action.Close, t)
  {
    hide Inv, WriteOk, PoolOk, RecvOk, ParcelsOk, Apart, ReadOk, Exchange, Owned, ParcelSlots, Cleaned, StepOn;
    EndOk(s, i, d);
    st.state := Closed;
    st.Clean();
    ghost var v, w := Side(s.conns[i], d), Side(s.conns[i], !d);
    ghost var w' := w.(recv := Cleaned(w.recv), pending := [], reader := false, lent := map[]);
    ghost var conn := With(With(s.conns[i], !d, w'), d, v.(send := Cleaned(v.send), draft := [], writer := false));
    t := Sys(st.bm.View(), s.conns[i := conn]);
    CloseIsStep(s, i, d, t);
    StepKeeps(s, i, !d, Action.Close, t);
  }

  lemma CloseIsStep(s: Sys, i: nat, d: bool, t: Sys)
    requires i < |s.conns| == |t.conns| && t.conns == s.conns[i := t.conns[i]]
    requires t.conns[i].spoilt == s.conns[i].spoilt
    requires Closes(s.pool, Side(s.conns[i], !d), Side(s.conns[i], d), t.pool, Side(t.conns[i], !d),
      Side(t.conns[i], d))
    ensures Step(s, i, !d, Action.Close, t)
  {
    hide Closes;
  }

  /** The peer's close notice arrives: the stream only stops writing. */
  method HalfClose(st: Stream, ghost s: Sys, ghost i: nat, ghost d: bool) returns (ghost t: Sys)
    requires Inv(s) && Stands(st, s, i, d)
    modifies st`state
    ensures Stands(st, t, i, d) && Inv(t) && (t == s || Step(s, i, d, Action.HalfClose, t))
  {
    hide Inv;
    t := s;
    if st.state == Opened {
      st.state := HalfClosed;
      t := After(s, s.pool, i, d, Side(s.conns[i], d).(writer := false));
      StepKeeps(s, i, d, Action.HalfClose, t);
    }
  }
}
