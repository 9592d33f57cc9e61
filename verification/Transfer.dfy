/**
 Whole runs: any number of streams over one pool of slots. A connection has two directions, and
 each step is a call of the stream or linked buffer operation whose contract it carries, or the
 arrival of a parcel. Two laws are proved for every reachable state: each slot is in exactly one
 place, and what was flushed is what was read, is waiting, or is on its way, in order.
 */
module Transfer {
  import opened Bytes
  import opened Slots
  import opened BufferSpec
  import opened Reserving
  import opened ArrivalSpec
  import opened LinkedBuffers
  import opened Streams

  /**
   One direction. `flight` is what the writer has handed to the queue or the socket and the peer
   has not taken in yet. `fellBack` is the writer's inFallbackState. `draft`, `flushed` and `read`
   are histories: what the writer's caller has written since the last flush, has flushed, and the
   reader's caller has read; `lent` holds the slots the reader's caller has windows on, with the bytes seen.
   */
  datatype Way = Way(send: Buf, flight: seq<Parcel>, pending: seq<Parcel>, recv: Buf,
                     writer: bool, reader: bool, fellBack: bool,
                     draft: seq<byte>, flushed: seq<byte>, read: seq<byte>, lent: map<nat, seq<byte>>)

  /** `spoilt` is history: a reuse has once put a written send buffer into a reader's place. */
  datatype Conn = Conn(there: Way, back: Way, spoilt: bool)

  datatype Sys = Sys(pool: Pool, conns: seq<Conn>)

  function Side(c: Conn, d: bool): Way
  {
    if d then c.there else c.back
  }

  function With(c: Conn, d: bool, w: Way): Conn
  {
    if d then c.(there := w) else c.(back := w)
  }

  // ---------- who holds which slot ----------

  ghost function WaySlots(w: Way): multiset<nat>
  {
    Owned(w.send) + (Owned(w.recv) + ParcelSlots(w.pending)) + ParcelSlots(w.flight)
  }

  ghost function ConnSlots(c: Conn): multiset<nat>
  {
    WaySlots(c.there) + WaySlots(c.back)
  }

  ghost function Held(cs: seq<Conn>): multiset<nat>
  {
    if cs == [] then multiset{} else ConnSlots(cs[0]) + Held(cs[1..])
  }

  // ---------- the invariant ----------

  ghost predicate LentOk(p: Pool, w: Way)
  {
    forall o :: o in w.lent ==> IsPinned(w.recv, o) && o in p.slots && p.slots[o].data == w.lent[o]
  }

  /** What the reader gets is what was flushed: nothing lost, nothing doubled, nothing reordered. */
  ghost predicate Complete(p: Pool, w: Way)
  {
    w.flushed == w.read + (Available(p, w.recv, w.pending) + ParcelBytes(p.slots, w.flight))
  }

  /** What is left to say of a reader that has closed: there is nothing more to read. */
  ghost predicate Over(p: Pool, w: Way)
  {
    w.read <= w.flushed && Available(p, w.recv, w.pending) == []
  }

  ghost predicate History(p: Pool, w: Way)
  {
    if w.reader then Complete(p, w) else Over(p, w)
  }

  /** After the first heap parcel only heap parcels follow, and the writer knows it has fallen back. */
  ghost predicate InOrder(w: Way)
  {
    && Acceptable(w.recv, w.pending + w.flight)
    && (HasHeap(w.pending + w.flight) || !w.recv.isFromShm ==> w.fellBack)
  }

  /** The send buffer holds exactly what was written into it, and nothing of it is pinned. */
  ghost predicate SendOk(p: Pool, b: Buf, draft: seq<byte>)
  {
    WriteOk(p, b) && Unread(p, b) == draft && b.pinned == []
  }

  ghost predicate WayOk(p: Pool, w: Way)
  {
    && SendOk(p, w.send, w.draft) && RecvOk(p, w.recv, w.pending) && ParcelsOk(p.slots, w.flight)
    && InOrder(w) && LentOk(p, w) && History(p, w)
  }

  ghost predicate Balanced(s: Sys)
  {
    FreeSlots(s.pool.free) + Held(s.conns) == multiset(s.pool.slots.Keys)
  }

  ghost predicate Inv(s: Sys)
  {
    && PoolOk(s.pool) && Balanced(s)
    && forall i, d :: 0 <= i < |s.conns| && !s.conns[i].spoilt ==> WayOk(s.pool, Side(s.conns[i], d))
  }

  // ---------- steps ----------

  /** `d` names the direction a step is about: the one written to, delivered on or read from. */
  datatype Action =
    | Write(data: seq<byte>)                    // any write call
    | Fill(at: nat, bytes: seq<byte>)           // the writer's caller fills a reserved window
    | Queue(ch: seq<nat>)                       // Flush over shared memory
    | Frame                                     // Flush over the socket
    | Drop                                      // a Flush that failed or was refused
    | Lose                                      // a Flush over the socket whose frame the channel did not take
    | Deliver                                   // the next parcel reaches the reader's stream
    | Read(out: seq<byte>, lend: Option<nat>)   // any read call
    | Release                                   // ReleasePreviousRead
    | Reuse(kept: bool)                         // ReleaseReadAndReuse; `kept`: the reader's view survives
    | Close                                     // the reader's end closes
    | HalfClose                                 // the writer's end learns that its peer has closed

  ghost predicate Writes(p: Pool, w: Way, q: Pool, w': Way, data: seq<byte>)
  {
    Wrote(p, w.send, q, w'.send, data) && w' == w.(send := w'.send, draft := w.draft + data)
  }

  ghost predicate Fills(p: Pool, w: Way, q: Pool, w': Way, at: nat, bytes: seq<byte>)
  {
    && Patched(p, w.send, q, w'.send, at, bytes) && at + |bytes| <= |w.draft|
    && w' == w.(send := w'.send, draft := Overwrite(w.draft, at, bytes))
  }

  ghost predicate Queues(p: Pool, w: Way, q: Pool, w': Way, ch: seq<nat>)
  {
    && w.writer && !w.fellBack && w.send.len > 0 && w.send.isFromShm
    && HandedOver(p, w.send, q, w'.send, ch)
    && w' == w.(send := w'.send, flight := w.flight + [Chain(ch)], flushed := w.flushed + w.draft, draft := [])
  }

  ghost predicate Frames(p: Pool, w: Way, q: Pool, w': Way)
  {
    && w.writer && w.send.len > 0 && (w.fellBack || !w.send.isFromShm)
    && GaveBack(p, w.send, q, w'.send, Unread(p, w.send))
    && w' == w.(send := w'.send, flight := w.flight + [Heap(Unread(p, w.send))],
                flushed := w.flushed + w.draft, draft := [], fellBack := true)
  }

  ghost predicate Drops(p: Pool, w: Way, q: Pool, w': Way)
  {
    GaveBack(p, w.send, q, w'.send, Unread(p, w.send)) && w' == w.(send := w'.send, draft := [])
  }

  /** The stream has fallen back, and what was to be sent is gone. */
  ghost predicate Loses(p: Pool, w: Way, q: Pool, w': Way)
  {
    && w.writer && w.send.len > 0 && (w.fellBack || !w.send.isFromShm)
    && Drops(p, w, q, w'.(fellBack := w.fellBack)) && w'.fellBack
  }

  /** A parcel for a stream that is gone goes straight back to the free lists. */
  ghost predicate Delivers(p: Pool, w: Way, q: Pool, w': Way)
  {
    && w.flight != []
    && if w.reader then
      q == p && w' == w.(flight := w.flight[1..], pending := w.pending + [w.flight[0]])
    else
      && PoolOk(q) && Exchange(p, ParcelSlot(w.flight[0]), q, multiset{})
      && w' == w.(flight := w.flight[1..])
  }

  ghost predicate Reads(p: Pool, w: Way, q: Pool, w': Way, out: seq<byte>, lend: Option<nat>)
  {
    && Delivered(p, w.recv, w.pending, q, w'.recv, w'.pending, out)
    && w' == w.(recv := w'.recv, pending := w'.pending, read := w.read + out, lent := w'.lent)
    && match lend
      case None => w'.lent == w.lent
      case Some(o) => IsPinned(w'.recv, o) && o in q.slots && w'.lent == w.lent[o := q.slots[o].data]
  }

  ghost predicate Releases(p: Pool, w: Way, q: Pool, w': Way)
  {
    Kept(p, w.recv, q, w'.recv) && w'.recv.pinned == [] && w' == w.(recv := w'.recv, lent := map[])
  }

  /** `v` is the other direction: its send buffer and the receive buffer of `w` may change places. */
  ghost predicate Swaps(p: Pool, w: Way, v: Way, q: Pool, w': Way, v': Way)
  {
    && WriteOk(q, v'.send) && w'.recv.pinned == v'.send.pinned == []
    && Exchange(p, Owned(w.recv) + Owned(v.send), q, Owned(w'.recv) + Owned(v'.send))
    && w' == w.(recv := w'.recv, lent := map[]) && v' == v.(send := v'.send, draft := v'.draft)
  }

  /** The reader's view survives: the buffers stayed where they were, or the send buffer was empty. */
  ghost predicate Reuses(p: Pool, w: Way, v: Way, q: Pool, w': Way, v': Way)
  {
    && Swaps(p, w, v, q, w', v') && v'.draft == v.draft
    && ReadOk(q, w'.recv) && (w.recv.isFromShm ==> w'.recv.isFromShm)
    && Unread(q, w'.recv) == Unread(p, w.recv) && Unread(q, v'.send) == Unread(p, v.send)
  }

  /** Written bytes were swapped into the reader's place. */
  ghost predicate Spoils(p: Pool, w: Way, v: Way, q: Pool, w': Way, v': Way)
  {
    Swaps(p, w, v, q, w', v') && v.send.len > 0 && w'.recv == v.send
  }

  /** Stream.clean gives everything back except the slots that are still pinned. */
  ghost predicate Closes(p: Pool, w: Way, v: Way, q: Pool, w': Way, v': Way)
  {
    && PoolOk(q)
    && Exchange(p, Owned(w.recv) + ParcelSlots(w.pending) + Owned(v.send), q, Owned(w'.recv) + Owned(v'.send))
    && w' == w.(recv := Cleaned(w.recv), pending := [], reader := false, lent := map[])
    && v' == v.(send := Cleaned(v.send), draft := [], writer := false)
  }

  /** Reading a fallback payload sets the flag that makes this end answer over the socket too. */
  ghost function FellBackToo(w: Way, w': Way, v: Way): Way
  {
    if |w'.pending| <= |w.pending| && HasHeap(w.pending[..|w.pending| - |w'.pending|]) then v.(fellBack := true) else v
  }

  ghost predicate StepOn(p: Pool, c: Conn, d: bool, a: Action, q: Pool, c': Conn)
  {
    var w, v, w', v' := Side(c, d), Side(c, !d), Side(c', d), Side(c', !d);
    && c'.spoilt == (c.spoilt || a == Reuse(false))
    && match a
    case Write(data) => Writes(p, w, q, w', data) && v' == v
    case Fill(at, bytes) => Fills(p, w, q, w', at, bytes) && v' == v
    case Queue(ch) => Queues(p, w, q, w', ch) && v' == v
    case Frame => Frames(p, w, q, w') && v' == v
    case Drop => Drops(p, w, q, w') && v' == v
    case Lose => Loses(p, w, q, w') && v' == v
    case Deliver => Delivers(p, w, q, w') && v' == v
    case Read(out, lend) => Reads(p, w, q, w', out, lend) && v' == FellBackToo(w, w', v)
    case Release => Releases(p, w, q, w') && v' == v
    case Reuse(kept) =>
      if c.spoilt then Swaps(p, w, v, q, w', v')
      else if kept then Reuses(p, w, v, q, w', v') else Spoils(p, w, v, q, w', v')
    case Close => Closes(p, w, v, q, w', v')
    case HalfClose => q == p && w' == w.(writer := false) && v' == v
  }

  ghost predicate Step(s: Sys, i: nat, d: bool, a: Action, t: Sys)
  {
    && i < |s.conns| == |t.conns| && t.conns == s.conns[i := t.conns[i]]
    && StepOn(s.pool, s.conns[i], d, a, t.pool, t.conns[i])
  }

  // ---------- frames ----------

  lemma {:induction false} HeldSplit(cs: seq<Conn>, i: nat)
    requires i < |cs|
    ensures Held(cs) == ConnSlots(cs[i]) + Held(cs[..i] + cs[i + 1..])
  {
    hide ConnSlots;
    if i == 0 {
      assert cs[..0] + cs[1..] == cs[1..];
    } else {
      HeldSplit(cs[1..], i - 1);
      var rest := cs[..i] + cs[i + 1..];
      assert rest[0] == cs[0] && rest[1..] == cs[1..][..i - 1] + cs[1..][i..];
      assert cs[1..][i..] == cs[i + 1..];
    }
  }

  lemma HeldOther(cs: seq<Conn>, i: nat, j: nat)
    requires i < |cs| && j < |cs| && i != j
    ensures ConnSlots(cs[j]) <= Held(cs[..i] + cs[i + 1..])
  {
    hide ConnSlots, Held;
    var rest := cs[..i] + cs[i + 1..];
    var k := if j < i then j else j - 1;
    assert rest[k] == cs[j];
    HeldSplit(rest, k);
  }

  lemma IntactPart(slots: map<nat, Slot>, slots': map<nat, Slot>, all: multiset<nat>, part: multiset<nat>)
    requires Intact(slots, slots', all) && part <= all
    ensures Intact(slots, slots', part)
  {
  }

  lemma ApartLess(p: Pool, all: multiset<nat>, part: multiset<nat>)
    requires Apart(p, all) && part <= all
    ensures Apart(p, part)
  {
  }

  lemma RecvKept(p: Pool, b: Buf, ps: seq<Parcel>, q: Pool)
    requires RecvOk(p, b, ps) && PoolOk(q)
    requires Apart(q, Owned(b) + ParcelSlots(ps)) && Intact(p.slots, q.slots, Owned(b) + ParcelSlots(ps))
    ensures RecvOk(q, b, ps) && Available(q, b, ps) == Available(p, b, ps) && Pins(p, b, q, b)
  {
    hide PoolOk, Apart, Offsets, Contents, ParcelSlots, ParcelBytes, ParcelsOk, SlicesOk, IsPinned;
    IntactPart(p.slots, q.slots, Owned(b) + ParcelSlots(ps), Owned(b));
    IntactPart(p.slots, q.slots, Owned(b) + ParcelSlots(ps), ParcelSlots(ps));
    ApartPart(q, Owned(b), ParcelSlots(ps));
    BufCoreKept(p, b, q);
    ParcelsIntact(p.slots, q.slots, ps);
    SkipPins(p, b, q);
  }

  lemma LentKept(p: Pool, w: Way, q: Pool, recv: Buf)
    requires LentOk(p, w) && Pins(p, w.recv, q, recv)
    ensures LentOk(q, w.(recv := recv))
  {
    hide IsPinned;
  }

  /** A direction none of whose slots was touched is as it was. */
  lemma WayKept(p: Pool, w: Way, q: Pool)
    requires WayOk(p, w) && PoolOk(q) && Apart(q, WaySlots(w)) && Intact(p.slots, q.slots, WaySlots(w))
    ensures WayOk(q, w)
  {
    hide PoolOk, Apart, Offsets, Contents, ParcelSlots, ParcelBytes, ParcelsOk, WriteOk, RecvOk, Owned, LentOk,
         Available, InOrder, Intact;
    SendKept(p, w, q);
    RecvPart(p, w, q);
    FlightPart(p, w, q);
    LentKept(p, w, q, w.recv);
    assert w.(recv := w.recv) == w;
  }

  lemma SendKept(p: Pool, w: Way, q: Pool)
    requires WriteOk(p, w.send) && PoolOk(q) && Apart(q, WaySlots(w)) && Intact(p.slots, q.slots, WaySlots(w))
    ensures WriteOk(q, w.send) && Unread(q, w.send) == Unread(p, w.send)
  {
    hide PoolOk, Apart, Offsets, Contents, ParcelSlots, WriteOk, Owned, Intact;
    IntactPart(p.slots, q.slots, WaySlots(w), Owned(w.send));
    ApartLess(q, WaySlots(w), Owned(w.send));
    WriteOkKept(p, w.send, q);
  }

  lemma RecvPart(p: Pool, w: Way, q: Pool)
    requires RecvOk(p, w.recv, w.pending) && PoolOk(q) && Apart(q, WaySlots(w)) && Intact(p.slots, q.slots, WaySlots(w))
    ensures RecvOk(q, w.recv, w.pending) && Available(q, w.recv, w.pending) == Available(p, w.recv, w.pending)
    ensures Pins(p, w.recv, q, w.recv)
  {
    hide PoolOk, Apart, Offsets, Contents, ParcelSlots, RecvOk, Owned, Available, Pins, Intact;
    var part := Owned(w.recv) + ParcelSlots(w.pending);
    IntactPart(p.slots, q.slots, WaySlots(w), part);
    ApartLess(q, WaySlots(w), part);
    RecvKept(p, w.recv, w.pending, q);
  }

  lemma FlightPart(p: Pool, w: Way, q: Pool)
    requires ParcelsOk(p.slots, w.flight) && Intact(p.slots, q.slots, WaySlots(w))
    ensures ParcelsOk(q.slots, w.flight) && ParcelBytes(q.slots, w.flight) == ParcelBytes(p.slots, w.flight)
  {
    hide ParcelSlots, ParcelBytes, ParcelsOk, Owned, Intact;
    IntactPart(p.slots, q.slots, WaySlots(w), ParcelSlots(w.flight));
    ParcelsIntact(p.slots, q.slots, w.flight);
  }

  /** One connection exchanges `own` for `own2`; the rest of it and all others are untouched. */
  lemma ConnStep(s: Sys, i: nat, own: multiset<nat>, own2: multiset<nat>, rest: multiset<nat>, q: Pool, c: Conn)
    requires Inv(s) && i < |s.conns|
    requires ConnSlots(s.conns[i]) == own + rest && ConnSlots(c) == own2 + rest
    requires Exchange(s.pool, own, q, own2) && PoolOk(q)
    ensures Intact(s.pool.slots, q.slots, rest) && Apart(q, ConnSlots(c))
    ensures c.spoilt || (WayOk(q, c.there) && WayOk(q, c.back)) ==> Inv(Sys(q, s.conns[i := c]))
  {
    hide PoolOk, WayOk, ConnSlots, Held, Exchange, Apart, Intact;
    var p, cs := s.pool, s.conns;
    var others := Held(cs[..i] + cs[i + 1..]);
    HeldSplit(cs, i);
    var t := Sys(q, cs[i := c]);
    HeldSplit(t.conns, i);
    assert t.conns[..i] + t.conns[i + 1..] == cs[..i] + cs[i + 1..];
    Partitioned(p, own, rest, others, q, own2);
    ApartLess(q, own2 + (rest + others), ConnSlots(c));
    IntactPart(p.slots, q.slots, rest + others, rest);
    if c.spoilt || (WayOk(q, c.there) && WayOk(q, c.back)) {
      forall j, d | 0 <= j < |t.conns| && !t.conns[j].spoilt ensures WayOk(q, Side(t.conns[j], d)) {
        if j != i {
          HeldOther(cs, i, j);
          OtherConn(p, cs[j], d, q, own2 + (rest + others), rest + others);
        }
      }
    }
  }

  lemma Partitioned(p: Pool, own: multiset<nat>, rest: multiset<nat>, others: multiset<nat>, q: Pool,
                    own2: multiset<nat>)
    requires FreeSlots(p.free) + ((own + rest) + others) == multiset(p.slots.Keys)
    requires Exchange(p, own, q, own2)
    ensures FreeSlots(q.free) + ((own2 + rest) + others) == multiset(q.slots.Keys)
    ensures Apart(q, own2 + (rest + others)) && Intact(p.slots, q.slots, rest + others)
  {
    hide Intact;
    var x := rest + others;
    assert (own + rest) + others == own + x && (own2 + rest) + others == own2 + x;
    ExchangeFrame(p, own, q, own2, x);
    OtherIntact(p, own, q, own2, x);
  }

  lemma OtherConn(p: Pool, c: Conn, d: bool, q: Pool, all: multiset<nat>, untouched: multiset<nat>)
    requires WayOk(p, Side(c, d)) && PoolOk(q) && ConnSlots(c) <= untouched <= all
    requires Apart(q, all) && Intact(p.slots, q.slots, untouched)
    ensures WayOk(q, Side(c, d))
  {
    hide PoolOk, WayOk, Apart, Intact, WaySlots;
    var w := Side(c, d);
    assert WaySlots(w) <= untouched;
    ApartLess(q, all, WaySlots(w));
    IntactPart(p.slots, q.slots, untouched, WaySlots(w));
    WayKept(p, w, q);
  }

  /** The same for a step of one direction. */
  lemma WayStep(s: Sys, i: nat, d: bool, own: multiset<nat>, own2: multiset<nat>, rest: multiset<nat>, q: Pool, w: Way)
    requires Inv(s) && i < |s.conns| && !s.conns[i].spoilt
    requires WaySlots(Side(s.conns[i], d)) == own + rest && WaySlots(w) == own2 + rest
    requires Exchange(s.pool, own, q, own2) && PoolOk(q)
    ensures Intact(s.pool.slots, q.slots, rest) && Apart(q, WaySlots(w)) && Apart(q, own2) && Apart(q, rest)
    ensures WayOk(q, w) ==> Inv(Sys(q, s.conns[i := With(s.conns[i], d, w)]))
  {
    hide PoolOk, WayOk, Apart, Intact, WaySlots, Inv, Exchange;
    var c := With(s.conns[i], d, w);
    var v := Side(s.conns[i], !d);
    assert ConnSlots(s.conns[i]) == own + (rest + WaySlots(v));
    assert ConnSlots(c) == own2 + (rest + WaySlots(v)) == WaySlots(w) + WaySlots(v);
    ConnStep(s, i, own, own2, rest + WaySlots(v), q, c);
    IntactPart(s.pool.slots, q.slots, rest + WaySlots(v), rest);
    IntactPart(s.pool.slots, q.slots, rest + WaySlots(v), WaySlots(v));
    ApartPart(q, WaySlots(w), WaySlots(v));
    ApartPart(q, own2, rest);
    InvWay(s, i, !d);
    WayKept(s.pool, v, q);
  }

  lemma InvWay(s: Sys, i: nat, d: bool)
    requires Inv(s) && i < |s.conns| && !s.conns[i].spoilt
    ensures WayOk(s.pool, Side(s.conns[i], d)) && PoolOk(s.pool)
  {
  }

  // ---------- the writing end ----------

  /** The part of a direction that a step of the writer leaves alone. */
  ghost function Beyond(w: Way): multiset<nat>
  {
    (Owned(w.recv) + ParcelSlots(w.pending)) + ParcelSlots(w.flight)
  }

  lemma SendStep(s: Sys, i: nat, d: bool, own2: multiset<nat>, q: Pool, w': Way)
    requires Inv(s) && i < |s.conns| && !s.conns[i].spoilt && WaySlots(w') == own2 + Beyond(Side(s.conns[i], d))
    requires Exchange(s.pool, Owned(Side(s.conns[i], d).send), q, own2) && PoolOk(q)
    ensures var w := Side(s.conns[i], d);
      && RecvOk(q, w.recv, w.pending) && Available(q, w.recv, w.pending) == Available(s.pool, w.recv, w.pending)
      && ParcelsOk(q.slots, w.flight) && ParcelBytes(q.slots, w.flight) == ParcelBytes(s.pool.slots, w.flight)
      && LentOk(q, w) && WayOk(s.pool, w)
    ensures WayOk(q, w') ==> Inv(Sys(q, s.conns[i := With(s.conns[i], d, w')]))
  {
    hide PoolOk, Apart, Owned, ParcelSlots, ParcelBytes, ParcelsOk, RecvOk, Available, LentOk, Inv, Exchange, InOrder,
         WriteOk, Intact, Pins;
    var p, w := s.pool, Side(s.conns[i], d);
    assert WaySlots(w) == Owned(w.send) + Beyond(w);
    WayStep(s, i, d, Owned(w.send), own2, Beyond(w), q, w');
    InvWay(s, i, d);
    var part := Owned(w.recv) + ParcelSlots(w.pending);
    IntactPart(p.slots, q.slots, Beyond(w), part);
    IntactPart(p.slots, q.slots, Beyond(w), ParcelSlots(w.flight));
    ApartPart(q, part, ParcelSlots(w.flight));
    RecvKept(p, w.recv, w.pending, q);
    ParcelsIntact(p.slots, q.slots, w.flight);
    LentKept(p, w, q, w.recv);
    assert w.(recv := w.recv) == w;
  }

  /** Writing, filling a reserved window and dropping what was written only concern the send buffer. */
  lemma WriteKeeps(s: Sys, i: nat, d: bool, q: Pool, w': Way)
    requires Inv(s) && i < |s.conns| && !s.conns[i].spoilt
    requires SendOk(q, w'.send, w'.draft) && Exchange(s.pool, Owned(Side(s.conns[i], d).send), q, Owned(w'.send))
    requires w' == Side(s.conns[i], d).(send := w'.send, draft := w'.draft)
    ensures Inv(Sys(q, s.conns[i := With(s.conns[i], d, w')]))
  {
    hide PoolOk, Apart, Owned, ParcelSlots, ParcelBytes, ParcelsOk, RecvOk, Available, LentOk, Inv, Exchange, InOrder,
         BufCore, AllUnsent, AllEmpty, Contents;
    var w := Side(s.conns[i], d);
    assert PoolOk(q) by { CoreValid(q, w'.send); }
    assert WaySlots(w') == Owned(w'.send) + Beyond(w);
    SendStep(s, i, d, Owned(w'.send), q, w');
    SameRest(q, w, w');
  }

  lemma SendOnly(p: Pool, w: Way, q: Pool, w': Way, data: seq<byte>, at: nat)
    requires SendOk(p, w.send, w.draft)
    requires Writes(p, w, q, w', data) || Fills(p, w, q, w', at, data) || Drops(p, w, q, w')
    ensures SendOk(q, w'.send, w'.draft) && Exchange(p, Owned(w.send), q, Owned(w'.send))
    ensures w' == w.(send := w'.send, draft := w'.draft)
  {
    hide WriteOk, Exchange, Owned, Overwrite;
  }

  /** Replacing the send buffer leaves what the reader sees as it was. */
  lemma SameRest(q: Pool, w: Way, w': Way)
    requires w' == w.(send := w'.send, draft := w'.draft) && InOrder(w) && LentOk(q, w)
    ensures InOrder(w') && LentOk(q, w')
  {
    hide Acceptable, HasHeap, IsPinned;
  }

  lemma ParcelSlotsOne(x: Parcel)
    ensures ParcelSlots([x]) == ParcelSlot(x)
  {
    assert [x][1..] == [];
  }

  lemma ParcelBytesOne(slots: map<nat, Slot>, x: Parcel)
    ensures ParcelBytes(slots, [x]) == ParcelData(slots, x)
  {
    assert [x][1..] == [];
  }

  /** A parcel is put behind what is on its way. */
  lemma Posted(q: Pool, w: Way, w': Way, x: Parcel)
    requires w'.flight == w.flight + [x] && ParcelsOk(q.slots, w.flight) && ParcelOk(q.slots, x)
    ensures ParcelsOk(q.slots, w'.flight)
    ensures ParcelBytes(q.slots, w'.flight) == ParcelBytes(q.slots, w.flight) + ParcelData(q.slots, x)
    ensures ParcelSlots(w'.flight) == ParcelSlots(w.flight) + ParcelSlot(x)
  {
    hide ParcelOk, ParcelData, ParcelSlot;
    ParcelSlotsAppend(w.flight, [x]);
    ParcelBytesAppend(q.slots, w.flight, [x]);
    ParcelSlotsOne(x);
    ParcelBytesOne(q.slots, x);
  }

  /** Chains are only sent while nothing has fallen back, and heap parcels only after noting it. */
  lemma PostedInOrder(w: Way, w': Way, x: Parcel)
    requires InOrder(w) && w'.flight == w.flight + [x] && w'.pending == w.pending && w'.recv == w.recv
    requires if x.Heap? then w'.fellBack else !w.fellBack && !w'.fellBack
    ensures InOrder(w')
  {
    var a, b := w.pending + w.flight, w'.pending + w'.flight;
    assert b == a + [x];
    if x.Chain? {
      assert !HasHeap(a);
      forall j | 0 <= j < |b| ensures b[j].Chain? {
        assert j < |a| ==> a[j] == b[j];
      }
    }
  }

  lemma PostedHistory(p: Pool, w: Way, q: Pool, w': Way, data: seq<byte>)
    requires History(p, w) && w'.reader == w.reader
    requires Available(q, w.recv, w.pending) == Available(p, w.recv, w.pending)
    requires ParcelBytes(q.slots, w'.flight) == ParcelBytes(p.slots, w.flight) + data
    requires w'.recv == w.recv && w'.pending == w.pending && w'.read == w.read && w'.flushed == w.flushed + data
    ensures History(q, w')
  {
    hide Available, ParcelBytes;
    var a, f := Available(p, w.recv, w.pending), ParcelBytes(p.slots, w.flight);
    assert (w.read + (a + f)) + data == w.read + (a + (f + data));
  }

  lemma QueueKeeps(s: Sys, i: nat, d: bool, q: Pool, w': Way, ch: seq<nat>)
    requires Inv(s) && i < |s.conns| && !s.conns[i].spoilt && Queues(s.pool, Side(s.conns[i], d), q, w', ch)
    ensures Inv(Sys(q, s.conns[i := With(s.conns[i], d, w')]))
  {
    hide PoolOk, Apart, Owned, ParcelSlots, ParcelBytes, ParcelsOk, RecvOk, Available, LentOk, Inv, Exchange, InOrder,
         WriteOk, IsChain, ChainBytes, History, Unread, Beyond, Cleaned;
    var p, w := s.pool, Side(s.conns[i], d);
    var x := Chain(ch);
    InvWay(s, i, d);
    Emptied(q, w.send);
    QueuedParcel(p, w, q, ch);
    QueuedSlots(w, w', ch);
    SendStep(s, i, d, Owned(w'.send) + multiset(ch), q, w');
    Posted(q, w, w', x);
    PostedInOrder(w, w', x);
    PostedHistory(p, w, q, w', w.draft);
    SameLent(q, w, w');
  }

  lemma Emptied(q: Pool, b: Buf)
    requires WriteOk(q, Cleaned(b))
    ensures PoolOk(q) && Unread(q, Cleaned(b)) == [] && Cleaned(b).pinned == b.pinned
  {
    hide PoolOk, Apart, Offsets, SliceOk;
  }

  lemma QueuedSlots(w: Way, w': Way, ch: seq<nat>)
    requires w'.recv == w.recv && w'.pending == w.pending && w'.flight == w.flight + [Chain(ch)]
    ensures WaySlots(w') == Owned(w'.send) + multiset(ch) + Beyond(w)
  {
    hide Owned, ParcelSlots;
    ParcelSlotsAppend(w.flight, [Chain(ch)]);
    ParcelSlotsOne(Chain(ch));
  }

  lemma QueuedParcel(p: Pool, w: Way, q: Pool, ch: seq<nat>)
    requires WriteOk(p, w.send)
    requires w.send.len > 0 && IsChain(q.slots, ch) && ChainBytes(q.slots, ch) == Unread(p, w.send)
    ensures ParcelOk(q.slots, Chain(ch)) && ParcelData(q.slots, Chain(ch)) == Unread(p, w.send)
  {
    hide PoolOk, Apart, Owned, IsChain, ChainBytes, Contents, RecvOk, ParcelsOk, InOrder, LentOk, History, WriteCore;
  }

  lemma SameLent(q: Pool, w: Way, w': Way)
    requires LentOk(q, w) && w'.recv == w.recv && w'.lent == w.lent
    ensures LentOk(q, w')
  {
    hide IsPinned;
  }

  lemma FrameKeeps(s: Sys, i: nat, d: bool, q: Pool, w': Way)
    requires Inv(s) && i < |s.conns| && !s.conns[i].spoilt && Frames(s.pool, Side(s.conns[i], d), q, w')
    ensures Inv(Sys(q, s.conns[i := With(s.conns[i], d, w')]))
  {
    hide PoolOk, Apart, Owned, ParcelSlots, ParcelBytes, ParcelsOk, RecvOk, Available, LentOk, Inv, Exchange, InOrder,
         WriteOk, History, Unread, Beyond, Cleaned, ParcelOk;
    var p, w := s.pool, Side(s.conns[i], d);
    var x := Heap(w.draft);
    InvWay(s, i, d);
    Emptied(q, w.send);
    FramedParcel(p, w.send, q.slots);
    FramedSlots(w, w', w.draft);
    SendStep(s, i, d, Owned(w'.send), q, w');
    Posted(q, w, w', x);
    PostedInOrder(w, w', x);
    PostedHistory(p, w, q, w', w.draft);
    SameLent(q, w, w');
  }

  lemma FramedParcel(p: Pool, b: Buf, slots: map<nat, Slot>)
    requires WriteOk(p, b) && b.len > 0
    ensures ParcelOk(slots, Heap(Unread(p, b))) && ParcelData(slots, Heap(Unread(p, b))) == Unread(p, b)
  {
    hide WriteCore, Contents;
  }

  lemma FramedSlots(w: Way, w': Way, data: seq<byte>)
    requires w'.recv == w.recv && w'.pending == w.pending && w'.flight == w.flight + [Heap(data)]
    ensures WaySlots(w') == Owned(w'.send) + Beyond(w)
  {
    hide Owned, ParcelSlots;
    ParcelSlotsAppend(w.flight, [Heap(data)]);
    ParcelSlotsOne(Heap(data));
  }

  // ---------- the reading end ----------

  lemma ReadInOrder(w: Way, w': Way)
    requires InOrder(w) && Arrived(w.recv, w.pending, w'.recv, w'.pending)
    requires w'.flight == w.flight && w'.fellBack == w.fellBack
    ensures InOrder(w')
  {
    hide HasHeap, ChainsFirst, NoChain;
    var a, b := w.pending + w.flight, w'.pending + w'.flight;
    var n := |w.pending| - |w'.pending|;
    assert b == a[n..] && a[..n] == w.pending[..n];
    OrderTail(a, n);
  }

  /** What holds of the parcels on their way holds of the last of them. */
  lemma OrderTail(a: seq<Parcel>, n: nat)
    requires ChainsFirst(a) && n <= |a|
    ensures ChainsFirst(a[n..])
    ensures HasHeap(a[n..]) ==> HasHeap(a)
    ensures HasHeap(a[..n]) ==> HasHeap(a) && NoChain(a[n..])
    ensures NoChain(a) ==> NoChain(a[n..])
  {
    var b := a[n..];
    forall k | 0 <= k < |b| ensures b[k] == a[n + k] {
    }
    if HasHeap(b) {
      var k :| 0 <= k < |b| && b[k].Heap?;
      assert a[n + k].Heap?;
    }
    if HasHeap(a[..n]) {
      var k :| 0 <= k < n && a[k].Heap?;
      assert a[k].Heap?;
    }
  }

  lemma ReadLentOk(p: Pool, w: Way, q: Pool, w': Way, out: seq<byte>, lend: Option<nat>)
    requires LentOk(p, w) && Reads(p, w, q, w', out, lend)
    ensures LentOk(q, w')
  {
    hide RecvOk, Exchange, Available, IsPinned, Arrived;
  }

  lemma ReadHistory(p: Pool, w: Way, q: Pool, w': Way, out: seq<byte>)
    requires History(p, w) && w'.reader == w.reader
    requires Available(p, w.recv, w.pending) == out + Available(q, w'.recv, w'.pending)
    requires ParcelBytes(q.slots, w.flight) == ParcelBytes(p.slots, w.flight)
    requires w'.flight == w.flight && w'.flushed == w.flushed && w'.read == w.read + out
    ensures History(q, w')
  {
    hide Available, ParcelBytes;
    var a, f := Available(q, w'.recv, w'.pending), ParcelBytes(p.slots, w.flight);
    assert w.read + ((out + a) + f) == (w.read + out) + (a + f);
  }

  /** The part of a direction that a step of the reader leaves alone. */
  ghost function Behind(w: Way): multiset<nat>
  {
    Owned(w.send) + ParcelSlots(w.flight)
  }

  lemma BehindKept(p: Pool, w: Way, q: Pool)
    requires WriteOk(p, w.send) && ParcelsOk(p.slots, w.flight) && PoolOk(q)
    requires Apart(q, Behind(w)) && Intact(p.slots, q.slots, Behind(w))
    ensures WriteOk(q, w.send) && Unread(q, w.send) == Unread(p, w.send)
    ensures ParcelsOk(q.slots, w.flight) && ParcelBytes(q.slots, w.flight) == ParcelBytes(p.slots, w.flight)
  {
    hide PoolOk, Apart, Owned, ParcelSlots, ParcelBytes, ParcelsOk, WriteOk, Intact;
    IntactPart(p.slots, q.slots, Behind(w), Owned(w.send));
    IntactPart(p.slots, q.slots, Behind(w), ParcelSlots(w.flight));
    ApartPart(q, Owned(w.send), ParcelSlots(w.flight));
    WriteOkKept(p, w.send, q);
    ParcelsIntact(p.slots, q.slots, w.flight);
  }

  lemma ReadKeeps(s: Sys, i: nat, d: bool, q: Pool, w': Way, out: seq<byte>, lend: Option<nat>)
    requires Inv(s) && i < |s.conns| && !s.conns[i].spoilt && Reads(s.pool, Side(s.conns[i], d), q, w', out, lend)
    ensures Inv(Sys(q, s.conns[i := With(s.conns[i], d, w')]))
  {
    hide PoolOk, Apart, Owned, ParcelSlots, ParcelBytes, ParcelsOk, Available, LentOk, Inv, Exchange, InOrder, WriteOk,
         Pins, History, RecvOk, IsPinned, Intact, Arrived;
    var p, w := s.pool, Side(s.conns[i], d);
    var own, own2 := Owned(w.recv) + ParcelSlots(w.pending), Owned(w'.recv) + ParcelSlots(w'.pending);
    DeliveredRecv(p, w.recv, w.pending, q, w'.recv, w'.pending, out);
    RecvPool(q, w'.recv, w'.pending);
    assert WaySlots(w) == own + Behind(w) && WaySlots(w') == own2 + Behind(w);
    WayStep(s, i, d, own, own2, Behind(w), q, w');
    InvWay(s, i, d);
    BehindKept(p, w, q);
    ReadInOrder(w, w');
    ReadLentOk(p, w, q, w', out, lend);
    ReadHistory(p, w, q, w', out);
  }

  lemma RecvPool(p: Pool, b: Buf, ps: seq<Parcel>)
    requires RecvOk(p, b, ps)
    ensures PoolOk(p) && ReadOk(p, b)
  {
    hide PoolOk, Apart, ParcelSlots, ParcelsOk, Contents, Offsets;
  }

  /** Setting the fallback flag, or closing the writer, touches no slot. */
  lemma FlagKeeps(s: Sys, i: nat, d: bool, v: Way)
    requires Inv(s) && i < |s.conns| && !s.conns[i].spoilt
    requires v == Side(s.conns[i], d).(writer := v.writer, fellBack := v.fellBack)
    requires Side(s.conns[i], d).fellBack ==> v.fellBack
    ensures Inv(s.(conns := s.conns[i := With(s.conns[i], d, v)]))
  {
    hide PoolOk, Apart, Owned, ParcelSlots, ParcelsOk, Inv, Exchange, WriteOk, RecvOk, Acceptable, HasHeap, IsPinned,
         Available, ParcelBytes;
    var w := Side(s.conns[i], d);
    InvWay(s, i, d);
    ExchangeRefl(s.pool, multiset{});
    assert WaySlots(w) == multiset{} + WaySlots(w) && WaySlots(v) == WaySlots(w);
    WayStep(s, i, d, multiset{}, multiset{}, WaySlots(w), s.pool, v);
  }

  lemma ReleaseKeeps(s: Sys, i: nat, d: bool, q: Pool, w': Way)
    requires Inv(s) && i < |s.conns| && !s.conns[i].spoilt && Releases(s.pool, Side(s.conns[i], d), q, w')
    ensures Inv(Sys(q, s.conns[i := With(s.conns[i], d, w')]))
  {
    hide PoolOk, Apart, Owned, ParcelSlots, ParcelBytes, ParcelsOk, LentOk, Inv, Exchange, InOrder, WriteOk, Unread,
         Intact, History, RecvOk, IsPinned, ReadOk, BufCore;
    var p, w := s.pool, Side(s.conns[i], d);
    var rest := Behind(w) + ParcelSlots(w.pending);
    CoreValid(q, w'.recv);
    assert WaySlots(w) == Owned(w.recv) + rest && WaySlots(w') == Owned(w'.recv) + rest;
    WayStep(s, i, d, Owned(w.recv), Owned(w'.recv), rest, q, w');
    InvWay(s, i, d);
    IntactPart(p.slots, q.slots, rest, Behind(w));
    ApartPart(q, Behind(w), ParcelSlots(w.pending));
    BehindKept(p, w, q);
    IntactPart(p.slots, q.slots, rest, ParcelSlots(w.pending));
    ApartLess(q, WaySlots(w'), Owned(w'.recv) + ParcelSlots(w.pending));
    RecvPool(p, w.recv, w.pending);
    ReleasedRecv(p, w, q, w');
    assert LentOk(q, w') by { NothingLent(q, w'); }
  }

  lemma NothingLent(q: Pool, w: Way)
    requires w.lent == map[]
    ensures LentOk(q, w)
  {
  }

  /** The reader sees the same bytes after a release. */
  lemma ReleasedRecv(p: Pool, w: Way, q: Pool, w': Way)
    requires RecvOk(p, w.recv, w.pending) && InOrder(w) && History(p, w)
    requires Unread(q, w'.recv) == Unread(p, w.recv) && ReadOk(q, w'.recv)
    requires w.recv.isFromShm ==> w'.recv.isFromShm
    requires w' == w.(recv := w'.recv, lent := map[])
    requires Apart(q, Owned(w'.recv) + ParcelSlots(w.pending)) && Intact(p.slots, q.slots, ParcelSlots(w.pending))
    requires ParcelBytes(q.slots, w.flight) == ParcelBytes(p.slots, w.flight)
    ensures RecvOk(q, w'.recv, w'.pending) && InOrder(w') && History(q, w')
  {
    hide Apart, Owned, ParcelSlots, ParcelBytes, ParcelsOk, ReadOk, Unread, HasHeap, Intact;
    ParcelsIntact(p.slots, q.slots, w.pending);
  }

  // ---------- arrivals ----------

  lemma DeliverKeeps(s: Sys, i: nat, d: bool, q: Pool, w': Way)
    requires Inv(s) && i < |s.conns| && !s.conns[i].spoilt && Delivers(s.pool, Side(s.conns[i], d), q, w')
    ensures Inv(Sys(q, s.conns[i := With(s.conns[i], d, w')]))
  {
    hide PoolOk, Apart, Owned, ParcelSlot, Inv, Exchange, WayOk, WaySlots;
    var w := Side(s.conns[i], d);
    InvWay(s, i, d);
    if w.reader {
      ArriveSlots(w, w');
      ExchangeRefl(s.pool, multiset{});
      assert WaySlots(w) == multiset{} + WaySlots(w);
      WayStep(s, i, d, multiset{}, multiset{}, WaySlots(w), q, w');
      ArriveOk(q, w, w');
    } else {
      var rest := WaySlots(w');
      LateSlots(w, w');
      assert WaySlots(w') == multiset{} + rest;
      WayStep(s, i, d, ParcelSlot(w.flight[0]), multiset{}, rest, q, w');
      LateOk(s.pool, w, q, w');
    }
  }

  lemma ArriveSlots(w: Way, w': Way)
    requires w.flight != [] && w' == w.(flight := w.flight[1..], pending := w.pending + [w.flight[0]])
    ensures WaySlots(w') == WaySlots(w)
  {
    hide Owned, ParcelSlot;
    ParcelSlotsAppend(w.pending, [w.flight[0]]);
    ParcelSlotsOne(w.flight[0]);
    assert ParcelSlots(w.flight) == ParcelSlot(w.flight[0]) + ParcelSlots(w.flight[1..]);
  }

  lemma ArriveOk(p: Pool, w: Way, w': Way)
    requires w.flight != [] && w' == w.(flight := w.flight[1..], pending := w.pending + [w.flight[0]])
    requires w.reader && WayOk(p, w) && Apart(p, WaySlots(w'))
    ensures WayOk(p, w')
  {
    hide PoolOk, Apart, Owned, ReadOk, WriteOk, ParcelData, ParcelOk, HasHeap, IsPinned, ParcelSlots, Unread,
         ParcelBytes;
    var x := w.flight[0];
    assert w'.pending + w'.flight == w.pending + w.flight;
    ApartLess(p, WaySlots(w'), Owned(w'.recv) + ParcelSlots(w'.pending));
    ArriveBytes(p, w, w');
    forall k | 0 <= k < |w'.pending| ensures ParcelOk(p.slots, w'.pending[k]) {
      assert k < |w.pending| ==> w'.pending[k] == w.pending[k];
    }
    ArriveFront(w, w');
    SameLent(p, w, w');
  }

  lemma ArriveFront(w: Way, w': Way)
    requires Acceptable(w.recv, w.pending + w.flight) && w'.recv == w.recv
    requires w'.pending + w'.flight == w.pending + w.flight
    ensures Acceptable(w'.recv, w'.pending)
  {
    var a := w.pending + w.flight;
    assert w'.pending == a[..|w'.pending|];
  }

  lemma ArriveBytes(p: Pool, w: Way, w': Way)
    requires w.flight != [] && w' == w.(flight := w.flight[1..], pending := w.pending + [w.flight[0]])
    ensures Available(p, w'.recv, w'.pending) + ParcelBytes(p.slots, w'.flight)
         == Available(p, w.recv, w.pending) + ParcelBytes(p.slots, w.flight)
  {
    hide ParcelData, Unread;
    var x := w.flight[0];
    ParcelBytesAppend(p.slots, w.pending, [x]);
    ParcelBytesOne(p.slots, x);
    var u, a, b, c := Unread(p, w.recv), ParcelBytes(p.slots, w.pending), ParcelData(p.slots, x),
      ParcelBytes(p.slots, w.flight[1..]);
    assert (u + (a + b)) + c == (u + a) + (b + c);
  }

  lemma LateSlots(w: Way, w': Way)
    requires w.flight != [] && w' == w.(flight := w.flight[1..])
    ensures WaySlots(w) == ParcelSlot(w.flight[0]) + WaySlots(w')
  {
    hide Owned, ParcelSlot;
  }

  lemma LateOk(p: Pool, w: Way, q: Pool, w': Way)
    requires w.flight != [] && w' == w.(flight := w.flight[1..]) && !w.reader
    requires WayOk(p, w) && PoolOk(q) && Apart(q, WaySlots(w')) && Intact(p.slots, q.slots, WaySlots(w'))
    ensures WayOk(q, w')
  {
    hide PoolOk, Apart, WaySlots, RecvOk, WriteOk, ParcelOk, IsPinned, Complete, Available, Intact;
    SameLent(p, w, w');
    LateInOrder(w, w');
    WayKept(p, w', q);
  }

  lemma LateInOrder(w: Way, w': Way)
    requires w.flight != [] && w' == w.(flight := w.flight[1..]) && InOrder(w)
    ensures InOrder(w')
  {
    hide HasHeap, ChainsFirst, NoChain;
    var n := |w.pending|;
    var a := w.pending + w.flight;
    assert w'.pending + w'.flight == a[..n] + a[n + 1..];
    OrderWithout(a, n);
  }

  lemma OrderWithout(a: seq<Parcel>, n: nat)
    requires ChainsFirst(a) && n < |a|
    ensures ChainsFirst(a[..n] + a[n + 1..])
    ensures HasHeap(a[..n] + a[n + 1..]) ==> HasHeap(a)
    ensures NoChain(a) ==> NoChain(a[..n] + a[n + 1..])
  {
    var b := a[..n] + a[n + 1..];
    forall k | 0 <= k < |b| ensures b[k] == a[if k < n then k else k + 1] {
    }
    if HasHeap(b) {
      var k :| 0 <= k < |b| && b[k].Heap?;
      assert a[if k < n then k else k + 1].Heap?;
    }
  }

  // ---------- reuse and close ----------

  lemma BeyondKept(p: Pool, v: Way, q: Pool)
    requires WayOk(p, v) && PoolOk(q) && Apart(q, Beyond(v)) && Intact(p.slots, q.slots, Beyond(v))
    ensures RecvOk(q, v.recv, v.pending) && ParcelsOk(q.slots, v.flight) && LentOk(q, v)
    ensures History(q, v)
  {
    hide PoolOk, Apart, Owned, ParcelSlots, ParcelBytes, ParcelsOk, RecvOk, Available, LentOk, WriteOk, Intact, Pins;
    var part := Owned(v.recv) + ParcelSlots(v.pending);
    IntactPart(p.slots, q.slots, Beyond(v), part);
    IntactPart(p.slots, q.slots, Beyond(v), ParcelSlots(v.flight));
    ApartPart(q, part, ParcelSlots(v.flight));
    RecvKept(p, v.recv, v.pending, q);
    ParcelsIntact(p.slots, q.slots, v.flight);
    LentKept(p, v, q, v.recv);
    assert v.(recv := v.recv) == v;
  }

  /** A new send buffer for a direction whose other parts are untouched. */
  lemma NewSend(p: Pool, v: Way, q: Pool, v': Way)
    requires WayOk(p, v) && v' == v.(send := v'.send, draft := v'.draft, writer := v'.writer)
    requires SendOk(q, v'.send, v'.draft)
    requires PoolOk(q) && Apart(q, Beyond(v)) && Intact(p.slots, q.slots, Beyond(v))
    ensures WayOk(q, v')
  {
    hide PoolOk, Apart, Owned, ParcelSlots, ParcelsOk, RecvOk, Available, WriteOk, Intact, Acceptable, HasHeap,
         IsPinned, ParcelBytes, Beyond;
    BeyondKept(p, v, q);
    SameLent(q, v, v');
  }

  lemma ReuseKeeps(s: Sys, i: nat, d: bool, q: Pool, w': Way, v': Way)
    requires Inv(s) && i < |s.conns| && !s.conns[i].spoilt
    requires Reuses(s.pool, Side(s.conns[i], d), Side(s.conns[i], !d), q, w', v')
    ensures Inv(Sys(q, s.conns[i := With(With(s.conns[i], d, w'), !d, v')]))
  {
    hide PoolOk, Apart, Owned, ParcelSlots, ParcelBytes, ParcelsOk, LentOk, Inv, Exchange, InOrder, WriteOk, Unread,
         Intact, History, RecvOk, IsPinned, ReadOk, BufCore;
    var p, w, v := s.pool, Side(s.conns[i], d), Side(s.conns[i], !d);
    var c := With(With(s.conns[i], d, w'), !d, v');
    var own, own2 := Owned(w.recv) + Owned(v.send), Owned(w'.recv) + Owned(v'.send);
    var kept := Behind(w) + ParcelSlots(w.pending);
    SendFacts(q, v'.send);
    CoreValid(q, v'.send);
    ReuseSlots(s.conns[i], d, c);
    ConnStep(s, i, own, own2, kept + Beyond(v), q, c);
    InvWay(s, i, d);
    InvWay(s, i, !d);
    ReuseApart(q, own2, kept, Beyond(v), w', v');
    IntactPart(p.slots, q.slots, kept + Beyond(v), Behind(w));
    IntactPart(p.slots, q.slots, kept + Beyond(v), ParcelSlots(w.pending));
    IntactPart(p.slots, q.slots, kept + Beyond(v), Beyond(v));
    BehindKept(p, w, q);
    ReleasedRecv(p, w, q, w');
    NothingLent(q, w');
    NewSend(p, v, q, v');
  }

  lemma ReuseSlots(c: Conn, d: bool, c': Conn)
    requires Side(c', d) == Side(c, d).(recv := Side(c', d).recv, lent := Side(c', d).lent)
    requires Side(c', !d) == Side(c, !d).(send := Side(c', !d).send, draft := Side(c', !d).draft)
    ensures ConnSlots(c) == (Owned(Side(c, d).recv) + Owned(Side(c, !d).send))
      + (Behind(Side(c, d)) + ParcelSlots(Side(c, d).pending) + Beyond(Side(c, !d)))
    ensures ConnSlots(c') == (Owned(Side(c', d).recv) + Owned(Side(c', !d).send))
      + (Behind(Side(c, d)) + ParcelSlots(Side(c, d).pending) + Beyond(Side(c, !d)))
  {
    hide Owned, ParcelSlots;
  }

  lemma ReuseApart(q: Pool, own2: multiset<nat>, kept: multiset<nat>, beyond: multiset<nat>, w': Way, v': Way)
    requires Apart(q, own2 + (kept + beyond)) && own2 == Owned(w'.recv) + Owned(v'.send)
    requires kept == Behind(w') + ParcelSlots(w'.pending)
    ensures Apart(q, beyond) && Apart(q, Behind(w')) && Apart(q, Owned(w'.recv) + ParcelSlots(w'.pending))
  {
    hide Owned, ParcelSlots, Apart, Behind;
    var all := own2 + (kept + beyond);
    ApartLess(q, all, beyond);
    ApartLess(q, all, Behind(w'));
    ApartLess(q, all, Owned(w'.recv) + ParcelSlots(w'.pending));
  }

  /** A cleaned buffer is good for reading and for writing, whatever is still pinned in it. */
  lemma CleanedOk(p: Pool, b: Buf, q: Pool)
    requires BufCore(p, b) && PoolOk(q) && Apart(q, Owned(Cleaned(b)))
    requires forall o :: o in p.slots ==> o in q.slots && |q.slots[o].data| == |p.slots[o].data|
    ensures WriteOk(q, Cleaned(b)) && ReadOk(q, Cleaned(b)) && Unread(q, Cleaned(b)) == []
    ensures Cleaned(b).pinned == b.pinned
  {
    hide PoolOk, Apart, Offsets;
    forall k | 0 <= k < |b.pinned| ensures SliceOk(q.slots, b.pinned[k]) {
      assert SliceOk(p.slots, b.pinned[k]);
    }
  }

  lemma CloseKeeps(s: Sys, i: nat, d: bool, q: Pool, w': Way, v': Way)
    requires Inv(s) && i < |s.conns| && !s.conns[i].spoilt
    requires Closes(s.pool, Side(s.conns[i], d), Side(s.conns[i], !d), q, w', v')
    ensures Inv(Sys(q, s.conns[i := With(With(s.conns[i], d, w'), !d, v')]))
  {
    hide PoolOk, Apart, Owned, ParcelSlots, ParcelBytes, ParcelsOk, LentOk, Inv, InOrder, WriteOk, Unread, Intact,
         History, RecvOk, IsPinned, ReadOk, BufCore, Cleaned, Exchange;
    var p, w, v := s.pool, Side(s.conns[i], d), Side(s.conns[i], !d);
    var c := With(With(s.conns[i], d, w'), !d, v');
    var own := Owned(w.recv) + ParcelSlots(w.pending) + Owned(v.send);
    var own2 := Owned(w'.recv) + Owned(v'.send);
    CloseSlots(s.conns[i], d, c);
    ConnStep(s, i, own, own2, Behind(w) + Beyond(v), q, c);
    InvWay(s, i, d);
    InvWay(s, i, !d);
    CloseApart(q, own2, w, v, w', v');
    IntactPart(p.slots, q.slots, Behind(w) + Beyond(v), Behind(w));
    IntactPart(p.slots, q.slots, Behind(w) + Beyond(v), Beyond(v));
    BehindKept(p, w, q);
    ClosedEnd(p, w, v, own, q, own2);
    ClosedRecv(q, w, w');
    NewSend(p, v, q, v');
  }

  lemma CloseSlots(c: Conn, d: bool, c': Conn)
    requires Side(c', d) == Side(c, d).(recv := Side(c', d).recv, pending := [], reader := false,
      lent := Side(c', d).lent)
    requires Side(c', !d) == Side(c, !d).(send := Side(c', !d).send, draft := [], writer := false)
    ensures ConnSlots(c) == (Owned(Side(c, d).recv) + ParcelSlots(Side(c, d).pending) + Owned(Side(c, !d).send))
      + (Behind(Side(c, d)) + Beyond(Side(c, !d)))
    ensures ConnSlots(c') == (Owned(Side(c', d).recv) + Owned(Side(c', !d).send))
      + (Behind(Side(c, d)) + Beyond(Side(c, !d)))
  {
    hide Owned, ParcelSlots;
    NoParcels();
  }

  lemma NoParcels()
    ensures ParcelSlots([]) == multiset{}
  {
  }

  lemma CloseApart(q: Pool, own2: multiset<nat>, w: Way, v: Way, w': Way, v': Way)
    requires own2 == Owned(w'.recv) + Owned(v'.send) && Apart(q, own2 + (Behind(w) + Beyond(v)))
    ensures Apart(q, Behind(w)) && Apart(q, Beyond(v)) && Apart(q, Owned(w'.recv)) && Apart(q, Owned(v'.send))
  {
    hide Owned, ParcelSlots, Apart, Behind, Beyond;
    ApartPart(q, own2, Behind(w) + Beyond(v));
    ApartPart(q, Behind(w), Beyond(v));
    ApartPart(q, Owned(w'.recv), Owned(v'.send));
  }

  lemma ClosedEnd(p: Pool, w: Way, v: Way, own: multiset<nat>, q: Pool, own2: multiset<nat>)
    requires WayOk(p, w) && WayOk(p, v) && PoolOk(q) && Exchange(p, own, q, own2)
    requires Apart(q, Owned(Cleaned(w.recv))) && Apart(q, Owned(Cleaned(v.send)))
    ensures ReadOk(q, Cleaned(w.recv)) && SendOk(q, Cleaned(v.send), []) && Unread(q, Cleaned(w.recv)) == []
    ensures w.read <= w.flushed
  {
    hide PoolOk, Apart, Owned, ParcelSlots, ParcelBytes, ParcelsOk, LentOk, InOrder, Available, Cleaned, AllUnsent,
         AllEmpty, BufCore;
    CleanedOk(p, w.recv, q);
    CleanedOk(p, v.send, q);
  }

  lemma ClosedRecv(q: Pool, w: Way, w': Way)
    requires w' == w.(recv := Cleaned(w.recv), pending := [], reader := false, lent := map[]) && InOrder(w)
    requires SendOk(q, w.send, w.draft) && ReadOk(q, Cleaned(w.recv)) && ParcelsOk(q.slots, w.flight)
    requires Apart(q, Owned(w'.recv)) && Unread(q, Cleaned(w.recv)) == [] && w.read <= w.flushed
    ensures WayOk(q, w')
  {
    hide PoolOk, Apart, Owned, ReadOk, WriteOk, ParcelOk, InOrder, LentOk, Cleaned;
    ClosedInOrder(w, w');
    NothingLent(q, w');
    assert ParcelSlots([]) == multiset{} && Owned(w'.recv) + multiset{} == Owned(w'.recv);
  }

  lemma ClosedInOrder(w: Way, w': Way)
    requires w' == w.(recv := Cleaned(w.recv), pending := [], reader := false, lent := map[]) && InOrder(w)
    ensures InOrder(w')
  {
    hide HasHeap, ChainsFirst, NoChain;
    var a, n := w.pending + w.flight, |w.pending|;
    assert w'.pending + w'.flight == a[n..];
    OrderTail(a, n);
  }

  // ---------- every step, every run ----------

  /** Every step of a connection that is not spoilt keeps the invariant, if it does not spoil it. */
  lemma SoundStep(s: Sys, i: nat, d: bool, a: Action, t: Sys)
    requires Inv(s) && Step(s, i, d, a, t) && !t.conns[i].spoilt
    ensures Inv(t)
  {
    hide Inv, SendOk, RecvOk, ParcelsOk, InOrder, LentOk, History, PoolOk, Writes, Fills, Queues, Frames, Drops, Loses,
         WriteOk, Exchange, Owned, Delivers, Reads, Releases, Reuses, Closes, HasHeap, Swaps;
    var c, c', q := s.conns[i], t.conns[i], t.pool;
    var w, v, w', v' := Side(c, d), Side(c, !d), Side(c', d), Side(c', !d);
    assert c' == With(With(c, d, w'), !d, v');
    assert t == Sys(q, s.conns[i := c']);
    InvWay(s, i, d);
    match a {
      case Write(data) =>
        SendOnly(s.pool, w, q, w', data, 0);
        WriteKeeps(s, i, d, q, w');
      case Fill(at, bytes) =>
        SendOnly(s.pool, w, q, w', bytes, at);
        WriteKeeps(s, i, d, q, w');
      case Queue(ch) => QueueKeeps(s, i, d, q, w', ch);
      case Frame => FrameKeeps(s, i, d, q, w');
      case Drop =>
        SendOnly(s.pool, w, q, w', [], 0);
        WriteKeeps(s, i, d, q, w');
      case Lose => LoseKeeps(s, i, d, q, w');
      case Deliver => DeliverKeeps(s, i, d, q, w');
      case Read(out, lend) =>
        ReadKeeps(s, i, d, q, w', out, lend);
        var u := Sys(q, s.conns[i := With(c, d, w')]);
        FlagKeeps(u, i, !d, v');
        assert t.conns == u.conns[i := With(u.conns[i], !d, v')];
      case Release => ReleaseKeeps(s, i, d, q, w');
      case Reuse(_) => ReuseKeeps(s, i, d, q, w', v');
      case Close => CloseKeeps(s, i, d, q, w', v');
      case HalfClose => FlagKeeps(s, i, d, w');
    }
  }

  /** Losing what was written is dropping it and falling back. */
  lemma LoseKeeps(s: Sys, i: nat, d: bool, q: Pool, w': Way)
    requires Inv(s) && i < |s.conns| && !s.conns[i].spoilt && Loses(s.pool, Side(s.conns[i], d), q, w')
    ensures Inv(Sys(q, s.conns[i := With(s.conns[i], d, w')]))
  {
    hide Inv, SendOk, RecvOk, ParcelsOk, InOrder, LentOk, History, PoolOk, Drops, WriteOk, Exchange, Owned;
    var c := s.conns[i];
    var w := Side(c, d);
    var u := w'.(fellBack := w.fellBack);
    InvWay(s, i, d);
    SendOnly(s.pool, w, q, u, [], 0);
    WriteKeeps(s, i, d, q, u);
    var t := Sys(q, s.conns[i := With(c, d, u)]);
    FlagKeeps(t, i, d, w');
    assert t.conns[i := With(t.conns[i], d, w')] == s.conns[i := With(c, d, w')];
  }

  datatype Move = Move(i: nat, d: bool, a: Action)

  function FreshBuf(): Buf
  {
    Buf([], -1, [], false, true, 0)
  }

  function FreshWay(): Way
  {
    Way(FreshBuf(), [], [], FreshBuf(), true, true, false, [], [], [], map[])
  }

  ghost predicate Init(s: Sys)
  {
    && PoolOk(s.pool) && FreeSlots(s.pool.free) == multiset(s.pool.slots.Keys)
    && forall i :: 0 <= i < |s.conns| ==> s.conns[i] == Conn(FreshWay(), FreshWay(), false)
  }

  ghost predicate Run(tr: seq<Sys>, ms: seq<Move>)
  {
    && |tr| == |ms| + 1 && Init(tr[0])
    && forall k :: 0 <= k < |ms| ==> Step(tr[k], ms[k].i, ms[k].d, ms[k].a, tr[k + 1])
  }

  lemma FreshOk(p: Pool)
    requires PoolOk(p) && FreeSlots(p.free) == multiset(p.slots.Keys)
    ensures WayOk(p, FreshWay()) && WaySlots(FreshWay()) == multiset{}
  {
    hide PoolOk, FreeSlots;
  }

  lemma {:induction false} NothingHeld(cs: seq<Conn>)
    requires forall i :: 0 <= i < |cs| ==> ConnSlots(cs[i]) == multiset{}
    ensures Held(cs) == multiset{}
  {
    hide ConnSlots;
    if cs != [] {
      assert ConnSlots(cs[0]) == multiset{};
      forall i | 0 <= i < |cs[1..]| ensures ConnSlots(cs[1..][i]) == multiset{} {
        assert cs[1..][i] == cs[i + 1];
      }
      NothingHeld(cs[1..]);
    }
  }

  lemma InitOk(s: Sys)
    requires Init(s)
    ensures Inv(s)
  {
    hide PoolOk, FreeSlots, WayOk, WaySlots, Held, FreshWay;
    FreshOk(s.pool);
    forall i | 0 <= i < |s.conns| ensures ConnSlots(s.conns[i]) == multiset{} {
      assert s.conns[i] == Conn(FreshWay(), FreshWay(), false);
    }
    NothingHeld(s.conns);
  }

  /** The smallest memory: one class of one slot, one connection. */
  lemma InitExists() returns (s: Sys)
    ensures Init(s) && |s.conns| == 1
  {
    var p := Pool([1], [[0]], map[0 := Slot(0, 0, 0, false, false, [0])]);
    s := Sys(p, [Conn(FreshWay(), FreshWay(), false)]);
    assert FreeSlots(p.free) == multiset([0]) + FreeSlots([]) by { assert p.free[1..] == []; }
    assert p.slots.Keys == {0};
    assert FreeSlotOk(p, 0, 0);
    assert IsCap(p.caps, 1) by { assert p.caps[0] == 1; }
  }

  // ---------- every step is a trade of slots ----------

  /** One connection gives the slots `own` for `own2` and keeps `rest`. */
  ghost predicate Trades(p: Pool, c: Conn, q: Pool, c': Conn, own: multiset<nat>, own2: multiset<nat>,
                         rest: multiset<nat>)
  {
    && ConnSlots(c) == own + rest && ConnSlots(c') == own2 + rest
    && Exchange(p, own, q, own2) && PoolOk(q)
  }

  /** A step of the writer trades the slots of its send buffer. */
  lemma SendTrades(p: Pool, c: Conn, d: bool, q: Pool, c': Conn, own2: multiset<nat>)
    requires Exchange(p, Owned(Side(c, d).send), q, own2) && PoolOk(q) && Side(c', !d) == Side(c, !d)
    requires WaySlots(Side(c', d)) == own2 + Beyond(Side(c, d))
    ensures Trades(p, c, q, c', Owned(Side(c, d).send), own2, Beyond(Side(c, d)) + WaySlots(Side(c, !d)))
  {
    hide PoolOk, Exchange, Owned, ParcelSlots;
  }

  /** A step of the reader trades the slots of its receive buffer and of what waits. */
  lemma RecvTrades(p: Pool, c: Conn, d: bool, q: Pool, c': Conn, own: multiset<nat>, own2: multiset<nat>,
                   rest: multiset<nat>)
    requires Exchange(p, own, q, own2) && PoolOk(q) && WaySlots(Side(c', !d)) == WaySlots(Side(c, !d))
    requires WaySlots(Side(c, d)) == own + rest && WaySlots(Side(c', d)) == own2 + rest
    ensures Trades(p, c, q, c', own, own2, rest + WaySlots(Side(c, !d)))
  {
    hide PoolOk, Exchange, WaySlots;
  }

  /** Every step is a trade between one connection and the free lists. */
  lemma StepTrades(p: Pool, c: Conn, d: bool, a: Action, q: Pool, c': Conn)
    returns (own: multiset<nat>, own2: multiset<nat>, rest: multiset<nat>)
    requires PoolOk(p) && StepOn(p, c, d, a, q, c')
    ensures Trades(p, c, q, c', own, own2, rest)
  {
    hide PoolOk, Exchange, Owned, ParcelSlots, Trades, WriteOk, Writes, Fills, Queues, Frames, Drops, Delivers, Reads,
         Releases, Swaps, Closes, HasHeap, Beyond, Behind, WaySlots, ReadOk, Unread;
    var w, v, w', v' := Side(c, d), Side(c, !d), Side(c', d), Side(c', !d);
    rest := WaySlots(v) + WaySlots(w);
    match a {
      case Write(data) => own, own2, rest := WriteTrades(p, c, d, q, c', data, 0);
      case Fill(at, bytes) => own, own2, rest := WriteTrades(p, c, d, q, c', bytes, at);
      case Drop => own, own2, rest := WriteTrades(p, c, d, q, c', [], 0);
      case Lose => own, own2, rest := WriteTrades(p, c, d, q, c', [], 0);
      case Queue(ch) => own, own2, rest := QueueTrades(p, c, d, q, c', ch);
      case Frame => own, own2, rest := FrameTrades(p, c, d, q, c');
      case Deliver => own, own2, rest := DeliverTrades(p, c, d, q, c');
      case Read(out, lend) => own, own2, rest := ReadTrades(p, c, d, q, c', out, lend);
      case Release => own, own2, rest := ReleaseTrades(p, c, d, q, c');
      case Reuse(_) => own, own2, rest := SwapTrades(p, c, d, q, c');
      case Close => own, own2, rest := CloseTrades(p, c, d, q, c');
      case HalfClose => own, own2, rest := FlagTrades(p, c, d, c');
    }
  }

  lemma WriteTrades(p: Pool, c: Conn, d: bool, q: Pool, c': Conn, data: seq<byte>, at: nat)
    returns (own: multiset<nat>, own2: multiset<nat>, rest: multiset<nat>)
    requires Side(c', !d) == Side(c, !d)
    requires var w, w' := Side(c, d), Side(c', d);
      Writes(p, w, q, w', data) || Fills(p, w, q, w', at, data) || Drops(p, w, q, w') || Loses(p, w, q, w')
    ensures Trades(p, c, q, c', own, own2, rest)
  {
    hide PoolOk, Exchange, Owned, ParcelSlots, Trades, AllUnsent, AllEmpty, Contents, Overwrite, Apart;
    var w, w' := Side(c, d), Side(c', d);
    CoreValid(q, w'.send);
    assert WaySlots(w') == Owned(w'.send) + Beyond(w);
    own, own2, rest := Owned(w.send), Owned(w'.send), Beyond(w) + WaySlots(Side(c, !d));
    SendTrades(p, c, d, q, c', own2);
  }

  lemma QueueTrades(p: Pool, c: Conn, d: bool, q: Pool, c': Conn, ch: seq<nat>)
    returns (own: multiset<nat>, own2: multiset<nat>, rest: multiset<nat>)
    requires Side(c', !d) == Side(c, !d) && Queues(p, Side(c, d), q, Side(c', d), ch)
    ensures Trades(p, c, q, c', own, own2, rest)
  {
    hide PoolOk, Exchange, Owned, ParcelSlots, Trades, WriteOk, IsChain, ChainBytes, Unread, Cleaned, Beyond, WaySlots;
    var w, w' := Side(c, d), Side(c', d);
    Emptied(q, w.send);
    QueuedSlots(w, w', ch);
    own, own2, rest := Owned(w.send), Owned(w'.send) + multiset(ch), Beyond(w) + WaySlots(Side(c, !d));
    SendTrades(p, c, d, q, c', own2);
  }

  lemma FrameTrades(p: Pool, c: Conn, d: bool, q: Pool, c': Conn)
    returns (own: multiset<nat>, own2: multiset<nat>, rest: multiset<nat>)
    requires Side(c', !d) == Side(c, !d) && Frames(p, Side(c, d), q, Side(c', d))
    ensures Trades(p, c, q, c', own, own2, rest)
  {
    hide PoolOk, Exchange, Owned, ParcelSlots, Trades, WriteOk, Unread, Cleaned, Beyond, WaySlots;
    var w, w' := Side(c, d), Side(c', d);
    Emptied(q, w.send);
    FramedSlots(w, w', Unread(p, w.send));
    own, own2, rest := Owned(w.send), Owned(w'.send), Beyond(w) + WaySlots(Side(c, !d));
    SendTrades(p, c, d, q, c', own2);
  }

  lemma DeliverTrades(p: Pool, c: Conn, d: bool, q: Pool, c': Conn)
    returns (own: multiset<nat>, own2: multiset<nat>, rest: multiset<nat>)
    requires PoolOk(p) && Side(c', !d) == Side(c, !d) && Delivers(p, Side(c, d), q, Side(c', d))
    ensures Trades(p, c, q, c', own, own2, rest)
  {
    hide PoolOk, Exchange, Owned, ParcelSlot, ParcelSlots, Trades, WaySlots;
    var w, w' := Side(c, d), Side(c', d);
    own, own2, rest := if w.reader then multiset{} else ParcelSlot(w.flight[0]), multiset{}, WaySlots(w');
    if w.reader {
      ArriveSlots(w, w');
      ExchangeRefl(p, multiset{});
    } else {
      LateSlots(w, w');
    }
    assert own2 + rest == rest && (w.reader ==> own + rest == rest);
    RecvTrades(p, c, d, q, c', own, own2, rest);
    rest := rest + WaySlots(Side(c, !d));
  }

  lemma ReadTrades(p: Pool, c: Conn, d: bool, q: Pool, c': Conn, out: seq<byte>, lend: Option<nat>)
    returns (own: multiset<nat>, own2: multiset<nat>, rest: multiset<nat>)
    requires var w, w' := Side(c, d), Side(c', d);
      Reads(p, w, q, w', out, lend) && Side(c', !d) == FellBackToo(w, w', Side(c, !d))
    ensures Trades(p, c, q, c', own, own2, rest)
  {
    hide PoolOk, Exchange, Owned, ParcelSlots, Trades, RecvOk, Available, HasHeap, IsPinned, Pins, Arrived;
    var w, w' := Side(c, d), Side(c', d);
    RecvPool(q, w'.recv, w'.pending);
    own, own2 := Owned(w.recv) + ParcelSlots(w.pending), Owned(w'.recv) + ParcelSlots(w'.pending);
    assert WaySlots(w) == own + Behind(w) && WaySlots(w') == own2 + Behind(w);
    RecvTrades(p, c, d, q, c', own, own2, Behind(w));
    rest := Behind(w) + WaySlots(Side(c, !d));
  }

  lemma ReleaseTrades(p: Pool, c: Conn, d: bool, q: Pool, c': Conn)
    returns (own: multiset<nat>, own2: multiset<nat>, rest: multiset<nat>)
    requires Side(c', !d) == Side(c, !d) && Releases(p, Side(c, d), q, Side(c', d))
    ensures Trades(p, c, q, c', own, own2, rest)
  {
    hide PoolOk, Exchange, Owned, ParcelSlots, Trades, ReadOk, BufCore, Unread;
    var w, w' := Side(c, d), Side(c', d);
    CoreValid(q, w'.recv);
    own, own2 := Owned(w.recv), Owned(w'.recv);
    rest := Behind(w) + ParcelSlots(w.pending);
    assert WaySlots(w) == own + rest && WaySlots(w') == own2 + rest;
    RecvTrades(p, c, d, q, c', own, own2, rest);
    rest := rest + WaySlots(Side(c, !d));
  }

  lemma SwapTrades(p: Pool, c: Conn, d: bool, q: Pool, c': Conn)
    returns (own: multiset<nat>, own2: multiset<nat>, rest: multiset<nat>)
    requires Swaps(p, Side(c, d), Side(c, !d), q, Side(c', d), Side(c', !d))
    ensures Trades(p, c, q, c', own, own2, rest)
  {
    hide PoolOk, Exchange, Owned, ParcelSlots, WriteOk, ConnSlots, Behind, Beyond;
    var w, v, w', v' := Side(c, d), Side(c, !d), Side(c', d), Side(c', !d);
    SendFacts(q, v'.send);
    CoreValid(q, v'.send);
    ReuseSlots(c, d, c');
    own, own2 := Owned(w.recv) + Owned(v.send), Owned(w'.recv) + Owned(v'.send);
    rest := Behind(w) + ParcelSlots(w.pending) + Beyond(v);
  }

  lemma CloseTrades(p: Pool, c: Conn, d: bool, q: Pool, c': Conn)
    returns (own: multiset<nat>, own2: multiset<nat>, rest: multiset<nat>)
    requires Closes(p, Side(c, d), Side(c, !d), q, Side(c', d), Side(c', !d))
    ensures Trades(p, c, q, c', own, own2, rest)
  {
    hide PoolOk, Exchange, Owned, ParcelSlots, Cleaned, ConnSlots, Behind, Beyond;
    var w, v, w', v' := Side(c, d), Side(c, !d), Side(c', d), Side(c', !d);
    CloseSlots(c, d, c');
    own := Owned(w.recv) + ParcelSlots(w.pending) + Owned(v.send);
    own2 := Owned(w'.recv) + Owned(v'.send);
    rest := Behind(w) + Beyond(v);
  }

  lemma FlagTrades(p: Pool, c: Conn, d: bool, c': Conn)
    returns (own: multiset<nat>, own2: multiset<nat>, rest: multiset<nat>)
    requires PoolOk(p) && Side(c', !d) == Side(c, !d) && Side(c', d) == Side(c, d).(writer := false)
    ensures Trades(p, c, p, c', own, own2, rest)
  {
    hide PoolOk, Exchange, Owned, ParcelSlots;
    ExchangeRefl(p, multiset{});
    own, own2, rest := multiset{}, multiset{}, ConnSlots(c);
  }

  /** Every step keeps the invariant. A spoilt connection still trades its slots fairly. */
  lemma StepKeeps(s: Sys, i: nat, d: bool, a: Action, t: Sys)
    requires Inv(s) && Step(s, i, d, a, t)
    ensures Inv(t)
  {
    hide Inv, StepOn, PoolOk, ConnSlots, Exchange, Trades;
    if t.conns[i].spoilt {
      InvPool(s);
      var own, own2, rest := StepTrades(s.pool, s.conns[i], d, a, t.pool, t.conns[i]);
      SpoiltStep(s, i, own, own2, rest, t);
    } else {
      SoundStep(s, i, d, a, t);
    }
  }

  lemma InvPool(s: Sys)
    requires Inv(s)
    ensures PoolOk(s.pool) && Balanced(s)
  {
  }

  lemma SpoiltStep(s: Sys, i: nat, own: multiset<nat>, own2: multiset<nat>, rest: multiset<nat>, t: Sys)
    requires Inv(s) && i < |s.conns| == |t.conns| && t.conns == s.conns[i := t.conns[i]] && t.conns[i].spoilt
    requires Trades(s.pool, s.conns[i], t.pool, t.conns[i], own, own2, rest)
    ensures Inv(t)
  {
    hide Inv, PoolOk, ConnSlots, Exchange, WayOk;
    ConnStep(s, i, own, own2, rest, t.pool, t.conns[i]);
    assert t == Sys(t.pool, s.conns[i := t.conns[i]]);
  }

  lemma {:induction false} RunKeeps(tr: seq<Sys>, ms: seq<Move>, k: nat)
    requires Run(tr, ms) && k < |tr|
    ensures Inv(tr[k])
  {
    hide Inv, Init, Step;
    if k == 0 {
      InitOk(tr[0]);
    } else {
      RunKeeps(tr, ms, k - 1);
      StepKeeps(tr[k - 1], ms[k - 1].i, ms[k - 1].d, ms[k - 1].a, tr[k]);
    }
  }

  /**
   Slot ownership: in every reachable state each slot is either free, once, or held in exactly one
   place by exactly one connection, whatever was in the send buffers that were swapped.
   */
  lemma OnePlace(tr: seq<Sys>, ms: seq<Move>, k: nat, o: nat)
    requires Run(tr, ms) && k < |tr| && o in tr[k].pool.slots
    ensures var s := tr[k];
      && FreeSlots(s.pool.free)[o] + Held(s.conns)[o] == 1
      && (forall i :: 0 <= i < |s.conns| && o in ConnSlots(s.conns[i]) ==>
            o !in FreeSlots(s.pool.free) && ConnSlots(s.conns[i])[o] == 1)
      && (forall i, j :: 0 <= i < j < |s.conns| && o in ConnSlots(s.conns[i]) ==> o !in ConnSlots(s.conns[j]))
  {
    hide PoolOk, ConnSlots, Held, Run, FreeSlots, WayOk;
    var s := tr[k];
    RunKeeps(tr, ms, k);
    assert (FreeSlots(s.pool.free) + Held(s.conns))[o] == 1;
    forall i | 0 <= i < |s.conns| && o in ConnSlots(s.conns[i])
      ensures o !in FreeSlots(s.pool.free) && ConnSlots(s.conns[i])[o] == 1
    {
      HeldSplit(s.conns, i);
    }
    forall i, j | 0 <= i < j < |s.conns| && o in ConnSlots(s.conns[i]) ensures o !in ConnSlots(s.conns[j]) {
      HeldSplit(s.conns, i);
      HeldOther(s.conns, i, j);
    }
  }

  /** No ReleaseReadAndReuse on the connection has put a written send buffer into a reader's place. */
  ghost predicate Unspoilt(ms: seq<Move>, k: nat, i: nat)
    requires k <= |ms|
  {
    forall j :: 0 <= j < k ==> !(ms[j].i == i && ms[j].a == Reuse(false))
  }

  /** Move `j` made a send buffer with bytes in it the receive buffer of the same end. */
  ghost predicate SpoiltBy(tr: seq<Sys>, ms: seq<Move>, j: nat, i: nat)
  {
    && j < |ms| && j + 1 < |tr| && i < |tr[j].conns| == |tr[j + 1].conns| && ms[j].i == i && ms[j].a == Reuse(false)
    && Side(tr[j].conns[i], !ms[j].d).send.len > 0
    && Side(tr[j + 1].conns[i], ms[j].d).recv == Side(tr[j].conns[i], !ms[j].d).send
  }

  lemma {:induction false} SpoiltIs(tr: seq<Sys>, ms: seq<Move>, k: nat, i: nat)
    requires Run(tr, ms) && k < |tr| && i < |tr[k].conns|
    ensures tr[k].conns[i].spoilt <==> !Unspoilt(ms, k, i)
    ensures tr[k].conns[i].spoilt ==> exists j :: 0 <= j < k && SpoiltBy(tr, ms, j, i)
  {
    hide StepOn;
    if k > 0 {
      var m := ms[k - 1];
      assert Step(tr[k - 1], m.i, m.d, m.a, tr[k]);
      SpoiltIs(tr, ms, k - 1, i);
      if m.i == i {
        SpoiltStepOn(tr[k - 1].pool, tr[k - 1].conns[i], m.d, m.a, tr[k].pool, tr[k].conns[i]);
        if tr[k].conns[i].spoilt && !tr[k - 1].conns[i].spoilt {
          assert SpoiltBy(tr, ms, k - 1, i);
        }
      }
    }
  }

  lemma SpoiltStepOn(p: Pool, c: Conn, d: bool, a: Action, q: Pool, c': Conn)
    requires StepOn(p, c, d, a, q, c')
    ensures c'.spoilt == (c.spoilt || a == Reuse(false))
    ensures c'.spoilt && !c.spoilt ==> Side(c, !d).send.len > 0 && Side(c', d).recv == Side(c, !d).send
  {
    hide Writes, Fills, Queues, Frames, Drops, Loses, Delivers, Reads, Releases, Reuses, Closes, Swaps, FellBackToo,
         PoolOk;
  }

  /**
   End to end, on every connection that was not spoilt, whatever happens on others: what was read is
   a prefix of what was flushed. As long as the reader's end is open, the rest of it is what is
   waiting followed by what is on its way.
   */
  lemma EndToEnd(tr: seq<Sys>, ms: seq<Move>, k: nat, i: nat, d: bool)
    requires Run(tr, ms) && k < |tr| && i < |tr[k].conns| && Unspoilt(ms, k, i)
    ensures var p, w := tr[k].pool, Side(tr[k].conns[i], d);
      && Unread(p, w.send) == w.draft && w.read <= w.flushed
      && (w.reader ==>
            w.flushed[|w.read|..] == Available(p, w.recv, w.pending) + ParcelBytes(p.slots, w.flight))
      && (w.reader ==> (w.read == w.flushed <==> w.recv.len == 0 && w.pending == [] && w.flight == []))
      && (!w.reader ==> Available(p, w.recv, w.pending) == [])
  {
    hide PoolOk, WriteOk, RecvOk, ParcelsOk, InOrder, LentOk, Available, ParcelBytes, Init, Step, Balanced, Unspoilt;
    RunKeeps(tr, ms, k);
    SpoiltIs(tr, ms, k, i);
    NothingLeft(tr[k].pool, Side(tr[k].conns[i], d));
  }

  lemma NothingLeft(p: Pool, w: Way)
    requires RecvOk(p, w.recv, w.pending) && ParcelsOk(p.slots, w.flight)
    ensures Available(p, w.recv, w.pending) + ParcelBytes(p.slots, w.flight) == []
      <==> w.recv.len == 0 && w.pending == [] && w.flight == []
  {
    hide PoolOk, Apart, Contents, Owned, ParcelData, ParcelSlots, BufCore;
    if w.pending != [] {
      assert ParcelOk(p.slots, w.pending[0]);
    }
    if w.flight != [] {
      assert ParcelOk(p.slots, w.flight[0]);
    }
  }

  // ---------- lent windows ----------

  /** The calls with which the reader's caller gives its windows back. */
  predicate GivesBack(m: Move, i: nat, d: bool)
  {
    m.i == i && m.d == d && (m.a.Release? || m.a.Reuse? || m.a.Close?)
  }

  /** Only a read of the same direction adds to what is lent, and only the calls above take from it. */
  lemma LentSame(p: Pool, c: Conn, d: bool, a: Action, q: Pool, c': Conn, e: bool)
    requires StepOn(p, c, d, a, q, c')
    requires !(d == e && (a.Read? || a.Release? || a.Reuse? || a.Close?))
    ensures Side(c', e).lent == Side(c, e).lent
  {
    hide Wrote, Patched, HandedOver, GaveBack, Delivered, Kept, Exchange, WriteOk, ReadOk, Overwrite, PoolOk, HasHeap,
         Unread, Cleaned, IsPinned;
  }

  lemma LentStays(s: Sys, m: Move, t: Sys, i: nat, d: bool, o: nat)
    requires Step(s, m.i, m.d, m.a, t) && Inv(s) && i < |s.conns| && !s.conns[i].spoilt && !GivesBack(m, i, d)
    requires o in Side(s.conns[i], d).lent
    ensures i < |t.conns| && o in Side(t.conns[i], d).lent
    ensures Side(t.conns[i], d).lent[o] == Side(s.conns[i], d).lent[o]
  {
    hide Inv, StepOn;
    if m.i == i {
      if m.d == d && m.a.Read? {
        ReadLends(s, m, t, i, d, o);
      } else {
        LentSame(s.pool, s.conns[i], m.d, m.a, t.pool, t.conns[i], d);
      }
    }
  }

  lemma ReadLends(s: Sys, m: Move, t: Sys, i: nat, d: bool, o: nat)
    requires Step(s, m.i, m.d, m.a, t) && Inv(s) && m.i == i < |s.conns| && !s.conns[i].spoilt && m.d == d && m.a.Read?
    requires o in Side(s.conns[i], d).lent
    ensures i < |t.conns| && o in Side(t.conns[i], d).lent
    ensures Side(t.conns[i], d).lent[o] == Side(s.conns[i], d).lent[o]
  {
    hide Delivered, Inv, HasHeap, IsPinned, LentOk, SendOk, RecvOk, ParcelsOk, InOrder, History;
    var w, w' := Side(s.conns[i], d), Side(t.conns[i], d);
    InvWay(s, i, d);
    if m.a.lend == Some(o) {
      PinnedData(s.pool, w, t.pool, w', m.a.out, o);
    }
  }

  lemma PinnedData(p: Pool, w: Way, q: Pool, w': Way, out: seq<byte>, o: nat)
    requires LentOk(p, w) && o in w.lent && Delivered(p, w.recv, w.pending, q, w'.recv, w'.pending, out)
    ensures o in q.slots && q.slots[o].data == w.lent[o]
  {
    hide RecvOk, Exchange, Available, Arrived, IsPinned;
  }

  /**
   Zero-copy reads: from the read that lent a slot until its caller gives the windows back, the
   slot is not free, no other connection holds it and its bytes do not change.
   */
  lemma {:induction false} WindowsStable(tr: seq<Sys>, ms: seq<Move>, k: nat, m: nat, i: nat, d: bool, o: nat)
    requires Run(tr, ms) && k <= m < |tr| && i < |tr[k].conns| && o in Side(tr[k].conns[i], d).lent
    requires (forall j :: k <= j < m ==> !GivesBack(ms[j], i, d)) && Unspoilt(ms, m, i)
    ensures o in tr[k].pool.slots && o in tr[m].pool.slots && tr[m].pool.slots[o].data == tr[k].pool.slots[o].data
    ensures o !in FreeSlots(tr[m].pool.free) && i < |tr[m].conns| && IsPinned(Side(tr[m].conns[i], d).recv, o)
    ensures o in Side(tr[m].conns[i], d).lent && Side(tr[m].conns[i], d).lent[o] == Side(tr[k].conns[i], d).lent[o]
    decreases m - k
  {
    hide Init, Step, Inv, WayOk, FreeSlots, Held, IsPinned, GivesBack;
    RunKeeps(tr, ms, k);
    RunKeeps(tr, ms, m);
    SameConns(tr, ms, k, m);
    SpoiltIs(tr, ms, k, i);
    SpoiltIs(tr, ms, m, i);
    LentNow(tr[k], i, d, o);
    if k < m {
      WindowsStable(tr, ms, k, m - 1, i, d, o);
      RunKeeps(tr, ms, m - 1);
      SpoiltIs(tr, ms, m - 1, i);
      LentStays(tr[m - 1], ms[m - 1], tr[m], i, d, o);
      LentNow(tr[m], i, d, o);
    }
  }

  lemma {:induction false} SameConns(tr: seq<Sys>, ms: seq<Move>, k: nat, m: nat)
    requires Run(tr, ms) && k <= m < |tr|
    ensures |tr[k].conns| == |tr[m].conns|
    decreases m - k
  {
    hide StepOn;
    if k < m {
      SameConns(tr, ms, k, m - 1);
      assert Step(tr[m - 1], ms[m - 1].i, ms[m - 1].d, ms[m - 1].a, tr[m]);
    }
  }

  lemma LentNow(s: Sys, i: nat, d: bool, o: nat)
    requires Inv(s) && i < |s.conns| && !s.conns[i].spoilt && o in Side(s.conns[i], d).lent
    ensures o in s.pool.slots && s.pool.slots[o].data == Side(s.conns[i], d).lent[o]
    ensures o !in FreeSlots(s.pool.free) && IsPinned(Side(s.conns[i], d).recv, o)
  {
    hide PoolOk, WriteOk, RecvOk, ParcelsOk, InOrder, History, Held, FreeSlots;
    var w := Side(s.conns[i], d);
    assert LentOk(s.pool, w);
    PinnedOwned(w.recv, o);
    HeldSplit(s.conns, i);
    assert o in Held(s.conns);
    assert (FreeSlots(s.pool.free) + Held(s.conns))[o] <= 1;
  }

  lemma PinnedOwned(b: Buf, o: nat)
    requires IsPinned(b, o)
    ensures o in Owned(b)
  {
    hide Offsets;
    if o !in Offsets(b.pinned) {
      OffsetsMember(b.slices, 0);
    }
  }

  // ---------- when everything is over ----------

  ghost predicate Idle(w: Way)
  {
    w.send.slices == [] && w.recv.slices == [] && w.pending == [] && w.flight == []
  }

  ghost predicate NonePinned(w: Way)
  {
    Offsets(w.send.pinned) == multiset{} && Offsets(w.recv.pinned) == multiset{}
  }

  lemma IdleSlots(w: Way)
    requires Idle(w)
    ensures WaySlots(w) == multiset{} <==> NonePinned(w)
  {
    assert WaySlots(w) == Offsets(w.send.pinned) + Offsets(w.recv.pinned);
    if WaySlots(w) == multiset{} {
      assert Offsets(w.send.pinned) <= WaySlots(w) && Offsets(w.recv.pinned) <= WaySlots(w);
    }
  }

  /** The calls that empty the pinned list of a direction. */
  predicate Unpins(m: Move, i: nat, d: bool)
  {
    m.i == i && m.d == d && (m.a.Release? || m.a.Reuse?)
  }

  /** Every read call on a direction has been followed by a release or a reuse. */
  ghost predicate Settled(ms: seq<Move>, k: nat, i: nat, d: bool)
    requires k <= |ms|
  {
    forall j :: 0 <= j < k && ms[j].i == i && ms[j].d == d && ms[j].a.Read? ==> UnpinnedIn(ms, j, k, i, d)
  }

  ghost predicate UnpinnedIn(ms: seq<Move>, j: nat, k: nat, i: nat, d: bool)
    requires k <= |ms|
  {
    exists m :: j < m < k && Unpins(ms[m], i, d)
  }

  lemma PinsSame(p: Pool, c: Conn, d: bool, a: Action, q: Pool, c': Conn, e: bool)
    requires StepOn(p, c, d, a, q, c')
    ensures d == e && (a.Release? || a.Reuse?) ==> Side(c', e).recv.pinned == []
    ensures !(d == e && (a.Read? || a.Release? || a.Reuse?)) ==> Side(c', e).recv.pinned == Side(c, e).recv.pinned
  {
    hide Wrote, Patched, HandedOver, GaveBack, Delivered, Kept, Exchange, WriteOk, ReadOk, Overwrite, PoolOk, HasHeap,
         Unread, IsPinned;
  }

  /** Once every read has been followed by a release or a reuse, nothing is pinned. */
  lemma {:induction false} Unpinned(tr: seq<Sys>, ms: seq<Move>, k: nat, i: nat, d: bool)
    requires Run(tr, ms) && k < |tr| && i < |tr[k].conns| && Settled(ms, k, i, d)
    ensures Side(tr[k].conns[i], d).recv.pinned == []
  {
    hide StepOn, Settled;
    if k > 0 {
      var m := ms[k - 1];
      assert Step(tr[k - 1], m.i, m.d, m.a, tr[k]);
      if m.i == i {
        PinsSame(tr[k - 1].pool, tr[k - 1].conns[i], m.d, m.a, tr[k].pool, tr[k].conns[i], d);
      }
      if !Unpins(m, i, d) {
        SettledBefore(ms, k, i, d);
        Unpinned(tr, ms, k - 1, i, d);
      }
    }
  }

  lemma SettledBefore(ms: seq<Move>, k: nat, i: nat, d: bool)
    requires 0 < k <= |ms| && Settled(ms, k, i, d) && !Unpins(ms[k - 1], i, d)
    ensures Settled(ms, k - 1, i, d)
    ensures !(ms[k - 1].i == i && ms[k - 1].d == d && ms[k - 1].a.Read?)
  {
    hide Unpins, UnpinnedIn;
    forall j | 0 <= j < k && UnpinnedIn(ms, j, k, i, d) ensures j < k - 1 && UnpinnedIn(ms, j, k - 1, i, d) {
      UnpinnedSooner(ms, j, k, i, d);
    }
  }

  lemma UnpinnedSooner(ms: seq<Move>, j: nat, k: nat, i: nat, d: bool)
    requires 0 < k <= |ms| && !Unpins(ms[k - 1], i, d) && UnpinnedIn(ms, j, k, i, d)
    ensures j < k - 1 && UnpinnedIn(ms, j, k - 1, i, d)
  {
    hide Unpins;
    var m :| j < m < k && Unpins(ms[m], i, d);
    assert m != k - 1;
  }

  /**
   No slot leaks but through a pin: once nothing is buffered or on its way anywhere, all slots are
   back on the free lists exactly when no pinned list still holds one. That is so when every read
   was followed by a release or a reuse. Closing a stream empties its buffers but not its pinned list.
   */
  lemma AllReturned(tr: seq<Sys>, ms: seq<Move>, k: nat)
    requires Run(tr, ms) && k < |tr|
    requires forall i, d :: 0 <= i < |tr[k].conns| ==> Idle(Side(tr[k].conns[i], d))
    ensures FreeSlots(tr[k].pool.free) == multiset(tr[k].pool.slots.Keys)
      <==> forall i, d :: 0 <= i < |tr[k].conns| ==> NonePinned(Side(tr[k].conns[i], d))
    ensures (forall i, d :: 0 <= i < |tr[k].conns| ==> Settled(ms, k, i, d)) ==>
      FreeSlots(tr[k].pool.free) == multiset(tr[k].pool.slots.Keys)
  {
    hide PoolOk, WayOk, FreeSlots, Held, Init, Step, Idle, NonePinned, WaySlots, Settled;
    var s := tr[k];
    RunKeeps(tr, ms, k);
    forall i, d | 0 <= i < |s.conns|
      ensures WaySlots(Side(s.conns[i], d)) == multiset{} <==> NonePinned(Side(s.conns[i], d))
    {
      IdleSlots(Side(s.conns[i], d));
    }
    if FreeSlots(s.pool.free) == multiset(s.pool.slots.Keys) {
      NoneLeft(FreeSlots(s.pool.free), Held(s.conns));
      forall i, d | 0 <= i < |s.conns| ensures NonePinned(Side(s.conns[i], d)) {
        HeldSplit(s.conns, i);
        assert WaySlots(Side(s.conns[i], d)) <= ConnSlots(s.conns[i]) <= Held(s.conns);
      }
    }
    if forall i, d :: 0 <= i < |s.conns| ==> Settled(ms, k, i, d) {
      SettledPins(tr, ms, k);
    }
    if forall i, d :: 0 <= i < |s.conns| ==> NonePinned(Side(s.conns[i], d)) {
      forall i | 0 <= i < |s.conns| ensures ConnSlots(s.conns[i]) == multiset{} {
        assert NonePinned(Side(s.conns[i], true)) && NonePinned(Side(s.conns[i], false));
      }
      NothingHeld(s.conns);
    }
  }

  lemma SettledPins(tr: seq<Sys>, ms: seq<Move>, k: nat)
    requires Run(tr, ms) && k < |tr| && forall i, d :: 0 <= i < |tr[k].conns| ==> Settled(ms, k, i, d)
    ensures forall i, d :: 0 <= i < |tr[k].conns| ==> NonePinned(Side(tr[k].conns[i], d))
  {
    hide Run, Settled;
    forall i, d | 0 <= i < |tr[k].conns| ensures NonePinned(Side(tr[k].conns[i], d)) {
      SendUnpinned(tr, ms, k, i, d);
      Unpinned(tr, ms, k, i, d);
    }
  }

  /** Nothing of a send buffer is ever pinned. */
  lemma {:induction false} SendUnpinned(tr: seq<Sys>, ms: seq<Move>, k: nat, i: nat, d: bool)
    requires Run(tr, ms) && k < |tr| && i < |tr[k].conns|
    ensures Side(tr[k].conns[i], d).send.pinned == []
  {
    hide StepOn;
    if k > 0 {
      var m := ms[k - 1];
      assert Step(tr[k - 1], m.i, m.d, m.a, tr[k]);
      SendUnpinned(tr, ms, k - 1, i, d);
      if m.i == i {
        SendPins(tr[k - 1].pool, tr[k - 1].conns[i], m.d, m.a, tr[k].pool, tr[k].conns[i], d);
      }
    }
  }

  lemma SendPins(p: Pool, c: Conn, d: bool, a: Action, q: Pool, c': Conn, e: bool)
    requires StepOn(p, c, d, a, q, c') && Side(c, e).send.pinned == []
    ensures Side(c', e).send.pinned == []
  {
    hide Delivered, Kept, Exchange, WriteOk, ReadOk, Overwrite, PoolOk, HasHeap, Unread, IsPinned, ChainBytes, IsChain;
  }

  lemma NoneLeft(a: multiset<nat>, b: multiset<nat>)
    requires a + b == a
    ensures b == multiset{}
  {
    forall o ensures b[o] == 0 {
      assert (a + b)[o] == a[o] + b[o];
    }
  }
}
