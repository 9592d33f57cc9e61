/**
 One direction of a session: the flushing threads and the send goroutine of the writing process,
 the socket, and the event loop of the reading process. A flush puts a message into the shared
 queue and wakes the consumer with a polling frame unless the working flag says it is awake;
 frames reach the socket under the `writing` flag, directly or through the send channel.
 Thread k flushes and closes stream k; when one goroutine serves many streams, at most one of these
 threads is in a flush at a time. A flush over the channel is over when the channel has its frame:
 the code waits on for the frame to be written, or for a time-out, and the model allows both. The
 queue is a sequence, as the ring refines one.
 */
module SessionProtocol {

  /** An element of the queue: the data of one flush, or the notice that the stream was closed. */
  datatype Msg = Msg(stream: nat, data: int) | Bye(stream: nat)

  datatype Kind = Polling | Fallback(m: Msg) | Control

  datatype Frame = Frame(kind: Kind, bytes: seq<int>)

  datatype Thread =
    | Idle
    | Marking                     // has put a message, will try to set the working flag
    | Won(f: Frame)               // has a frame to send, will try to take the writing flag
    | Fast(f: Frame, n: nat)      // holds the writing flag, `n` bytes are written
    | Notifying                   // has released the flag, will leave a token for the send goroutine
    | Slow(f: Frame)              // will hand the frame to the send goroutine

  datatype Sender =
    | Waiting                     // for a frame
    | Trying(f: Frame)            // will try to take the writing flag
    | Sleeping(f: Frame)          // until a token is left
    | Sending(f: Frame, n: nat)

  datatype Consumer =
    | Asleep
    | Popping                     // inside the loop that empties the queue
    | Clearing                    // has seen the queue empty, will clear the working flag
    | Checking                    // has cleared it, will look at the queue once more
    | Setting                     // has seen a message, will set the flag and go on

  datatype Holder = Nobody | Thread(k: nat) | SendLoop

  /**
   `holder`, `accepted` and `delivered` are history: who holds the writing flag, which messages
   have been handed over and which the reading process has taken in. `fell` is the inFallbackState
   of each stream and `gone` says that it has put its close notice.
   */
  datatype Session = Session(
    poll: seq<int>, room: nat,
    queue: seq<Msg>, flag: bool,
    threads: seq<Thread>, fell: seq<bool>, gone: seq<bool>,
    writing: bool, holder: Holder, token: bool, sendCh: seq<Frame>, sender: Sender,
    wire: seq<int>, sent: seq<Frame>, handled: nat, consumer: Consumer,
    accepted: seq<Msg>, delivered: seq<Msg>)

  datatype Act =
    | Put(k: nat, data: int)            // Flush over shared memory: the element is in the queue
    | Leave(k: nat)                     // close: the notice is in the queue, fallen back or not
    | Mark(k: nat)                      // wakeUpPeer: compare-and-swap of the working flag
    | Notice(k: nat, f: Frame)          // hot restart: a control frame, fast path or slow path
    | Request(k: nat, f: Frame)         // stream close notice: a control frame through the channel
    | FallBack(k: nat, f: Frame)        // Flush over the socket
    | TryFast(k: nat)
    | WriteSome(k: nat, m: nat)
    | Unlock(k: nat)
    | Notify(k: nat)
    | Push(k: nat)                      // the channel takes the frame
    | GiveUp(k: nat)                    // the write timeout strikes before the channel has room
    | Take                              // the send goroutine
    | TryLock
    | Wake
    | SendSome(m: nat)
    | SendUnlock
    | Handle                            // the event loop of the reading process
    | Pop
    | SeeEmpty
    | ClearFlag
    | CheckSize
    | SetFlag

  function Set(s: Session, k: nat, pc: Thread): seq<Thread>
    requires k < |s.threads|
  {
    s.threads[k := pc]
  }

  /** Frames are put on the wire in pieces; the last piece completes the frame. */
  function Written(s: Session, f: Frame, n: nat, m: nat): Session
    requires n + m <= |f.bytes|
  {
    s.(wire := s.wire + f.bytes[n..n + m], sent := if n + m == |f.bytes| then s.sent + [f] else s.sent)
  }

  ghost predicate ThreadStep(s: Session, k: nat, a: Act, t: Session)
    requires k < |s.threads| == |s.fell| == |s.gone|
  {
    var pc := s.threads[k];
    match a
    case Put(_, data) =>
      && pc.Idle? && !s.fell[k] && !s.gone[k]
      && t == s.(queue := s.queue + [Msg(k, data)], accepted := s.accepted + [Msg(k, data)],
                 threads := Set(s, k, Marking))
    case Leave(_) =>
      && pc.Idle? && !s.gone[k]
      && t == s.(queue := s.queue + [Bye(k)], accepted := s.accepted + [Bye(k)], gone := s.gone[k := true],
                 threads := Set(s, k, Marking))
    case Mark(_) =>
      && pc.Marking?
      && t == s.(flag := true, threads := Set(s, k, if s.flag then Idle else Won(Frame(Polling, s.poll))))
    case Notice(_, f) =>
      pc.Idle? && f.kind.Control? && f.bytes != [] && t == s.(threads := Set(s, k, Won(f)))
    case Request(_, f) =>
      pc.Idle? && f.kind.Control? && f.bytes != [] && t == s.(threads := Set(s, k, Slow(f)))
    case FallBack(_, f) =>
      && pc.Idle? && !s.gone[k] && f.kind.Fallback? && f.kind.m.Msg? && f.kind.m.stream == k && f.bytes != []
      && t == s.(threads := Set(s, k, Slow(f)), fell := s.fell[k := true])
    case TryFast(_) =>
      && pc.Won?
      && t == if s.writing then s.(threads := Set(s, k, Slow(pc.f)))
              else s.(writing := true, holder := Holder.Thread(k), threads := Set(s, k, Fast(pc.f, 0)))
    case WriteSome(_, m) =>
      && pc.Fast? && 0 < m && pc.n + m <= |pc.f.bytes|
      && t == Written(s, pc.f, pc.n, m).(threads := Set(s, k, Fast(pc.f, pc.n + m)))
    case Unlock(_) =>
      && pc.Fast? && pc.n == |pc.f.bytes|
      && t == s.(writing := false, holder := Nobody, threads := Set(s, k, Notifying))
    case Notify(_) =>
      pc.Notifying? && t == s.(token := true, threads := Set(s, k, Idle))
    case Push(_) =>
      && pc.Slow? && |s.sendCh| < s.room
      && t == s.(sendCh := s.sendCh + [pc.f], threads := Set(s, k, Idle),
                 accepted := if pc.f.kind.Fallback? then s.accepted + [pc.f.kind.m] else s.accepted)
    case GiveUp(_) =>
      pc.Slow? && !pc.f.kind.Polling? && t == s.(threads := Set(s, k, Idle))
    case _ => false
  }

  ghost predicate LoopStep(s: Session, a: Act, t: Session)
  {
    match a
    case Take =>
      s.sender.Waiting? && s.sendCh != [] && t == s.(sender := Trying(s.sendCh[0]), sendCh := s.sendCh[1..])
    case TryLock =>
      && s.sender.Trying?
      && t == if s.writing then s.(sender := Sleeping(s.sender.f))
              else s.(writing := true, holder := SendLoop, sender := Sending(s.sender.f, 0))
    case Wake =>
      s.sender.Sleeping? && s.token && t == s.(token := false, sender := Trying(s.sender.f))
    case SendSome(m) =>
      && s.sender.Sending? && 0 < m && s.sender.n + m <= |s.sender.f.bytes|
      && t == Written(s, s.sender.f, s.sender.n, m).(sender := Sending(s.sender.f, s.sender.n + m))
    case SendUnlock =>
      && s.sender.Sending? && s.sender.n == |s.sender.f.bytes|
      && t == s.(writing := false, holder := Nobody, sender := Waiting)
    case Handle =>
      && s.consumer.Asleep? && s.handled < |s.sent|
      && var kind := s.sent[s.handled].kind;
        t == s.(handled := s.handled + 1, consumer := if kind.Polling? then Popping else Asleep,
                delivered := if kind.Fallback? then s.delivered + [kind.m] else s.delivered)
    case Pop =>
      s.consumer.Popping? && s.queue != [] && t == s.(queue := s.queue[1..], delivered := s.delivered + [s.queue[0]])
    case SeeEmpty =>
      s.consumer.Popping? && s.queue == [] && t == s.(consumer := Clearing)
    case ClearFlag =>
      s.consumer.Clearing? && t == s.(flag := false, consumer := Checking)
    case CheckSize =>
      s.consumer.Checking? && t == s.(consumer := if s.queue == [] then Asleep else Setting)
    case SetFlag =>
      s.consumer.Setting? && t == s.(flag := true, consumer := Popping)
    case _ => false
  }

  /** The steps that put an element into the queue, and the element. */
  predicate Puts(a: Act)
  {
    a.Put? || a.Leave?
  }

  function Element(a: Act): Msg
    requires Puts(a)
  {
    if a.Put? then Msg(a.k, a.data) else Bye(a.k)
  }

  predicate IsThreadAct(a: Act)
  {
    || Puts(a) || a.Mark? || a.Notice? || a.Request? || a.FallBack? || a.TryFast? || a.WriteSome? || a.Unlock?
    || a.Notify? || a.Push? || a.GiveUp?
  }

  ghost predicate Step(s: Session, a: Act, t: Session)
  {
    |s.threads| == |s.fell| == |s.gone|
    && if IsThreadAct(a) then a.k < |s.threads| && ThreadStep(s, a.k, a, t) else LoopStep(s, a, t)
  }

  /** What a step of a thread does to the messages. */
  lemma ThreadMsgs(s: Session, a: Act, t: Session)
    requires IsThreadAct(a) && a.k < |s.threads| == |s.fell| == |s.gone| && ThreadStep(s, a.k, a, t)
    ensures t.poll == s.poll && t.room == s.room && |t.threads| == |s.threads| == |t.fell| == |t.gone|
    ensures Puts(a) ==> t.queue == s.queue + [Element(a)] && t.accepted == s.accepted + [Element(a)]
    ensures (a.TryFast? ==> s.threads[a.k].Won?) && (a.Push? ==> s.threads[a.k].Slow?)
    ensures a.Push? ==>
      t.accepted == if s.threads[a.k].f.kind.Fallback? then s.accepted + [s.threads[a.k].f.kind.m] else s.accepted
    ensures !Puts(a) && !a.Push? ==> t.accepted == s.accepted
    ensures !Puts(a) ==> t.queue == s.queue
    ensures t.delivered == s.delivered && t.sender == s.sender && t.consumer == s.consumer && t.handled == s.handled
  {
  }

  /** What a step of the send goroutine or of the event loop does to them. */
  lemma LoopMsgs(s: Session, a: Act, t: Session)
    requires LoopStep(s, a, t)
    ensures t.poll == s.poll && t.room == s.room && t.threads == s.threads && t.fell == s.fell && t.gone == s.gone
    ensures t.accepted == s.accepted && (!a.Pop? ==> t.queue == s.queue)
    ensures a.Handle? ==> s.handled < |s.sent|
    ensures a.Handle? && s.sent[s.handled].kind.Fallback? ==> t.delivered == s.delivered + [s.sent[s.handled].kind.m]
    ensures a.Handle? && !s.sent[s.handled].kind.Fallback? ==> t.delivered == s.delivered
    ensures a.Pop? ==> s.queue != [] && t.queue == s.queue[1..] && t.delivered == s.delivered + [s.queue[0]]
    ensures !a.Handle? && !a.Pop? ==> t.delivered == s.delivered
  {
  }

  /** What a step does to the messages. */
  lemma MsgStep(s: Session, a: Act, t: Session)
    requires Step(s, a, t)
    ensures t.poll == s.poll && t.room == s.room && |t.threads| == |s.threads| == |t.fell| == |t.gone|
    ensures Puts(a) ==> t.queue == s.queue + [Element(a)] && t.accepted == s.accepted + [Element(a)]
    ensures a.TryFast? ==> a.k < |s.threads| && s.threads[a.k].Won?
    ensures a.Push? ==> a.k < |s.threads| && s.threads[a.k].Slow?
    ensures a.Push? ==>
      t.accepted == if s.threads[a.k].f.kind.Fallback? then s.accepted + [s.threads[a.k].f.kind.m] else s.accepted
    ensures a.Handle? ==> s.handled < |s.sent|
    ensures a.Handle? && s.sent[s.handled].kind.Fallback? ==> t.delivered == s.delivered + [s.sent[s.handled].kind.m]
    ensures a.Handle? && !s.sent[s.handled].kind.Fallback? ==> t.delivered == s.delivered
    ensures a.Pop? ==> s.queue != [] && t.queue == s.queue[1..] && t.delivered == s.delivered + [s.queue[0]]
    ensures !Puts(a) && !a.Push? ==> t.accepted == s.accepted
    ensures !Puts(a) && !a.Pop? ==> t.queue == s.queue
    ensures !a.Handle? && !a.Pop? ==> t.delivered == s.delivered
  {
    hide ThreadStep, LoopStep, Element;
    if IsThreadAct(a) {
      ThreadMsgs(s, a, t);
    } else {
      LoopMsgs(s, a, t);
    }
  }

  // ---------- the writing flag ----------

  predicate ThreadOk(s: Session, k: nat)
    requires k < |s.threads|
  {
    var pc := s.threads[k];
    && (pc.Fast? <==> s.holder == Holder.Thread(k))
    && (pc.Won? || pc.Fast? ==> !pc.f.kind.Fallback?)
    && (pc.Won? || pc.Fast? || pc.Slow? ==> pc.f.bytes != [])
    && (pc.Fast? ==> pc.n <= |pc.f.bytes|)
    && (pc.Slow? && pc.f.kind.Fallback? ==> pc.f.kind.m.stream == k)
  }

  predicate SenderOk(s: Session)
  {
    && (s.sender.Sending? <==> s.holder == SendLoop)
    && (!s.sender.Waiting? ==> s.sender.f.bytes != [])
    && (s.sender.Sending? ==> s.sender.n <= |s.sender.f.bytes|)
    && forall i :: 0 <= i < |s.sendCh| ==> s.sendCh[i].bytes != []
  }

  ghost predicate LockInv(s: Session)
  {
    && s.poll != [] && |s.threads| == |s.fell| == |s.gone| && s.handled <= |s.sent|
    && (s.writing <==> s.holder != Nobody)
    && (s.holder.Thread? ==> s.holder.k < |s.threads|)
    && SenderOk(s)
    && forall k :: 0 <= k < |s.threads| ==> ThreadOk(s, k)
  }

  /** A step of thread `j` leaves the other threads and the send goroutine alone. */
  lemma ThreadShape(s: Session, j: nat, a: Act, t: Session)
    requires j < |s.threads| == |s.fell| == |s.gone| && ThreadStep(s, j, a, t)
    ensures t.poll == s.poll && |t.threads| == |s.threads| == |t.fell| == |t.gone|
    ensures t.threads == s.threads[j := t.threads[j]]
    ensures t.handled == s.handled && |s.sent| <= |t.sent|
    ensures t.sender == s.sender && (t.sendCh == s.sendCh || (a.Push? && t.sendCh == s.sendCh + [s.threads[j].f]))
  {
  }

  /** Who holds the writing flag after it. */
  lemma ThreadHolds(s: Session, j: nat, a: Act, t: Session)
    requires j < |s.threads| == |s.fell| == |s.gone| && ThreadStep(s, j, a, t)
    requires (s.writing <==> s.holder != Nobody) && (s.threads[j].Fast? ==> s.holder == Holder.Thread(j))
    ensures t.holder == s.holder || (s.holder == Nobody && t.holder == Holder.Thread(j))
      || (s.holder == Holder.Thread(j) && t.holder == Nobody)
    ensures t.writing <==> t.holder != Nobody
  {
  }

  lemma ThreadSelf(s: Session, j: nat, a: Act, t: Session)
    requires LockInv(s) && j < |s.threads| && ThreadStep(s, j, a, t)
    ensures |t.threads| == |s.threads| && ThreadOk(t, j)
  {
    hide SenderOk;
    assert ThreadOk(s, j);
  }

  lemma ThreadLock(s: Session, j: nat, a: Act, t: Session)
    requires LockInv(s) && j < |s.threads| && ThreadStep(s, j, a, t)
    ensures LockInv(t)
  {
    hide ThreadStep;
    assert ThreadOk(s, j);
    ThreadShape(s, j, a, t);
    ThreadHolds(s, j, a, t);
    ThreadSelf(s, j, a, t);
    if a.Push? {
      PushedOne(s, j, a, t);
    }
    forall k | 0 <= k < |t.threads| ensures ThreadOk(t, k) {
      assert ThreadOk(s, k);
    }
  }

  lemma PushedOne(s: Session, j: nat, a: Act, t: Session)
    requires |s.threads| == |s.fell| == |s.gone| && j < |s.threads| && ThreadStep(s, j, a, t) && a.Push?
    ensures s.threads[j].Slow?
  {
  }

  lemma LoopLock(s: Session, a: Act, t: Session)
    requires LockInv(s) && LoopStep(s, a, t)
    ensures LockInv(t)
  {
    hide ThreadOk, SenderOk, LoopStep;
    LoopMsgs(s, a, t);
    LoopThreadsOk(s, a, t);
    LoopSender(s, a, t);
  }

  lemma LoopSender(s: Session, a: Act, t: Session)
    requires LoopStep(s, a, t) && SenderOk(s) && s.handled <= |s.sent| && (s.writing <==> s.holder != Nobody)
    requires s.holder.Thread? ==> s.holder.k < |s.threads|
    ensures SenderOk(t) && t.handled <= |t.sent| && (t.writing <==> t.holder != Nobody)
    ensures t.holder.Thread? ==> t.holder == s.holder
  {
  }

  lemma LoopThreadsOk(s: Session, a: Act, t: Session)
    requires LockInv(s) && LoopStep(s, a, t)
    ensures t.threads == s.threads && forall k :: 0 <= k < |t.threads| ==> ThreadOk(t, k)
  {
    LoopMsgs(s, a, t);
    LoopHolder(s, a, t);
    forall k | 0 <= k < |t.threads| ensures ThreadOk(t, k) {
      assert ThreadOk(s, k);
    }
  }

  lemma LoopHolder(s: Session, a: Act, t: Session)
    requires LoopStep(s, a, t)
    ensures t.holder == s.holder || (a.TryLock? && !s.writing && t.holder == SendLoop)
      || (a.SendUnlock? && s.sender.Sending? && t.holder == Nobody)
  {
  }

  lemma LockKeeps(s: Session, a: Act, t: Session)
    requires LockInv(s) && Step(s, a, t)
    ensures LockInv(t)
  {
    hide LockInv, ThreadStep, LoopStep;
    if IsThreadAct(a) {
      ThreadLock(s, a.k, a, t);
    } else {
      LoopLock(s, a, t);
    }
  }

  /** Only one of them is ever writing. */
  lemma OneWriter(s: Session, k: nat, j: nat)
    requires LockInv(s) && k < |s.threads| && j < |s.threads| && s.threads[k].Fast?
    ensures s.threads[j].Fast? ==> j == k
    ensures !s.sender.Sending? && s.writing
  {
    assert ThreadOk(s, k) && ThreadOk(s, j);
  }

  // ---------- the wire ----------

  ghost function Joined(fs: seq<Frame>): seq<int>
  {
    if fs == [] then [] else Joined(fs[..|fs| - 1]) + fs[|fs| - 1].bytes
  }

  lemma JoinedSnoc(fs: seq<Frame>, f: Frame)
    ensures Joined(fs + [f]) == Joined(fs) + f.bytes
  {
    assert (fs + [f])[..|fs|] == fs;
  }

  /** The frame that is partly written, if there is one. */
  function Current(s: Session): seq<Frame>
  {
    match s.holder
    case Nobody => []
    case Thread(k) =>
      if k < |s.threads| && s.threads[k].Fast? && s.threads[k].n < |s.threads[k].f.bytes| then [s.threads[k].f] else []
    case SendLoop => if s.sender.Sending? && s.sender.n < |s.sender.f.bytes| then [s.sender.f] else []
  }

  /** How much of it is written. */
  function Part(s: Session): seq<int>
  {
    match s.holder
    case Nobody => []
    case Thread(k) =>
      if k < |s.threads| && s.threads[k].Fast? && s.threads[k].n < |s.threads[k].f.bytes|
      then s.threads[k].f.bytes[..s.threads[k].n]
      else []
    case SendLoop => if s.sender.Sending? && s.sender.n < |s.sender.f.bytes| then s.sender.f.bytes[..s.sender.n] else []
  }

  /** Frames never mix: the wire holds whole frames and then the beginning of at most one more. */
  ghost predicate WireInv(s: Session)
  {
    s.wire == Joined(s.sent) + Part(s)
  }

  lemma Extended(s: Session, f: Frame, n: nat, m: nat)
    requires 0 < m && n + m <= |f.bytes| && s.wire == Joined(s.sent) + f.bytes[..n]
    ensures Written(s, f, n, m).wire
         == Joined(Written(s, f, n, m).sent) + if n + m < |f.bytes| then f.bytes[..n + m] else []
  {
    assert f.bytes[..n] + f.bytes[n..n + m] == f.bytes[..n + m];
    JoinedSnoc(s.sent, f);
    assert f.bytes[..|f.bytes|] == f.bytes;
    assert (Joined(s.sent) + f.bytes[..n]) + f.bytes[n..n + m] == Joined(s.sent) + f.bytes[..n + m];
  }

  lemma WireKeeps(s: Session, a: Act, t: Session)
    requires LockInv(s) && WireInv(s) && Step(s, a, t)
    ensures WireInv(t)
  {
    hide WireInv, LockInv, ThreadStep, LoopStep;
    if IsThreadAct(a) {
      ThreadWire(s, a, t);
    } else {
      LoopWire(s, a, t);
    }
  }

  lemma ThreadWire(s: Session, a: Act, t: Session)
    requires IsThreadAct(a) && LockInv(s) && WireInv(s) && a.k < |s.threads| && ThreadStep(s, a.k, a, t)
    ensures WireInv(t)
  {
    hide Joined, SenderOk;
    assert ThreadOk(s, a.k);
    if a.WriteSome? {
      Extended(s, s.threads[a.k].f, s.threads[a.k].n, a.m);
    }
  }

  lemma LoopWire(s: Session, a: Act, t: Session)
    requires LockInv(s) && WireInv(s) && LoopStep(s, a, t)
    ensures WireInv(t)
  {
    hide Joined, ThreadOk;
    if a.SendSome? {
      Extended(s, s.sender.f, s.sender.n, a.m);
    }
  }

  // ---------- the frames on their way ----------

  function Held(s: Session): seq<Frame>
  {
    if s.sender.Trying? || s.sender.Sleeping? then [s.sender.f] else []
  }

  /** What has the wire, or has had it. */
  function Front(s: Session): seq<Frame>
    requires s.handled <= |s.sent|
  {
    s.sent[s.handled..] + Current(s)
  }

  function Back(s: Session): seq<Frame>
  {
    Held(s) + s.sendCh
  }

  /** All frames that are certain to reach the consumer, in the order in which they will. */
  function Pipe(s: Session): seq<Frame>
    requires s.handled <= |s.sent|
  {
    Front(s) + Back(s)
  }

  lemma ThreadFront(s: Session, a: Act, t: Session)
    requires LockInv(s) && Step(s, a, t) && IsThreadAct(a)
    ensures t.handled <= |t.sent|
    ensures a.TryFast? && !s.writing ==> Front(t) == Front(s) + [s.threads[a.k].f]
    ensures !(a.TryFast? && !s.writing) ==> Front(t) == Front(s)
  {
    assert ThreadOk(s, a.k);
    if a.WriteSome? && s.threads[a.k].n + a.m == |s.threads[a.k].f.bytes| {
      assert t.sent[t.handled..] == s.sent[s.handled..] + [s.threads[a.k].f];
    }
  }

  lemma LoopFront(s: Session, a: Act, t: Session)
    requires LockInv(s) && Step(s, a, t) && !IsThreadAct(a)
    ensures t.handled <= |t.sent|
    ensures a.Handle? ==> Front(s) == [s.sent[s.handled]] + Front(t)
    ensures a.TryLock? && !s.writing ==> Front(t) == Front(s) + [s.sender.f]
    ensures !a.Handle? && !(a.TryLock? && !s.writing) ==> Front(t) == Front(s)
  {
    hide ThreadStep, ThreadOk, Current, LoopStep;
    LoopMsgs(s, a, t);
    LoopCurrent(s, a, t);
    if t.sent != s.sent {
      assert t.sent[t.handled..] == s.sent[s.handled..] + [s.sender.f];
    }
    if a.Handle? {
      assert s.sent[s.handled..] == [s.sent[s.handled]] + s.sent[s.handled + 1..];
    }
  }

  /** What is on its way to the wire: taken up by TryLock, and sent with its last piece. */
  lemma LoopCurrent(s: Session, a: Act, t: Session)
    requires LoopStep(s, a, t) && SenderOk(s) && (s.writing <==> s.holder != Nobody)
    ensures t.handled == (if a.Handle? then s.handled + 1 else s.handled) && (a.Handle? ==> t.sent == s.sent)
    ensures a.TryLock? && !s.writing ==>
      s.sender.Trying? && t.sent == s.sent && Current(s) == [] && Current(t) == [s.sender.f]
    ensures !(a.TryLock? && !s.writing) && t.sent == s.sent ==> Current(t) == Current(s)
    ensures t.sent != s.sent ==>
      s.sender.Sending? && t.sent == s.sent + [s.sender.f] && Current(s) == [s.sender.f] && Current(t) == []
  {
  }

  lemma BackStep(s: Session, a: Act, t: Session)
    requires Step(s, a, t)
    ensures a.Push? ==> Back(t) == Back(s) + [s.threads[a.k].f]
    ensures a.TryLock? && !s.writing ==> Back(s) == [s.sender.f] + Back(t)
    ensures !a.Push? && !(a.TryLock? && !s.writing) ==> Back(t) == Back(s)
  {
    hide Back, ThreadStep, LoopStep;
    if IsThreadAct(a) {
      ThreadBack(s, a, t);
    } else {
      LoopBack(s, a, t);
    }
  }

  lemma ThreadBack(s: Session, a: Act, t: Session)
    requires IsThreadAct(a) && a.k < |s.threads| == |s.fell| == |s.gone| && ThreadStep(s, a.k, a, t)
    ensures a.Push? ==> s.threads[a.k].Slow? && Back(t) == Back(s) + [s.threads[a.k].f]
    ensures !a.Push? ==> Back(t) == Back(s)
  {
    hide Held;
    assert t.sender == s.sender && t.sendCh == if a.Push? then s.sendCh + [s.threads[a.k].f] else s.sendCh;
    assert Held(t) == Held(s) by { SameSender(s, t); }
  }

  lemma SameSender(s: Session, t: Session)
    requires t.sender == s.sender
    ensures Held(t) == Held(s)
  {
  }

  lemma LoopBack(s: Session, a: Act, t: Session)
    requires LoopStep(s, a, t)
    ensures a.TryLock? && !s.writing ==> s.sender.Trying? && Back(s) == [s.sender.f] + Back(t)
    ensures !(a.TryLock? && !s.writing) ==> Back(t) == Back(s)
  {
    if a.Take? {
      assert s.sendCh == [s.sendCh[0]] + s.sendCh[1..];
    }
  }

  /** Only three steps change the pipe: a fast frame jumps in, a slow one goes last, the first is handled. */
  lemma PipeStep(s: Session, a: Act, t: Session)
    requires LockInv(s) && Step(s, a, t)
    ensures t.handled <= |t.sent|
    ensures a.TryFast? && !s.writing ==> Pipe(t) == Front(s) + [s.threads[a.k].f] + Back(s)
    ensures a.Push? ==> Pipe(t) == Pipe(s) + [s.threads[a.k].f]
    ensures a.Handle? ==> Pipe(s) == [s.sent[s.handled]] + Pipe(t)
    ensures !(a.TryFast? && !s.writing) && !a.Push? && !a.Handle? ==> Pipe(t) == Pipe(s)
  {
    hide Front, Back, SenderOk, ThreadOk, Step;
    BackStep(s, a, t);
    if IsThreadAct(a) {
      ThreadFront(s, a, t);
    } else {
      LoopFront(s, a, t);
    }
  }

  // ---------- waking the consumer ----------

  ghost predicate HasPoll(fs: seq<Frame>)
  {
    exists i :: 0 <= i < |fs| && fs[i].kind.Polling?
  }

  predicate Carries(pc: Thread)
  {
    (pc.Won? || pc.Slow?) && pc.f.kind.Polling?
  }

  /** Some thread has set the working flag and has not yet handed its polling frame on. */
  ghost predicate Carrying(s: Session)
  {
    exists k :: 0 <= k < |s.threads| && Carries(s.threads[k])
  }

  /** While the working flag is set, the consumer is emptying the queue or will be told to. */
  ghost predicate FlagInv(s: Session)
    requires s.handled <= |s.sent|
  {
    s.flag ==> s.consumer.Popping? || s.consumer.Clearing? || HasPoll(Pipe(s)) || Carrying(s)
  }

  predicate Announced(s: Session, m: Msg)
  {
    s.flag || !s.consumer.Asleep? || (m.stream < |s.threads| && s.threads[m.stream].Marking?)
  }

  /** Every message in the queue has been, is being or is about to be announced. */
  ghost predicate QueueInv(s: Session)
  {
    && (forall i :: 0 <= i < |s.queue| ==> Announced(s, s.queue[i]))
    && (s.consumer.Setting? ==> s.queue != [])
  }

  predicate Releases(pc: Thread)
  {
    pc.Fast? || pc.Notifying?
  }

  ghost predicate Releasing(s: Session)
  {
    exists k :: 0 <= k < |s.threads| && Releases(s.threads[k])
  }

  /** The send goroutine only sleeps while somebody is going to wake it. */
  ghost predicate SleepInv(s: Session)
  {
    s.sender.Sleeping? ==> s.token || Releasing(s)
  }

  ghost predicate Inv(s: Session)
  {
    LockInv(s) && WireInv(s) && FlagInv(s) && QueueInv(s) && SleepInv(s)
  }

  lemma PollKept(fs: seq<Frame>, a: seq<Frame>, x: seq<Frame>, b: seq<Frame>)
    requires fs == a + b && HasPoll(fs)
    ensures HasPoll(a + x + b)
  {
    var i :| 0 <= i < |fs| && fs[i].kind.Polling?;
    var gs := a + x + b;
    assert gs[if i < |a| then i else i + |x|] == fs[i];
  }

  lemma PollPut(a: seq<Frame>, x: Frame, b: seq<Frame>)
    requires x.kind.Polling?
    ensures HasPoll(a + [x] + b)
  {
    assert (a + [x] + b)[|a|] == x;
  }

  lemma CarryKept(s: Session, a: Act, t: Session)
    requires Step(s, a, t) && Carrying(s)
    ensures Carrying(t) || (IsThreadAct(a) && Carries(s.threads[a.k]) && ((a.TryFast? && !s.writing) || a.Push?))
  {
    hide ThreadStep, LoopStep;
    var k :| 0 <= k < |s.threads| && Carries(s.threads[k]);
    if IsThreadAct(a) {
      ThreadCarries(s, a, t, k);
    } else {
      LoopMsgs(s, a, t);
    }
    assert k < |t.threads| && Carries(t.threads[k]) ==> Carrying(t);
  }

  lemma ThreadCarries(s: Session, a: Act, t: Session, k: nat)
    requires IsThreadAct(a) && a.k < |s.threads| == |s.fell| == |s.gone| && ThreadStep(s, a.k, a, t)
    requires k < |s.threads| && Carries(s.threads[k])
    ensures |t.threads| == |s.threads|
    ensures Carries(t.threads[k]) || (a.k == k && ((a.TryFast? && !s.writing) || a.Push?))
  {
  }

  lemma FlagKeeps(s: Session, a: Act, t: Session)
    requires LockInv(s) && FlagInv(s) && Step(s, a, t)
    ensures t.handled <= |t.sent| && FlagInv(t)
  {
    hide SenderOk, ThreadOk, Pipe, Front, Back, HasPoll, Carrying;
    PipeStep(s, a, t);
    if t.flag && s.flag && (HasPoll(Pipe(s)) || Carrying(s)) {
      if Carrying(s) {
        CarryKept(s, a, t);
      }
      if HasPoll(Pipe(s)) {
        PipePoll(s, a, t);
      }
      if !Carrying(t) && Carrying(s) {
        CarriedOn(s, a, t);
      }
    }
    if a.Mark? && !s.flag {
      assert Carries(t.threads[a.k]);
      StillCarrying(t, a.k);
    }
  }

  lemma StillCarrying(t: Session, k: nat)
    requires k < |t.threads| && Carries(t.threads[k])
    ensures Carrying(t)
  {
  }

  lemma PipePoll(s: Session, a: Act, t: Session)
    requires LockInv(s) && Step(s, a, t) && HasPoll(Pipe(s))
    ensures t.handled <= |t.sent| && (HasPoll(Pipe(t)) || t.consumer.Popping?)
  {
    hide LockInv, Front, Back;
    PipeStep(s, a, t);
    if a.TryFast? && !s.writing {
      PollKept(Pipe(s), Front(s), [s.threads[a.k].f], Back(s));
    } else if a.Push? {
      PollKept(Pipe(s), Pipe(s), [s.threads[a.k].f], []);
      assert Pipe(s) + [s.threads[a.k].f] + [] == Pipe(t) && Pipe(s) == Pipe(s) + [];
    } else if a.Handle? {
      var i :| 0 <= i < |Pipe(s)| && Pipe(s)[i].kind.Polling?;
      if i > 0 {
        assert Pipe(t)[i - 1] == Pipe(s)[i];
      }
    }
  }

  lemma CarriedOn(s: Session, a: Act, t: Session)
    requires LockInv(s) && Step(s, a, t) && Carrying(s) && !Carrying(t)
    ensures t.handled <= |t.sent| && HasPoll(Pipe(t))
  {
    hide LockInv, Front, Back;
    PipeStep(s, a, t);
    CarryKept(s, a, t);
    var f := s.threads[a.k].f;
    if a.TryFast? {
      PollPut(Front(s), f, Back(s));
    } else {
      PollPut(Pipe(s), f, []);
      assert Pipe(s) + [f] + [] == Pipe(t);
    }
  }

  lemma QueueKeeps(s: Session, a: Act, t: Session)
    requires LockInv(s) && QueueInv(s) && Step(s, a, t)
    ensures QueueInv(t)
  {
    hide LockInv, QueueInv, ThreadStep, LoopStep;
    if IsThreadAct(a) {
      ThreadQueue(s, a, t);
    } else {
      LoopQueue(s, a, t);
    }
  }

  /** A thread that stops announcing has raised the flag, and one that puts a message will announce it. */
  lemma ThreadAnnounces(s: Session, a: Act, t: Session)
    requires IsThreadAct(a) && a.k < |s.threads| == |s.fell| == |s.gone| && ThreadStep(s, a.k, a, t)
    ensures |t.threads| == |s.threads| && (s.flag ==> t.flag) && (Puts(a) ==> t.threads[a.k].Marking?)
    ensures forall j :: 0 <= j < |s.threads| && s.threads[j].Marking? ==> t.threads[j].Marking? || t.flag
  {
  }

  lemma ThreadQueue(s: Session, a: Act, t: Session)
    requires IsThreadAct(a) && a.k < |s.threads| == |s.fell| == |s.gone| && ThreadStep(s, a.k, a, t) && QueueInv(s)
    ensures QueueInv(t)
  {
    hide ThreadStep;
    ThreadMsgs(s, a, t);
    ThreadAnnounces(s, a, t);
    forall i | 0 <= i < |t.queue| ensures Announced(t, t.queue[i]) {
      if i < |s.queue| {
        assert t.queue[i] == s.queue[i] && Announced(s, s.queue[i]);
      }
    }
  }

  /** The consumer falls asleep only over an empty queue, and leaves the flag alone while it sleeps. */
  lemma ConsumerWatches(s: Session, a: Act, t: Session)
    requires LoopStep(s, a, t)
    ensures t.consumer.Asleep? ==> s.queue == [] || (s.consumer.Asleep? && t.flag == s.flag && !a.Pop?)
    ensures t.consumer.Setting? ==> t.queue != [] || (s.consumer.Setting? && t.queue == s.queue)
  {
  }

  lemma LoopQueue(s: Session, a: Act, t: Session)
    requires LoopStep(s, a, t) && QueueInv(s)
    ensures QueueInv(t)
  {
    hide LoopStep;
    LoopMsgs(s, a, t);
    ConsumerWatches(s, a, t);
    forall i | 0 <= i < |t.queue| ensures Announced(t, t.queue[i]) {
      if t.consumer.Asleep? && s.queue != [] {
        assert t.queue[i] == s.queue[i] && Announced(s, s.queue[i]);
      }
    }
  }

  lemma SleepKeeps(s: Session, a: Act, t: Session)
    requires LockInv(s) && SleepInv(s) && Step(s, a, t)
    ensures SleepInv(t)
  {
    hide ThreadStep, LoopStep;
    if IsThreadAct(a) {
      if s.sender.Sleeping? && !s.token {
        var k :| 0 <= k < |s.threads| && Releases(s.threads[k]);
        ThreadReleases(s, a, t, k);
      } else {
        ThreadMsgs(s, a, t);
        ThreadToken(s, a, t);
      }
    } else {
      LoopSleeps(s, a, t);
    }
  }

  /** A thread that stops releasing has left a token. */
  lemma ThreadReleases(s: Session, a: Act, t: Session, k: nat)
    requires IsThreadAct(a) && a.k < |s.threads| == |s.fell| == |s.gone| && ThreadStep(s, a.k, a, t)
    requires k < |s.threads| && Releases(s.threads[k])
    ensures |t.threads| == |s.threads| && (Releases(t.threads[k]) || t.token)
  {
  }

  lemma ThreadToken(s: Session, a: Act, t: Session)
    requires IsThreadAct(a) && a.k < |s.threads| == |s.fell| == |s.gone| && ThreadStep(s, a.k, a, t)
    ensures s.token ==> t.token
  {
  }

  lemma LoopSleeps(s: Session, a: Act, t: Session)
    requires LockInv(s) && SleepInv(s) && LoopStep(s, a, t)
    ensures SleepInv(t)
  {
    hide Pipe;
    LoopMsgs(s, a, t);
    if a.TryLock? && s.writing {
      assert s.holder.Thread? && ThreadOk(s, s.holder.k);
      assert Releases(t.threads[s.holder.k]);
    } else if t.sender.Sleeping? && !t.token && Releasing(s) {
      var k :| 0 <= k < |s.threads| && Releases(s.threads[k]);
      assert Releases(t.threads[k]);
    }
  }

  /** Every step keeps all of it. */
  lemma StepKeeps(s: Session, a: Act, t: Session)
    requires Inv(s) && Step(s, a, t)
    ensures Inv(t)
  {
    hide LockInv, WireInv, FlagInv, QueueInv, SleepInv, Step;
    LockKeeps(s, a, t);
    WireKeeps(s, a, t);
    FlagKeeps(s, a, t);
    QueueKeeps(s, a, t);
    SleepKeeps(s, a, t);
  }

  ghost predicate Init(s: Session)
  {
    && s.poll != [] && s.room > 0 && s.queue == [] && !s.flag && |s.fell| == |s.gone| == |s.threads|
    && (forall k :: 0 <= k < |s.threads| ==> s.threads[k] == Idle && !s.fell[k] && !s.gone[k])
    && !s.writing && s.holder == Nobody && !s.token && s.sendCh == [] && s.sender == Waiting
    && s.wire == [] && s.sent == [] && s.handled == 0 && s.consumer == Asleep && s.accepted == [] && s.delivered == []
  }

  ghost predicate Path(tr: seq<Session>, acts: seq<Act>)
  {
    && |tr| == |acts| + 1
    && forall i :: 0 <= i < |acts| ==> Step(tr[i], acts[i], tr[i + 1])
  }

  lemma InitOk(s: Session)
    requires Init(s)
    ensures Inv(s)
  {
    forall k | 0 <= k < |s.threads| ensures ThreadOk(s, k) {
      assert s.threads[k] == Idle;
    }
  }

  lemma {:induction false} PathKeeps(tr: seq<Session>, acts: seq<Act>, i: nat)
    requires Path(tr, acts) && Inv(tr[0]) && i < |tr|
    ensures Inv(tr[i])
  {
    hide Inv, Step;
    if i > 0 {
      PathKeeps(tr, acts, i - 1);
      StepKeeps(tr[i - 1], acts[i - 1], tr[i]);
    }
  }

  /**
   No lost wake-up: in every reachable state with a message in the queue and the consumer asleep,
   a polling frame is on its way to the consumer, or a thread has one to send, or the thread that
   put a message is about to look at the working flag.
   */
  lemma NoLostWakeUp(tr: seq<Session>, acts: seq<Act>, i: nat)
    requires Path(tr, acts) && Init(tr[0]) && i < |tr| && tr[i].queue != [] && tr[i].consumer.Asleep?
    ensures tr[i].handled <= |tr[i].sent|
    ensures HasPoll(Pipe(tr[i])) || Carrying(tr[i])
      || exists k :: 0 <= k < |tr[i].threads| && tr[i].threads[k].Marking?
  {
    hide Init, Path, WireInv, HasPoll, Carrying, Pipe, SleepInv;
    InitOk(tr[0]);
    PathKeeps(tr, acts, i);
    assert Announced(tr[i], tr[i].queue[0]);
  }

  /**
   No lost notification: in every reachable state the send goroutine sleeps only while a token is
   there, or a thread holds the writing flag or has released it and is about to leave a token.
   */
  lemma SleepsForAReason(tr: seq<Session>, acts: seq<Act>, i: nat)
    requires Path(tr, acts) && Init(tr[0]) && i < |tr| && tr[i].sender.Sleeping?
    ensures tr[i].token
      || exists k :: 0 <= k < |tr[i].threads| && (tr[i].threads[k].Fast? || tr[i].threads[k].Notifying?)
  {
    hide Init, Path, LockInv, WireInv, FlagInv, QueueInv;
    InitOk(tr[0]);
    PathKeeps(tr, acts, i);
    if !tr[i].token {
      var k :| 0 <= k < |tr[i].threads| && Releases(tr[i].threads[k]);
      assert tr[i].threads[k].Fast? || tr[i].threads[k].Notifying?;
    }
  }

  /** Frames are whole on the wire and at most one is being written, in every reachable state. */
  lemma WholeFrames(tr: seq<Session>, acts: seq<Act>, i: nat, k: nat, j: nat)
    requires Path(tr, acts) && Init(tr[0]) && i < |tr| && k < |tr[i].threads| && j < |tr[i].threads|
    ensures tr[i].wire == Joined(tr[i].sent) + Part(tr[i])
    ensures tr[i].threads[k].Fast? ==> tr[i].writing && !tr[i].sender.Sending? && (tr[i].threads[j].Fast? ==> j == k)
  {
    hide Init, Path, FlagInv, QueueInv, SleepInv, Joined;
    InitOk(tr[0]);
    PathKeeps(tr, acts, i);
    if tr[i].threads[k].Fast? {
      OneWriter(tr[i], k, j);
    }
  }
}
