/**
 The close notice of a stream goes through the queue even when the stream's data goes over the
 socket. It is taken in after all the data exactly when, at the time of the close, every frame of
 the stream that is still on its way is sure to be handled before the queue is looked at again.
 */
module CloseNotice {
  import opened SessionProtocol
  import opened SessionProgress
  import opened FallbackOrder

  /** A thread has a polling frame and may still get it ahead of what waits for the send goroutine. */
  ghost predicate Jumper(s: Session)
  {
    exists k :: 0 <= k < |s.threads| && Jumps(s.threads[k])
  }

  predicate Jumps(pc: Thread)
  {
    pc.Won? && pc.f.kind.Polling?
  }

  /** The frame at position `j` of the pipe will be handled before the consumer looks at the queue. */
  ghost predicate Ahead(s: Session, j: nat)
    requires s.handled <= |s.sent| && j < |Pipe(s)|
  {
    && s.consumer.Asleep? && !HasPoll(Pipe(s)[..j])
    && (j < |Front(s)| || (s.flag && !Jumper(s)))
  }

  /** It is safe for stream `f` to close now. */
  ghost predicate Settled(s: Session, f: nat)
    requires s.handled <= |s.sent|
  {
    forall j :: 0 <= j < |Pipe(s)| && IsFallback(Pipe(s)[j], f) ==> Ahead(s, j)
  }

  // ---------- settled streams stay settled ----------

  /** Nobody is about to hand over another frame of `f`. */
  predicate NoMore(s: Session, f: nat)
  {
    f < |s.threads| && !(s.threads[f].Slow? && s.threads[f].f.kind.Fallback?)
  }

  /** Where a frame of the pipe was before the step. */
  lemma Earlier(s: Session, a: Act, t: Session, f: nat, j: nat) returns (i: nat)
    requires LockInv(s) && Step(s, a, t) && NoMore(s, f)
    requires t.handled <= |t.sent| && j < |Pipe(t)| && IsFallback(Pipe(t)[j], f)
    ensures i < |Pipe(s)| && Pipe(s)[i] == Pipe(t)[j]
    ensures a.TryFast? && !s.writing ==> i == if j < |Front(s)| then j else j - 1
    ensures a.TryFast? && !s.writing ==> j != |Front(s)|
    ensures a.Handle? ==> i == j + 1
    ensures !(a.TryFast? && !s.writing) && !a.Handle? ==> i == j
  {
    hide Front, Back, SenderOk, ThreadOk, Step, IsFallback;
    PipeStep(s, a, t);
    MsgStep(s, a, t);
    if a.TryFast? && !s.writing {
      PushedFrame(s, a, t, f);
      PipeParts(s);
      var n := |Front(s)|;
      assert (Front(s) + [s.threads[a.k].f] + Back(s))[n] == s.threads[a.k].f;
      i := if j < n then j else j - 1;
    } else if a.Push? {
      PushedFrame(s, a, t, f);
      assert (Pipe(s) + [s.threads[a.k].f])[|Pipe(s)|] == s.threads[a.k].f;
      i := j;
    } else if a.Handle? {
      i := j + 1;
    } else {
      i := j;
    }
  }

  /** The front of the pipe only loses what is handled. */
  lemma FrontStep(s: Session, a: Act, t: Session)
    requires LockInv(s) && Step(s, a, t)
    ensures t.handled <= |t.sent|
    ensures |Front(t)| >= if a.Handle? then |Front(s)| - 1 else |Front(s)|
    ensures a.TryFast? && !s.writing ==> |Front(t)| == |Front(s)| + 1
  {
    hide Front, SenderOk, ThreadOk, Step;
    if IsThreadAct(a) {
      ThreadFront(s, a, t);
    } else {
      LoopFront(s, a, t);
    }
  }

  /** With the flag up and nobody carrying a frame that can jump, nobody comes to carry one. */
  lemma JumperStep(s: Session, a: Act, t: Session)
    requires Step(s, a, t) && s.consumer.Asleep? && s.flag && !Jumper(s)
    ensures t.flag && !Jumper(t) && (a.TryFast? ==> !s.threads[a.k].f.kind.Polling?)
  {
    if IsThreadAct(a) {
      assert ThreadStep(s, a.k, a, t);
      assert !Jumps(s.threads[a.k]);
      forall k | 0 <= k < |t.threads| ensures !Jumps(t.threads[k]) {
        assert !Jumps(s.threads[k]);
      }
    } else {
      assert LoopStep(s, a, t);
    }
  }

  /** The consumer sleeps on unless a polling frame is handled. */
  lemma StillAsleep(s: Session, a: Act, t: Session)
    requires Step(s, a, t) && s.consumer.Asleep?
    ensures a.Handle? ==> s.handled < |s.sent|
    ensures t.consumer.Asleep? || (a.Handle? && s.sent[s.handled].kind.Polling?)
  {
    if IsThreadAct(a) {
      assert ThreadStep(s, a.k, a, t);
    } else {
      assert LoopStep(s, a, t);
    }
  }

  lemma AheadKeeps(s: Session, a: Act, t: Session, f: nat, i: nat, j: nat)
    requires LockInv(s) && LockInv(t) && Step(s, a, t)
    requires i < |Pipe(s)| && j < |Pipe(t)| && Ahead(s, i)
    requires a.TryFast? && !s.writing ==> i == (if j < |Front(s)| then j else j - 1) && j != |Front(s)|
    requires a.Handle? ==> i == j + 1
    requires !(a.TryFast? && !s.writing) && !a.Handle? ==> i == j
    ensures Ahead(t, j)
  {
    hide SenderOk, ThreadOk, Front, Back, Step, HasPoll, Jumper;
    StillAsleep(s, a, t);
    FrontStep(s, a, t);
    PipeStep(s, a, t);
    if s.flag && !Jumper(s) {
      JumperStep(s, a, t);
    }
    MsgStep(s, a, t);
    BeforeKeeps(s, a, t, i, j);
  }

  /** No polling frame gets in front of the frame. */
  lemma BeforeKeeps(s: Session, a: Act, t: Session, i: nat, j: nat)
    requires LockInv(s) && Step(s, a, t) && t.handled <= |t.sent|
    requires i < |Pipe(s)| && j < |Pipe(t)| && !HasPoll(Pipe(s)[..i])
    requires i < |Front(s)| || (a.TryFast? ==> !s.threads[a.k].f.kind.Polling?)
    requires a.TryFast? && !s.writing ==> i == (if j < |Front(s)| then j else j - 1) && j != |Front(s)|
    requires a.Handle? ==> i == j + 1
    requires !(a.TryFast? && !s.writing) && !a.Handle? ==> i == j
    ensures !HasPoll(Pipe(t)[..j])
    ensures a.Handle? ==> !s.sent[s.handled].kind.Polling?
  {
    hide SenderOk, ThreadOk, Front, Back, Step;
    PipeStep(s, a, t);
    MsgStep(s, a, t);
    PipeParts(s);
    var before, after := Pipe(s)[..i], Pipe(t)[..j];
    if a.Handle? {
      assert before[0] == s.sent[s.handled];
    }
    forall m | 0 <= m < j ensures !after[m].kind.Polling? {
      if a.TryFast? && !s.writing {
        var n := |Front(s)|;
        assert Pipe(t)[m] == if m < n then Pipe(s)[m] else if m == n then s.threads[a.k].f else Pipe(s)[m - 1];
        assert m < n ==> before[m] == Pipe(s)[m];
        assert m > n ==> before[m - 1] == Pipe(s)[m - 1];
      } else if a.Handle? {
        assert Pipe(t)[m] == Pipe(s)[m + 1] == before[m + 1];
      } else {
        assert Pipe(t)[m] == Pipe(s)[m] == before[m];
      }
    }
  }

  lemma SettledKeeps(s: Session, a: Act, t: Session, f: nat)
    requires LockInv(s) && LockInv(t) && Step(s, a, t) && NoMore(s, f) && Settled(s, f)
    ensures Settled(t, f)
  {
    hide SenderOk, ThreadOk, Front, Back, Step, HasPoll, Jumper, Ahead, IsFallback;
    forall j | 0 <= j < |Pipe(t)| && IsFallback(Pipe(t)[j], f) ensures Ahead(t, j) {
      var i := Earlier(s, a, t, f, j);
      AheadKeeps(s, a, t, f, i, j);
    }
  }

  // ---------- the notice comes last ----------

  /** No data of `f` is behind its notice in the queue. */
  ghost predicate LastInQueue(s: Session, f: nat)
  {
    forall i, j :: 0 <= i < j < |s.queue| && s.queue[i] == Bye(f) ==> !IsData(s.queue[j], f)
  }

  ghost predicate GoneOk(s: Session, f: nat)
    requires f < |s.threads| == |s.gone|
  {
    && (Bye(f) in s.queue || Bye(f) in s.delivered ==> s.gone[f])
    && (s.gone[f] ==> NoMore(s, f))
  }

  /** While the notice is queued the stream is settled; once it is taken in nothing is left behind. */
  ghost predicate ByeInv(s: Session, f: nat)
    requires LockInv(s) && f < |s.threads|
  {
    && GoneOk(s, f) && LastInQueue(s, f)
    && (Bye(f) in s.queue ==> Settled(s, f))
    && (Bye(f) in s.delivered ==> NothingLeft(s, f))
  }

  ghost predicate NothingLeft(s: Session, f: nat)
    requires s.handled <= |s.sent|
  {
    && (forall j :: 0 <= j < |s.queue| ==> !IsData(s.queue[j], f))
    && (forall j :: 0 <= j < |Pipe(s)| ==> !IsFallback(Pipe(s)[j], f))
  }

  /** What a step does to the streams that have closed. */
  lemma GoneStep(s: Session, a: Act, t: Session, f: nat)
    requires LockInv(s) && Step(s, a, t) && f < |s.threads|
    ensures |t.threads| == |s.threads| == |t.gone|
    ensures t.gone[f] == (s.gone[f] || a == Leave(f))
    ensures s.gone[f] ==> a != Leave(f) && !(a.Put? && a.k == f) && !(a.FallBack? && a.k == f)
    ensures a == Leave(f) ==> s.threads[f].Idle? && t.threads[f].Marking?
    ensures NoMore(s, f) && !(a.FallBack? && a.k == f) ==> NoMore(t, f)
  {
    hide SenderOk, ThreadOk;
    if IsThreadAct(a) {
      assert ThreadStep(s, a.k, a, t);
    } else {
      assert LoopStep(s, a, t);
    }
    if !NoMore(t, f) {
      SlowStep(s, a, t, f);
    }
  }

  /** Where a notice in the queue or among what was taken in comes from. */
  lemma ByeStep(s: Session, a: Act, t: Session, f: nat)
    requires LockInv(s) && Step(s, a, t)
    requires forall j :: 0 <= j < |Pipe(s)| ==> FrameData(Pipe(s)[j])
    ensures Bye(f) in t.queue ==> Bye(f) in s.queue || a == Leave(f)
    ensures Bye(f) in t.delivered ==> Bye(f) in s.delivered || (a.Pop? && s.queue != [] && s.queue[0] == Bye(f))
  {
    hide SenderOk, ThreadOk, Step, Pipe, Front, Back;
    MsgStep(s, a, t);
    if a.Handle? {
      PipeStep(s, a, t);
      assert Pipe(s)[0] == s.sent[s.handled];
    }
  }

  /** A fallback frame carries data, never a notice. */
  predicate FrameData(x: Frame)
  {
    x.kind.Fallback? ==> x.kind.m.Msg?
  }

  ghost predicate FramesOk(s: Session)
    requires s.handled <= |s.sent|
  {
    && (forall j :: 0 <= j < |Pipe(s)| ==> FrameData(Pipe(s)[j]))
    && (forall k :: 0 <= k < |s.threads| && s.threads[k].Slow? ==> FrameData(s.threads[k].f))
  }

  lemma FramesKeep(s: Session, a: Act, t: Session)
    requires LockInv(s) && LockInv(t) && Step(s, a, t) && FramesOk(s)
    ensures FramesOk(t)
  {
    hide SenderOk, ThreadOk, Front, Back, Pipe, FrameData;
    PipeStep(s, a, t);
    forall k | 0 <= k < |t.threads| && t.threads[k].Slow? ensures FrameData(t.threads[k].f) {
      SlowData(s, a, t, k);
    }
    forall j | 0 <= j < |Pipe(t)| ensures FrameData(Pipe(t)[j]) {
      PipeData(s, a, t, j);
    }
  }

  lemma SlowData(s: Session, a: Act, t: Session, k: nat)
    requires LockInv(s) && Step(s, a, t) && k < |t.threads| == |s.threads| && t.threads[k].Slow?
    requires s.threads[k].Slow? ==> FrameData(s.threads[k].f)
    ensures FrameData(t.threads[k].f)
  {
    hide SenderOk, ThreadOk;
    if t.threads[k].f.kind.Fallback? {
      SlowStep(s, a, t, k);
      if a.FallBack? && a.k == k {
        assert ThreadStep(s, k, a, t);
      }
    }
  }

  lemma PipeData(s: Session, a: Act, t: Session, j: nat)
    requires LockInv(s) && t.handled <= |t.sent| && Step(s, a, t) && FramesOk(s) && j < |Pipe(t)|
    ensures FrameData(Pipe(t)[j])
  {
    hide SenderOk, Step, Front, Back, Pipe, FrameData;
    PipeStep(s, a, t);
    MsgStep(s, a, t);
    if a.TryFast? && !s.writing {
      PipeParts(s);
      WonData(s, a.k);
      var n := |Front(s)|;
      assert Pipe(t)[j] == if j < n then Pipe(s)[j] else if j == n then s.threads[a.k].f else Pipe(s)[j - 1];
    } else if a.Push? {
      assert FrameData(s.threads[a.k].f);
      assert Pipe(t)[j] == if j < |Pipe(s)| then Pipe(s)[j] else s.threads[a.k].f;
    } else if a.Handle? {
      assert Pipe(t)[j] == Pipe(s)[j + 1];
    }
  }

  lemma WonData(s: Session, k: nat)
    requires LockInv(s) && k < |s.threads| && s.threads[k].Won?
    ensures FrameData(s.threads[k].f)
  {
    assert ThreadOk(s, k);
  }

  lemma LastKeeps(s: Session, a: Act, t: Session, f: nat)
    requires LockInv(s) && Step(s, a, t) && f < |s.threads| && GoneOk(s, f) && LastInQueue(s, f)
    ensures LastInQueue(t, f)
  {
    hide LockInv, Step, NoMore;
    MsgStep(s, a, t);
    GoneStep(s, a, t, f);
    forall i, j | 0 <= i < j < |t.queue| && t.queue[i] == Bye(f) ensures !IsData(t.queue[j], f) {
      if a.Pop? {
        assert t.queue[i] == s.queue[i + 1] && t.queue[j] == s.queue[j + 1];
      } else if i < j < |s.queue| {
        assert t.queue[i] == s.queue[i] && t.queue[j] == s.queue[j];
      } else {
        assert t.queue[i] == s.queue[i];
      }
    }
  }

  lemma LeftKeeps(s: Session, a: Act, t: Session, f: nat)
    requires LockInv(s) && LockInv(t) && Step(s, a, t) && f < |s.threads| && s.gone[f] && NoMore(s, f)
    requires NothingLeft(s, f)
    ensures NothingLeft(t, f)
  {
    hide SenderOk, ThreadOk, Step, Pipe, IsFallback;
    MsgStep(s, a, t);
    GoneStep(s, a, t, f);
    forall j | 0 <= j < |Pipe(t)| ensures !IsFallback(Pipe(t)[j], f) {
      if IsFallback(Pipe(t)[j], f) {
        var i := Earlier(s, a, t, f, j);
      }
    }
  }

  /** The notice is popped: the consumer is awake, so no frame of the stream is on its way. */
  lemma PoppedLast(s: Session, a: Act, t: Session, f: nat)
    requires LockInv(s) && LockInv(t) && Step(s, a, t) && f < |s.threads| && a.Pop?
    requires LastInQueue(s, f) && Settled(s, f) && s.queue != [] && s.queue[0] == Bye(f)
    ensures NothingLeft(t, f)
  {
    hide SenderOk, ThreadOk, Front, Back, Pipe, IsFallback, Jumper;
    PipeStep(s, a, t);
    assert LoopStep(s, a, t);
    forall j | 0 <= j < |t.queue| ensures !IsData(t.queue[j], f) {
      assert t.queue[j] == s.queue[j + 1];
    }
  }

  lemma ByeKeeps(s: Session, a: Act, t: Session, f: nat)
    requires LockInv(s) && LockInv(t) && FramesOk(s) && Step(s, a, t) && f < |s.threads| == |t.threads|
    requires ByeInv(s, f) && (a == Leave(f) ==> Settled(s, f))
    ensures ByeInv(t, f)
  {
    hide SenderOk, ThreadOk, Step, Pipe, IsFallback, Settled, NothingLeft, LastInQueue, NoMore;
    ByeStep(s, a, t, f);
    GoneStep(s, a, t, f);
    LastKeeps(s, a, t, f);
    if s.gone[f] || a == Leave(f) {
      LeavesIdle(s, f);
    }
    if Bye(f) in t.queue {
      SettledKeeps(s, a, t, f);
    }
    if Bye(f) in t.delivered {
      if Bye(f) in s.delivered {
        LeftKeeps(s, a, t, f);
      } else {
        assert Bye(f) in s.queue;
        PoppedLast(s, a, t, f);
      }
    }
  }

  lemma LeavesIdle(s: Session, f: nat)
    requires f < |s.threads| == |s.gone| && ((s.gone[f] && NoMore(s, f)) || s.threads[f].Idle?)
    ensures NoMore(s, f)
  {
  }

  lemma {:induction false} PathBye(tr: seq<Session>, acts: seq<Act>, i: nat, f: nat)
    requires Path(tr, acts) && Init(tr[0]) && i < |tr| && f < |tr[0].threads|
    requires forall j :: 0 <= j < i && acts[j] == Leave(f) ==> tr[j].handled <= |tr[j].sent| && Settled(tr[j], f)
    ensures LockInv(tr[i]) && FramesOk(tr[i]) && f < |tr[i].threads| && ByeInv(tr[i], f)
  {
    hide Init, LockInv, Step, FramesOk, ByeInv, Settled;
    if i == 0 {
      InitBye(tr[0], f);
    } else {
      PathBye(tr, acts, i - 1, f);
      LockKeeps(tr[i - 1], acts[i - 1], tr[i]);
      FramesKeep(tr[i - 1], acts[i - 1], tr[i]);
      GoneStep(tr[i - 1], acts[i - 1], tr[i], f);
      ByeKeeps(tr[i - 1], acts[i - 1], tr[i], f);
    }
  }

  lemma InitBye(s: Session, f: nat)
    requires Init(s) && f < |s.threads|
    ensures LockInv(s) && FramesOk(s) && ByeInv(s, f)
  {
    InitOk(s);
    assert Pipe(s) == [];
    assert s.threads[f] == Idle;
  }

  /** The messages of a stream, counted. */
  lemma {:induction false} OfCount(f: nat, ms: seq<Msg>, m: Msg)
    ensures multiset(Of(f, ms))[m] == if IsData(m, f) then multiset(ms)[m] else 0
  {
    hide IsData;
    if ms != [] {
      var n := |ms| - 1;
      var last := if IsData(ms[n], f) then [ms[n]] else [];
      OfCount(f, ms[..n], m);
      assert ms == ms[..n] + [ms[n]];
      CountBoth(ms[..n], [ms[n]], m);
      CountBoth(Of(f, ms[..n]), last, m);
    }
  }

  lemma CountBoth(a: seq<Msg>, b: seq<Msg>, m: Msg)
    ensures multiset(a + b)[m] == multiset(a)[m] + multiset(b)[m]
  {
  }

  lemma {:induction false} NoneOf(f: nat, ms: seq<Msg>)
    requires forall j :: 0 <= j < |ms| ==> !IsData(ms[j], f)
    ensures Of(f, ms) == []
  {
    if ms != [] {
      NoneOf(f, ms[..|ms| - 1]);
    }
  }

  /** What was delivered, when nothing of the stream is left anywhere, is all that was handed over. */
  lemma AllTaken(s: Session, f: nat)
    requires LockInv(s) && Conserved(s) && NothingLeft(s, f)
    ensures multiset(Of(f, s.delivered)) == multiset(Of(f, s.accepted))
    ensures InOrder(s, f) ==> Of(f, s.delivered) == Of(f, s.accepted)
  {
    hide SenderOk, ThreadOk, Pipe, Carried, Of;
    NoneOf(f, s.queue);
    NoneCarried(f, Pipe(s));
    forall m: Msg ensures multiset(Of(f, s.delivered))[m] == multiset(Of(f, s.accepted))[m] {
      OfCount(f, s.delivered, m);
      OfCount(f, s.accepted, m);
      OfCount(f, s.queue, m);
      OfCount(f, Carried(Pipe(s)), m);
      assert multiset(s.accepted)[m]
          == (multiset(s.delivered) + multiset(s.queue) + multiset(Carried(Pipe(s))))[m];
    }
  }

  /**
   The end comes last: when a stream was settled at its close, the peer takes in the close notice
   only after all data the stream has handed over, in order when its fallbacks were careful.
   */
  lemma ByeComesLast(tr: seq<Session>, acts: seq<Act>, i: nat, f: nat)
    requires Path(tr, acts) && Init(tr[0]) && i < |tr| && f < |tr[0].threads|
    requires forall j :: 0 <= j < i && acts[j] == Leave(f) ==> tr[j].handled <= |tr[j].sent| && Settled(tr[j], f)
    requires Bye(f) in tr[i].delivered
    ensures multiset(Of(f, tr[i].delivered)) == multiset(Of(f, tr[i].accepted))
    ensures Orderly(tr, acts) ==> Of(f, tr[i].delivered) == Of(f, tr[i].accepted)
  {
    hide Init, Step, Settled, Orderly, Covered, HandOverOk, Unmixed, NothingLeft, Inv, Conserved, InOrder, SenderOk,
         ThreadOk, Of;
    PathBye(tr, acts, i, f);
    PathConserves(tr, acts, i);
    AllTaken(tr[i], f);
    if Orderly(tr, acts) {
      OrderlyKeeps(tr, acts, i, f);
    }
  }

  /** A stream that has not fallen back is always settled. */
  lemma {:induction false} OnTheQueue(tr: seq<Session>, acts: seq<Act>, i: nat, f: nat)
    requires Path(tr, acts) && Init(tr[0]) && i < |tr| && f < |tr[0].threads|
    ensures LockInv(tr[i]) && f < |tr[i].threads| && Unmixed(tr[i], f)
    ensures !tr[i].fell[f] ==> Settled(tr[i], f)
  {
    hide Init, Step, SenderOk, ThreadOk, Pipe, IsFallback, Ahead;
    if i == 0 {
      InitOk(tr[0]);
      InitStream(tr[0], f);
    } else {
      OnTheQueue(tr, acts, i - 1, f);
      LockKeeps(tr[i - 1], acts[i - 1], tr[i]);
      MsgStep(tr[i - 1], acts[i - 1], tr[i]);
      UnmixedKeeps(tr[i - 1], acts[i - 1], tr[i], f);
    }
  }

  // ---------- and otherwise it need not ----------

  /** The notice has been taken in while data of its stream is still on its way. */
  ghost predicate TooEarly(s: Session, f: nat)
    requires s.handled <= |s.sent|
  {
    Bye(f) in s.delivered && OnItsWay(s, f)
  }

  ghost predicate OnItsWay(s: Session, f: nat)
    requires s.handled <= |s.sent|
  {
    exists j :: 0 <= j < |Pipe(s)| && IsFallback(Pipe(s)[j], f)
  }

  function Distance(c: Consumer): nat
  {
    match c
    case Asleep => 4
    case Clearing => 3
    case Checking => 2
    case Setting => 1
    case Popping => 0
  }

  /** A consumer that is awake comes to the notice before it looks at another frame. */
  lemma {:induction false} PopsNotice(s: Session, f: nat) returns (tr: seq<Session>, acts: seq<Act>)
    requires |s.threads| == |s.fell| == |s.gone| && s.handled <= |s.sent| && !s.consumer.Asleep? && Bye(f) in s.queue
    ensures Path(tr, acts) && tr[0] == s
    ensures var u := tr[|tr| - 1]; u.handled <= |u.sent| && Pipe(u) == Pipe(s) && Bye(f) in u.delivered
    decreases |s.queue|, Distance(s.consumer)
  {
    hide Pipe, IsThreadAct;
    var a, t := ConsumerGoes(s);
    if a == Pop && s.queue[0] == Bye(f) {
      tr, acts := [s, t], [a];
    } else {
      assert Bye(f) in t.queue;
      var tr', acts' := PopsNotice(t, f);
      tr, acts := [s] + tr', [a] + acts';
      PathCons(s, a, tr', acts');
    }
  }

  lemma ConsumerGoes(s: Session) returns (a: Act, t: Session)
    requires |s.threads| == |s.fell| == |s.gone| && s.handled <= |s.sent| && !s.consumer.Asleep? && s.queue != []
    ensures Step(s, a, t) && !t.consumer.Asleep? && t.handled <= |t.sent| && Pipe(t) == Pipe(s)
    ensures |t.threads| == |t.fell| == |t.gone|
    ensures if a == Pop then t.queue == s.queue[1..] && s.queue[0] in t.delivered
            else t.queue == s.queue && Distance(t.consumer) < Distance(s.consumer)
  {
    hide Pipe;
    match s.consumer {
      case Popping =>
        a, t := Pop, s.(queue := s.queue[1..], delivered := s.delivered + [s.queue[0]]);
      case Clearing =>
        a, t := ClearFlag, s.(flag := false, consumer := Checking);
      case Checking =>
        a, t := CheckSize, s.(consumer := Setting);
      case Setting =>
        a, t := SetFlag, s.(flag := true, consumer := Popping);
    }
    SamePipe(s, t);
  }

  lemma SamePipe(s: Session, t: Session)
    requires s.handled <= |s.sent|
    requires t == s.(queue := t.queue, flag := t.flag, consumer := t.consumer, delivered := t.delivered)
    ensures Pipe(t) == Pipe(s)
  {
  }

  /** With a polling frame ahead of a frame of `f`, the consumer wakes up before it handles that frame. */
  lemma {:induction false} WakesFirst(s: Session, f: nat, j: nat) returns (tr: seq<Session>, acts: seq<Act>)
    requires Inv(s) && s.consumer.Asleep? && s.handled <= |s.sent|
    requires j < |Pipe(s)| && IsFallback(Pipe(s)[j], f) && HasPoll(Pipe(s)[..j])
    ensures Path(tr, acts) && tr[0] == s
    ensures var u := tr[|tr| - 1];
      Inv(u) && u.handled <= |u.sent| && u.consumer.Popping? && u.queue == s.queue && OnItsWay(u, f)
    decreases Work(s)
  {
    hide Step, Inv, HasPoll, Work, Pipe, IsFallback, OnItsWay;
    InvLock(s);
    var a, t := PipeMoves(s);
    StepDecreases(s, a, t);
    StepKeeps(s, a, t);
    InvLock(t);
    var i := Nearer(s, a, t, f, j);
    if t.consumer.Popping? {
      assert OnItsWay(t, f) by { Here(t, f, i); }
      tr, acts := [s, t], [a];
    } else {
      var tr', acts' := WakesFirst(t, f, i);
      tr, acts := [s] + tr', [a] + acts';
      PathCons(s, a, tr', acts');
    }
  }

  lemma Here(s: Session, f: nat, j: nat)
    requires s.handled <= |s.sent| && j < |Pipe(s)| && IsFallback(Pipe(s)[j], f)
    ensures OnItsWay(s, f)
  {
  }

  lemma Nearer(s: Session, a: Act, t: Session, f: nat, j: nat) returns (i: nat)
    requires LockInv(s) && LockInv(t) && Step(s, a, t) && s.consumer.Asleep? && !a.TryFast? && !a.Push?
    requires j < |Pipe(s)| && IsFallback(Pipe(s)[j], f) && HasPoll(Pipe(s)[..j])
    ensures i < |Pipe(t)| && IsFallback(Pipe(t)[i], f)
    ensures t.consumer.Popping? || (t.consumer.Asleep? && HasPoll(Pipe(t)[..i]))
  {
    hide SenderOk, ThreadOk, Pipe, IsFallback;
    PipeStep(s, a, t);
    StillAsleep(s, a, t);
    if a.Handle? {
      assert j != 0;
      i := j - 1;
      assert Pipe(t)[i] == Pipe(s)[j];
      var m :| 0 <= m < j && Pipe(s)[..j][m].kind.Polling?;
      assert m == 0 || Pipe(t)[..i][m - 1] == Pipe(s)[..j][m];
      assert LoopStep(s, a, t);
    } else {
      i := j;
    }
  }

  /** Whoever is writing finishes, and nothing else happens. */
  ghost predicate Freed(s: Session, u: Session)
    requires s.handled <= |s.sent|
  {
    && Inv(u) && !u.writing && u.handled <= |u.sent| && Front(u) == Front(s) && Back(u) == Back(s)
    && u.queue == s.queue && u.consumer == s.consumer && |u.threads| == |s.threads|
    && forall k :: 0 <= k < |s.threads| && s.threads[k].Won? ==> u.threads[k] == s.threads[k]
  }

  lemma {:induction false} Unlocks(s: Session) returns (tr: seq<Session>, acts: seq<Act>)
    requires Inv(s) && s.handled <= |s.sent|
    ensures Path(tr, acts) && tr[0] == s && Freed(s, tr[|tr| - 1])
    decreases Work(s)
  {
    hide Step, Inv, Work, Front, Back;
    InvLock(s);
    if !s.writing {
      tr, acts := [s], [];
    } else {
      var a, t := WriterGoes(s);
      StepDecreases(s, a, t);
      StepKeeps(s, a, t);
      var tr', acts' := Unlocks(t);
      tr, acts := [s] + tr', [a] + acts';
      PathCons(s, a, tr', acts');
    }
  }

  lemma WriterGoes(s: Session) returns (a: Act, t: Session)
    requires LockInv(s) && s.writing
    ensures Step(s, a, t) && !Begins(a) && t.handled <= |t.sent| && Front(t) == Front(s) && Back(t) == Back(s)
    ensures t.queue == s.queue && t.consumer == s.consumer && |t.threads| == |s.threads|
    ensures forall k :: 0 <= k < |s.threads| && s.threads[k].Won? ==> t.threads[k] == s.threads[k]
  {
    hide Front, Back, SenderOk;
    if s.holder.Thread? {
      a, t := HolderMoves(s);
      assert ThreadStep(s, a.k, a, t);
      ThreadFront(s, a, t);
    } else {
      assert s.sender.Sending? by { LoopHolds(s); }
      a, t := SendingMoves(s);
      assert LoopStep(s, a, t);
      LoopFront(s, a, t);
    }
    BackStep(s, a, t);
  }

  lemma LoopHolds(s: Session)
    requires LockInv(s) && s.writing && !s.holder.Thread?
    ensures s.sender.Sending?
  {
  }

  /** A polling frame that can jump gets ahead of everything that waits for the send goroutine. */
  lemma JumpsAhead(s: Session, f: nat, j: nat, k: nat) returns (tr: seq<Session>, acts: seq<Act>)
    requires Inv(s) && s.handled <= |s.sent| && k < |s.threads| && Jumps(s.threads[k])
    requires |Front(s)| <= j < |Pipe(s)| && IsFallback(Pipe(s)[j], f)
    ensures Path(tr, acts) && tr[0] == s
    ensures var u := tr[|tr| - 1];
      && Inv(u) && u.handled <= |u.sent| && u.consumer == s.consumer && u.queue == s.queue
      && j + 1 < |Pipe(u)| && IsFallback(Pipe(u)[j + 1], f) && HasPoll(Pipe(u)[..j + 1])
  {
    hide Step, Inv, Front, Back, HasPoll, IsFallback;
    var tr1, acts1 := Unlocks(s);
    var s1 := tr1[|tr1| - 1];
    var pc := s.threads[k];
    var u := s1.(writing := true, holder := Holder.Thread(k), threads := Set(s1, k, Fast(pc.f, 0)));
    InvLock(s1);
    assert Step(s1, TryFast(k), u) by { Tries(s1, k, pc.f, u); }
    StepKeeps(s1, TryFast(k), u);
    InvLock(u);
    PipeStep(s1, TryFast(k), u);
    PipeParts(s);
    var n := |Front(s)|;
    assert Pipe(u) == Front(s) + [pc.f] + Back(s);
    assert Pipe(u)[j + 1] == Pipe(s)[j];
    assert HasPoll(Pipe(u)[..j + 1]) by { PollAt(Pipe(u)[..j + 1], n); }
    tr, acts := tr1 + [u], acts1 + [TryFast(k)];
    PathSnoc(tr1, acts1, TryFast(k), u);
  }

  lemma Tries(s: Session, k: nat, f: Frame, u: Session)
    requires LockInv(s) && !s.writing && k < |s.threads| && s.threads[k] == Won(f)
    requires u == s.(writing := true, holder := Holder.Thread(k), threads := Set(s, k, Fast(f, 0)))
    ensures Step(s, TryFast(k), u)
  {
  }

  lemma PollAt(fs: seq<Frame>, n: nat)
    requires n < |fs| && fs[n].kind.Polling?
    ensures HasPoll(fs)
  {
  }

  lemma PathSnoc(tr: seq<Session>, acts: seq<Act>, a: Act, u: Session)
    requires Path(tr, acts) && Step(tr[|tr| - 1], a, u)
    ensures Path(tr + [u], acts + [a])
  {
    hide Step;
    forall i | 0 <= i < |acts + [a]| ensures Step((tr + [u])[i], (acts + [a])[i], (tr + [u])[i + 1]) {
      if i < |acts| {
        assert Step(tr[i], acts[i], tr[i + 1]);
      }
    }
  }

  /**
   The condition is exact: a stream that closes when it is not settled can be told closed before its
   last data arrives. There is a continuation in which the peer has taken in the notice while a
   fallback frame of the stream is still on its way.
   */
  lemma ByeOvertakes(s: Session, f: nat) returns (tr: seq<Session>, acts: seq<Act>)
    requires Inv(s) && s.handled <= |s.sent| && f < |s.threads| && s.threads[f].Idle? && !s.gone[f]
    requires !Settled(s, f)
    ensures Path(tr, acts) && tr[0] == s && acts != [] && acts[0] == Leave(f)
    ensures var u := tr[|tr| - 1]; u.handled <= |u.sent| && TooEarly(u, f)
  {
    hide Step, Inv, HasPoll, Pipe, Front, IsFallback, OnItsWay, Ahead;
    var j :| 0 <= j < |Pipe(s)| && IsFallback(Pipe(s)[j], f) && !Ahead(s, j);
    InvLock(s);
    var t := Left(s, f);
    StepKeeps(s, Leave(f), t);
    var tr1, acts1 := Awake(s, t, f, j);
    var u := tr1[|tr1| - 1];
    InvLock(u);
    var tr2, acts2 := PopsNotice(u, f);
    SameWay(u, tr2[|tr2| - 1], f);
    PathJoin(tr1, acts1, tr2, acts2);
    PathCons(s, Leave(f), tr1 + tr2[1..], acts1 + acts2);
    tr, acts := [s] + (tr1 + tr2[1..]), [Leave(f)] + (acts1 + acts2);
    assert tr[|tr| - 1] == tr2[|tr2| - 1];
  }

  lemma SameWay(s: Session, u: Session, f: nat)
    requires s.handled <= |s.sent| && u.handled <= |u.sent| && Pipe(u) == Pipe(s) && OnItsWay(s, f)
    ensures OnItsWay(u, f)
  {
  }

  lemma Left(s: Session, f: nat) returns (t: Session)
    requires LockInv(s) && f < |s.threads| && s.threads[f].Idle? && !s.gone[f]
    ensures Step(s, Leave(f), t) && t.handled == s.handled && t.sent == s.sent
    ensures Pipe(t) == Pipe(s) && Front(t) == Front(s) && t.consumer == s.consumer && t.flag == s.flag
    ensures Bye(f) in t.queue && t.threads == s.threads[f := Marking]
  {
    t := s.(queue := s.queue + [Bye(f)], accepted := s.accepted + [Bye(f)], gone := s.gone[f := true],
            threads := Set(s, f, Marking));
    assert t.queue[|s.queue|] == Bye(f);
    ThreadFront(s, Leave(f), t);
    PipeStep(s, Leave(f), t);
  }

  /** After an unsettled close the consumer can be woken while a frame of the stream is on its way. */
  lemma Awake(s: Session, t: Session, f: nat, j: nat) returns (tr: seq<Session>, acts: seq<Act>)
    requires LockInv(s) && f < |s.threads| && Inv(t) && t.threads == s.threads[f := Marking] && s.threads[f].Idle?
    requires j < |Pipe(s)| && IsFallback(Pipe(s)[j], f) && !Ahead(s, j) && t.handled <= |t.sent|
    requires Pipe(t) == Pipe(s) && Front(t) == Front(s) && t.consumer == s.consumer && t.flag == s.flag
    requires Bye(f) in t.queue
    ensures Path(tr, acts) && tr[0] == t
    ensures var u := tr[|tr| - 1];
      && Inv(u) && u.handled <= |u.sent| && !u.consumer.Asleep? && Bye(f) in u.queue && OnItsWay(u, f)
  {
    hide Step, Inv, HasPoll, Pipe, Front, IsFallback, OnItsWay, LockInv;
    if !t.consumer.Asleep? {
      assert OnItsWay(t, f) by { Here(t, f, j); }
      tr, acts := [t], [];
    } else if HasPoll(Pipe(t)[..j]) {
      tr, acts := WakesFirst(t, f, j);
    } else {
      var tr1, acts1, k := Carrier(s, t, f);
      var v := tr1[|tr1| - 1];
      var tr2, acts2 := JumpsAhead(v, f, j, k);
      PathJoin(tr1, acts1, tr2, acts2);
      var w := tr2[|tr2| - 1];
      var tr3, acts3 := WakesFirst(w, f, j + 1);
      assert (tr1 + tr2[1..])[|tr1 + tr2[1..]| - 1] == w;
      PathJoin(tr1 + tr2[1..], acts1 + acts2, tr3, acts3);
      tr, acts := tr1 + tr2[1..] + tr3[1..], acts1 + acts2 + acts3;
      assert tr[|tr| - 1] == tr3[|tr3| - 1];
    }
  }

  /** Somebody has a polling frame that can jump: another thread, or the one that closes. */
  lemma Carrier(s: Session, t: Session, f: nat) returns (tr: seq<Session>, acts: seq<Act>, k: nat)
    requires f < |s.threads| && Inv(t) && t.handled <= |t.sent| && t.threads == s.threads[f := Marking]
    requires s.threads[f].Idle? && t.flag == s.flag && !(s.flag && !Jumper(s))
    ensures Path(tr, acts) && tr[0] == t
    ensures var u := tr[|tr| - 1];
      && Inv(u) && u.handled <= |u.sent| && Pipe(u) == Pipe(t) && Front(u) == Front(t)
      && u.consumer == t.consumer && u.queue == t.queue && k < |u.threads| && Jumps(u.threads[k])
  {
    hide Inv, Pipe, Front;
    if s.flag {
      k :| 0 <= k < |s.threads| && Jumps(s.threads[k]);
      assert t.threads[k] == s.threads[k];
      tr, acts := [t], [];
    } else {
      k := f;
      InvLock(t);
      var u := t.(flag := true, threads := Set(t, f, Won(Frame(Polling, t.poll))));
      assert Step(t, Mark(f), u) by { MarkStep(t, f, u); }
      StepKeeps(t, Mark(f), u);
      PipeStep(t, Mark(f), u);
      ThreadFront(t, Mark(f), u);
      tr, acts := [t, u], [Mark(f)];
    }
  }

  lemma MarkStep(t: Session, f: nat, u: Session)
    requires LockInv(t) && f < |t.threads| && t.threads[f].Marking? && !t.flag
    requires u == t.(flag := true, threads := Set(t, f, Won(Frame(Polling, t.poll))))
    ensures Step(t, Mark(f), u)
  {
  }

  lemma Three(s: Session, x: Act, t: Session, y: Act, u: Session, z: Act, v: Session)
    requires Step(s, x, t) && Step(t, y, u) && Step(u, z, v)
    ensures Path([s, t, u, v], [x, y, z])
  {
    hide Step;
  }

  /** The first half of a flush over the queue: the thread holds the writing flag and a polling frame. */
  lemma QueuesFirst(s: Session, f: Frame) returns (tr: seq<Session>, acts: seq<Act>, t: Session)
    requires Init(s) && |s.threads| > 0 && f == Frame(Polling, s.poll)
    ensures Path(tr, acts) && tr[0] == s && tr[|tr| - 1] == t
    ensures t == s.(queue := [Msg(0, 0)], accepted := [Msg(0, 0)], flag := true, writing := true,
                    holder := Holder.Thread(0), threads := Set(s, 0, Fast(f, 0)))
  {
    assert s.threads[0] == Idle;
    var a := s.(queue := [Msg(0, 0)], accepted := [Msg(0, 0)], threads := Set(s, 0, Marking));
    var b := a.(flag := true, threads := Set(s, 0, Won(f)));
    t := b.(writing := true, holder := Holder.Thread(0), threads := Set(s, 0, Fast(f, 0)));
    assert Step(s, Put(0, 0), a);
    assert Step(a, Mark(0), b);
    assert Step(b, TryFast(0), t);
    Three(s, Put(0, 0), a, Mark(0), b, TryFast(0), t);
    tr, acts := [s, a, b, t], [Put(0, 0), Mark(0), TryFast(0)];
  }

  /** The second half: the frame is on the wire and the flag is free. */
  lemma WritesFirst(s: Session, f: Frame) returns (tr: seq<Session>, acts: seq<Act>, t: Session)
    requires |s.threads| == |s.fell| == |s.gone| > 0 && s.threads[0] == Fast(f, 0) && |f.bytes| > 0
    requires s.sent == [] && s.wire == []
    ensures Path(tr, acts) && tr[0] == s && tr[|tr| - 1] == t
    ensures t == s.(writing := false, holder := Nobody, token := true, wire := f.bytes, sent := [f],
                    threads := Set(s, 0, Idle))
  {
    var n := |f.bytes|;
    var a := s.(wire := f.bytes, sent := [f], threads := Set(s, 0, Fast(f, n)));
    var b := a.(writing := false, holder := Nobody, threads := Set(s, 0, Notifying));
    t := b.(token := true, threads := Set(s, 0, Idle));
    assert f.bytes[0..0 + n] == f.bytes;
    assert Step(s, WriteSome(0, n), a);
    assert Step(a, Unlock(0), b);
    assert Step(b, Notify(0), t);
    Three(s, WriteSome(0, n), a, Unlock(0), b, Notify(0), t);
    tr, acts := [s, a, b, t], [WriteSome(0, n), Unlock(0), Notify(0)];
  }

  /** A flush over the queue that wakes the peer: afterwards its polling frame is on the wire. */
  lemma FlushAndWake(s: Session) returns (tr: seq<Session>, acts: seq<Act>, t: Session)
    requires Init(s) && |s.threads| > 0
    ensures Path(tr, acts) && tr[0] == s && tr[|tr| - 1] == t
    ensures t == s.(queue := [Msg(0, 0)], accepted := [Msg(0, 0)], flag := true, token := true, wire := s.poll,
                    sent := [Frame(Polling, s.poll)])
  {
    hide Step;
    var f := Frame(Polling, s.poll);
    var u: Session;
    tr, acts, u := QueuesFirst(s, f);
    var tr2, acts2;
    tr2, acts2, t := WritesFirst(u, f);
    PathJoin(tr, acts, tr2, acts2);
    tr, acts := tr + tr2[1..], acts + acts2;
    assert s.threads[0] == Idle && Set(u, 0, Idle) == s.threads;
  }

  /** A flush that falls back: the send goroutine has taken its frame. */
  lemma HandsOver(s: Session, f: Frame) returns (tr: seq<Session>, acts: seq<Act>, t: Session)
    requires |s.threads| == |s.fell| == |s.gone| > 0 && s.threads[0].Idle? && !s.gone[0] && s.room > 0
    requires s.sendCh == [] && s.sender.Waiting? && f.kind == Fallback(Msg(0, 1)) && f.bytes != []
    ensures Path(tr, acts) && tr[0] == s && tr[|tr| - 1] == t
    ensures t == s.(fell := s.fell[0 := true], accepted := s.accepted + [Msg(0, 1)], sender := Trying(f))
  {
    var a := s.(threads := Set(s, 0, Slow(f)), fell := s.fell[0 := true]);
    var b := a.(sendCh := [f], threads := s.threads, accepted := s.accepted + [Msg(0, 1)]);
    t := b.(sender := Trying(f), sendCh := []);
    assert Set(a, 0, Idle) == s.threads;
    assert Step(s, FallBack(0, f), a);
    assert Step(a, Push(0), b);
    assert Step(b, Take, t);
    Three(s, FallBack(0, f), a, Push(0), b, Take, t);
    tr, acts := [s, a, b, t], [FallBack(0, f), Push(0), Take];
  }

  /** And has written it, so that the flush returns. */
  lemma Sends(s: Session, f: Frame) returns (tr: seq<Session>, acts: seq<Act>, t: Session)
    requires |s.threads| == |s.fell| == |s.gone| && !s.writing && s.holder == Nobody && s.sender == Trying(f)
    requires |f.bytes| > 0
    ensures Path(tr, acts) && tr[0] == s && tr[|tr| - 1] == t
    ensures t == s.(sender := Waiting, wire := s.wire + f.bytes, sent := s.sent + [f])
  {
    var n := |f.bytes|;
    var a := s.(writing := true, holder := SendLoop, sender := Sending(f, 0));
    var b := a.(wire := s.wire + f.bytes, sent := s.sent + [f], sender := Sending(f, n));
    t := b.(writing := false, holder := Nobody, sender := Waiting);
    assert f.bytes[0..0 + n] == f.bytes;
    assert Step(s, TryLock, a);
    assert Step(a, SendSome(n), b);
    assert Step(b, SendUnlock, t);
    Three(s, TryLock, a, SendSome(n), b, SendUnlock, t);
    tr, acts := [s, a, b, t], [TryLock, SendSome(n), SendUnlock];
  }

  /**
   A flush over the queue, then one that falls back and whose frame has been written: all threads
   are idle and nothing waits for the send goroutine. A close now is not safe, because the polling
   frame before the fallback frame will make the peer look at the queue first.
   */
  lemma FallenBackClose(s: Session) returns (tr: seq<Session>, acts: seq<Act>)
    requires Init(s) && |s.threads| > 0
    ensures Path(tr, acts) && tr[0] == s
    ensures var u := tr[|tr| - 1];
      && Inv(u) && u.handled <= |u.sent| && u.threads == s.threads && !u.gone[0] && !Settled(u, 0)
      && u.sendCh == [] && u.sender.Waiting?
  {
    hide Step, Inv, Pipe, Settled;
    var t: Session, u: Session;
    tr, acts, t := FlushAndWake(s);
    var f := Frame(Fallback(Msg(0, 1)), [0]);
    assert s.threads[0] == Idle;
    var tr2, acts2;
    tr2, acts2, u := HandsOver(t, f);
    PathJoin(tr, acts, tr2, acts2);
    tr, acts := tr + tr2[1..], acts + acts2;
    tr2, acts2, u := Sends(u, f);
    PathJoin(tr, acts, tr2, acts2);
    tr, acts := tr + tr2[1..], acts + acts2;
    InitOk(s);
    PathKeeps(tr, acts, |tr| - 1);
    NotSettled(u, Frame(Polling, s.poll), f);
  }

  lemma NotSettled(u: Session, poll: Frame, f: Frame)
    requires u.sent == [poll, f] && u.handled == 0 && u.sendCh == [] && u.sender.Waiting? && !u.writing
    requires poll.kind.Polling? && IsFallback(f, 0) && u.holder == Nobody
    ensures !Settled(u, 0)
  {
    assert Pipe(u)[0] == poll && Pipe(u)[1] == f;
    assert Pipe(u)[..1][0].kind.Polling?;
  }
}
