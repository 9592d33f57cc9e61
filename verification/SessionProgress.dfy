/**
 Nothing gets stuck in a session: a measure that every step but the start of a new operation
 decreases, an enabled step wherever work is left, and with them the end of every drain.
 */
module SessionProgress {
  import opened SessionProtocol

  /** The steps with which a thread begins something new. */
  predicate Begins(a: Act)
  {
    Puts(a) || a.Notice? || a.Request? || a.FallBack?
  }

  // ---------- the measure ----------

  function ThreadWork(s: Session, pc: Thread): nat
  {
    match pc
    case Idle => 0
    case Marking => 7 * |s.poll| + 8
    case Won(f) => 7 * |f.bytes| + 7
    case Fast(f, n) => if n <= |f.bytes| then 7 * (|f.bytes| - n) + 5 else 5
    case Notifying => 4
    case Slow(f) => 7 * |f.bytes| + 6
  }

  function ThreadsWork(s: Session, ts: seq<Thread>): nat
  {
    if ts == [] then 0 else ThreadWork(s, ts[0]) + ThreadsWork(s, ts[1..])
  }

  function ChannelWork(fs: seq<Frame>): nat
  {
    if fs == [] then 0 else 7 * |fs[0].bytes| + 5 + ChannelWork(fs[1..])
  }

  function SenderWork(sender: Sender): nat
  {
    match sender
    case Waiting => 0
    case Trying(f) => 7 * |f.bytes| + 4
    case Sleeping(f) => 7 * |f.bytes| + 3
    case Sending(f, n) => if n <= |f.bytes| then 7 * (|f.bytes| - n) + 2 else 2
  }

  function ConsumerWork(s: Session): nat
  {
    match s.consumer
    case Asleep => 0
    case Popping => if s.queue == [] then 5 else 1
    case Clearing => 4
    case Checking => 3
    case Setting => 2
  }

  function Work(s: Session): nat
  {
    ThreadsWork(s, s.threads) + ChannelWork(s.sendCh) + SenderWork(s.sender) + (if s.token then 2 else 0)
    + (if s.handled <= |s.sent| then 6 * (|s.sent| - s.handled) else 0) + ConsumerWork(s) + 10 * |s.queue|
  }

  lemma {:induction false} ThreadsUpdate(s: Session, ts: seq<Thread>, k: nat, pc: Thread)
    requires k < |ts|
    ensures ThreadsWork(s, ts[k := pc]) + ThreadWork(s, ts[k]) == ThreadsWork(s, ts) + ThreadWork(s, pc)
  {
    var us := ts[k := pc];
    if k == 0 {
      assert us[1..] == ts[1..];
    } else {
      ThreadsUpdate(s, ts[1..], k - 1, pc);
      assert us[1..] == ts[1..][k - 1 := pc] && us[0] == ts[0];
    }
  }

  lemma {:induction false} ThreadsSame(s: Session, t: Session, ts: seq<Thread>)
    requires s.poll == t.poll
    ensures ThreadsWork(s, ts) == ThreadsWork(t, ts)
  {
    if ts != [] {
      ThreadsSame(s, t, ts[1..]);
    }
  }

  lemma {:induction false} ChannelSnoc(fs: seq<Frame>, f: Frame)
    ensures ChannelWork(fs + [f]) == ChannelWork(fs) + 7 * |f.bytes| + 5
  {
    if fs == [] {
      assert (fs + [f])[1..] == [];
    } else {
      ChannelSnoc(fs[1..], f);
      assert (fs + [f])[1..] == fs[1..] + [f];
    }
  }

  lemma ThreadDecreases(s: Session, a: Act, t: Session)
    requires LockInv(s) && Step(s, a, t) && IsThreadAct(a) && !Begins(a)
    ensures Work(t) < Work(s)
  {
    hide ThreadsWork, ChannelWork, SenderOk;
    assert ThreadOk(s, a.k);
    ThreadsUpdate(s, s.threads, a.k, t.threads[a.k]);
    ThreadsSame(s, t, t.threads);
    if a.Push? {
      ChannelSnoc(s.sendCh, s.threads[a.k].f);
    }
  }

  lemma LoopDecreases(s: Session, a: Act, t: Session)
    requires LockInv(s) && QueueInv(s) && Step(s, a, t) && !IsThreadAct(a)
    ensures Work(t) < Work(s)
  {
    hide ThreadsWork, SenderOk, ThreadOk;
    ThreadsSame(s, t, t.threads);
    if a.Take? || a.TryLock? || a.Wake? || a.SendSome? || a.SendUnlock? {
      SenderDecreases(s, a, t);
    } else {
      ConsumerDecreases(s, a, t);
    }
  }

  lemma SenderDecreases(s: Session, a: Act, t: Session)
    requires LockInv(s) && LoopStep(s, a, t) && (a.Take? || a.TryLock? || a.Wake? || a.SendSome? || a.SendUnlock?)
    requires ThreadsWork(t, t.threads) == ThreadsWork(s, t.threads)
    ensures Work(t) < Work(s)
  {
    hide ThreadsWork, ThreadOk;
  }

  lemma ConsumerDecreases(s: Session, a: Act, t: Session)
    requires LockInv(s) && QueueInv(s) && LoopStep(s, a, t)
      && !(a.Take? || a.TryLock? || a.Wake? || a.SendSome? || a.SendUnlock?)
    requires ThreadsWork(t, t.threads) == ThreadsWork(s, t.threads)
    ensures Work(t) < Work(s)
  {
    hide ThreadsWork, ChannelWork, SenderWork, SenderOk, ThreadOk;
  }

  /** Every step that begins nothing new leaves strictly less to do. */
  lemma StepDecreases(s: Session, a: Act, t: Session)
    requires Inv(s) && Step(s, a, t) && !Begins(a)
    ensures Work(t) < Work(s)
  {
    hide Work, Step, LockInv, WireInv, FlagInv, SleepInv, QueueInv;
    if IsThreadAct(a) {
      ThreadDecreases(s, a, t);
    } else {
      LoopDecreases(s, a, t);
    }
  }

  /** So a session to which nothing new is given comes to rest, after at most `Work` steps. */
  lemma {:induction false} Terminates(tr: seq<Session>, acts: seq<Act>)
    requires Path(tr, acts) && Inv(tr[0]) && forall i :: 0 <= i < |acts| ==> !Begins(acts[i])
    ensures |acts| <= Work(tr[0])
    decreases |acts|
  {
    hide Work, Step, Inv;
    if acts != [] {
      assert Step(tr[0], acts[0], tr[1]);
      StepDecreases(tr[0], acts[0], tr[1]);
      StepKeeps(tr[0], acts[0], tr[1]);
      PathTail(tr, acts);
      Terminates(tr[1..], acts[1..]);
    }
  }

  lemma PathTail(tr: seq<Session>, acts: seq<Act>)
    requires Path(tr, acts) && acts != []
    ensures Path(tr[1..], acts[1..])
  {
    hide Step;
    forall i | 0 <= i < |acts[1..]| ensures Step(tr[1..][i], acts[1..][i], tr[1..][i + 1]) {
      assert Step(tr[i + 1], acts[i + 1], tr[i + 2]);
    }
  }

  // ---------- somebody can always move ----------

  /** Nothing is left to do: no frame, no message, nobody in the middle of anything. */
  ghost predicate Quiet(s: Session)
  {
    && (forall k :: 0 <= k < |s.threads| ==> s.threads[k].Idle?)
    && s.sender.Waiting? && s.sendCh == [] && s.handled == |s.sent| && s.queue == [] && s.consumer.Asleep?
  }

  /** The step by which a frame in the pipe gets nearer to the consumer. */
  lemma TrierMoves(s: Session) returns (a: Act, t: Session)
    requires |s.threads| == |s.fell| == |s.gone| && s.sender.Trying? && !s.writing
    ensures t.threads == s.threads && t.queue == s.queue && a == TryLock && Step(s, a, t)
  {
    a := TryLock;
    t := s.(writing := true, holder := SendLoop, sender := Sending(s.sender.f, 0));
  }

  lemma TakerMoves(s: Session) returns (a: Act, t: Session)
    requires |s.threads| == |s.fell| == |s.gone| && s.sender.Waiting? && s.sendCh != []
    ensures t.threads == s.threads && t.queue == s.queue && a == Take && Step(s, a, t)
  {
    a := Take;
    t := s.(sender := Trying(s.sendCh[0]), sendCh := s.sendCh[1..]);
  }

  lemma HandleMoves(s: Session) returns (a: Act, t: Session)
    requires |s.threads| == |s.fell| == |s.gone| && s.consumer.Asleep? && s.handled < |s.sent|
    ensures t.threads == s.threads && t.queue == s.queue && a == Handle && Step(s, a, t)
  {
    a := Handle;
    var kind := s.sent[s.handled].kind;
    t := s.(handled := s.handled + 1, consumer := if kind.Polling? then Popping else Asleep,
            delivered := if kind.Fallback? then s.delivered + [kind.m] else s.delivered);
  }

  lemma PipeMoves(s: Session) returns (a: Act, t: Session)
    requires Inv(s) && s.consumer.Asleep? && s.handled <= |s.sent| && Pipe(s) != []
    ensures |t.threads| == |s.threads| && t.queue == s.queue
    ensures forall k :: 0 <= k < |s.threads| && s.threads[k].Slow? ==> t.threads[k] == s.threads[k]
    ensures Step(s, a, t) && !Begins(a) && !a.TryFast? && !a.Push? && !a.GiveUp? && !a.Mark?
  {
    hide WireInv, FlagInv, QueueInv, Step, ThreadOk;
    if s.handled < |s.sent| {
      a, t := HandleMoves(s);
    } else if s.holder.Thread? {
      a, t := HolderMoves(s);
    } else if s.sender.Sending? {
      a, t := SendingMoves(s);
    } else if s.sender.Trying? {
      a, t := TrierMoves(s);
    } else if s.sender.Sleeping? {
      a, t := WakerMoves(s);
    } else {
      a, t := TakerMoves(s);
    }
  }

  lemma HolderMoves(s: Session) returns (a: Act, t: Session)
    requires LockInv(s) && s.holder.Thread?
    ensures Step(s, a, t) && (a.WriteSome? || a.Unlock?)
    ensures t.queue == s.queue && t.threads == s.threads[s.holder.k := t.threads[s.holder.k]]
    ensures s.threads[s.holder.k].Fast?
    ensures |t.threads| == |s.threads|
  {
    var k := s.holder.k;
    assert ThreadOk(s, k);
    var pc := s.threads[k];
    if pc.n < |pc.f.bytes| {
      a := WriteSome(k, |pc.f.bytes| - pc.n);
      t := Written(s, pc.f, pc.n, |pc.f.bytes| - pc.n).(threads := Set(s, k, Fast(pc.f, |pc.f.bytes|)));
    } else {
      a := Unlock(k);
      t := s.(writing := false, holder := Nobody, threads := Set(s, k, Notifying));
    }
  }

  lemma SendingMoves(s: Session) returns (a: Act, t: Session)
    requires LockInv(s) && s.sender.Sending?
    ensures Step(s, a, t) && (a.SendSome? || a.SendUnlock?) && t.queue == s.queue && t.threads == s.threads
  {
    var f, n := s.sender.f, s.sender.n;
    if n < |f.bytes| {
      a := SendSome(|f.bytes| - n);
      t := Written(s, f, n, |f.bytes| - n).(sender := Sending(f, |f.bytes|));
    } else {
      a := SendUnlock;
      t := s.(writing := false, holder := Nobody, sender := Waiting);
    }
  }

  /** Whoever lets the send goroutine go on: the token, or a thread that will leave one. */
  lemma WakerMoves(s: Session) returns (a: Act, t: Session)
    requires LockInv(s) && SleepInv(s) && s.sender.Sleeping? && !s.holder.Thread?
    ensures Step(s, a, t) && (a.Wake? || a.Notify?) && t.queue == s.queue && |t.threads| == |s.threads|
    ensures forall k :: 0 <= k < |s.threads| && s.threads[k].Slow? ==> t.threads[k] == s.threads[k]
  {
    if s.token {
      a := Wake;
      t := s.(token := false, sender := Trying(s.sender.f));
    } else {
      var k :| 0 <= k < |s.threads| && Releases(s.threads[k]);
      assert ThreadOk(s, k);
      a := Notify(k);
      t := s.(token := true, threads := Set(s, k, Idle));
    }
  }

  lemma ConsumerMoves(s: Session) returns (a: Act, t: Session)
    requires |s.threads| == |s.fell| == |s.gone| && !s.consumer.Asleep?
    ensures Step(s, a, t) && !Begins(a)
  {
    match s.consumer {
      case Popping =>
        if s.queue != [] {
          a := Pop;
          t := s.(queue := s.queue[1..], delivered := s.delivered + [s.queue[0]]);
        } else {
          a := SeeEmpty;
          t := s.(consumer := Clearing);
        }
      case Clearing =>
        a := ClearFlag;
        t := s.(flag := false, consumer := Checking);
      case Checking =>
        a := CheckSize;
        t := s.(consumer := if s.queue == [] then Asleep else Setting);
      case Setting =>
        a := SetFlag;
        t := s.(flag := true, consumer := Popping);
    }
  }

  /** A thread in the middle of something can go on once the pipe is empty. */
  lemma ThreadMoves(s: Session, k: nat) returns (a: Act, t: Session)
    requires LockInv(s) && k < |s.threads| && !s.threads[k].Idle? && s.sendCh == [] && s.room > 0
    ensures Step(s, a, t) && !Begins(a)
  {
    assert ThreadOk(s, k);
    var pc := s.threads[k];
    match pc {
      case Marking =>
        a := Mark(k);
        t := s.(flag := true, threads := Set(s, k, if s.flag then Idle else Won(Frame(Polling, s.poll))));
      case Won(f) =>
        a := TryFast(k);
        t := if s.writing then s.(threads := Set(s, k, Slow(f)))
             else s.(writing := true, holder := Holder.Thread(k), threads := Set(s, k, Fast(f, 0)));
      case Fast(_, _) =>
        a, t := HolderMoves(s);
      case Notifying =>
        a := Notify(k);
        t := s.(token := true, threads := Set(s, k, Idle));
      case Slow(f) =>
        a := Push(k);
        t := s.(sendCh := s.sendCh + [f], threads := Set(s, k, Idle),
                accepted := if f.kind.Fallback? then s.accepted + [f.kind.m] else s.accepted);
    }
  }

  /** No deadlock: wherever something is left to do, some step that begins nothing new is possible. */
  lemma SomebodyMoves(s: Session) returns (a: Act, t: Session)
    requires Inv(s) && s.room > 0 && !Quiet(s)
    ensures Step(s, a, t) && !Begins(a)
  {
    hide WireInv, FlagInv, SleepInv, SenderOk, ThreadOk;
    if !s.consumer.Asleep? {
      a, t := ConsumerMoves(s);
    } else if Pipe(s) != [] {
      a, t := PipeMoves(s);
    } else if k :| 0 <= k < |s.threads| && !s.threads[k].Idle? {
      EmptyPipe(s);
      a, t := ThreadMoves(s, k);
    } else {
      EmptyPipe(s);
      RestIsQuiet(s);
      a, t := LastSender(s);
    }
  }

  lemma EmptyPipe(s: Session)
    requires s.handled <= |s.sent| && Pipe(s) == []
    ensures s.sendCh == [] && s.handled == |s.sent| && !s.sender.Trying? && !s.sender.Sleeping?
  {
    assert Held(s) == [];
  }

  /** With all threads idle, the consumer asleep and no frame left, no message is left either. */
  lemma RestIsQuiet(s: Session)
    requires Inv(s) && s.consumer.Asleep? && Pipe(s) == []
    requires forall k :: 0 <= k < |s.threads| ==> s.threads[k].Idle?
    ensures s.queue == []
  {
    hide WireInv, SleepInv, SenderOk, ThreadOk, Pipe;
    assert s.queue != [] ==> Announced(s, s.queue[0]);
  }

  lemma LastSender(s: Session) returns (a: Act, t: Session)
    requires LockInv(s) && !s.sender.Waiting? && !s.sender.Trying? && !s.sender.Sleeping?
    ensures Step(s, a, t) && !Begins(a)
  {
    a, t := SendingMoves(s);
  }

  lemma QuietPipe(s: Session)
    requires LockInv(s) && Quiet(s)
    ensures Pipe(s) == []
  {
    assert s.holder.Thread? ==> ThreadOk(s, s.holder.k);
  }

  /** In a quiet session no polling frame is due, so the working flag is down. */
  lemma QuietFlag(s: Session)
    requires Inv(s) && Quiet(s)
    ensures !s.flag
  {
    hide WireInv, QueueInv, SleepInv, Pipe, SenderOk, ThreadOk;
    QuietPipe(s);
  }

  /** A session that has come to rest is quiet: the queue is empty and every frame is handled. */
  lemma {:induction false} Drains(s: Session) returns (tr: seq<Session>, acts: seq<Act>)
    requires Inv(s) && s.room > 0
    ensures Path(tr, acts) && tr[0] == s && Quiet(tr[|tr| - 1]) && !tr[|tr| - 1].flag && Inv(tr[|tr| - 1])
    ensures forall i :: 0 <= i < |acts| ==> !Begins(acts[i])
    decreases Work(s)
  {
    hide Work, Step, Inv, Quiet;
    if Quiet(s) {
      QuietFlag(s);
      tr, acts := [s], [];
    } else {
      var a, t := SomebodyMoves(s);
      StepDecreases(s, a, t);
      StepKeeps(s, a, t);
      MsgStep(s, a, t);
      var tr', acts' := Drains(t);
      tr, acts := [s] + tr', [a] + acts';
      PathCons(s, a, tr', acts');
    }
  }

  lemma PathCons(s: Session, a: Act, tr: seq<Session>, acts: seq<Act>)
    requires Path(tr, acts) && Step(s, a, tr[0])
    ensures Path([s] + tr, [a] + acts)
  {
    hide Step;
    forall i | 0 <= i < |[a] + acts| ensures Step(([s] + tr)[i], ([a] + acts)[i], ([s] + tr)[i + 1]) {
      if i > 0 {
        assert Step(tr[i - 1], acts[i - 1], tr[i]);
      }
    }
  }
}
