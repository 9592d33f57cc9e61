/**
 Messages of one stream across the two roads, the shared queue and the socket. Every message that
 was handed over arrives exactly once. It arrives in order exactly when no flush falls back while
 an earlier message of its stream is in the queue and no polling frame is ahead of it yet.
 */
module FallbackOrder {
  import opened SessionProtocol
  import opened SessionProgress

  predicate IsData(m: Msg, f: nat)
  {
    m.Msg? && m.stream == f
  }

  /** The messages of stream `f` in a log, without its close notice. */
  function Of(f: nat, ms: seq<Msg>): seq<Msg>
  {
    if ms == [] then [] else Of(f, ms[..|ms| - 1]) + if IsData(ms[|ms| - 1], f) then [ms[|ms| - 1]] else []
  }

  /** The messages carried by fallback frames. */
  function Carried(fs: seq<Frame>): seq<Msg>
  {
    if fs == [] then [] else Carried(fs[..|fs| - 1]) + if fs[|fs| - 1].kind.Fallback? then [fs[|fs| - 1].kind.m] else []
  }

  lemma {:induction false} OfAppend(f: nat, a: seq<Msg>, b: seq<Msg>)
    ensures Of(f, a + b) == Of(f, a) + Of(f, b)
  {
    if b == [] {
      assert a + b == a;
    } else {
      var c := b[..|b| - 1];
      OfAppend(f, a, c);
      assert (a + b)[..|a + b| - 1] == a + c;
      var last := if IsData(b[|b| - 1], f) then [b[|b| - 1]] else [];
      assert (Of(f, a) + Of(f, c)) + last == Of(f, a) + (Of(f, c) + last);
    }
  }

  lemma {:induction false} CarriedAppend(a: seq<Frame>, b: seq<Frame>)
    ensures Carried(a + b) == Carried(a) + Carried(b)
  {
    if b == [] {
      assert a + b == a;
    } else {
      var c := b[..|b| - 1];
      CarriedAppend(a, c);
      assert (a + b)[..|a + b| - 1] == a + c;
      var last := if b[|b| - 1].kind.Fallback? then [b[|b| - 1].kind.m] else [];
      assert (Carried(a) + Carried(c)) + last == Carried(a) + (Carried(c) + last);
    }
  }

  lemma OfOne(f: nat, m: Msg)
    ensures Of(f, [m]) == if IsData(m, f) then [m] else []
  {
    assert [m][..0] == [];
  }

  lemma CarriedOne(x: Frame)
    ensures Carried([x]) == if x.kind.Fallback? then [x.kind.m] else []
  {
    assert [x][..0] == [];
  }

  // ---------- exactly once ----------

  /** Every message handed over has been delivered, or is in the queue, or is on the socket's road. */
  ghost predicate Conserved(s: Session)
    requires s.handled <= |s.sent|
  {
    Even(s.accepted, s.delivered, s.queue, Carried(Pipe(s)))
  }

  ghost predicate Even(acc: seq<Msg>, del: seq<Msg>, que: seq<Msg>, road: seq<Msg>)
  {
    multiset(acc) == multiset(del) + multiset(que) + multiset(road)
  }

  /** What a step does to the messages on the socket's road. */
  lemma CarriedStep(s: Session, a: Act, t: Session)
    requires LockInv(s) && Step(s, a, t)
    ensures t.handled <= |t.sent|
    ensures a.Push? ==> Carried(Pipe(t)) == Carried(Pipe(s)) + Carried([s.threads[a.k].f])
    ensures a.Handle? ==> Carried(Pipe(s)) == Carried([s.sent[s.handled]]) + Carried(Pipe(t))
    ensures !a.Push? && !a.Handle? ==> Carried(Pipe(t)) == Carried(Pipe(s))
  {
    hide Carried, Front, Back;
    PipeStep(s, a, t);
    if a.Push? {
      CarriedAppend(Pipe(s), [s.threads[a.k].f]);
    } else if a.Handle? {
      CarriedAppend([s.sent[s.handled]], Pipe(t));
    } else if a.TryFast? && !s.writing {
      assert ThreadOk(s, a.k);
      var f := s.threads[a.k].f;
      CarriedAppend(Front(s) + [f], Back(s));
      CarriedAppend(Front(s), [f]);
      CarriedAppend(Front(s), Back(s));
      CarriedOne(f);
    }
  }

  lemma ConservedKeeps(s: Session, a: Act, t: Session)
    requires LockInv(s) && Conserved(s) && Step(s, a, t)
    ensures t.handled <= |t.sent| && Conserved(t)
  {
    hide Carried, Pipe, SenderOk, ThreadOk, Step, Even;
    CarriedStep(s, a, t);
    MsgStep(s, a, t);
    var acc, del, que, road := s.accepted, s.delivered, s.queue, Carried(Pipe(s));
    if Puts(a) {
      Enters(acc, del, que, road, [Element(a)]);
    } else if a.Push? {
      CarriedOne(s.threads[a.k].f);
      Enters(acc, del, que, road, Carried([s.threads[a.k].f]));
      assert acc + [] == acc;
    } else if a.Handle? {
      CarriedOne(s.sent[s.handled]);
      Arrives(acc, del, que, Carried(Pipe(t)), Carried([s.sent[s.handled]]));
      assert del + [] == del;
    } else if a.Pop? {
      assert que == [que[0]] + que[1..];
      Arrives(acc, del, que[1..], road, [que[0]]);
    }
  }

  lemma Enters(acc: seq<Msg>, del: seq<Msg>, que: seq<Msg>, road: seq<Msg>, x: seq<Msg>)
    requires Even(acc, del, que, road)
    ensures Even(acc + x, del, que + x, road) && Even(acc + x, del, que, road + x)
  {
  }

  lemma Arrives(acc: seq<Msg>, del: seq<Msg>, que: seq<Msg>, road: seq<Msg>, x: seq<Msg>)
    ensures Even(acc, del, que, x + road) ==> Even(acc, del + x, que, road)
    ensures Even(acc, del, x + que, road) ==> Even(acc, del + x, que, road)
  {
  }

  lemma {:induction false} PathConserves(tr: seq<Session>, acts: seq<Act>, i: nat)
    requires Path(tr, acts) && Init(tr[0]) && i < |tr|
    ensures Inv(tr[i]) && tr[i].handled <= |tr[i].sent| && Conserved(tr[i])
  {
    hide Inv, Step, Conserved;
    if i == 0 {
      InitOk(tr[0]);
      InitConserved(tr[0]);
    } else {
      PathConserves(tr, acts, i - 1);
      InvLock(tr[i - 1]);
      StepKeeps(tr[i - 1], acts[i - 1], tr[i]);
      ConservedKeeps(tr[i - 1], acts[i - 1], tr[i]);
    }
  }

  lemma InvLock(s: Session)
    requires Inv(s)
    ensures LockInv(s) && s.handled <= |s.sent|
  {
    hide WireInv, FlagInv, QueueInv, SleepInv;
  }

  lemma InitConserved(s: Session)
    requires Init(s)
    ensures s.handled <= |s.sent| && Conserved(s)
  {
    assert Pipe(s) == [];
  }

  /** Exactly once: when the session has come to rest, what was delivered is what was handed over. */
  lemma ExactlyOnce(tr: seq<Session>, acts: seq<Act>, i: nat)
    requires Path(tr, acts) && Init(tr[0]) && i < |tr| && Quiet(tr[i])
    ensures multiset(tr[i].delivered) == multiset(tr[i].accepted)
  {
    hide Init, Path, WireInv, FlagInv, QueueInv, SleepInv;
    PathConserves(tr, acts, i);
    QuietPipe(tr[i]);
  }

  // ---------- in order ----------

  predicate IsFallback(x: Frame, f: nat)
  {
    x.kind.Fallback? && IsData(x.kind.m, f)
  }

  /** A fallback frame of `f` is behind a polling frame as long as messages of `f` are in the queue. */
  ghost predicate Covered(s: Session, f: nat)
    requires s.handled <= |s.sent|
  {
    Of(f, s.queue) != [] && s.consumer.Asleep? ==>
      forall j :: 0 <= j < |Pipe(s)| && IsFallback(Pipe(s)[j], f) ==> HasPoll(Pipe(s)[..j])
  }

  /** A thread that is about to hand over a fallback frame finds a polling frame in the pipe. */
  ghost predicate HandOverOk(s: Session, f: nat)
    requires s.handled <= |s.sent| && f < |s.threads|
  {
    s.threads[f].Slow? && s.threads[f].f.kind.Fallback? && Of(f, s.queue) != [] && s.consumer.Asleep? ==>
      HasPoll(Pipe(s))
  }

  ghost predicate Unmixed(s: Session, f: nat)
    requires s.handled <= |s.sent| && f < |s.threads| == |s.fell|
  {
    && (s.threads[f].Slow? && s.threads[f].f.kind.Fallback? ==> s.fell[f])
    && forall j :: 0 <= j < |Pipe(s)| && IsFallback(Pipe(s)[j], f) ==> s.fell[f]
  }

  ghost predicate InOrder(s: Session, f: nat)
    requires s.handled <= |s.sent|
  {
    Of(f, s.accepted) == Of(f, s.delivered) + Of(f, s.queue) + Of(f, Carried(Pipe(s)))
  }

  ghost predicate StreamInv(s: Session, f: nat)
    requires LockInv(s) && f < |s.threads|
  {
    Covered(s, f) && HandOverOk(s, f) && Unmixed(s, f) && InOrder(s, f)
  }

  /** It is safe for stream `k` to fall back now. */
  ghost predicate Careful(s: Session, k: nat)
    requires s.handled <= |s.sent|
  {
    Of(k, s.queue) == [] || !s.consumer.Asleep? || HasPoll(Pipe(s))
  }

  /** It is, whenever nobody is between setting the working flag and handing a polling frame on. */
  lemma NobodyCarrying(s: Session, k: nat)
    requires Inv(s) && k < |s.threads| && s.threads[k].Idle? && !Carrying(s)
    ensures Careful(s, k)
  {
    hide WireInv, SleepInv, SenderOk, ThreadOk, Pipe, HasPoll;
    if Of(k, s.queue) != [] {
      var i := FirstOf(k, s.queue);
      assert Announced(s, s.queue[i]);
    }
  }

  lemma {:induction false} FirstOf(f: nat, ms: seq<Msg>) returns (i: nat)
    requires Of(f, ms) != []
    ensures i < |ms| && IsData(ms[i], f)
  {
    if IsData(ms[|ms| - 1], f) {
      i := |ms| - 1;
    } else {
      i := FirstOf(f, ms[..|ms| - 1]);
    }
  }

  lemma OfNone(f: nat)
    ensures Of(f, []) == []
  {
  }

  lemma OfPut(f: nat, ms: seq<Msg>, m: Msg)
    ensures Of(f, ms + [m]) == Of(f, ms) + if IsData(m, f) then [m] else []
  {
    OfAppend(f, ms, [m]);
    OfOne(f, m);
  }

  lemma {:induction false} NoneCarried(f: nat, fs: seq<Frame>)
    requires forall j :: 0 <= j < |fs| ==> !IsFallback(fs[j], f)
    ensures Of(f, Carried(fs)) == []
  {
    if fs != [] {
      var gs, x := fs[..|fs| - 1], fs[|fs| - 1];
      NoneCarried(f, gs);
      assert !IsFallback(x, f);
      assert Carried(gs) + [] == Carried(gs);
      if x.kind.Fallback? {
        OfPut(f, Carried(gs), x.kind.m);
      }
    }
  }

  /** A frame that jumps in, or one that goes last, does not get between a frame and its polling frame. */
  lemma CoverKept(fs: seq<Frame>, gs: seq<Frame>, a: seq<Frame>, x: Frame, b: seq<Frame>, f: nat)
    requires fs == a + b && gs == a + [x] + b
    requires forall j :: 0 <= j < |fs| && IsFallback(fs[j], f) ==> HasPoll(fs[..j])
    requires IsFallback(x, f) ==> HasPoll(a)
    ensures forall j :: 0 <= j < |gs| && IsFallback(gs[j], f) ==> HasPoll(gs[..j])
  {
    hide HasPoll, IsFallback;
    forall j | 0 <= j < |gs| && IsFallback(gs[j], f) ensures HasPoll(gs[..j]) {
      if j < |a| {
        assert gs[j] == fs[j] && gs[..j] == fs[..j];
      } else if j == |a| {
        assert gs[j] == x && gs[..j] == a;
      } else {
        var i := j - 1 - |a|;
        assert gs[j] == fs[j - 1] && fs[..j - 1] == a + b[..i];
        PollKept(fs[..j - 1], a, [x], b[..i]);
        assert gs[..j] == a + [x] + b[..i];
      }
    }
  }

  lemma CoverDropped(fs: seq<Frame>, x: Frame, gs: seq<Frame>, f: nat)
    requires fs == [x] + gs && !x.kind.Polling?
    requires forall j :: 0 <= j < |fs| && IsFallback(fs[j], f) ==> HasPoll(fs[..j])
    ensures forall j :: 0 <= j < |gs| && IsFallback(gs[j], f) ==> HasPoll(gs[..j])
  {
    forall j | 0 <= j < |gs| && IsFallback(gs[j], f) ensures HasPoll(gs[..j]) {
      assert gs[j] == fs[j + 1] && fs[..j + 1] == [x] + gs[..j];
      var i :| 0 <= i < |fs[..j + 1]| && fs[..j + 1][i].kind.Polling?;
      assert gs[..j][i - 1] == fs[..j + 1][i];
    }
  }

  /** What the consumer's state says about the step that led to it. */
  lemma SleepStep(s: Session, a: Act, t: Session)
    requires Step(s, a, t) && t.consumer.Asleep?
    ensures s.consumer.Asleep? || t.queue == []
    ensures a.Handle? ==> s.consumer.Asleep? && !s.sent[s.handled].kind.Polling?
    ensures !a.Pop?
  {
    if IsThreadAct(a) {
      assert ThreadStep(s, a.k, a, t);
    } else {
      assert LoopStep(s, a, t);
    }
  }

  lemma PushedFrame(s: Session, a: Act, t: Session, f: nat)
    requires LockInv(s) && Step(s, a, t) && (a.Push? || a.TryFast?)
    ensures IsFallback(s.threads[a.k].f, f) ==> a.Push? && a.k == f && s.threads[f].Slow?
    ensures IsFallback(s.threads[a.k].f, f) ==> s.threads[f].f.kind.Fallback?
  {
    assert ThreadOk(s, a.k);
  }

  lemma CoveredKeeps(s: Session, a: Act, t: Session, f: nat)
    requires LockInv(s) && LockInv(t) && f < |s.threads| && StreamInv(s, f) && Step(s, a, t)
    ensures Covered(t, f)
  {
    hide SenderOk, ThreadOk, Step, Pipe, Front, Back, HasPoll, Of, InOrder, IsFallback;
    MsgStep(s, a, t);
    PipeStep(s, a, t);
    if Of(f, t.queue) != [] && t.consumer.Asleep? {
      SleepStep(s, a, t);
      OfNone(f);
      if Puts(a) {
        OfPut(f, s.queue, Element(a));
        PutUnmixed(s, a, t, f);
      } else if a.TryFast? && !s.writing {
        PushedFrame(s, a, t, f);
        PipeParts(s);
        CoverKept(Pipe(s), Pipe(t), Front(s), s.threads[a.k].f, Back(s), f);
      } else if a.Push? {
        PushedFrame(s, a, t, f);
        assert Pipe(s) == Pipe(s) + [] && Pipe(t) == Pipe(s) + [s.threads[a.k].f] + [];
        CoverKept(Pipe(s), Pipe(t), Pipe(s), s.threads[a.k].f, [], f);
      } else if a.Handle? {
        CoverDropped(Pipe(s), s.sent[s.handled], Pipe(t), f);
      }
    }
  }

  lemma PipeParts(s: Session)
    requires s.handled <= |s.sent|
    ensures Pipe(s) == Front(s) + Back(s)
  {
  }

  /** A stream that still uses the queue has nothing on the socket's road. */
  lemma PutUnmixed(s: Session, a: Act, t: Session, f: nat)
    requires LockInv(s) && LockInv(t) && f < |s.threads| && StreamInv(s, f) && Step(s, a, t) && Puts(a)
    ensures Pipe(t) == Pipe(s)
    ensures a.Put? && a.k == f ==> forall j :: 0 <= j < |Pipe(t)| ==> !IsFallback(Pipe(t)[j], f)
  {
    hide SenderOk, ThreadOk, Pipe, HasPoll, Of, InOrder, IsFallback;
    PipeStep(s, a, t);
  }

  lemma HandOverKeeps(s: Session, a: Act, t: Session, f: nat)
    requires t.handled <= |t.sent| && f < |s.threads| == |t.threads| && LockInv(s) && LockInv(t)
    requires Inv(s) && StreamInv(s, f) && Step(s, a, t) && (a.FallBack? ==> Careful(s, a.k))
    ensures HandOverOk(t, f)
  {
    hide SenderOk, ThreadOk, Pipe, HasPoll, Of, InOrder, IsFallback, WireInv, FlagInv, QueueInv, SleepInv;
    MsgStep(s, a, t);
    if t.threads[f].Slow? && t.threads[f].f.kind.Fallback? && Of(f, t.queue) != [] && t.consumer.Asleep? {
      SleepStep(s, a, t);
      OfNone(f);
      SlowStep(s, a, t, f);
      if Puts(a) {
        OfPut(f, s.queue, Element(a));
        assert a.k != f;
      }
      assert HasPoll(Pipe(s));
      PipePoll(s, a, t);
    }
  }

  /** A thread comes to hand over a fallback frame only by falling back. */
  lemma SlowStep(s: Session, a: Act, t: Session, f: nat)
    requires LockInv(s) && Step(s, a, t) && f < |s.threads| == |t.threads|
    requires t.threads[f].Slow? && t.threads[f].f.kind.Fallback?
    ensures (a.FallBack? && a.k == f) || (t.threads[f] == s.threads[f] && !(IsThreadAct(a) && a.k == f))
  {
    hide SenderOk, ThreadOk, LoopStep, ThreadStep;
    if !IsThreadAct(a) {
      LoopMsgs(s, a, t);
    } else if a.k != f {
      OtherThreads(s, a, t, f);
    } else {
      SlowSelf(s, a, t);
    }
  }

  lemma OtherThreads(s: Session, a: Act, t: Session, f: nat)
    requires |s.threads| == |s.fell| == |s.gone| && IsThreadAct(a) && a.k < |s.threads| && ThreadStep(s, a.k, a, t)
    requires f < |s.threads| && f != a.k
    ensures |t.threads| == |s.threads| && t.threads[f] == s.threads[f]
  {
  }

  lemma SlowSelf(s: Session, a: Act, t: Session)
    requires LockInv(s) && IsThreadAct(a) && a.k < |s.threads| == |t.threads| && ThreadStep(s, a.k, a, t)
    requires t.threads[a.k].Slow? && t.threads[a.k].f.kind.Fallback?
    ensures a.FallBack?
  {
    hide SenderOk;
    assert ThreadOk(s, a.k);
  }

  lemma UnmixedKeeps(s: Session, a: Act, t: Session, f: nat)
    requires LockInv(s) && LockInv(t) && f < |s.threads| == |t.threads| && Unmixed(s, f) && Step(s, a, t)
    ensures Unmixed(t, f)
  {
    hide Pipe, Front, Back, HasPoll, Of, InOrder, IsFallback, SenderOk, ThreadOk, Step;
    FellStep(s, a, t, f);
    if t.threads[f].Slow? && t.threads[f].f.kind.Fallback? {
      SlowStep(s, a, t, f);
    }
    forall j | 0 <= j < |Pipe(t)| && IsFallback(Pipe(t)[j], f) ensures t.fell[f] {
      assert s.fell[f] by { WhereFrom(s, a, t, f, j); }
    }
  }

  lemma FellStep(s: Session, a: Act, t: Session, f: nat)
    requires Step(s, a, t) && f < |s.fell|
    ensures |t.fell| == |s.fell| && (s.fell[f] ==> t.fell[f]) && (a.FallBack? && a.k == f ==> t.fell[f])
  {
    if IsThreadAct(a) {
      assert ThreadStep(s, a.k, a, t);
    } else {
      assert LoopStep(s, a, t);
    }
  }

  lemma WhereFrom(s: Session, a: Act, t: Session, f: nat, j: nat)
    requires LockInv(s) && LockInv(t) && f < |s.threads| && Unmixed(s, f) && Step(s, a, t)
    requires j < |Pipe(t)| && IsFallback(Pipe(t)[j], f)
    ensures s.fell[f]
  {
    hide Pipe, Front, Back, HasPoll, Of, InOrder, SenderOk, ThreadOk, Step;
    MsgStep(s, a, t);
    PipeStep(s, a, t);
    if a.TryFast? && !s.writing {
      PushedFrame(s, a, t, f);
      PipeParts(s);
      var n := |Front(s)|;
      assert j != n ==> Pipe(t)[j] == Pipe(s)[if j < n then j else j - 1];
    } else if a.Push? {
      PushedFrame(s, a, t, f);
      assert j < |Pipe(s)| ==> Pipe(t)[j] == Pipe(s)[j];
    } else if a.Handle? {
      assert Pipe(t)[j] == Pipe(s)[j + 1];
    }
  }

  lemma InOrderKeeps(s: Session, a: Act, t: Session, f: nat)
    requires LockInv(s) && LockInv(t) && f < |s.threads| && StreamInv(s, f) && Step(s, a, t)
    ensures InOrder(t, f)
  {
    hide Pipe, Front, Back, HasPoll, Of, Carried, SenderOk, ThreadOk, Step, HandOverOk, Unmixed, Covered;
    MsgStep(s, a, t);
    CarriedStep(s, a, t);
    var c := Carried(Pipe(s));
    if Puts(a) {
      PutOrder(s, a, t, f);
    } else if a.Push? {
      CarriedOne(s.threads[a.k].f);
      assert c + [] == c;
      if s.threads[a.k].f.kind.Fallback? {
        OfPut(f, c, s.threads[a.k].f.kind.m);
        OfPut(f, s.accepted, s.threads[a.k].f.kind.m);
      }
    } else if a.Handle? {
      HandleOrder(s, a, t, f);
    } else if a.Pop? {
      assert s.queue == [s.queue[0]] + s.queue[1..];
      OfAppend(f, [s.queue[0]], s.queue[1..]);
      OfOne(f, s.queue[0]);
      OfPut(f, s.delivered, s.queue[0]);
    }
  }

  lemma PutOrder(s: Session, a: Act, t: Session, f: nat)
    requires LockInv(s) && LockInv(t) && f < |s.threads| && StreamInv(s, f) && Step(s, a, t) && Puts(a)
    ensures InOrder(t, f)
  {
    hide Pipe, HasPoll, Of, Carried, SenderOk, ThreadOk, Step, HandOverOk, Unmixed, Covered, IsFallback;
    MsgStep(s, a, t);
    PutUnmixed(s, a, t, f);
    OfPut(f, s.queue, Element(a));
    OfPut(f, s.accepted, Element(a));
    if a.Put? && a.k == f {
      NoneCarried(f, Pipe(t));
    }
  }

  /** A fallback frame is handled only when no message of its stream is left in the queue. */
  lemma HandleOrder(s: Session, a: Act, t: Session, f: nat)
    requires LockInv(s) && LockInv(t) && f < |s.threads| && StreamInv(s, f) && Step(s, a, t) && a.Handle?
    ensures InOrder(t, f)
    ensures s.handled < |s.sent| && (IsFallback(s.sent[s.handled], f) ==> Of(f, s.queue) == [])
  {
    hide Pipe, Of, Carried, SenderOk, ThreadOk, HandOverOk, Unmixed;
    MsgStep(s, a, t);
    CarriedStep(s, a, t);
    PipeStep(s, a, t);
    var x := s.sent[s.handled];
    CarriedOne(x);
    OfAppend(f, Carried([x]), Carried(Pipe(t)));
    OfNone(f);
    if x.kind.Fallback? {
      OfOne(f, x.kind.m);
      OfPut(f, s.delivered, x.kind.m);
      if IsFallback(x, f) {
        assert Pipe(s)[0] == x && !HasPoll(Pipe(s)[..0]);
        assert Of(f, s.queue) == [];
      }
    }
  }

  // ---------- the law and its limits ----------

  /** The flushes that fall back do so when it is safe. */
  ghost predicate Orderly(tr: seq<Session>, acts: seq<Act>)
    requires |tr| == |acts| + 1
  {
    forall i :: 0 <= i < |acts| && acts[i].FallBack? ==> tr[i].handled <= |tr[i].sent| && Careful(tr[i], acts[i].k)
  }

  lemma StreamKeeps(s: Session, a: Act, t: Session, f: nat)
    requires Inv(s) && f < |s.threads| && StreamInv(s, f) && Step(s, a, t)
    requires a.FallBack? ==> Careful(s, a.k)
    ensures Inv(t) && f < |t.threads| && StreamInv(t, f)
  {
    hide WireInv, FlagInv, QueueInv, SleepInv, Step, Careful, Covered, HandOverOk, Unmixed, InOrder;
    StepKeeps(s, a, t);
    MsgStep(s, a, t);
    CoveredKeeps(s, a, t, f);
    HandOverKeeps(s, a, t, f);
    UnmixedKeeps(s, a, t, f);
    InOrderKeeps(s, a, t, f);
  }

  lemma {:induction false} OrderlyKeeps(tr: seq<Session>, acts: seq<Act>, i: nat, f: nat)
    requires Path(tr, acts) && Init(tr[0]) && Orderly(tr, acts) && i < |tr| && f < |tr[0].threads|
    ensures Inv(tr[i]) && f < |tr[i].threads| && StreamInv(tr[i], f)
  {
    hide Inv, Step, StreamInv, Careful;
    if i == 0 {
      InitOk(tr[0]);
      InitStream(tr[0], f);
    } else {
      OrderlyKeeps(tr, acts, i - 1, f);
      StreamKeeps(tr[i - 1], acts[i - 1], tr[i], f);
    }
  }

  lemma InitStream(s: Session, f: nat)
    requires Init(s) && f < |s.threads|
    ensures LockInv(s) && StreamInv(s, f)
  {
    InitOk(s);
    assert Pipe(s) == [];
  }

  /** In order: what a stream's peer has taken in is a prefix of what the stream has handed over. */
  lemma DeliveredInOrder(tr: seq<Session>, acts: seq<Act>, i: nat, f: nat)
    requires Path(tr, acts) && Init(tr[0]) && Orderly(tr, acts) && i < |tr| && f < |tr[0].threads|
    ensures Of(f, tr[i].delivered) <= Of(f, tr[i].accepted)
    ensures Quiet(tr[i]) ==> Of(f, tr[i].delivered) == Of(f, tr[i].accepted)
  {
    hide Init, Path, Orderly, WireInv, FlagInv, QueueInv, SleepInv, Covered, HandOverOk, Unmixed;
    OrderlyKeeps(tr, acts, i, f);
    if Quiet(tr[i]) {
      QuietPipe(tr[i]);
    }
  }

  /** In such a run a fallback frame is handled only when no message of its stream is left in the queue. */
  lemma FramesAfterQueue(tr: seq<Session>, acts: seq<Act>, i: nat, f: nat)
    requires Path(tr, acts) && Init(tr[0]) && Orderly(tr, acts) && f < |tr[0].threads|
    requires i < |acts| && acts[i].Handle?
    ensures tr[i].handled < |tr[i].sent|
    ensures IsFallback(tr[i].sent[tr[i].handled], f) ==> Of(f, tr[i].queue) == []
  {
    hide Init, Orderly, Inv, StreamInv, Step, Of, IsFallback;
    assert Step(tr[i], acts[i], tr[i + 1]);
    OrderlyKeeps(tr, acts, i, f);
    OrderlyKeeps(tr, acts, i + 1, f);
    InvLock(tr[i]);
    InvLock(tr[i + 1]);
    HandleOrder(tr[i], acts[i], tr[i + 1], f);
  }

  /** The pipe of `s` has been emptied into the reading process; nothing else has happened. */
  ghost predicate Driven(s: Session, u: Session)
    requires s.handled <= |s.sent|
  {
    && Inv(u) && u.consumer.Asleep? && u.queue == s.queue && u.room == s.room && Pipe(u) == []
    && u.delivered == s.delivered + Carried(Pipe(s)) && |u.threads| == |s.threads|
    && forall k :: 0 <= k < |s.threads| && s.threads[k].Slow? ==> u.threads[k] == s.threads[k]
  }

  /** Without a polling frame in the pipe the frames in it arrive while the queue stays as it is. */
  lemma {:induction false} Drive(s: Session) returns (tr: seq<Session>, acts: seq<Act>)
    requires Inv(s) && s.consumer.Asleep? && !HasPoll(Pipe(s))
    ensures Path(tr, acts) && tr[0] == s
    ensures Driven(s, tr[|tr| - 1])
    decreases Work(s)
  {
    hide Step, Inv, HasPoll, Work, Pipe, Carried;
    InvLock(s);
    if Pipe(s) == [] {
      tr, acts := [s], [];
      CarriedNone();
    } else {
      var a, t := PipeMoves(s);
      StepDecreases(s, a, t);
      StepKeeps(s, a, t);
      DriveStep(s, a, t);
      var tr', acts' := Drive(t);
      tr, acts := [s] + tr', [a] + acts';
      PathCons(s, a, tr', acts');
    }
  }

  lemma CarriedNone()
    ensures Carried([]) == []
  {
  }

  lemma DriveStep(s: Session, a: Act, t: Session)
    requires Inv(s) && Step(s, a, t) && s.consumer.Asleep? && !HasPoll(Pipe(s))
    requires !Begins(a) && !a.TryFast? && !a.Push? && t.queue == s.queue
    ensures LockInv(t) && t.consumer.Asleep? && !HasPoll(Pipe(t)) && t.room == s.room
    ensures t.delivered + Carried(Pipe(t)) == s.delivered + Carried(Pipe(s))
  {
    hide WireInv, FlagInv, QueueInv, SleepInv, Carried, Pipe, SenderOk, ThreadOk;
    LockKeeps(s, a, t);
    MsgStep(s, a, t);
    CarriedStep(s, a, t);
    PipeStep(s, a, t);
    if a.Handle? {
      var x := s.sent[s.handled];
      CarriedOne(x);
      assert Pipe(s)[0] == x;
      forall i | 0 <= i < |Pipe(t)| ensures !Pipe(t)[i].kind.Polling? {
        assert Pipe(t)[i] == Pipe(s)[i + 1];
      }
    }
  }

  lemma PathJoin(tr: seq<Session>, acts: seq<Act>, tr2: seq<Session>, acts2: seq<Act>)
    requires Path(tr, acts) && Path(tr2, acts2) && tr[|tr| - 1] == tr2[0]
    ensures Path(tr + tr2[1..], acts + acts2)
  {
    hide Step;
    var all, as2, n := tr + tr2[1..], acts + acts2, |acts|;
    forall i | 0 <= i < |as2| ensures Step(all[i], as2[i], all[i + 1]) {
      if i < n {
        assert Step(tr[i], acts[i], tr[i + 1]);
      } else {
        assert Step(tr2[i - n], acts2[i - n], tr2[i - n + 1]);
        assert all[i] == tr2[i - n];
      }
    }
  }

  /**
   The condition is exact: a stream that falls back when it is not safe can be overtaken by
   itself. There is a continuation in which the later message, sent over the socket, has been
   delivered while the earlier ones are still in the queue.
   */
  lemma Overtaken(s: Session, k: nat, f: Frame) returns (tr: seq<Session>, acts: seq<Act>)
    requires Inv(s) && s.room > 0 && k < |s.threads| && s.threads[k].Idle? && !s.gone[k]
    requires IsFallback(f, k) && f.bytes != [] && !Careful(s, k)
    ensures Path(tr, acts) && tr[0] == s && acts != [] && acts[0] == FallBack(k, f)
    ensures var u := tr[|tr| - 1]; u.queue == s.queue && Of(k, u.queue) != [] && f.kind.m in u.delivered
  {
    hide Inv, HasPoll, Carried, Pipe, Of;
    InvLock(s);
    var s1 := s.(threads := Set(s, k, Slow(f)), fell := s.fell[k := true]);
    assert Step(s, FallBack(k, f), s1);
    StepKeeps(s, FallBack(k, f), s1);
    PipeStep(s, FallBack(k, f), s1);
    var tr1, acts1 := Drive(s1);
    var s2 := tr1[|tr1| - 1];
    InvLock(s2);
    EmptyPipe(s2);
    var s3 := s2.(sendCh := s2.sendCh + [f], threads := Set(s2, k, Idle), accepted := s2.accepted + [f.kind.m]);
    assert Step(s2, Push(k), s3);
    StepKeeps(s2, Push(k), s3);
    PipeStep(s2, Push(k), s3);
    assert Pipe(s3) == [f];
    OnlyFrame(f);
    var tr3, acts3 := Drive(s3);
    Overtaking(s, k, f, s1, tr1, acts1, s3, tr3, acts3);
    tr := [s] + (tr1 + ([s3] + tr3[1..]));
    acts := [FallBack(k, f)] + (acts1 + ([Push(k)] + acts3));
    CarriedOne(f);
    assert tr[|tr| - 1] == tr3[|tr3| - 1];
    assert f.kind.m in s3.delivered + Carried([f]);
  }

  lemma OnlyFrame(f: Frame)
    requires !f.kind.Polling?
    ensures !HasPoll([f])
  {
  }

  lemma Overtaking(s: Session, k: nat, f: Frame, s1: Session, tr1: seq<Session>, acts1: seq<Act>,
                   s3: Session, tr3: seq<Session>, acts3: seq<Act>)
    requires Path(tr1, acts1) && tr1[0] == s1 && Path(tr3, acts3) && tr3[0] == s3
    requires Step(s, FallBack(k, f), s1) && Step(tr1[|tr1| - 1], Push(k), s3)
    ensures Path([s] + (tr1 + ([s3] + tr3[1..])), [FallBack(k, f)] + (acts1 + ([Push(k)] + acts3)))
  {
    hide Step;
    var s2 := tr1[|tr1| - 1];
    PathCons(s2, Push(k), tr3, acts3);
    PathJoin(tr1, acts1, [s2] + tr3, [Push(k)] + acts3);
    assert ([s2] + tr3)[1..] == tr3 == [s3] + tr3[1..];
    PathCons(s, FallBack(k, f), tr1 + tr3, acts1 + ([Push(k)] + acts3));
  }

  /** A flush that has yet to look at the working flag or to get its frame on the road. */
  predicate Flushing(pc: Thread)
  {
    pc.Marking? || ((pc.Won? || pc.Slow?) && !pc.f.kind.Control?)
  }

  /** At most one thread is in the middle of a flush; control frames may be sent beside it. */
  ghost predicate OneFlusher(s: Session)
  {
    forall j, k :: 0 <= j < k < |s.threads| ==> !(Flushing(s.threads[j]) && Flushing(s.threads[k]))
  }

  lemma NobodyElse(s: Session, a: Act, t: Session)
    requires Inv(s) && Step(s, a, t) && a.FallBack? && OneFlusher(t)
    ensures s.handled <= |s.sent| && Careful(s, a.k)
  {
    hide Careful, Inv;
    InvLock(s);
    forall j | 0 <= j < |s.threads| ensures !Carries(s.threads[j]) {
      assert Flushing(t.threads[a.k]) && (j != a.k ==> t.threads[j] == s.threads[j]);
      assert j < a.k || a.k < j ==> !Flushing(t.threads[j]);
    }
    NobodyCarrying(s, a.k);
  }

  /**
   One flushing thread, any number of streams: every stream's messages arrive in order, and when
   the session has come to rest all of them have.
   */
  lemma OneFlusherInOrder(tr: seq<Session>, acts: seq<Act>, i: nat, f: nat)
    requires Path(tr, acts) && Init(tr[0]) && i < |tr| && f < |tr[0].threads|
    requires forall j :: 0 <= j < |tr| ==> OneFlusher(tr[j])
    ensures Of(f, tr[i].delivered) <= Of(f, tr[i].accepted)
    ensures Quiet(tr[i]) ==> Of(f, tr[i].delivered) == Of(f, tr[i].accepted)
  {
    hide Init, Step, Careful, Of, Inv, OneFlusher, Quiet;
    InitOk(tr[0]);
    forall j | 0 <= j < |acts| && acts[j].FallBack?
      ensures tr[j].handled <= |tr[j].sent| && Careful(tr[j], acts[j].k)
    {
      PathKeeps(tr, acts, j);
      NobodyElse(tr[j], acts[j], tr[j + 1]);
    }
    DeliveredInOrder(tr, acts, i, f);
  }

  /** Two flushing threads are not safe: one can be between the flag and the frame when the other falls back. */
  lemma TwoFlushers(s: Session) returns (tr: seq<Session>, acts: seq<Act>)
    requires Init(s) && |s.threads| == 2
    ensures Path(tr, acts) && tr[0] == s
    ensures var u := tr[|tr| - 1]; u.handled <= |u.sent| && |u.threads| == 2 && u.threads[1].Idle? && !Careful(u, 1)
  {
    hide Of;
    var won := Won(Frame(Polling, s.poll));
    assert s.threads == [Idle, Idle];
    var a := s.(queue := [Msg(0, 0)], accepted := [Msg(0, 0)], threads := [Marking, Idle]);
    var b := a.(flag := true, threads := [won, Idle]);
    var c := b.(queue := [Msg(0, 0), Msg(1, 0)], accepted := [Msg(0, 0), Msg(1, 0)], threads := [won, Marking]);
    var u := c.(threads := [won, Idle]);
    tr, acts := [s, a, b, c, u], [Put(0, 0), Mark(0), Put(1, 0), Mark(1)];
    assert Step(s, Put(0, 0), a) && Step(a, Mark(0), b);
    assert Step(b, Put(1, 0), c) && Step(c, Mark(1), u);
    assert u.queue == [Msg(0, 0)] + [Msg(1, 0)];
    OfPut(1, [Msg(0, 0)], Msg(1, 0));
  }
}
