/**
 What threads still have to do for a stream, over every run: a message that has arrived is served to
 the callbacks or signalled to a reader, and a blocked reader is woken when the stream is closed.
 */
module StreamDuty {
  import opened StreamLife

  /** Serving pending chains, handing out moved ones, signalling for data, waking readers for good. */
  datatype Duty = ToServe | ToHandOut | ToSignal | ToWake

  /** Something is left to do. A callback in process will find what is pending. */
  predicate Needs(d: Duty, m: Shared)
  {
    match d
    case ToServe => m.cb && !m.gate.asked && m.store.pending != [] && !m.tasks.inProcess
    case ToHandOut => m.cb && m.gate.status == Opened && m.store.recv != []
    case ToSignal => m.gate.status != Closed && m.store.pending != [] && !m.bell.data
    case ToWake => Owed(m.gate.exit) == 1 && !m.bell.shut
  }

  /** A thread here is going to do it. */
  predicate Does(d: Duty, pc: Pc)
  {
    match d
    case ToServe => pc.Checking? || pc.Notifying? || pc.Launching? || pc.Asking? || pc.Looking? || pc.Retrying?
    case ToHandOut => pc.Moving? || pc.Serving?
    case ToSignal => pc.Checking? || pc.Notifying? || pc.Fetching?
    case ToWake =>
      || ((pc.Joining? || pc.Clearing? || pc.Recycling?) && pc.was == Opened)
      || pc.Waking? || pc.HalfWaking?
  }

  ghost predicate SomeoneDoes(d: Duty, ts: seq<Pc>)
  {
    exists k :: 0 <= k < |ts| && Does(d, ts[k])
  }

  ghost predicate Done(d: Duty, s: Stream)
  {
    Needs(d, s.m) ==> SomeoneDoes(d, s.threads)
  }

  /** A step that leaves something to do leaves somebody who will do it. */
  predicate Passes(d: Duty, m: Shared, pc: Pc, m': Shared, qc: Pc)
  {
    Needs(d, m') ==> Does(d, qc) || (Needs(d, m) && !Does(d, pc))
  }

  /** Only a Close leads to a note, to a closed stream and into the code of close. */
  predicate Asked(m: Shared, pc: Pc)
  {
    && (m.tasks.noted || m.gate.status == Closed ==> m.gate.asked)
    && (pc.Noting? || pc.Peeking? || pc.Loading? || pc.Swapping? || pc.Parting? ==> m.gate.asked)
  }

  /** A step that moves pending chains into the receive buffer on behalf of a reader. */
  predicate Reads(a: Act)
  {
    a == ByOther(Read) || (a.ByReader? && (a.reader.Enter? || a.reader.Fetch?))
  }

  // ---------- one step ----------

  lemma CloseServes(m: Shared, pc: Pc, a: CloserAct, m': Shared, qc: Pc)
    requires CloseStep(m, pc, a, m', qc)
    ensures Passes(ToServe, m, pc, m', qc)
  {
  }

  lemma CloseSignals(d: Duty, m: Shared, pc: Pc, a: CloserAct, m': Shared, qc: Pc)
    requires CloseStep(m, pc, a, m', qc) && (d == ToSignal || d == ToHandOut)
    ensures Passes(d, m, pc, m', qc)
  {
  }

  lemma CloseWakes(m: Shared, pc: Pc, a: CloserAct, m': Shared, qc: Pc)
    requires CloseStep(m, pc, a, m', qc)
    ensures Passes(ToWake, m, pc, m', qc)
  {
  }

  lemma ClosePasses(d: Duty, m: Shared, pc: Pc, a: CloserAct, m': Shared, qc: Pc)
    requires CloseStep(m, pc, a, m', qc)
    ensures Passes(d, m, pc, m', qc)
  {
    hide CloseStep, Passes;
    if d == ToWake {
      CloseWakes(m, pc, a, m', qc);
    } else if d == ToServe {
      CloseServes(m, pc, a, m', qc);
    } else {
      CloseSignals(d, m, pc, a, m', qc);
    }
  }

  lemma CloseAsks(m: Shared, pc: Pc, a: CloserAct, m': Shared, qc: Pc)
    requires CloseStep(m, pc, a, m', qc) && Asked(m, pc)
    ensures Asked(m', qc) && (m.gate.asked ==> m'.gate.asked)
  {
  }

  lemma LoopServes(m: Shared, pc: Pc, a: LoopAct, m': Shared, qc: Pc)
    requires LoopStep(m, pc, a, m', qc) && Asked(m, pc)
    ensures Passes(ToServe, m, pc, m', qc)
  {
  }

  lemma LoopSignals(m: Shared, pc: Pc, a: LoopAct, m': Shared, qc: Pc)
    requires LoopStep(m, pc, a, m', qc)
    ensures Passes(ToSignal, m, pc, m', qc)
  {
  }

  lemma LoopWakes(d: Duty, m: Shared, pc: Pc, a: LoopAct, m': Shared, qc: Pc)
    requires LoopStep(m, pc, a, m', qc) && (d == ToWake || d == ToHandOut)
    ensures Passes(d, m, pc, m', qc)
  {
  }

  lemma LoopPasses(d: Duty, m: Shared, pc: Pc, a: LoopAct, m': Shared, qc: Pc)
    requires LoopStep(m, pc, a, m', qc) && Asked(m, pc)
    ensures Passes(d, m, pc, m', qc)
  {
    hide LoopStep, Passes, Asked;
    if d == ToServe {
      LoopServes(m, pc, a, m', qc);
    } else if d == ToSignal {
      LoopSignals(m, pc, a, m', qc);
    } else {
      LoopWakes(d, m, pc, a, m', qc);
    }
  }

  lemma LoopAsks(m: Shared, pc: Pc, a: LoopAct, m': Shared, qc: Pc)
    requires LoopStep(m, pc, a, m', qc) && Asked(m, pc)
    ensures Asked(m', qc) && m'.gate.asked == m.gate.asked
  {
  }

  lemma TaskPasses(d: Duty, m: Shared, pc: Pc, a: TaskAct, m': Shared, qc: Pc)
    requires TaskStep(m, pc, a, m', qc) && Asked(m, pc)
    ensures Passes(d, m, pc, m', qc)
  {
  }

  lemma TaskAsks(m: Shared, pc: Pc, a: TaskAct, m': Shared, qc: Pc)
    requires TaskStep(m, pc, a, m', qc) && Asked(m, pc)
    ensures Asked(m', qc) && m'.gate.asked == m.gate.asked
  {
  }

  lemma ReaderPasses(d: Duty, m: Shared, pc: Pc, a: ReaderAct, m': Shared, qc: Pc)
    requires ReaderStep(m, pc, a, m', qc) && (d == ToHandOut ==> !Reads(ByReader(a)))
    ensures Passes(d, m, pc, m', qc)
  {
  }

  lemma ReaderAsks(m: Shared, pc: Pc, a: ReaderAct, m': Shared, qc: Pc)
    requires ReaderStep(m, pc, a, m', qc) && Asked(m, pc)
    ensures Asked(m', qc) && m'.gate.asked == m.gate.asked
  {
  }

  lemma OtherPasses(d: Duty, m: Shared, pc: Pc, a: OtherAct, m': Shared)
    requires OtherStep(m, a, m') && (d == ToHandOut ==> !Reads(ByOther(a)))
    ensures Passes(d, m, pc, m', pc)
  {
  }

  lemma OtherAsks(m: Shared, pc: Pc, a: OtherAct, m': Shared)
    requires OtherStep(m, a, m') && Asked(m, pc)
    ensures Asked(m', pc) && m'.gate.asked == m.gate.asked
  {
  }

  lemma StepPasses(d: Duty, m: Shared, pc: Pc, a: Act, m': Shared, qc: Pc)
    requires LocalStep(m, pc, a, m', qc) && Asked(m, pc) && (d == ToHandOut ==> !Reads(a))
    ensures Passes(d, m, pc, m', qc)
  {
    hide CloseStep, LoopStep, TaskStep, ReaderStep, OtherStep, Passes, Asked;
    match a
    case ByCloser(b) => ClosePasses(d, m, pc, b, m', qc);
    case ByLoop(b) => LoopPasses(d, m, pc, b, m', qc);
    case ByTask(b) => TaskPasses(d, m, pc, b, m', qc);
    case ByReader(b) => ReaderPasses(d, m, pc, b, m', qc);
    case ByOther(b) => OtherPasses(d, m, pc, b, m');
  }

  lemma StepAsks(m: Shared, pc: Pc, a: Act, m': Shared, qc: Pc)
    requires LocalStep(m, pc, a, m', qc) && Asked(m, pc)
    ensures Asked(m', qc) && (m.gate.asked ==> m'.gate.asked)
  {
    hide CloseStep, LoopStep, TaskStep, ReaderStep, OtherStep, Asked;
    match a
    case ByCloser(b) => CloseAsks(m, pc, b, m', qc);
    case ByLoop(b) => LoopAsks(m, pc, b, m', qc);
    case ByTask(b) => TaskAsks(m, pc, b, m', qc);
    case ByReader(b) => ReaderAsks(m, pc, b, m', qc);
    case ByOther(b) => OtherAsks(m, pc, b, m');
  }

  // ---------- every run ----------

  lemma Passed(d: Duty, s: Stream, k: nat, t: Stream)
    requires k < |s.threads| == |t.threads| && t.threads == s.threads[k := t.threads[k]]
    requires Passes(d, s.m, s.threads[k], t.m, t.threads[k]) && Done(d, s)
    ensures Done(d, t)
  {
    hide Needs, Does;
    if Needs(d, t.m) && !Does(d, t.threads[k]) {
      var j :| 0 <= j < |s.threads| && Does(d, s.threads[j]);
      assert Does(d, t.threads[j]);
    }
  }

  ghost predicate AllAsked(s: Stream)
  {
    forall k :: 0 <= k < |s.threads| ==> Asked(s.m, s.threads[k])
  }

  lemma {:induction false} RunAsks(tr: seq<Stream>, who: seq<nat>, acts: seq<Act>, n: nat)
    requires Run(tr, who, acts) && n < |tr|
    ensures AllAsked(tr[n])
  {
    hide LocalStep;
    if n > 0 {
      RunAsks(tr, who, acts, n - 1);
      var s, k, a, t := tr[n - 1], who[n - 1], acts[n - 1], tr[n];
      assert Step(s, k, a, t);
      StepAsks(s.m, s.threads[k], a, t.m, t.threads[k]);
      forall j | 0 <= j < |t.threads|
        ensures Asked(t.m, t.threads[j])
      {
        assert j != k ==> t.threads[j] == s.threads[j] && Asked(s.m, s.threads[j]);
      }
    }
  }

  /** Chains are moved for readers only while the callbacks are running. */
  ghost predicate OnlyInCallbacks(tr: seq<Stream>, acts: seq<Act>, n: nat)
    requires |tr| == |acts| + 1
  {
    forall i :: 0 <= i < n <= |acts| && Reads(acts[i]) ==> InCallbacks(tr[i])
  }

  ghost predicate InCallbacks(s: Stream)
  {
    exists k :: 0 <= k < |s.threads| && s.threads[k].Moving?
  }

  /** A reader in a callback leaves the callback's own goroutine where it was. */
  lemma StillInCallbacks(s: Stream, k: nat, a: Act, t: Stream)
    requires Step(s, k, a, t) && Reads(a) && InCallbacks(s)
    ensures SomeoneDoes(ToHandOut, t.threads)
  {
    hide CloseStep, LoopStep, TaskStep, OtherStep;
    var j :| 0 <= j < |s.threads| && s.threads[j].Moving?;
    assert t.threads[j] == s.threads[j];
    assert Does(ToHandOut, t.threads[j]);
  }

  /** In every state: whatever is left to do for the stream, some thread is going to do. */
  lemma {:induction false} DutiesDone(tr: seq<Stream>, who: seq<nat>, acts: seq<Act>, n: nat, d: Duty)
    requires Run(tr, who, acts) && n < |tr| && (d == ToHandOut ==> OnlyInCallbacks(tr, acts, n))
    ensures Done(d, tr[n])
  {
    hide LocalStep, SomeoneDoes, Passes, Asked, Does, Reads;
    if n > 0 {
      DutiesDone(tr, who, acts, n - 1, d);
      RunAsks(tr, who, acts, n - 1);
      var s, k, a, t := tr[n - 1], who[n - 1], acts[n - 1], tr[n];
      assert Step(s, k, a, t);
      if d == ToHandOut && Reads(a) {
        StillInCallbacks(s, k, a, t);
      } else {
        StepPasses(d, s.m, s.threads[k], a, t.m, t.threads[k]);
        Passed(d, s, k, t);
      }
    }
  }

  lemma NobodyDoes(d: Duty, ts: seq<Pc>)
    requires AllRest(ts)
    ensures !SomeoneDoes(d, ts)
  {
  }

  /** Once all have finished, nothing is left to do. */
  lemma AllDone(tr: seq<Stream>, who: seq<nat>, acts: seq<Act>, n: nat, d: Duty)
    requires Run(tr, who, acts) && n < |tr| && (d == ToHandOut ==> OnlyInCallbacks(tr, acts, n)) && AtRest(tr[n])
    ensures !Needs(d, tr[n].m) && !tr[n].m.tasks.inProcess
  {
    hide Run, Needs, SomeoneDoes, CallsOk, Conserved, CleanUp, Heard, PcOk;
    DutiesDone(tr, who, acts, n, d);
    NobodyDoes(d, tr[n].threads);
    RunKeeps(tr, who, acts, n);
    NothingOwed(tr[n].threads);
  }

  /**
   No message is forgotten: once all have finished, a stream with callbacks that is open, or that
   nobody has closed on this side, has nothing pending.
   */
  lemma NothingPending(tr: seq<Stream>, who: seq<nat>, acts: seq<Act>, n: nat)
    requires Run(tr, who, acts) && n < |tr| && AtRest(tr[n]) && tr[n].m.cb
    requires tr[n].m.gate.status == Opened || !tr[n].m.gate.asked
    ensures tr[n].m.store.pending == []
  {
    hide Run, AtRest;
    AllDone(tr, who, acts, n, ToServe);
    if tr[n].m.gate.asked {
      CloseTried(tr, who, acts, n);
    }
  }

  /**
   If moreover chains are moved only by the callback goroutine and inside callbacks, an open stream
   has handed everything out: each chain that came was consumed or is lent.
   */
  lemma EverythingServed(tr: seq<Stream>, who: seq<nat>, acts: seq<Act>, n: nat)
    requires Run(tr, who, acts) && n < |tr| && AtRest(tr[n]) && tr[n].m.cb && tr[n].m.gate.status == Opened
    requires OnlyInCallbacks(tr, acts, n)
    ensures tr[n].m.store.pending == [] && tr[n].m.store.recv == []
    ensures multiset(tr[n].m.store.recycled) + multiset(tr[n].m.store.lent) == multiset(tr[n].m.store.arrived)
  {
    hide Run, OnlyInCallbacks, CallsOk, TasksOk, CleanUp, Heard, PcOk, Total;
    NothingPending(tr, who, acts, n);
    AllDone(tr, who, acts, n, ToHandOut);
    RunKeeps(tr, who, acts, n);
    NoChains(tr[n].threads);
  }

  /** No signal is lost: when all have finished or wait, and something is pending, a waiting reader can take it. */
  lemma NoLostSignal(tr: seq<Stream>, who: seq<nat>, acts: seq<Act>, n: nat)
    requires Run(tr, who, acts) && n < |tr| && AtRest(tr[n]) && tr[n].m.store.pending != []
    ensures tr[n].m.bell.data
  {
    hide Run, AtRest;
    AllDone(tr, who, acts, n, ToSignal);
    if tr[n].m.gate.status == Closed {
      NothingLeaks(tr, who, acts, n);
    }
  }

  // ---------- waking ----------

  lemma CloseShuts(m: Shared, pc: Pc, a: CloserAct, m': Shared, qc: Pc, sum: Sums)
    requires CloseStep(m, pc, a, m', qc) && CallsOk(m, sum) && CallDebt(pc) <= sum.calls
    ensures m'.bell.shut ==> m.bell.shut || Owed(m.gate.exit) == 1
  {
  }

  lemma LoopShuts(m: Shared, pc: Pc, a: LoopAct, m': Shared, qc: Pc, sum: Sums)
    requires LoopStep(m, pc, a, m', qc) && CallsOk(m, sum) && PeerDebt(pc) <= sum.peers
    ensures m'.bell.shut ==> m.bell.shut || Owed(m.gate.exit) == 1
  {
  }

  lemma StepShuts(s: Stream, k: nat, a: Act, t: Stream)
    requires Inv(s) && Step(s, k, a, t)
    ensures t.m.bell.shut ==> s.m.bell.shut || Owed(s.m.gate.exit) == 1
  {
    hide CloseStep, LoopStep, CallsOk, TasksOk, Conserved, CleanUp, Heard, PcOk, Total, Chains, CallDebt, PeerDebt;
    AtLeast(s.threads, k);
    match a
    case ByCloser(b) => CloseShuts(s.m, s.threads[k], b, t.m, t.threads[k], Total(s.threads));
    case ByLoop(b) => LoopShuts(s.m, s.threads[k], b, t.m, t.threads[k], Total(s.threads));
    case ByTask(b) =>
    case ByReader(b) =>
    case ByOther(b) =>
  }

  /** Readers are woken for good only when close or the peer took the stream out of the open state. */
  lemma {:induction false} ShutFor(tr: seq<Stream>, who: seq<nat>, acts: seq<Act>, n: nat)
    requires Run(tr, who, acts) && n < |tr|
    ensures tr[n].m.bell.shut ==> Owed(tr[n].m.gate.exit) == 1
  {
    hide Step, Inv;
    if n > 0 {
      ShutFor(tr, who, acts, n - 1);
      RunKeeps(tr, who, acts, n - 1);
      var s, k, a, t := tr[n - 1], who[n - 1], acts[n - 1], tr[n];
      assert Step(s, k, a, t);
      StepShuts(s, k, a, t);
      ExitStep(s, k, a, t);
    }
  }

  /**
   Once all have finished or wait, blocked readers can wake up exactly when the stream is no longer
   open and did not leave the open state through a Close that found a callback in process.
   */
  lemma ReadersWoken(tr: seq<Stream>, who: seq<nat>, acts: seq<Act>, n: nat)
    requires Run(tr, who, acts) && n < |tr| && AtRest(tr[n])
    ensures tr[n].m.bell.shut <==>
            tr[n].m.gate.status != Opened && !(exists i :: 0 <= i < n && Leaves(tr, acts, i, Defer))
  {
    hide Run, AtRest, Total, Chains, TasksOk, Conserved, CleanUp, Heard, PcOk;
    AllDone(tr, who, acts, n, ToWake);
    ShutFor(tr, who, acts, n);
    RunKeeps(tr, who, acts, n);
    ExitIs(tr, who, acts, n);
  }

  // ---------- a reader that is not woken ----------

  /** A reader finds nothing and waits. */
  lemma ReaderBlocks(s: Stream) returns (tr: seq<Stream>, who: seq<nat>, acts: seq<Act>, t: Stream)
    requires Init(s) && s.threads == [Idle, Idle, Idle]
    ensures Run(tr, who, acts) && tr[0] == s && Last(tr) == t && t == Stream(s.m, [Idle, Idle, Waiting])
  {
    hide Run, Init, CloseStep, LoopStep, TaskStep, OtherStep;
    t := s;
    tr, who, acts := [s], [], [];
    Start(s);
    tr, who, acts, t := More(tr, who, acts, 2, ByReader(Enter(false)), t.m, Settling(true));
    tr, who, acts, t := More(tr, who, acts, 2, ByReader(Settle), t.m, Waiting);
    assert t.threads == [Idle, Idle, Waiting];
  }

  /** A message arrives. */
  lemma ReaderWaits(s: Stream) returns (tr: seq<Stream>, who: seq<nat>, acts: seq<Act>, t: Stream)
    requires Init(s) && s.m.cb && s.threads == [Idle, Idle, Idle]
    ensures Run(tr, who, acts) && tr[0] == s && Last(tr) == t && t.threads == [Idle, Checking, Waiting]
    ensures t.m == s.m.(store := Store([0], [], [], [0], []))
  {
    hide Run, Init, CloseStep, TaskStep, ReaderStep, OtherStep;
    Start(s);
    tr, who, acts, t := ReaderBlocks(s);
    tr, who, acts, t := More(tr, who, acts, 1, ByLoop(Arrive(0)), t.m.(store := Store([], [], [], [0], [])), Adding(0));
    tr, who, acts, t := More(tr, who, acts, 1, ByLoop(Add), t.m.(store := Store([0], [], [], [0], [])), Checking);
    assert t.threads == [Idle, Checking, Waiting];
  }

  /** A callback is put in process for it. */
  lemma CallbackLaunched(s: Stream) returns (tr: seq<Stream>, who: seq<nat>, acts: seq<Act>, t: Stream)
    requires Init(s) && s.m.cb && s.threads == [Idle, Idle, Idle]
    ensures Run(tr, who, acts) && tr[0] == s && Last(tr) == t && t.threads == [Idle, Enlisting, Waiting]
    ensures t.m == s.m.(tasks := Tasks(true, false, 0, 0), store := Store([0], [], [], [0], []),
                        bell := Bell(true, false))
  {
    hide Run, Init, CloseStep, TaskStep, ReaderStep, OtherStep;
    Start(s);
    tr, who, acts, t := ReaderWaits(s);
    tr, who, acts, t := More(tr, who, acts, 1, ByLoop(Check), t.m, Notifying);
    tr, who, acts, t := More(tr, who, acts, 1, ByLoop(Notify), t.m.(bell := Bell(true, false)), Launching);
    tr, who, acts, t := More(tr, who, acts, 1, ByLoop(Launch), t.m.(tasks := Tasks(true, false, 0, 0)), Enlisting);
    assert t.threads == [Idle, Enlisting, Waiting];
  }

  /** Its goroutine begins. */
  lemma CallbackStarts(s: Stream) returns (tr: seq<Stream>, who: seq<nat>, acts: seq<Act>, t: Stream)
    requires Init(s) && s.m.cb && s.threads == [Idle, Idle, Idle]
    ensures Run(tr, who, acts) && tr[0] == s && Last(tr) == t && t.threads == [Idle, Moving, Waiting]
    ensures t.m == s.m.(tasks := Tasks(true, false, 0, 1), store := Store([0], [], [], [0], []),
                        bell := Bell(true, false))
  {
    hide Run, Init, CloseStep, ReaderStep, OtherStep;
    tr, who, acts, t := CallbackLaunched(s);
    tr, who, acts, t := More(tr, who, acts, 1, ByLoop(Enlist), t.m.(tasks := Tasks(true, false, 1, 1)), Idle);
    tr, who, acts, t := More(tr, who, acts, 1, ByTask(Begin), t.m.(tasks := Tasks(true, false, 0, 1)), Moving);
    assert t.threads == [Idle, Moving, Waiting];
  }

  /** The reader is signalled, moves the message, and waits for more. */
  lemma ReaderWaitsOn(s: Stream) returns (tr: seq<Stream>, who: seq<nat>, acts: seq<Act>, t: Stream)
    requires Init(s) && s.m.cb && s.threads == [Idle, Idle, Idle]
    ensures Run(tr, who, acts) && tr[0] == s && Last(tr) == t && t.threads == [Idle, Serving, Waiting]
    ensures t.m == s.m.(tasks := Tasks(true, false, 0, 1), store := Store([], [0], [], [0], []))
  {
    hide Run, Init, CloseStep, LoopStep, OtherStep;
    Start(s);
    tr, who, acts, t := CallbackStarts(s);
    tr, who, acts, t := More(tr, who, acts, 2, ByReader(Take), t.m.(bell := Bell(false, false)), Fetching(false));
    tr, who, acts, t := More(tr, who, acts, 2, ByReader(Fetch(false)), t.m.(store := t.m.store.Moved()), Waiting);
    tr, who, acts, t := More(tr, who, acts, 1, ByTask(MoveIn), t.m, Serving);
    assert t.threads == [Idle, Serving, Waiting];
  }

  /** Close leaves its note. */
  lemma CloseNotes(s: Stream) returns (tr: seq<Stream>, who: seq<nat>, acts: seq<Act>, t: Stream)
    requires Init(s) && s.m.cb && s.threads == [Idle, Idle, Idle]
    ensures Run(tr, who, acts) && tr[0] == s && Last(tr) == t && t.threads == [Peeking, Serving, Waiting]
    ensures t.m == s.m.(gate := s.m.gate.(asked := true),
                        tasks := Tasks(true, true, 0, 1), store := Store([], [0], [], [0], []))
  {
    hide Run, Init, LoopStep, TaskStep, ReaderStep, OtherStep;
    tr, who, acts, t := ReaderWaitsOn(s);
    tr, who, acts, t := More(tr, who, acts, 0, ByCloser(Close), t.m.(gate := t.m.gate.(asked := true)), Noting);
    tr, who, acts, t := More(tr, who, acts, 0, ByCloser(Note), t.m.(tasks := Tasks(true, true, 0, 1)), Peeking);
    assert t.threads == [Peeking, Serving, Waiting];
  }

  /** Close finds the callback in process. */
  lemma CloseDefers(s: Stream) returns (tr: seq<Stream>, who: seq<nat>, acts: seq<Act>, t: Stream)
    requires Init(s) && s.m.cb && s.threads == [Idle, Idle, Idle]
    ensures Run(tr, who, acts) && tr[0] == s && Last(tr) == t && t.threads == [Idle, Serving, Waiting]
    ensures t.m == s.m.(gate := s.m.gate.(status := HalfClosed, exit := Silently, asked := true),
                        tasks := Tasks(true, true, 0, 1), store := Store([], [0], [], [0], []))
  {
    hide Run, Init, LoopStep, TaskStep, ReaderStep, OtherStep;
    tr, who, acts, t := CloseNotes(s);
    assert t.m.gate.status == Opened by { Start(s); }
    tr, who, acts, t := More(tr, who, acts, 0, ByCloser(Peek), t.m, Deferring);
    tr, who, acts, t := More(tr, who, acts, 0, ByCloser(Defer),
                             t.m.(gate := t.m.gate.(status := HalfClosed, exit := Silently)), Idle);
    assert t.threads == [Idle, Serving, Waiting];
  }

  /** The goroutine finds the note and goes on to close. */
  lemma CallbackParts(s: Stream) returns (tr: seq<Stream>, who: seq<nat>, acts: seq<Act>, t: Stream)
    requires Init(s) && s.m.cb && s.threads == [Idle, Idle, Idle]
    ensures Run(tr, who, acts) && tr[0] == s && Last(tr) == t && t.threads == [Idle, Loading, Waiting]
    ensures t.m == s.m.(gate := s.m.gate.(status := HalfClosed, exit := Silently, asked := true),
                        tasks := Tasks(false, true, 0, 0), store := Store([], [0], [], [0], []))
  {
    hide Run, Init, CloseStep, LoopStep, ReaderStep, OtherStep;
    tr, who, acts, t := CloseDefers(s);
    tr, who, acts, t := More(tr, who, acts, 1, ByTask(Serve), t.m, Lowering);
    tr, who, acts, t := More(tr, who, acts, 1, ByTask(Lower), t.m.(tasks := Tasks(false, true, 0, 1)), Asking);
    tr, who, acts, t := More(tr, who, acts, 1, ByTask(Ask), t.m, Parting);
    tr, who, acts, t := More(tr, who, acts, 1, ByTask(Part), t.m.(tasks := Tasks(false, true, 0, 0)), Loading);
    assert t.threads == [Idle, Loading, Waiting];
  }

  /** It swaps the status of the half-closed stream. */
  lemma CallbackSwaps(s: Stream) returns (tr: seq<Stream>, who: seq<nat>, acts: seq<Act>, t: Stream)
    requires Init(s) && s.m.cb && s.threads == [Idle, Idle, Idle]
    ensures Run(tr, who, acts) && tr[0] == s && Last(tr) == t && t.threads == [Idle, Joining(HalfClosed), Waiting]
    ensures t.m.gate.status == Closed && t.m.tasks == Tasks(false, true, 0, 0) && t.m.bell == Bell(false, false)
  {
    hide Run, Init, LoopStep, TaskStep, ReaderStep, OtherStep;
    Start(s);
    tr, who, acts, t := CallbackParts(s);
    tr, who, acts, t := More(tr, who, acts, 1, ByCloser(Load), t.m, Swapping(HalfClosed));
    tr, who, acts, t := More(tr, who, acts, 1, ByCloser(Swap),
                             t.m.(gate := t.m.gate.(status := Closed, tried := true)), Joining(HalfClosed));
    assert t.threads == [Idle, Joining(HalfClosed), Waiting];
  }

  /** No goroutine is left to wait for. */
  lemma CallbackCloses(s: Stream) returns (tr: seq<Stream>, who: seq<nat>, acts: seq<Act>, t: Stream)
    requires Init(s) && s.m.cb && s.threads == [Idle, Idle, Idle]
    ensures Run(tr, who, acts) && tr[0] == s && Last(tr) == t && t.threads == [Idle, Clearing(HalfClosed), Waiting]
    ensures t.m.gate.status == Closed && t.m.tasks == Tasks(false, true, 0, 0) && t.m.bell == Bell(false, false)
  {
    hide Run, Init, LoopStep, TaskStep, ReaderStep, OtherStep;
    tr, who, acts, t := CallbackSwaps(s);
    tr, who, acts, t := More(tr, who, acts, 1, ByCloser(Join), t.m, Clearing(HalfClosed));
    assert t.threads == [Idle, Clearing(HalfClosed), Waiting];
  }

  /**
   Close finds a callback in process while a reader waits; then the callback goroutine closes the
   stream. All have finished, the stream is closed, and the reader waits for its deadline.
   */
  lemma ReaderNotWoken(s: Stream) returns (tr: seq<Stream>, who: seq<nat>, acts: seq<Act>)
    requires Init(s) && s.m.cb && s.threads == [Idle, Idle, Idle]
    ensures Run(tr, who, acts) && tr[0] == s
    ensures var u := tr[|tr| - 1];
      AtRest(u) && u.m.gate.status == Closed && u.threads == [Idle, Idle, Waiting] && u.m.bell == Bell(false, false)
  {
    hide Run, Init, LoopStep, TaskStep, ReaderStep, OtherStep;
    var t: Stream;
    tr, who, acts, t := CallbackCloses(s);
    tr, who, acts, t := More(tr, who, acts, 1, ByCloser(Clear),
                             t.m.(store := t.m.store.Cleared()), Recycling(HalfClosed));
    tr, who, acts, t := More(tr, who, acts, 1, ByCloser(Recycle), t.m.(store := t.m.store.Recycled()), Idle);
    assert t.threads == [Idle, Idle, Waiting];
  }
}
