/**
 The life of a stream under concurrency: any number of threads close it, the event loop half-closes
 it and delivers messages to it, readers move messages on, the callback goroutine serves them to the
 user, and the session may shut down in between. Each step is one atomic access, or one call on the
 pending list or the receive buffer, on whole chains. The model takes these calls as atomic; the
 code guards moving chains and recycling the receive buffer with different locks.
 */
module StreamLife {

  datatype Status = Opened | HalfClosed | Closed

  /** How the stream left the open state: through close, through the peer, or through a deferred Close. */
  datatype Exit = Within | ByClose | ByPeer | Silently

  datatype Pc =
    | Idle
    | Noting                      // Close: will note that the callback goroutine has to close
    | Peeking                     // will look whether a callback is in process
    | Deferring                   // one is: will swap the status from open to half-closed and return
    | Loading                     // close: will load the status
    | Swapping(was: Status)       // will swap the status from `was` to closed
    | Joining(was: Status)        // has won, will wait for the callback goroutines
    | Clearing(was: Status)       // will empty the pending list
    | Recycling(was: Status)      // will recycle the receive buffer
    | Waking                      // the stream was open: will wake blocked readers
    | Calling                     // will call back
    | Telling                     // will send the close notice to the peer
    | Halving                     // halfClose: will swap the status from open to half-closed
    | HalfWaking
    | HalfCalling
    | Adding(c: nat)              // a message arrives: its chain will be added to the pending list
    | Checking                    // will look at the status
    | Dropping                    // the stream is closed: will empty the pending list
    | Discarding                  // will recycle the receive buffer
    | Notifying                   // it is not: will signal that there is data
    | Launching                   // will try to put a callback in process
    | Enlisting                   // has, will start its goroutine
    | Moving                      // callback goroutine: will move the pending chains
    | Serving                     // will look whether there is something to serve
    | Lowering                    // will take the callback out of process
    | Asking                      // will look for the note of a Close
    | Looking                     // there was none: will look at the pending list
    | Retrying                    // will try to put the callback in process again
    | Parting                     // there was one: will leave the group, and close
    | Ending                      // will leave the group
    | Settling(empty: bool)       // a reader found too little: will look whether to wait
    | Waiting                     // is blocked
    | Fetching(last: bool)        // was signalled: will move the pending chains

  /** The status; how it left open; whether the session is down, Close was called, a swap to closed tried. */
  datatype Gate = Gate(status: Status, exit: Exit, down: bool, asked: bool, tried: bool)

  /** callbackInProcess, callbackCloseState, goroutines that have not begun, the count of the wait group. */
  datatype Tasks = Tasks(inProcess: bool, noted: bool, spawned: nat, group: int)

  /**
   Chains in the stream, and those on the pinned list because a reader holds windows on them; all
   chains handed to the stream and all given back to the free lists.
   */
  datatype Store = Store(pending: seq<nat>, recv: seq<nat>, lent: seq<nat>, arrived: seq<nat>, recycled: seq<nat>) {
    function Cleared(): Store { this.(pending := [], recycled := recycled + pending) }
    function Recycled(): Store { this.(recv := [], recycled := recycled + recv) }
    function Moved(): Store { this.(pending := [], recv := recv + pending) }
    function Released(): Store { this.(lent := [], recycled := recycled + lent) }
  }

  /** Callbacks and close notices made. */
  datatype Tally = Tally(locals: nat, remotes: nat, notices: nat)

  /** What wakes readers: a signal for data, taken by one of them, and the channel that closing closes. */
  datatype Bell = Bell(data: bool, shut: bool)

  /** What the threads share; `cb`: callbacks are set. */
  datatype Shared = Shared(cb: bool, gate: Gate, tasks: Tasks, store: Store, tally: Tally, bell: Bell)

  datatype Stream = Stream(m: Shared, threads: seq<Pc>)

  datatype CloserAct = Close | Note | Peek | Defer | Load | Swap | Join | Clear | Recycle | WakeUp | Call | Tell

  datatype LoopAct =
    | HalfClose | Halve | HalfWake | HalfCall
    | Arrive(c: nat) | Add | Check | Drop | Discard | Notify | Launch | Enlist

  datatype TaskAct = Begin | MoveIn | Serve | Lower | Ask | Look | Retry | Part | End

  /** A reader that may block. Whether it has enough bytes is not decided by the number of chains. */
  datatype ReaderAct =
    | Enter(enough: bool)         // moves the pending chains
    | Settle                      // gives up at the end of the stream, or blocks
    | Take                        // takes the signal for data
    | Wake                        // finds the stream closed
    | Fetch(enough: bool)         // moves the pending chains again
    | GiveUp                      // the deadline passes

  datatype OtherAct =
    | Read                        // a reader moves the pending chains into the receive buffer
    | Consume                     // a reader has read the first of them and gives it back
    | Lend                        // or holds windows on it and has read on: it goes to the pinned list
    | Release                     // the reader gives its windows back
    | Shutdown                    // the session closes

  datatype Act =
    | ByCloser(closer: CloserAct)
    | ByLoop(loop: LoopAct)
    | ByTask(task: TaskAct)
    | ByReader(reader: ReaderAct)
    | ByOther(other: OtherAct)

  function Made(m: Shared): nat
  {
    if m.cb then 1 else 0
  }

  /** Close, close and what follows: a thread at `pc` goes on to `qc` and leaves `m'`. */
  ghost predicate CloseStep(m: Shared, pc: Pc, a: CloserAct, m': Shared, qc: Pc)
  {
    var gate, tally := m.gate, m.tally;
    match a
    case Close => pc.Idle? && qc == (if m.cb then Noting else Peeking) && m' == m.(gate := gate.(asked := true))
    case Note => pc.Noting? && qc == Peeking && m' == m.(tasks := m.tasks.(noted := true))
    case Peek => pc.Peeking? && qc == (if m.tasks.inProcess then Deferring else Loading) && m' == m
    case Defer =>
      && pc.Deferring? && qc == Idle
      && m' == if gate.status == Opened then m.(gate := gate.(status := HalfClosed, exit := Silently)) else m
    case Load => pc.Loading? && qc == (if gate.status == Closed then Idle else Swapping(gate.status)) && m' == m
    case Swap =>
      && pc.Swapping?
      && if gate.status != pc.was then qc == Idle && m' == m.(gate := gate.(tried := true))
         else
           && qc == (if m.cb then Joining(pc.was) else Clearing(pc.was))
           && m' == m.(gate := gate.(
             status := Closed, exit := if pc.was == Opened then ByClose else gate.exit, tried := true))
    case Join => pc.Joining? && m.tasks.group == 0 && qc == Clearing(pc.was) && m' == m
    case Clear => pc.Clearing? && qc == Recycling(pc.was) && m' == m.(store := m.store.Cleared())
    case Recycle =>
      pc.Recycling? && qc == (if pc.was == Opened then Waking else Idle) && m' == m.(store := m.store.Recycled())
    case WakeUp => pc.Waking? && qc == Calling && m' == m.(bell := m.bell.(shut := true))
    case Call =>
      && pc.Calling?
      && if gate.down then qc == Idle && m' == m.(tally := tally.(remotes := tally.remotes + Made(m)))
         else qc == Telling && m' == m.(tally := tally.(locals := tally.locals + Made(m)))
    case Tell =>
      && pc.Telling? && qc == Idle
      && m' == if gate.down then m else m.(tally := tally.(notices := tally.notices + 1))
  }

  /** The event loop. */
  ghost predicate LoopStep(m: Shared, pc: Pc, a: LoopAct, m': Shared, qc: Pc)
  {
    var gate, tasks, store, tally := m.gate, m.tasks, m.store, m.tally;
    match a
    case HalfClose => pc.Idle? && qc == Halving && m' == m
    case Halve =>
      && pc.Halving?
      && if gate.status != Opened then qc == Idle && m' == m
         else qc == HalfWaking && m' == m.(gate := gate.(status := HalfClosed, exit := ByPeer))
    case HalfWake => pc.HalfWaking? && qc == HalfCalling && m' == m.(bell := m.bell.(shut := true))
    case HalfCall => pc.HalfCalling? && qc == Idle && m' == m.(tally := tally.(remotes := tally.remotes + Made(m)))
    case Arrive(c) => pc.Idle? && qc == Adding(c) && m' == m.(store := store.(arrived := store.arrived + [c]))
    case Add => pc.Adding? && qc == Checking && m' == m.(store := store.(pending := store.pending + [pc.c]))
    case Check => pc.Checking? && qc == (if gate.status == Closed then Dropping else Notifying) && m' == m
    case Drop => pc.Dropping? && qc == Discarding && m' == m.(store := store.Cleared())
    case Discard => pc.Discarding? && qc == Idle && m' == m.(store := store.Recycled())
    case Notify =>
      pc.Notifying? && qc == (if m.cb then Launching else Idle) && m' == m.(bell := m.bell.(data := true))
    case Launch =>
      && pc.Launching?
      && if tasks.inProcess then qc == Idle && m' == m
         else qc == Enlisting && m' == m.(tasks := tasks.(inProcess := true))
    case Enlist =>
      && pc.Enlisting? && qc == Idle
      && m' == m.(tasks := tasks.(spawned := tasks.spawned + 1, group := tasks.group + 1))
  }

  /** Readers and the session, at any time. */
  ghost predicate OtherStep(m: Shared, a: OtherAct, m': Shared)
  {
    var store := m.store;
    match a
    case Read => m' == m.(store := store.Moved())
    case Consume =>
      && store.recv != []
      && m' == m.(store := store.(recv := store.recv[1..], recycled := store.recycled + [store.recv[0]]))
    case Lend =>
      && store.recv != []
      && m' == m.(store := store.(recv := store.recv[1..], lent := store.lent + [store.recv[0]]))
    case Release => m' == m.(store := store.Released())
    case Shutdown => m' == m.(gate := m.gate.(down := true))
  }

  /** The callback goroutine; the user's code runs between `Serve` and the next `MoveIn`. */
  ghost predicate TaskStep(m: Shared, pc: Pc, a: TaskAct, m': Shared, qc: Pc)
  {
    var tasks := m.tasks;
    match a
    case Begin => pc.Idle? && tasks.spawned > 0 && qc == Moving
      && m' == m.(tasks := tasks.(spawned := tasks.spawned - 1))
    case MoveIn => pc.Moving? && qc == Serving && m' == m.(store := m.store.Moved())
    case Serve =>
      pc.Serving? && qc == (if m.gate.status == Opened && m.store.recv != [] then Moving else Lowering) && m' == m
    case Lower => pc.Lowering? && qc == Asking && m' == m.(tasks := tasks.(inProcess := false))
    case Ask => pc.Asking? && qc == (if tasks.noted then Parting else Looking) && m' == m
    case Look => pc.Looking? && qc == (if m.store.pending != [] then Retrying else Ending) && m' == m
    case Retry =>
      && pc.Retrying?
      && if tasks.inProcess then qc == Ending && m' == m
         else qc == Moving && m' == m.(tasks := tasks.(inProcess := true))
    case Part => pc.Parting? && qc == Loading && m' == m.(tasks := tasks.(group := tasks.group - 1))
    case End => pc.Ending? && qc == Idle && m' == m.(tasks := tasks.(group := tasks.group - 1))
  }

  /** readMore. */
  ghost predicate ReaderStep(m: Shared, pc: Pc, a: ReaderAct, m': Shared, qc: Pc)
  {
    match a
    case Enter(enough) =>
      && pc.Idle? && m' == m.(store := m.store.Moved())
      && qc == if enough then Idle else Settling(m'.store.recv == [])
    case Settle => pc.Settling? && qc == (if pc.empty && m.gate.status != Opened then Idle else Waiting) && m' == m
    case Take => pc.Waiting? && m.bell.data && qc == Fetching(false) && m' == m.(bell := m.bell.(data := false))
    case Wake => pc.Waiting? && m.bell.shut && qc == Fetching(true) && m' == m
    case Fetch(enough) =>
      pc.Fetching? && qc == (if enough || pc.last then Idle else Waiting) && m' == m.(store := m.store.Moved())
    case GiveUp => pc.Waiting? && qc == Idle && m' == m
  }

  ghost predicate LocalStep(m: Shared, pc: Pc, a: Act, m': Shared, qc: Pc)
  {
    match a
    case ByCloser(b) => CloseStep(m, pc, b, m', qc)
    case ByLoop(b) => LoopStep(m, pc, b, m', qc)
    case ByTask(b) => TaskStep(m, pc, b, m', qc)
    case ByReader(b) => ReaderStep(m, pc, b, m', qc)
    case ByOther(b) => OtherStep(m, b, m') && qc == pc
  }

  ghost predicate Step(s: Stream, k: nat, a: Act, t: Stream)
  {
    && k < |s.threads| == |t.threads| && t.threads == s.threads[k := t.threads[k]]
    && LocalStep(s.m, s.threads[k], a, t.m, t.threads[k])
  }

  // ---------- what is owed ----------

  /** A thread that closed the open stream still has to call back. */
  function CallDebt(pc: Pc): nat
  {
    if pc.Joining? || pc.Clearing? || pc.Recycling? then (if pc.was == Opened then 1 else 0)
    else if pc.Waking? || pc.Calling? then 1
    else 0
  }

  /** And so has one that half-closed it for the peer. */
  function PeerDebt(pc: Pc): nat
  {
    if pc.HalfWaking? || pc.HalfCalling? then 1 else 0
  }

  /** A thread that closed the open stream may still send the notice. */
  function NoticeDebt(pc: Pc): nat
  {
    CallDebt(pc) + if pc.Telling? then 1 else 0
  }

  function Chain(pc: Pc): multiset<nat>
  {
    if pc.Adding? then multiset{pc.c} else multiset{}
  }

  /** A thread that has put the callback in process and not taken it out again. */
  function Holds(pc: Pc): nat
  {
    if pc.Enlisting? || pc.Moving? || pc.Serving? || pc.Lowering? then 1 else 0
  }

  /** A member of the wait group. */
  function Member(pc: Pc): nat
  {
    if pc.Moving? || pc.Serving? || pc.Lowering? || pc.Asking? || pc.Looking? || pc.Retrying? || pc.Parting?
      || pc.Ending?
    then 1 else 0
  }

  datatype Sums = Sums(calls: nat, peers: nat, notices: nat, holders: nat, members: nat)

  function Weigh(pc: Pc): Sums
  {
    Sums(CallDebt(pc), PeerDebt(pc), NoticeDebt(pc), Holds(pc), Member(pc))
  }

  function Plus(a: Sums, b: Sums): Sums
  {
    Sums(a.calls + b.calls, a.peers + b.peers, a.notices + b.notices, a.holders + b.holders, a.members + b.members)
  }

  function Total(ts: seq<Pc>): Sums
  {
    if ts == [] then Sums(0, 0, 0, 0, 0) else Plus(Weigh(ts[0]), Total(ts[1..]))
  }

  function Chains(ts: seq<Pc>): multiset<nat>
  {
    if ts == [] then multiset{} else Chain(ts[0]) + Chains(ts[1..])
  }

  lemma {:induction false} Updated(ts: seq<Pc>, k: nat, pc: Pc)
    requires k < |ts|
    ensures Plus(Total(ts[k := pc]), Weigh(ts[k])) == Plus(Total(ts), Weigh(pc))
    ensures Chains(ts[k := pc]) + Chain(ts[k]) == Chains(ts) + Chain(pc)
  {
    hide Weigh, Chain;
    var us := ts[k := pc];
    if k == 0 {
      assert us[1..] == ts[1..];
    } else {
      Updated(ts[1..], k - 1, pc);
      assert us[1..] == ts[1..][k - 1 := pc] && us[0] == ts[0] && ts[1..][k - 1] == ts[k];
      var a, b, x, y, z := Chain(ts[0]), Chains(us[1..]), Chain(ts[k]), Chains(ts[1..]), Chain(pc);
      assert (a + b) + x == a + (b + x) == a + (y + z) == (a + y) + z;
    }
  }

  /** The debt of one is part of the debt of all. */
  lemma {:induction false} AtLeast(ts: seq<Pc>, k: nat)
    requires k < |ts|
    ensures Total(ts).calls >= CallDebt(ts[k]) && Total(ts).peers >= PeerDebt(ts[k])
    ensures Total(ts).notices >= NoticeDebt(ts[k])
  {
    hide CallDebt, PeerDebt, NoticeDebt, Holds, Member;
    if k > 0 {
      AtLeast(ts[1..], k - 1);
      assert ts[1..][k - 1] == ts[k];
    }
  }

  // ---------- the invariant ----------

  function Owed(e: Exit): nat
  {
    if e == ByClose || e == ByPeer then 1 else 0
  }

  function Told(e: Exit): nat
  {
    if e == ByClose then 1 else 0
  }

  /** Callbacks and notices made and still owed are what the way out of the open state asks for. */
  ghost predicate CallsOk(m: Shared, sum: Sums)
  {
    var exit, tally := m.gate.exit, m.tally;
    && (exit == Within <==> m.gate.status == Opened) && (exit == Silently ==> m.cb)
    && sum.calls <= Told(exit) && sum.peers + Told(exit) <= Owed(exit)
    && tally.locals + tally.remotes + (if m.cb then sum.calls + sum.peers else 0) == (if m.cb then Owed(exit) else 0)
    && tally.locals <= Told(exit) && (exit == ByClose && !m.gate.down ==> tally.remotes == 0)
    && tally.notices + sum.notices <= Told(exit) && (!m.gate.down ==> tally.notices + sum.notices == Told(exit))
  }

  /** At most one callback is in process, and the wait group counts the goroutines. */
  ghost predicate TasksOk(m: Shared, sum: Sums)
  {
    && m.tasks.spawned + sum.holders == (if m.tasks.inProcess then 1 else 0)
    && m.tasks.group == m.tasks.spawned + sum.members
  }

  /** Chains that have arrived and are still to be added, in the stream, lent, or given back. */
  ghost predicate Conserved(store: Store, chains: multiset<nat>)
  {
    multiset(store.arrived)
    == multiset(store.pending) + multiset(store.recv) + multiset(store.lent) + multiset(store.recycled) + chains
  }

  predicate WillClear(pc: Pc)
  {
    pc.Joining? || pc.Clearing? || pc.Checking? || pc.Dropping?
  }

  predicate WillRecycle(pc: Pc)
  {
    WillClear(pc) || pc.Recycling? || pc.Discarding?
  }

  ghost predicate SomeoneClears(s: Stream)
  {
    exists k :: 0 <= k < |s.threads| && WillClear(s.threads[k])
  }

  ghost predicate SomeoneRecycles(s: Stream)
  {
    exists k :: 0 <= k < |s.threads| && WillRecycle(s.threads[k])
  }

  /** What is left in a closed stream will be given back by somebody. */
  ghost predicate CleanUp(s: Stream)
  {
    s.m.gate.status == Closed ==>
      (s.m.store.pending != [] ==> SomeoneClears(s)) && (s.m.store.recv != [] ==> SomeoneRecycles(s))
  }

  function Rank(status: Status): nat
  {
    match status
    case Opened => 0
    case HalfClosed => 1
    case Closed => 2
  }

  predicate Async(pc: Pc)
  {
    || pc.Enlisting? || pc.Moving? || pc.Serving? || pc.Lowering? || pc.Asking? || pc.Looking? || pc.Retrying?
    || pc.Parting? || pc.Ending?
  }

  /** What a thread remembers of the status is no later than the status and was not closed. */
  predicate PcOk(m: Shared, pc: Pc)
  {
    && (pc.Swapping? || pc.Joining? || pc.Clearing? || pc.Recycling? ==> pc.was != Closed)
    && (pc.Swapping? ==> Rank(pc.was) <= Rank(m.gate.status))
    && (pc.Noting? || pc.Deferring? || pc.Launching? || Async(pc) ==> m.cb)
    && (pc.Peeking? && m.cb ==> m.tasks.noted)
  }

  predicate FlagsOk(m: Shared)
  {
    && (m.tasks.inProcess || m.tasks.spawned > 0 ==> m.cb)
    && (m.gate.status == Closed ==> m.gate.tried) && (m.gate.tried ==> m.gate.status != Opened)
  }

  /** A thread that is going to try a swap to closed, if nobody else has. */
  predicate Pursues(m: Shared, pc: Pc)
  {
    pc.Noting? || pc.Peeking? || pc.Loading? || pc.Swapping? || pc.Parting? || (pc.Asking? && m.tasks.noted)
  }

  ghost predicate SomeonePursues(s: Stream)
  {
    exists k :: 0 <= k < |s.threads| && Pursues(s.m, s.threads[k])
  }

  /** A Close is over and done with, or a callback still in process will find its note. */
  predicate Heard(m: Shared)
  {
    m.gate.asked ==> m.gate.tried || (m.tasks.noted && m.tasks.inProcess)
  }

  ghost predicate Inv(s: Stream)
  {
    && CallsOk(s.m, Total(s.threads)) && TasksOk(s.m, Total(s.threads))
    && Conserved(s.m.store, Chains(s.threads)) && CleanUp(s) && FlagsOk(s.m)
    && (forall k :: 0 <= k < |s.threads| ==> PcOk(s.m, s.threads[k]))
    && (Heard(s.m) || SomeonePursues(s))
  }

  // ---------- every step keeps it ----------

  /** A thread at `pc` goes on to `qc`: what that does to the debts of all. */
  ghost predicate DebtsShift(pc: Pc, qc: Pc, sum: Sums, sum': Sums)
  {
    && sum.calls >= CallDebt(pc) && sum.peers >= PeerDebt(pc) && sum.notices >= NoticeDebt(pc)
    && sum'.calls + CallDebt(pc) == sum.calls + CallDebt(qc)
    && sum'.peers + PeerDebt(pc) == sum.peers + PeerDebt(qc)
    && sum'.notices + NoticeDebt(pc) == sum.notices + NoticeDebt(qc)
  }

  /** And to their roles. */
  ghost predicate RolesShift(pc: Pc, qc: Pc, sum: Sums, sum': Sums)
  {
    && sum'.holders + Holds(pc) == sum.holders + Holds(qc)
    && sum'.members + Member(pc) == sum.members + Member(qc)
  }

  /** What is left in a closed stream after a step: the thread cleans up, or somebody else has to as before. */
  ghost predicate CleansUp(m: Shared, pc: Pc, m': Shared, qc: Pc)
  {
    m'.gate.status == Closed ==>
      && (m'.store.pending == [] || WillClear(qc)
          || (m.gate.status == Closed && m.store.pending != [] && !WillClear(pc)))
      && (m'.store.recv == [] || WillRecycle(qc)
          || (m.gate.status == Closed && !WillRecycle(pc) && (m.store.recv != [] || m.store.pending != [])))
  }

  /** Nothing that another thread relies on is taken away from it. */
  ghost predicate OthersKeep(m: Shared, m': Shared)
  {
    && Rank(m.gate.status) <= Rank(m'.gate.status) && m'.cb == m.cb && (m.tasks.noted ==> m'.tasks.noted)
  }

  ghost predicate LocalOk(m: Shared, pc: Pc, m': Shared, qc: Pc)
  {
    && FlagsOk(m') && PcOk(m', qc) && OthersKeep(m, m')
    && (Pursues(m, pc) || Heard(m) ==> Heard(m') || Pursues(m', qc))
  }

  lemma SameRest(x: multiset<nat>, y: multiset<nat>, z: multiset<nat>)
    requires x + z == y + z
    ensures x == y
  {
    forall c ensures x[c] == y[c] {
      assert (x + z)[c] == (y + z)[c];
    }
  }

  /** Neither the status, nor what was made of callbacks and notices, nor what the thread owes has changed. */
  ghost predicate Quiet(m: Shared, pc: Pc, m': Shared, qc: Pc)
  {
    && m'.cb == m.cb && m'.gate.status == m.gate.status && m'.gate.exit == m.gate.exit && m'.gate.down == m.gate.down
    && m'.tally == m.tally
    && CallDebt(qc) == CallDebt(pc) && PeerDebt(qc) == PeerDebt(pc) && NoticeDebt(qc) == NoticeDebt(pc)
  }

  lemma QuietCalls(m: Shared, pc: Pc, m': Shared, qc: Pc, sum: Sums, sum': Sums)
    requires Quiet(m, pc, m', qc) && CallsOk(m, sum) && DebtsShift(pc, qc, sum, sum')
    ensures CallsOk(m', sum')
  {
    hide CallDebt, PeerDebt, NoticeDebt;
  }

  lemma CloseQuiet(m: Shared, pc: Pc, a: CloserAct, m': Shared, qc: Pc)
    requires CloseStep(m, pc, a, m', qc) && PcOk(m, pc) && !(a.Defer? || a.Swap? || a.Call? || a.Tell?)
    ensures Quiet(m, pc, m', qc)
  {
  }

  lemma CloseCalls(m: Shared, pc: Pc, a: CloserAct, m': Shared, qc: Pc, sum: Sums, sum': Sums)
    requires CloseStep(m, pc, a, m', qc) && CallsOk(m, sum) && PcOk(m, pc) && DebtsShift(pc, qc, sum, sum')
    ensures CallsOk(m', sum')
  {
    if !(a.Defer? || a.Swap? || a.Call? || a.Tell?) {
      CloseQuiet(m, pc, a, m', qc);
      QuietCalls(m, pc, m', qc, sum, sum');
    }
  }

  lemma CloseTasks(m: Shared, pc: Pc, a: CloserAct, m': Shared, qc: Pc, sum: Sums, sum': Sums)
    requires CloseStep(m, pc, a, m', qc) && TasksOk(m, sum) && RolesShift(pc, qc, sum, sum')
    ensures TasksOk(m', sum')
  {
  }

  lemma CloseFlags(m: Shared, pc: Pc, a: CloserAct, m': Shared, qc: Pc)
    requires CloseStep(m, pc, a, m', qc) && PcOk(m, pc) && FlagsOk(m)
    ensures FlagsOk(m') && PcOk(m', qc) && OthersKeep(m, m')
  {
  }

  lemma ClosePursues(m: Shared, pc: Pc, a: CloserAct, m': Shared, qc: Pc)
    requires CloseStep(m, pc, a, m', qc) && PcOk(m, pc) && FlagsOk(m)
    ensures Pursues(m, pc) || Heard(m) ==> Heard(m') || Pursues(m', qc)
  {
    hide Async, Rank;
  }

  lemma CloseLocal(m: Shared, pc: Pc, a: CloserAct, m': Shared, qc: Pc)
    requires CloseStep(m, pc, a, m', qc) && PcOk(m, pc) && FlagsOk(m)
    ensures LocalOk(m, pc, m', qc)
  {
    hide CloseStep, PcOk, FlagsOk, Pursues, Heard, OthersKeep;
    CloseFlags(m, pc, a, m', qc);
    ClosePursues(m, pc, a, m', qc);
  }

  lemma CloseCleans(m: Shared, pc: Pc, a: CloserAct, m': Shared, qc: Pc)
    requires CloseStep(m, pc, a, m', qc)
    ensures CleansUp(m, pc, m', qc)
  {
  }

  lemma CloseStore(m: Shared, pc: Pc, a: CloserAct, m': Shared, qc: Pc, cs: multiset<nat>, cs': multiset<nat>)
    requires CloseStep(m, pc, a, m', qc) && Conserved(m.store, cs) && cs' + Chain(pc) == cs + Chain(qc)
    ensures Conserved(m'.store, cs')
  {
    SameRest(cs', cs, Chain(pc));
  }

  lemma LoopQuiet(m: Shared, pc: Pc, a: LoopAct, m': Shared, qc: Pc)
    requires LoopStep(m, pc, a, m', qc) && !a.Halve? && !a.HalfCall?
    ensures Quiet(m, pc, m', qc)
  {
  }

  lemma LoopCalls(m: Shared, pc: Pc, a: LoopAct, m': Shared, qc: Pc, sum: Sums, sum': Sums)
    requires LoopStep(m, pc, a, m', qc) && CallsOk(m, sum) && PcOk(m, pc) && DebtsShift(pc, qc, sum, sum')
    ensures CallsOk(m', sum')
  {
    if !a.Halve? && !a.HalfCall? {
      LoopQuiet(m, pc, a, m', qc);
      QuietCalls(m, pc, m', qc, sum, sum');
    }
  }

  lemma LoopTasks(m: Shared, pc: Pc, a: LoopAct, m': Shared, qc: Pc, sum: Sums, sum': Sums)
    requires LoopStep(m, pc, a, m', qc) && TasksOk(m, sum) && RolesShift(pc, qc, sum, sum')
    ensures TasksOk(m', sum')
  {
  }

  lemma LoopFlags(m: Shared, pc: Pc, a: LoopAct, m': Shared, qc: Pc)
    requires LoopStep(m, pc, a, m', qc) && PcOk(m, pc) && FlagsOk(m)
    ensures FlagsOk(m') && PcOk(m', qc) && OthersKeep(m, m')
  {
  }

  lemma LoopPursues(m: Shared, pc: Pc, a: LoopAct, m': Shared, qc: Pc)
    requires LoopStep(m, pc, a, m', qc)
    ensures Pursues(m, pc) || Heard(m) ==> Heard(m') || Pursues(m', qc)
  {
  }

  lemma LoopLocal(m: Shared, pc: Pc, a: LoopAct, m': Shared, qc: Pc)
    requires LoopStep(m, pc, a, m', qc) && PcOk(m, pc) && FlagsOk(m)
    ensures LocalOk(m, pc, m', qc)
  {
    hide LoopStep, PcOk, FlagsOk, Pursues, Heard, OthersKeep;
    LoopFlags(m, pc, a, m', qc);
    LoopPursues(m, pc, a, m', qc);
  }

  lemma StoreArrives(store: Store, c: nat, cs: multiset<nat>, cs': multiset<nat>)
    requires Conserved(store, cs) && cs' == cs + multiset{c}
    ensures Conserved(store.(arrived := store.arrived + [c]), cs')
  {
  }

  lemma StoreAdds(store: Store, c: nat, cs: multiset<nat>, cs': multiset<nat>)
    requires Conserved(store, cs) && cs' + multiset{c} == cs
    ensures Conserved(store.(pending := store.pending + [c]), cs')
  {
  }

  lemma StoreShifts(store: Store, store': Store, cs: multiset<nat>)
    requires Conserved(store, cs) && store'.arrived == store.arrived
    requires
      || store' == store || store' == store.Cleared() || store' == store.Recycled() || store' == store.Moved()
      || (store.recv != []
          && store' == store.(recv := store.recv[1..], recycled := store.recycled + [store.recv[0]]))
      || (store.recv != [] && store' == store.(recv := store.recv[1..], lent := store.lent + [store.recv[0]]))
      || store' == store.Released()
    ensures Conserved(store', cs)
  {
    assert store.recv != [] ==> store.recv == [store.recv[0]] + store.recv[1..];
  }

  lemma LoopCleans(m: Shared, pc: Pc, a: LoopAct, m': Shared, qc: Pc)
    requires LoopStep(m, pc, a, m', qc)
    ensures CleansUp(m, pc, m', qc)
  {
  }

  lemma LoopMoves(m: Shared, pc: Pc, a: LoopAct, m': Shared, qc: Pc)
    requires LoopStep(m, pc, a, m', qc) && !a.Arrive? && !a.Add?
    ensures m'.store == m.store || m'.store == m.store.Cleared() || m'.store == m.store.Recycled()
    ensures Chain(qc) == Chain(pc)
  {
  }

  lemma LoopStore(m: Shared, pc: Pc, a: LoopAct, m': Shared, qc: Pc, cs: multiset<nat>, cs': multiset<nat>)
    requires LoopStep(m, pc, a, m', qc) && Conserved(m.store, cs) && cs' + Chain(pc) == cs + Chain(qc)
    ensures Conserved(m'.store, cs')
  {
    hide Conserved;
    if a.Arrive? {
      assert cs' + Chain(pc) == cs';
      StoreArrives(m.store, a.c, cs, cs');
    } else if a.Add? {
      assert cs + Chain(qc) == cs;
      StoreAdds(m.store, pc.c, cs, cs');
    } else {
      LoopMoves(m, pc, a, m', qc);
      SameRest(cs', cs, Chain(pc));
      StoreShifts(m.store, m'.store, cs);
    }
  }

  /** The callback goroutine owes nothing and leaves the status alone. */
  lemma TaskQuiet(m: Shared, pc: Pc, a: TaskAct, m': Shared, qc: Pc)
    requires TaskStep(m, pc, a, m', qc)
    ensures Quiet(m, pc, m', qc)
  {
  }

  lemma TaskCalls(m: Shared, pc: Pc, a: TaskAct, m': Shared, qc: Pc, sum: Sums, sum': Sums)
    requires TaskStep(m, pc, a, m', qc) && CallsOk(m, sum) && DebtsShift(pc, qc, sum, sum')
    ensures CallsOk(m', sum')
  {
    hide TaskStep, CallsOk, CallDebt, PeerDebt, NoticeDebt;
    TaskQuiet(m, pc, a, m', qc);
    QuietCalls(m, pc, m', qc, sum, sum');
  }

  lemma TaskTasks(m: Shared, pc: Pc, a: TaskAct, m': Shared, qc: Pc, sum: Sums, sum': Sums)
    requires TaskStep(m, pc, a, m', qc) && TasksOk(m, sum) && RolesShift(pc, qc, sum, sum')
    ensures TasksOk(m', sum')
  {
  }

  lemma TaskLocal(m: Shared, pc: Pc, a: TaskAct, m': Shared, qc: Pc)
    requires TaskStep(m, pc, a, m', qc) && PcOk(m, pc) && FlagsOk(m)
    ensures LocalOk(m, pc, m', qc)
  {
  }

  lemma TaskCleans(m: Shared, pc: Pc, a: TaskAct, m': Shared, qc: Pc)
    requires TaskStep(m, pc, a, m', qc)
    ensures CleansUp(m, pc, m', qc)
  {
  }

  lemma TaskStore(m: Shared, pc: Pc, a: TaskAct, m': Shared, qc: Pc, cs: multiset<nat>, cs': multiset<nat>)
    requires TaskStep(m, pc, a, m', qc) && Conserved(m.store, cs) && cs' + Chain(pc) == cs + Chain(qc)
    ensures Conserved(m'.store, cs')
  {
    SameRest(cs', cs, Chain(pc));
  }

  lemma ReaderQuiet(m: Shared, pc: Pc, a: ReaderAct, m': Shared, qc: Pc)
    requires ReaderStep(m, pc, a, m', qc)
    ensures Quiet(m, pc, m', qc) && m'.gate == m.gate && m'.tasks == m.tasks
    ensures m'.store == m.store || m'.store == m.store.Moved()
    ensures Holds(qc) == Holds(pc) && Member(qc) == Member(pc) && Chain(qc) == Chain(pc)
  {
  }

  lemma ReaderCounts(m: Shared, pc: Pc, a: ReaderAct, m': Shared, qc: Pc, sum: Sums, sum': Sums)
    requires ReaderStep(m, pc, a, m', qc) && CallsOk(m, sum) && TasksOk(m, sum)
    requires DebtsShift(pc, qc, sum, sum') && RolesShift(pc, qc, sum, sum')
    ensures CallsOk(m', sum') && TasksOk(m', sum')
  {
    hide ReaderStep, CallsOk, CallDebt, PeerDebt, NoticeDebt, Holds, Member;
    ReaderQuiet(m, pc, a, m', qc);
    QuietCalls(m, pc, m', qc, sum, sum');
  }

  lemma ReaderStore(m: Shared, pc: Pc, a: ReaderAct, m': Shared, qc: Pc, cs: multiset<nat>, cs': multiset<nat>)
    requires ReaderStep(m, pc, a, m', qc) && Conserved(m.store, cs) && cs' + Chain(pc) == cs + Chain(qc)
    ensures Conserved(m'.store, cs')
  {
    hide ReaderStep, Conserved, Chain;
    ReaderQuiet(m, pc, a, m', qc);
    SameRest(cs', cs, Chain(pc));
    StoreShifts(m.store, m'.store, cs);
  }

  lemma ReaderCleans(m: Shared, pc: Pc, a: ReaderAct, m': Shared, qc: Pc)
    requires ReaderStep(m, pc, a, m', qc)
    ensures CleansUp(m, pc, m', qc)
  {
    hide ReaderStep, Quiet;
    ReaderQuiet(m, pc, a, m', qc);
    ReaderLeaves(m, pc, a, m', qc);
  }

  lemma ReaderLeaves(m: Shared, pc: Pc, a: ReaderAct, m': Shared, qc: Pc)
    requires ReaderStep(m, pc, a, m', qc)
    ensures !WillRecycle(pc)
  {
  }

  lemma ReaderLocal(m: Shared, pc: Pc, a: ReaderAct, m': Shared, qc: Pc)
    requires ReaderStep(m, pc, a, m', qc) && PcOk(m, pc) && FlagsOk(m)
    ensures LocalOk(m, pc, m', qc)
  {
  }

  /** Readers that do not block and the session concern no thread's place in the code. */
  lemma OtherCounts(m: Shared, a: OtherAct, m': Shared, sum: Sums)
    requires OtherStep(m, a, m') && CallsOk(m, sum) && TasksOk(m, sum)
    ensures CallsOk(m', sum) && TasksOk(m', sum)
  {
  }

  lemma OtherStore(m: Shared, a: OtherAct, m': Shared, cs: multiset<nat>)
    requires OtherStep(m, a, m') && Conserved(m.store, cs)
    ensures Conserved(m'.store, cs)
  {
    hide Conserved;
    StoreShifts(m.store, m'.store, cs);
  }

  lemma OtherCleans(m: Shared, pc: Pc, a: OtherAct, m': Shared)
    requires OtherStep(m, a, m')
    ensures CleansUp(m, pc, m', pc)
  {
  }

  lemma OtherLocal(m: Shared, pc: Pc, a: OtherAct, m': Shared)
    requires OtherStep(m, a, m') && PcOk(m, pc) && FlagsOk(m)
    ensures LocalOk(m, pc, m', pc)
  {
    hide Async;
  }

  /** What a step does to the thread that makes it, for the whole stream. */
  lemma LocalKeeps(s: Stream, k: nat, t: Stream)
    requires k < |s.threads| == |t.threads| && t.threads == s.threads[k := t.threads[k]]
    requires LocalOk(s.m, s.threads[k], t.m, t.threads[k]) && (Heard(s.m) || SomeonePursues(s))
    requires forall j :: 0 <= j < |s.threads| ==> PcOk(s.m, s.threads[j])
    ensures Heard(t.m) || SomeonePursues(t)
    ensures forall j :: 0 <= j < |t.threads| ==> PcOk(t.m, t.threads[j])
  {
    hide Holds, Member;
    forall j | 0 <= j < |t.threads|
      ensures PcOk(t.m, t.threads[j])
    {
      assert j != k ==> t.threads[j] == s.threads[j];
    }
    if !Heard(t.m) && !Heard(s.m) {
      var j :| 0 <= j < |s.threads| && Pursues(s.m, s.threads[j]);
      assert Pursues(t.m, t.threads[j]);
    }
  }

  lemma CleanUpKeeps(s: Stream, k: nat, t: Stream)
    requires k < |s.threads| == |t.threads| && t.threads == s.threads[k := t.threads[k]]
    requires CleansUp(s.m, s.threads[k], t.m, t.threads[k]) && CleanUp(s)
    ensures CleanUp(t)
  {
    if t.m.gate.status == Closed && t.m.store.pending != [] && !WillClear(t.threads[k]) {
      var j :| 0 <= j < |s.threads| && WillClear(s.threads[j]);
      assert WillClear(t.threads[j]);
    }
    if t.m.gate.status == Closed && t.m.store.recv != [] && !WillRecycle(t.threads[k]) {
      var j :| 0 <= j < |s.threads| && WillRecycle(s.threads[j]);
      assert WillRecycle(t.threads[j]);
    }
  }

  lemma StepKeeps(s: Stream, k: nat, a: Act, t: Stream)
    requires Inv(s) && Step(s, k, a, t)
    ensures Inv(t)
  {
    hide CloseStep, LoopStep, TaskStep, ReaderStep, OtherStep, CallsOk, TasksOk, Conserved, CleanUp, FlagsOk, PcOk,
         LocalOk, CleansUp, Heard, Total, Chains;
    var m, pc, m', qc := s.m, s.threads[k], t.m, t.threads[k];
    var sum, sum', cs, cs' := Total(s.threads), Total(t.threads), Chains(s.threads), Chains(t.threads);
    Updated(s.threads, k, qc);
    AtLeast(s.threads, k);
    match a {
      case ByCloser(b) =>
        CloseCalls(m, pc, b, m', qc, sum, sum');
        CloseTasks(m, pc, b, m', qc, sum, sum');
        CloseStore(m, pc, b, m', qc, cs, cs');
        CloseLocal(m, pc, b, m', qc);
        CloseCleans(m, pc, b, m', qc);
      case ByLoop(b) =>
        LoopCalls(m, pc, b, m', qc, sum, sum');
        LoopTasks(m, pc, b, m', qc, sum, sum');
        LoopStore(m, pc, b, m', qc, cs, cs');
        LoopLocal(m, pc, b, m', qc);
        LoopCleans(m, pc, b, m', qc);
      case ByTask(b) =>
        TaskCalls(m, pc, b, m', qc, sum, sum');
        TaskTasks(m, pc, b, m', qc, sum, sum');
        TaskStore(m, pc, b, m', qc, cs, cs');
        TaskLocal(m, pc, b, m', qc);
        TaskCleans(m, pc, b, m', qc);
      case ByReader(b) =>
        ReaderCounts(m, pc, b, m', qc, sum, sum');
        ReaderStore(m, pc, b, m', qc, cs, cs');
        ReaderLocal(m, pc, b, m', qc);
        ReaderCleans(m, pc, b, m', qc);
      case ByOther(b) =>
        assert t.threads == s.threads;
        OtherCounts(m, b, m', sum);
        OtherStore(m, b, m', cs);
        OtherCleans(m, pc, b, m');
        OtherLocal(m, pc, b, m');
    }
    LocalKeeps(s, k, t);
    CleanUpKeeps(s, k, t);
    LocalFlags(m, pc, m', qc);
  }

  lemma LocalFlags(m: Shared, pc: Pc, m': Shared, qc: Pc)
    requires LocalOk(m, pc, m', qc)
    ensures FlagsOk(m') && Rank(m.gate.status) <= Rank(m'.gate.status)
  {
  }

  // ---------- runs ----------

  ghost predicate Init(s: Stream)
  {
    && s.m == Shared(s.m.cb, Gate(Opened, Within, s.m.gate.down, false, false), Tasks(false, false, 0, 0),
                     Store([], [], [], [], []), Tally(0, 0, 0), Bell(false, false))
    && AllIdle(s.threads)
  }

  ghost predicate Run(tr: seq<Stream>, who: seq<nat>, acts: seq<Act>)
  {
    && |tr| == |acts| + 1 && |who| == |acts| && Init(tr[0])
    && forall i :: 0 <= i < |acts| ==> Step(tr[i], who[i], acts[i], tr[i + 1])
  }

  ghost predicate AllIdle(ts: seq<Pc>)
  {
    forall k :: 0 <= k < |ts| ==> ts[k] == Idle
  }

  /** Every thread has finished or is a blocked reader. */
  ghost predicate AllRest(ts: seq<Pc>)
  {
    forall k :: 0 <= k < |ts| ==> ts[k].Idle? || ts[k].Waiting?
  }

  lemma RestRest(ts: seq<Pc>)
    requires AllRest(ts) && ts != []
    ensures (ts[0].Idle? || ts[0].Waiting?) && AllRest(ts[1..])
  {
  }

  lemma RestOwes(pc: Pc)
    requires pc.Idle? || pc.Waiting?
    ensures Weigh(pc) == Sums(0, 0, 0, 0, 0) && Chain(pc) == multiset{}
  {
  }

  lemma {:induction false} NothingOwed(ts: seq<Pc>)
    requires AllRest(ts)
    ensures Total(ts) == Sums(0, 0, 0, 0, 0) && Chains(ts) == multiset{}
  {
    hide AllRest, Weigh, Chain, Chains;
    if ts != [] {
      RestRest(ts);
      RestOwes(ts[0]);
      NothingOwed(ts[1..]);
    }
    NoChains(ts);
  }

  lemma {:induction false} NoChains(ts: seq<Pc>)
    requires AllRest(ts)
    ensures Chains(ts) == multiset{}
  {
    hide AllRest, Weigh, Chain;
    if ts != [] {
      RestRest(ts);
      RestOwes(ts[0]);
      NoChains(ts[1..]);
    }
  }

  lemma {:induction false} RunKeeps(tr: seq<Stream>, who: seq<nat>, acts: seq<Act>, i: nat)
    requires Run(tr, who, acts) && i < |tr|
    ensures Inv(tr[i])
  {
    hide Step, Total, Chains;
    if i == 0 {
      NothingOwed(tr[0].threads);
    } else {
      RunKeeps(tr, who, acts, i - 1);
      StepKeeps(tr[i - 1], who[i - 1], acts[i - 1], tr[i]);
    }
  }

  /** The status only moves forward, a step at a time. */
  lemma {:induction false} OneWay(tr: seq<Stream>, who: seq<nat>, acts: seq<Act>, i: nat, j: nat)
    requires Run(tr, who, acts) && i <= j < |tr|
    ensures Rank(tr[i].m.gate.status) <= Rank(tr[j].m.gate.status)
    decreases j - i
  {
    hide Init, LocalStep, PcOk;
    if i < j {
      RunKeeps(tr, who, acts, i);
      assert Step(tr[i], who[i], acts[i], tr[i + 1]);
      StatusRises(tr[i].m, tr[i].threads[who[i]], acts[i], tr[i + 1].m, tr[i + 1].threads[who[i]]);
      OneWay(tr, who, acts, i + 1, j);
    }
  }

  lemma StatusRises(m: Shared, pc: Pc, a: Act, m': Shared, qc: Pc)
    requires LocalStep(m, pc, a, m', qc) && PcOk(m, pc) && FlagsOk(m)
    ensures Rank(m.gate.status) <= Rank(m'.gate.status)
  {
    hide PcOk, FlagsOk, CloseStep, LoopStep, TaskStep, ReaderStep, OtherStep, LocalOk, Rank;
    match a {
      case ByCloser(b) => CloseLocal(m, pc, b, m', qc);
      case ByLoop(b) => LoopLocal(m, pc, b, m', qc);
      case ByTask(b) => TaskLocal(m, pc, b, m', qc);
      case ByReader(b) => ReaderLocal(m, pc, b, m', qc);
      case ByOther(b) => OtherLocal(m, pc, b, m');
    }
    LocalFlags(m, pc, m', qc);
  }

  /** All threads have finished or are blocked readers, and no callback goroutine is waiting to begin. */
  ghost predicate AtRest(s: Stream)
  {
    s.m.tasks.spawned == 0 && AllRest(s.threads)
  }

  /** Step `i` takes the stream out of the open state by a swap inside Close or by the swap of close. */
  ghost predicate Leaves(tr: seq<Stream>, acts: seq<Act>, i: nat, a: CloserAct)
    requires |tr| == |acts| + 1
  {
    i < |acts| && acts[i] == ByCloser(a) && tr[i].m.gate.status == Opened && tr[i + 1].m.gate.status != Opened
  }

  /** How the stream left the open state is what the run says. */
  lemma {:induction false} ExitIs(tr: seq<Stream>, who: seq<nat>, acts: seq<Act>, n: nat)
    requires Run(tr, who, acts) && n < |tr|
    ensures tr[n].m.gate.exit == Silently <==> exists i :: 0 <= i < n && Leaves(tr, acts, i, Defer)
    ensures tr[n].m.gate.exit == ByClose <==> exists i :: 0 <= i < n && Leaves(tr, acts, i, Swap)
  {
    hide LocalStep, PcOk, Inv;
    if n > 0 {
      ExitIs(tr, who, acts, n - 1);
      RunKeeps(tr, who, acts, n - 1);
      assert Step(tr[n - 1], who[n - 1], acts[n - 1], tr[n]);
      ExitStep(tr[n - 1], who[n - 1], acts[n - 1], tr[n]);
      assert Leaves(tr, acts, n - 1, Defer) || !Leaves(tr, acts, n - 1, Defer);
      assert Leaves(tr, acts, n - 1, Swap) || !Leaves(tr, acts, n - 1, Swap);
    }
  }

  lemma ExitStep(s: Stream, k: nat, a: Act, t: Stream)
    requires Inv(s) && Step(s, k, a, t)
    ensures t.m.gate.exit == s.m.gate.exit
            || (s.m.gate.status == Opened && t.m.gate.status != Opened && t.m.gate.exit != Within
              && s.m.gate.exit == Within)
    ensures s.m.gate.status != Opened ==> t.m.gate.exit == s.m.gate.exit
    ensures s.m.gate.status == Opened ==> s.m.gate.exit == Within
    ensures s.m.gate.status == Opened && t.m.gate.status != Opened ==>
      (t.m.gate.exit == Silently <==> a == ByCloser(Defer)) && (t.m.gate.exit == ByClose <==> a == ByCloser(Swap))
  {
    hide TasksOk, Conserved, CleanUp, Heard, Total, Chains;
    assert PcOk(s.m, s.threads[k]);
  }

  /** In every state at most one callback and at most one close notice; none of them while the stream is open. */
  lemma AtMostOne(tr: seq<Stream>, who: seq<nat>, acts: seq<Act>, n: nat)
    requires Run(tr, who, acts) && n < |tr|
    ensures tr[n].m.tally.locals + tr[n].m.tally.remotes <= 1 && tr[n].m.tally.notices <= 1
    ensures tr[n].m.tally.notices + tr[n].m.tally.locals > 0 ==> exists i :: 0 <= i < n && Leaves(tr, acts, i, Swap)
  {
    hide Run, Total, Chains;
    RunKeeps(tr, who, acts, n);
    ExitIs(tr, who, acts, n);
  }

  /**
   A stream with callbacks that has left the open state gets exactly one callback, unless it left
   through a Close that found a callback in process: then there is none. The peer is told exactly
   when the swap of close took the stream out of the open state.
   */
  lemma OneCallback(tr: seq<Stream>, who: seq<nat>, acts: seq<Act>, n: nat)
    requires Run(tr, who, acts) && n < |tr| && AtRest(tr[n]) && tr[n].m.gate.status != Opened
    ensures tr[n].m.cb && !(exists i :: 0 <= i < n && Leaves(tr, acts, i, Defer)) <==>
            tr[n].m.tally.locals + tr[n].m.tally.remotes == 1
    ensures !tr[n].m.gate.down ==>
      ((exists i :: 0 <= i < n && Leaves(tr, acts, i, Swap)) <==> tr[n].m.tally.notices == 1)
  {
    hide Run, Total, Chains;
    RunKeeps(tr, who, acts, n);
    ExitIs(tr, who, acts, n);
    NothingOwed(tr[n].threads);
  }

  /** No Close is forgotten: once all have finished, somebody has tried to close the stream. */
  lemma CloseTried(tr: seq<Stream>, who: seq<nat>, acts: seq<Act>, n: nat)
    requires Run(tr, who, acts) && n < |tr| && AtRest(tr[n]) && tr[n].m.gate.asked
    ensures tr[n].m.gate.tried && tr[n].m.gate.status != Opened
  {
    hide Run, Total, Chains;
    RunKeeps(tr, who, acts, n);
    NothingOwed(tr[n].threads);
    assert forall k :: 0 <= k < |tr[n].threads| ==> !Pursues(tr[n].m, tr[n].threads[k]);
  }

  /** Whenever a chain went to the pinned list, the windows on it were given back later. */
  ghost predicate GaveBack(acts: seq<Act>, n: nat)
    requires n <= |acts|
  {
    forall i :: 0 <= i < n && acts[i] == ByOther(Lend) ==> ReleasedIn(acts, i, n)
  }

  ghost predicate ReleasedIn(acts: seq<Act>, i: nat, n: nat)
    requires n <= |acts|
  {
    exists j :: i < j < n && acts[j] == ByOther(Release)
  }

  lemma CloseLends(m: Shared, pc: Pc, a: CloserAct, m': Shared, qc: Pc)
    requires CloseStep(m, pc, a, m', qc)
    ensures m'.store.lent == m.store.lent
  {
  }

  lemma LoopLends(m: Shared, pc: Pc, a: LoopAct, m': Shared, qc: Pc)
    requires LoopStep(m, pc, a, m', qc)
    ensures m'.store.lent == m.store.lent
  {
  }

  lemma TaskLends(m: Shared, pc: Pc, a: TaskAct, m': Shared, qc: Pc)
    requires TaskStep(m, pc, a, m', qc)
    ensures m'.store.lent == m.store.lent
  {
  }

  lemma LentStep(m: Shared, pc: Pc, a: Act, m': Shared, qc: Pc)
    requires LocalStep(m, pc, a, m', qc)
    ensures a == ByOther(Lend) ==> m'.store.lent != []
    ensures a == ByOther(Release) ==> m'.store.lent == []
    ensures a != ByOther(Lend) && a != ByOther(Release) ==> m'.store.lent == m.store.lent
  {
    hide CloseStep, LoopStep, TaskStep, ReaderStep;
    match a
    case ByCloser(b) => CloseLends(m, pc, b, m', qc);
    case ByLoop(b) => LoopLends(m, pc, b, m', qc);
    case ByTask(b) => TaskLends(m, pc, b, m', qc);
    case ByReader(b) => ReaderQuiet(m, pc, b, m', qc);
    case ByOther(b) =>
  }

  lemma GaveBackNext(acts: seq<Act>, n: nat)
    requires 0 < n <= |acts|
    ensures acts[n - 1] == ByOther(Lend) ==> !GaveBack(acts, n)
    ensures acts[n - 1] == ByOther(Release) ==> GaveBack(acts, n)
    ensures acts[n - 1] != ByOther(Lend) && acts[n - 1] != ByOther(Release) ==>
      (GaveBack(acts, n) <==> GaveBack(acts, n - 1))
  {
    if acts[n - 1] == ByOther(Lend) {
      assert !ReleasedIn(acts, n - 1, n);
    } else if acts[n - 1] == ByOther(Release) {
      assert forall i :: 0 <= i < n && acts[i] == ByOther(Lend) ==> i < n - 1 && ReleasedIn(acts, i, n);
    } else {
      assert forall i :: 0 <= i < n ==> (ReleasedIn(acts, i, n) <==> ReleasedIn(acts, i, n - 1));
    }
  }

  /** Nothing is lent exactly when all windows were given back. */
  lemma {:induction false} LentIs(tr: seq<Stream>, who: seq<nat>, acts: seq<Act>, n: nat)
    requires Run(tr, who, acts) && n < |tr|
    ensures tr[n].m.store.lent == [] <==> GaveBack(acts, n)
  {
    hide LocalStep, GaveBack;
    if n == 0 {
      assert GaveBack(acts, 0) by { NoneYet(acts); }
    } else {
      LentIs(tr, who, acts, n - 1);
      var s, k, t := tr[n - 1], who[n - 1], tr[n];
      assert Step(s, k, acts[n - 1], t);
      LentStep(s.m, s.threads[k], acts[n - 1], t.m, t.threads[k]);
      GaveBackNext(acts, n);
    }
  }

  lemma NoneYet(acts: seq<Act>)
    ensures GaveBack(acts, 0)
  {
  }

  /**
   Closed and finished: nothing is left in the buffers, and every chain that came is lent or was
   given back. Every chain was given back, as often as it came, exactly when all windows on the
   pinned list were: closing does not empty it.
   */
  lemma NothingLeaks(tr: seq<Stream>, who: seq<nat>, acts: seq<Act>, n: nat)
    requires Run(tr, who, acts) && n < |tr| && AtRest(tr[n]) && tr[n].m.gate.status == Closed
    ensures tr[n].m.store.pending == [] && tr[n].m.store.recv == []
    ensures multiset(tr[n].m.store.recycled) + multiset(tr[n].m.store.lent) == multiset(tr[n].m.store.arrived)
    ensures multiset(tr[n].m.store.recycled) == multiset(tr[n].m.store.arrived) <==> GaveBack(acts, n)
  {
    hide Run, Total, Chains, GaveBack;
    RunKeeps(tr, who, acts, n);
    LentIs(tr, who, acts, n);
    NothingOwed(tr[n].threads);
    assert forall k :: 0 <= k < |tr[n].threads| ==> !WillRecycle(tr[n].threads[k]);
    assert |multiset(tr[n].m.store.lent)| == |tr[n].m.store.lent|;
    assert |multiset(tr[n].m.store.recycled) + multiset(tr[n].m.store.lent)|
        == |multiset(tr[n].m.store.recycled)| + |tr[n].m.store.lent|;
  }

  /** In every state: a chain that came once is recycled at most once, and not while it is in the stream or lent. */
  lemma NeverTwice(tr: seq<Stream>, who: seq<nat>, acts: seq<Act>, n: nat, c: nat)
    requires Run(tr, who, acts) && n < |tr| && multiset(tr[n].m.store.arrived)[c] == 1
    ensures multiset(tr[n].m.store.recycled)[c] <= 1
    ensures c in tr[n].m.store.recycled ==>
      c !in tr[n].m.store.pending && c !in tr[n].m.store.recv && c !in tr[n].m.store.lent
  {
    hide Run, Total, Chains, CallsOk, TasksOk, CleanUp;
    RunKeeps(tr, who, acts, n);
    assert c in tr[n].m.store.recycled ==> c in multiset(tr[n].m.store.recycled);
    assert c in tr[n].m.store.pending ==> c in multiset(tr[n].m.store.pending);
    assert c in tr[n].m.store.recv ==> c in multiset(tr[n].m.store.recv);
    assert c in tr[n].m.store.lent ==> c in multiset(tr[n].m.store.lent);
  }

  /** The swap of close leaves the stream closed exactly unless it became half-closed since the load. */
  lemma CloseCloses(tr: seq<Stream>, who: seq<nat>, acts: seq<Act>, i: nat)
    requires Run(tr, who, acts) && i < |acts| && acts[i] == ByCloser(Swap)
    ensures who[i] < |tr[i].threads| && tr[i].threads[who[i]].Swapping?
    ensures tr[i + 1].m.gate.status == Closed <==>
            !(tr[i].threads[who[i]].was == Opened && tr[i].m.gate.status == HalfClosed)
  {
    hide Init, Total, Chains, CallsOk, TasksOk, CleanUp, Conserved;
    RunKeeps(tr, who, acts, i);
    assert Step(tr[i], who[i], acts[i], tr[i + 1]);
    assert PcOk(tr[i].m, tr[i].threads[who[i]]);
  }

  lemma Start(s: Stream)
    requires Init(s)
    ensures Run([s], [], []) && s.m.gate.status == Opened && s.m.tasks == Tasks(false, false, 0, 0)
    ensures s.m.store == Store([], [], [], [], []) && s.m.bell == Bell(false, false) && s.m.tally == Tally(0, 0, 0)
  {
  }

  /** One more step. */
  lemma More(tr: seq<Stream>, who: seq<nat>, acts: seq<Act>, k: nat, a: Act, m: Shared, qc: Pc)
    returns (tr': seq<Stream>, who': seq<nat>, acts': seq<Act>, t: Stream)
    requires Run(tr, who, acts) && k < |tr[|tr| - 1].threads|
    requires LocalStep(tr[|tr| - 1].m, tr[|tr| - 1].threads[k], a, m, qc)
    ensures t == Stream(m, tr[|tr| - 1].threads[k := qc])
    ensures Run(tr', who', acts') && tr'[0] == tr[0] && tr'[|tr'| - 1] == t
  {
    hide LocalStep, Init;
    t := Stream(m, tr[|tr| - 1].threads[k := qc]);
    tr', who', acts' := tr + [t], who + [k], acts + [a];
    assert Step(tr'[|acts|], k, a, t);
    forall i | 0 <= i < |acts'|
      ensures Step(tr'[i], who'[i], acts'[i], tr'[i + 1])
    {
      assert i < |acts| ==> Step(tr[i], who[i], acts[i], tr[i + 1]);
    }
  }

  function Last(tr: seq<Stream>): Stream
    requires tr != []
  {
    tr[|tr| - 1]
  }

  /** The peer's notice arrives: the stream is half-closed and its readers are to be woken. */
  lemma PeerSwaps(tr: seq<Stream>, who: seq<nat>, acts: seq<Act>, s: Stream)
    returns (tr': seq<Stream>, who': seq<nat>, acts': seq<Act>, t: Stream)
    requires Run(tr, who, acts) && Last(tr) == s && |s.threads| == 2 && s.threads[1] == Idle
    requires s.m.gate.status == Opened
    ensures Run(tr', who', acts') && tr'[0] == tr[0] && Last(tr') == t
    ensures t == Stream(s.m.(gate := s.m.gate.(status := HalfClosed, exit := ByPeer)), s.threads[1 := HalfWaking])
  {
    hide Run, CloseStep, TaskStep, ReaderStep, OtherStep;
    var gate := s.m.gate.(status := HalfClosed, exit := ByPeer);
    tr', who', acts', t := More(tr, who, acts, 1, ByLoop(HalfClose), s.m, Halving);
    tr', who', acts', t := More(tr', who', acts', 1, ByLoop(Halve), t.m.(gate := gate), HalfWaking);
    assert t.threads == s.threads[1 := HalfWaking];
  }

  /** The peer half-closes the open stream. */
  lemma PeerHalves(tr: seq<Stream>, who: seq<nat>, acts: seq<Act>, s: Stream)
    returns (tr': seq<Stream>, who': seq<nat>, acts': seq<Act>, t: Stream)
    requires Run(tr, who, acts) && Last(tr) == s && |s.threads| == 2 && s.threads[1] == Idle
    requires s.m.gate.status == Opened && !s.m.cb
    ensures Run(tr', who', acts') && tr'[0] == tr[0] && Last(tr') == t
    ensures t == Stream(s.m.(gate := s.m.gate.(status := HalfClosed, exit := ByPeer),
                             bell := s.m.bell.(shut := true)), s.threads)
  {
    hide Run, CloseStep, TaskStep, ReaderStep, OtherStep;
    tr', who', acts', t := PeerSwaps(tr, who, acts, s);
    tr', who', acts', t := More(tr', who', acts', 1, ByLoop(HalfWake),
                                t.m.(bell := t.m.bell.(shut := true)), HalfCalling);
    tr', who', acts', t := More(tr', who', acts', 1, ByLoop(HalfCall), t.m, Idle);
    assert t.threads == s.threads;
  }

  lemma CloseLoads(s: Stream) returns (tr: seq<Stream>, who: seq<nat>, acts: seq<Act>, t: Stream)
    requires Init(s) && !s.m.cb && s.threads == [Idle, Idle]
    ensures Run(tr, who, acts) && tr[0] == s && Last(tr) == t
    ensures t == Stream(s.m.(gate := s.m.gate.(asked := true)), [Swapping(Opened), Idle])
  {
    hide Run, Init, LoopStep, TaskStep, ReaderStep, OtherStep;
    t := s;
    tr, who, acts := [s], [], [];
    Start(s);
    tr, who, acts, t := More(tr, who, acts, 0, ByCloser(Close), t.m.(gate := t.m.gate.(asked := true)), Peeking);
    tr, who, acts, t := More(tr, who, acts, 0, ByCloser(Peek), t.m, Loading);
    tr, who, acts, t := More(tr, who, acts, 0, ByCloser(Load), t.m, Swapping(Opened));
    assert t.threads == [Swapping(Opened), Idle];
  }

  /** Close loads the status, the peer half-closes the stream, and the swap fails: close returns nil. */
  lemma StaysHalfClosed(s: Stream) returns (tr: seq<Stream>, who: seq<nat>, acts: seq<Act>)
    requires Init(s) && !s.m.cb && s.threads == [Idle, Idle]
    ensures Run(tr, who, acts) && tr[0] == s
    ensures var u := tr[|tr| - 1];
      AtRest(u) && u.m.gate.asked && u.m.gate.status == HalfClosed && u.m.tally.notices == 0
  {
    hide Run, LoopStep, TaskStep, ReaderStep, OtherStep;
    var t: Stream;
    tr, who, acts, t := CloseLoads(s);
    tr, who, acts, t := PeerHalves(tr, who, acts, t);
    tr, who, acts, t := More(tr, who, acts, 0, ByCloser(Swap), t.m.(gate := t.m.gate.(tried := true)), Idle);
    assert t.threads == [Idle, Idle];
  }

  /** A message arrives. */
  lemma Added(s: Stream) returns (tr: seq<Stream>, who: seq<nat>, acts: seq<Act>, t: Stream)
    requires Init(s) && s.threads == [Idle, Idle]
    ensures Run(tr, who, acts) && tr[0] == s && Last(tr) == t
    ensures t == Stream(s.m.(store := Store([0], [], [], [0], [])), [Idle, Checking])
  {
    hide Run, Init, CloseStep, TaskStep, ReaderStep, OtherStep;
    t := s;
    tr, who, acts := [s], [], [];
    Start(s);
    tr, who, acts, t := More(tr, who, acts, 1, ByLoop(Arrive(0)), t.m.(store := Store([], [], [], [0], [])), Adding(0));
    tr, who, acts, t := More(tr, who, acts, 1, ByLoop(Add), t.m.(store := Store([0], [], [], [0], [])), Checking);
    assert t.threads == [Idle, Checking];
  }

  /** It is signalled. */
  lemma Signalled(s: Stream) returns (tr: seq<Stream>, who: seq<nat>, acts: seq<Act>, t: Stream)
    requires Init(s) && s.m.cb && s.threads == [Idle, Idle]
    ensures Run(tr, who, acts) && tr[0] == s && Last(tr) == t && t.threads == [Idle, Launching]
    ensures t.m == s.m.(store := Store([0], [], [], [0], []), bell := Bell(true, false))
  {
    hide Run, Init, CloseStep, TaskStep, ReaderStep, OtherStep;
    Start(s);
    tr, who, acts, t := Added(s);
    tr, who, acts, t := More(tr, who, acts, 1, ByLoop(Check), t.m, Notifying);
    tr, who, acts, t := More(tr, who, acts, 1, ByLoop(Notify), t.m.(bell := Bell(true, false)), Launching);
    assert t.threads == [Idle, Launching];
  }

  /** And a callback is put in process for it. */
  lemma Arrives(s: Stream) returns (tr: seq<Stream>, who: seq<nat>, acts: seq<Act>, t: Stream)
    requires Init(s) && s.m.cb && s.threads == [Idle, Idle]
    ensures Run(tr, who, acts) && tr[0] == s && Last(tr) == t && t.threads == [Idle, Enlisting]
    ensures t.m == s.m.(tasks := Tasks(true, false, 0, 0), store := Store([0], [], [], [0], []),
                        bell := Bell(true, false))
  {
    hide Run, Init, CloseStep, TaskStep, ReaderStep, OtherStep;
    Start(s);
    tr, who, acts, t := Signalled(s);
    tr, who, acts, t := More(tr, who, acts, 1, ByLoop(Launch), t.m.(tasks := Tasks(true, false, 0, 0)), Enlisting);
    assert t.threads == [Idle, Enlisting];
  }

  /** The callback goroutine has handed it to the user, who has read it. */
  lemma InCallback(s: Stream) returns (tr: seq<Stream>, who: seq<nat>, acts: seq<Act>, t: Stream)
    requires Init(s) && s.m.cb && s.threads == [Idle, Idle]
    ensures Run(tr, who, acts) && tr[0] == s && Last(tr) == t && t.threads == [Idle, Serving]
    ensures t.m == s.m.(tasks := Tasks(true, false, 0, 1), store := Store([], [], [], [0], [0]),
                        bell := Bell(true, false))
  {
    hide Run, Init, CloseStep, ReaderStep;
    tr, who, acts, t := Arrives(s);
    tr, who, acts, t := More(tr, who, acts, 1, ByLoop(Enlist), t.m.(tasks := Tasks(true, false, 1, 1)), Idle);
    tr, who, acts, t := More(tr, who, acts, 1, ByTask(Begin), t.m.(tasks := Tasks(true, false, 0, 1)), Moving);
    tr, who, acts, t := More(tr, who, acts, 1, ByTask(MoveIn), t.m.(store := Store([], [0], [], [0], [])), Serving);
    tr, who, acts, t := More(tr, who, acts, 1, ByOther(Consume), t.m.(store := Store([], [], [], [0], [0])), Serving);
    assert t.threads == [Idle, Serving];
  }

  /** Close finds the callback in process. */
  lemma FindsCallback(s: Stream) returns (tr: seq<Stream>, who: seq<nat>, acts: seq<Act>, t: Stream)
    requires Init(s) && s.m.cb && s.threads == [Idle, Idle]
    ensures Run(tr, who, acts) && tr[0] == s && Last(tr) == t && t.threads == [Deferring, Serving]
    ensures t.m == s.m.(gate := s.m.gate.(asked := true), tasks := Tasks(true, true, 0, 1),
                        store := Store([], [], [], [0], [0]), bell := Bell(true, false))
  {
    hide Run, Init, LoopStep, TaskStep, ReaderStep, OtherStep;
    tr, who, acts, t := InCallback(s);
    var gate := s.m.gate.(asked := true);
    tr, who, acts, t := More(tr, who, acts, 0, ByCloser(Close), t.m.(gate := gate), Noting);
    tr, who, acts, t := More(tr, who, acts, 0, ByCloser(Note), t.m.(tasks := Tasks(true, true, 0, 1)), Peeking);
    tr, who, acts, t := More(tr, who, acts, 0, ByCloser(Peek), t.m, Deferring);
    assert t.threads == [Deferring, Serving];
  }

  /** The goroutine takes the callback out of process, finds the note and goes on to close. */
  lemma FindsNote(s: Stream) returns (tr: seq<Stream>, who: seq<nat>, acts: seq<Act>, t: Stream)
    requires Init(s) && s.m.cb && s.threads == [Idle, Idle]
    ensures Run(tr, who, acts) && tr[0] == s && Last(tr) == t && t.threads == [Deferring, Loading]
    ensures t.m == s.m.(gate := s.m.gate.(asked := true), tasks := Tasks(false, true, 0, 0),
                        store := Store([], [], [], [0], [0]), bell := Bell(true, false))
  {
    hide Run, Init, LoopStep, CloseStep, ReaderStep, OtherStep;
    tr, who, acts, t := FindsCallback(s);
    tr, who, acts, t := More(tr, who, acts, 1, ByTask(Serve), t.m, Lowering);
    tr, who, acts, t := More(tr, who, acts, 1, ByTask(Lower), t.m.(tasks := Tasks(false, true, 0, 1)), Asking);
    tr, who, acts, t := More(tr, who, acts, 1, ByTask(Ask), t.m, Parting);
    tr, who, acts, t := More(tr, who, acts, 1, ByTask(Part), t.m.(tasks := Tasks(false, true, 0, 0)), Loading);
    assert t.threads == [Deferring, Loading];
  }

  /**
   Close finds a callback in process and stops before its swap to half-closed. The goroutine finds
   the note and loads the status, which is still open. Then Close swaps, and the goroutine's swap to
   closed fails. All have finished: the stream stays half-closed, nobody is called back or told.
   */
  lemma LostClose(s: Stream) returns (tr: seq<Stream>, who: seq<nat>, acts: seq<Act>)
    requires Init(s) && s.m.cb && s.threads == [Idle, Idle]
    ensures Run(tr, who, acts) && tr[0] == s
    ensures var u := tr[|tr| - 1];
      AtRest(u) && u.m.gate.asked && u.m.gate.status == HalfClosed && u.m.tally == Tally(0, 0, 0)
  {
    hide Run, Init, LoopStep, TaskStep, ReaderStep, OtherStep;
    var t: Stream;
    Start(s);
    tr, who, acts, t := FindsNote(s);
    tr, who, acts, t := More(tr, who, acts, 1, ByCloser(Load), t.m, Swapping(Opened));
    tr, who, acts, t := More(tr, who, acts, 0, ByCloser(Defer),
                             t.m.(gate := t.m.gate.(status := HalfClosed, exit := Silently)), Idle);
    tr, who, acts, t := More(tr, who, acts, 1, ByCloser(Swap), t.m.(gate := t.m.gate.(tried := true)), Idle);
    assert t.threads == [Idle, Idle];
  }
}
