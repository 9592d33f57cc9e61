/**
 The free list of one slot class under concurrency: any number of threads, of both processes, pop
 from the head and push to the tail, one atomic access at a time. `chain` is history: the slots
 from head to tail in the order in which they were hung on.
 */
module FreeListRace {

  /** The part of a slot's header that links it. */
  datatype Node = Node(next: nat, has: bool)

  const RETRIES := 200

  datatype Pc =
    | Idle
    | Loaded(h: nat)                      // pop: has loaded the head
    | Reading(h: nat, i: nat)             // has taken one off the size, will look at the flag of `h`
    | Linked(h: nat, i: nat)              // the flag is set, will load the next offset
    | Swapping(h: nat, n: nat, i: nat)    // will swap the head from `h` to `n`
    | Last(i: nat)                        // the flag is not set, will look at the size
    | Reloading(i: nat)                   // will load the head again
    | Restoring                           // gives up, will put one back on the size
    | Taken(h: nat)                       // has the slot, will clear its flag
    | Counting(h: nat)                    // will count it as used
    | Resetting(o: nat)                   // push: will clear the flag
    | Finding(o: nat)                     // will load the tail
    | Hanging(o: nat, t: nat)             // will swap the tail from `t` to `o`
    | Linking(o: nat, t: nat)             // will write the next offset of `t`
    | Flagging(o: nat, t: nat)            // will set the flag of `t`
    | Sizing                              // will put one on the size
    | Discounting                         // will count it as free

  /** The counters of used slots, one for each process, and which threads run in the mapping process. */
  datatype Used = Used(creator: int, mapper: int, mappers: set<nat>)

  /** Thread `k` adds `d` to the counter of its own process. */
  function Count(u: Used, k: nat, d: int): Used
  {
    if k in u.mappers then u.(mapper := u.mapper + d) else u.(creator := u.creator + d)
  }

  function Total(u: Used): int
  {
    u.creator + u.mapper
  }

  datatype List = List(head: nat, tail: nat, size: int, used: Used, nodes: map<nat, Node>,
                       held: multiset<nat>, threads: seq<Pc>, chain: seq<nat>)

  datatype Act =
    | Pop | Decrement | ReadFlag | ReadNext | SwapHead | ReadSize | Reload | Restore | Clear | CountUp
    | Push(o: nat) | Reset | LoadTail | SwapTail | WriteNext | SetFlag | SizeUp | CountDown
    | Use(o: nat, node: Node)             // the holder of a slot links it into a message

  function Go(s: List, k: nat, pc: Pc): List
    requires k < |s.threads|
  {
    s.(threads := s.threads[k := pc])
  }

  ghost predicate PopStep(s: List, k: nat, a: Act, t: List)
    requires k < |s.threads|
  {
    var pc := s.threads[k];
    match a
    case Pop => pc.Idle? && t == Go(s, k, Loaded(s.head))
    case Decrement =>
      pc.Loaded? && t == Go(s, k, if s.size - 1 <= 0 then Restoring else Reading(pc.h, 0)).(size := s.size - 1)
    case ReadFlag =>
      && pc.Reading? && pc.h in s.nodes
      && t == Go(s, k, if s.nodes[pc.h].has then Linked(pc.h, pc.i) else Last(pc.i))
    case ReadNext => pc.Linked? && pc.h in s.nodes && t == Go(s, k, Swapping(pc.h, s.nodes[pc.h].next, pc.i))
    case SwapHead =>
      && pc.Swapping?
      && t == if s.head == pc.h then
          Go(s, k, Taken(pc.h)).(head := pc.n, chain := if s.chain == [] then [] else s.chain[1..])
        else Go(s, k, Reloading(pc.i))
    case ReadSize => pc.Last? && t == Go(s, k, if s.size <= 1 then Restoring else Reloading(pc.i))
    case Reload => pc.Reloading? && t == Go(s, k, if pc.i + 1 < RETRIES then Reading(s.head, pc.i + 1) else Restoring)
    case Restore => pc.Restoring? && t == Go(s, k, Idle).(size := s.size + 1)
    case Clear =>
      && pc.Taken? && pc.h in s.nodes
      && t == Go(s, k, Counting(pc.h)).(nodes := s.nodes[pc.h := s.nodes[pc.h].(has := false)])
    case CountUp =>
      pc.Counting? && t == Go(s, k, Idle).(used := Count(s.used, k, 1), held := s.held + multiset{pc.h})
    case _ => false
  }

  ghost predicate PushStep(s: List, k: nat, a: Act, t: List)
    requires k < |s.threads|
  {
    var pc := s.threads[k];
    match a
    case Push(o) => pc.Idle? && o in s.held && t == Go(s, k, Resetting(o)).(held := s.held - multiset{o})
    case Reset =>
      && pc.Resetting? && pc.o in s.nodes
      && t == Go(s, k, Finding(pc.o)).(nodes := s.nodes[pc.o := s.nodes[pc.o].(has := false)])
    case LoadTail => pc.Finding? && t == Go(s, k, Hanging(pc.o, s.tail))
    case SwapTail =>
      && pc.Hanging?
      && t == if s.tail == pc.t then Go(s, k, Linking(pc.o, pc.t)).(tail := pc.o, chain := s.chain + [pc.o])
              else Go(s, k, Finding(pc.o))
    case WriteNext =>
      && pc.Linking? && pc.t in s.nodes
      && t == Go(s, k, Flagging(pc.o, pc.t)).(nodes := s.nodes[pc.t := s.nodes[pc.t].(next := pc.o)])
    case SetFlag =>
      && pc.Flagging? && pc.t in s.nodes
      && t == Go(s, k, Sizing).(nodes := s.nodes[pc.t := s.nodes[pc.t].(has := true)])
    case SizeUp => pc.Sizing? && t == Go(s, k, Discounting).(size := s.size + 1)
    case CountDown => pc.Discounting? && t == Go(s, k, Idle).(used := Count(s.used, k, -1))
    case Use(o, node) => o in s.held && t == s.(nodes := s.nodes[o := node])
    case _ => false
  }

  ghost predicate Step(s: List, k: nat, a: Act, t: List)
  {
    k < |s.threads| && (PopStep(s, k, a, t) || PushStep(s, k, a, t))
  }

  // ---------- the invariant ----------

  predicate HasSlot(pc: Pc)
  {
    pc.Taken? || pc.Counting? || pc.Resetting? || pc.Finding? || pc.Hanging?
  }

  function InHands(pc: Pc): nat
    requires HasSlot(pc)
  {
    if pc.Taken? || pc.Counting? then pc.h else pc.o
  }

  /** The slot a thread has in its hands. */
  function Slot(pc: Pc): multiset<nat>
  {
    if HasSlot(pc) then multiset{InHands(pc)} else multiset{}
  }

  /** What a thread has still to put on the size. */
  function SizeDebt(pc: Pc): int
  {
    if pc.Reading? || pc.Linked? || pc.Swapping? || pc.Last? || pc.Reloading? || pc.Restoring?
      || pc.Linking? || pc.Flagging? || pc.Sizing? then 1 else 0
  }

  /** What a thread has still to put on the counter of used slots. */
  function CountDebt(pc: Pc): int
  {
    if pc.Taken? || pc.Counting? then 1
    else if pc.Linking? || pc.Flagging? || pc.Sizing? || pc.Discounting? then -1
    else 0
  }

  function Slots(ts: seq<Pc>): multiset<nat>
  {
    if ts == [] then multiset{} else Slot(ts[0]) + Slots(ts[1..])
  }

  function SizeDebts(ts: seq<Pc>): int
  {
    if ts == [] then 0 else SizeDebt(ts[0]) + SizeDebts(ts[1..])
  }

  function CountDebts(ts: seq<Pc>): int
  {
    if ts == [] then 0 else CountDebt(ts[0]) + CountDebts(ts[1..])
  }

  lemma {:induction false} Updated(ts: seq<Pc>, k: nat, pc: Pc)
    requires k < |ts|
    ensures Slots(ts[k := pc]) + Slot(ts[k]) == Slots(ts) + Slot(pc)
    ensures SizeDebts(ts[k := pc]) + SizeDebt(ts[k]) == SizeDebts(ts) + SizeDebt(pc)
    ensures CountDebts(ts[k := pc]) + CountDebt(ts[k]) == CountDebts(ts) + CountDebt(pc)
  {
    hide Slot, SizeDebt, CountDebt;
    var us := ts[k := pc];
    if k == 0 {
      assert us[1..] == ts[1..];
    } else {
      Updated(ts[1..], k - 1, pc);
      assert us[1..] == ts[1..][k - 1 := pc] && us[0] == ts[0] && ts[1..][k - 1] == ts[k];
      var a, b, x, y, z := Slot(ts[0]), Slots(us[1..]), Slot(ts[k]), Slots(ts[1..]), Slot(pc);
      assert (a + b) + x == a + (b + x) == a + (y + z) == (a + y) + z;
    }
  }

  ghost predicate Shape(s: List)
  {
    && s.chain != [] && s.chain[0] == s.head && s.chain[|s.chain| - 1] == s.tail
    && forall i :: 0 <= i < |s.chain| ==> s.chain[i] in s.nodes
  }

  /** Every slot is in the chain, or in use, or in the hands of one thread, and only once. */
  ghost predicate Owned(s: List)
  {
    multiset(s.chain) + s.held + Slots(s.threads) == multiset(s.nodes.Keys)
  }

  /** A set flag is true: the next slot of the chain is where the header says. */
  ghost predicate LinksOk(s: List)
    requires Shape(s)
  {
    forall i :: 0 <= i < |s.chain| && s.nodes[s.chain[i]].has ==>
      i + 1 < |s.chain| && s.nodes[s.chain[i]].next == s.chain[i + 1]
  }

  predicate Links(pc: Pc, o: nat, t: nat)
  {
    pc == Linking(o, t) || pc == Flagging(o, t)
  }

  ghost predicate Linker(s: List, i: nat)
    requires i + 1 < |s.chain|
  {
    exists k :: 0 <= k < |s.threads| && Links(s.threads[k], s.chain[i + 1], s.chain[i])
  }

  /** Where the flag is missing inside the chain, a pusher is about to set it. */
  ghost predicate GapsOk(s: List)
    requires Shape(s)
  {
    forall i :: 0 <= i < |s.chain| - 1 && !s.nodes[s.chain[i]].has ==> Linker(s, i)
  }

  predicate Gap(s: List, o: nat, t: nat, i: nat)
    requires i + 1 < |s.chain|
  {
    s.chain[i] == t && s.chain[i + 1] == o && t in s.nodes && !s.nodes[t].has
  }

  ghost predicate LinkerOk(s: List, pc: Pc)
  {
    && (IsLinker(pc) ==> exists i :: 0 <= i < |s.chain| - 1 && Gap(s, pc.o, pc.t, i))
    && (pc.Flagging? ==> pc.t in s.nodes && s.nodes[pc.t].next == pc.o)
    && (pc.Finding? || pc.Hanging? ==> pc.o in s.nodes && !s.nodes[pc.o].has)
  }

  predicate IsLinker(pc: Pc)
  {
    pc.Linking? || pc.Flagging?
  }

  ghost predicate LinkersOk(s: List)
  {
    && (forall k :: 0 <= k < |s.threads| ==> LinkerOk(s, s.threads[k]))
    && (forall j, k :: 0 <= j < k < |s.threads| && IsLinker(s.threads[j]) && IsLinker(s.threads[k]) ==>
          s.threads[j].t != s.threads[k].t)
  }

  ghost predicate Counted(s: List)
  {
    && s.size + SizeDebts(s.threads) == |s.chain|
    && Total(s.used) + CountDebts(s.threads) == |s.nodes| - |s.chain|
  }

  ghost predicate Inv(s: List)
  {
    Shape(s) && Owned(s) && LinksOk(s) && GapsOk(s) && LinkersOk(s) && Counted(s)
  }

  /** A swap of the head that succeeds finds the successor it has read to be the successor still. */
  ghost predicate Current(s: List, k: nat, a: Act)
    requires k < |s.threads|
  {
    a.SwapHead? && s.threads[k].Swapping? && s.head == s.threads[k].h ==>
      s.head in s.nodes && s.nodes[s.head] == Node(s.threads[k].n, true)
  }

  // ---------- what is where ----------

  lemma {:induction false} SlotsOne(ts: seq<Pc>, k: nat, o: nat)
    requires k < |ts| && o in Slot(ts[k])
    ensures o in Slots(ts)
  {
    if k > 0 {
      SlotsOne(ts[1..], k - 1, o);
    }
  }

  /** A slot in use or in a thread's hands is not in the chain. */
  lemma NotInChain(s: List, o: nat)
    requires Owned(s) && (o in s.held || o in Slots(s.threads))
    ensures o in s.nodes && o !in s.chain
  {
    hide Slots;
    var all := multiset(s.chain) + s.held + Slots(s.threads);
    assert all[o] == multiset(s.chain)[o] + s.held[o] + Slots(s.threads)[o];
    assert o in multiset(s.nodes.Keys);
    assert multiset(s.chain)[o] == 0;
  }

  lemma CountedTwice(ch: seq<nat>, i: nat, j: nat)
    requires i < j < |ch|
    ensures ch[i] == ch[j] ==> multiset(ch)[ch[i]] >= 2
  {
    var rest := ch[..i] + ch[i + 1..];
    assert ch == ch[..i] + ([ch[i]] + ch[i + 1..]);
    assert multiset(ch) == multiset(rest) + multiset{ch[i]};
    assert rest[j - 1] == ch[j];
    assert ch[j] in multiset(rest);
  }

  /** No slot is twice in the chain. */
  lemma ChainDistinct(s: List, i: nat, j: nat)
    requires Owned(s) && i < j < |s.chain|
    ensures s.chain[i] != s.chain[j]
  {
    hide Slots;
    var o := s.chain[i];
    CountedTwice(s.chain, i, j);
    var all := multiset(s.chain) + s.held + Slots(s.threads);
    assert all[o] == multiset(s.chain)[o] + s.held[o] + Slots(s.threads)[o];
  }

  // ---------- every step keeps it ----------

  /** The thread `k` pays for what it does to the size and the counter. */
  ghost predicate Paid(s: List, k: nat, t: List)
    requires k < |s.threads| == |t.threads|
  {
    && t.size + SizeDebt(t.threads[k]) - |t.chain| == s.size + SizeDebt(s.threads[k]) - |s.chain|
    && Total(t.used) + CountDebt(t.threads[k]) + |t.chain| == Total(s.used) + CountDebt(s.threads[k]) + |s.chain|
  }

  /** And it accounts for the slots it moves. */
  ghost predicate Moved(s: List, k: nat, t: List)
    requires k < |s.threads| == |t.threads|
  {
    multiset(t.chain) + t.held + Slot(t.threads[k]) == multiset(s.chain) + s.held + Slot(s.threads[k])
  }

  lemma PopPaid(s: List, k: nat, a: Act, t: List)
    requires k < |s.threads| && PopStep(s, k, a, t) && Shape(s)
    ensures t.threads == s.threads[k := t.threads[k]] && Paid(s, k, t)
  {
  }

  lemma UsePaid(s: List, k: nat, a: Act, t: List)
    requires k < |s.threads| && PushStep(s, k, a, t) && a.Use?
    ensures t.threads == s.threads[k := t.threads[k]] && Paid(s, k, t)
  {
    hide SizeDebt, CountDebt;
  }

  lemma HangPaid(s: List, k: nat, a: Act, t: List)
    requires k < |s.threads| && PushStep(s, k, a, t) && !a.Use?
    ensures t.threads == s.threads[k := t.threads[k]] && Paid(s, k, t)
  {
  }

  lemma PushPaid(s: List, k: nat, a: Act, t: List)
    requires k < |s.threads| && PushStep(s, k, a, t)
    ensures t.threads == s.threads[k := t.threads[k]] && Paid(s, k, t)
  {
    hide PushStep, Paid;
    if a.Use? {
      UsePaid(s, k, a, t);
    } else {
      HangPaid(s, k, a, t);
    }
  }

  predicate Hands(s: List, k: nat, a: Act)
    requires k < |s.threads|
  {
    Swaps(s, k, a) || a.CountUp? || a.Push?
  }

  predicate SameHands(pc: Pc, pc': Pc)
  {
    HasSlot(pc') == HasSlot(pc) && (HasSlot(pc) ==> InHands(pc') == InHands(pc))
  }

  lemma MostlyUnmoved(s: List, k: nat, a: Act, t: List)
    requires Step(s, k, a, t) && !Hands(s, k, a)
    ensures t.chain == s.chain && t.held == s.held && |t.threads| == |s.threads|
    ensures SameHands(s.threads[k], t.threads[k])
  {
    if PopStep(s, k, a, t) {
    } else {
      assert PushStep(s, k, a, t);
    }
  }

  /** The steps with which a slot goes from one place to another. */
  lemma HandedOn(s: List, k: nat, a: Act, t: List)
    requires Step(s, k, a, t) && Shape(s) && Hands(s, k, a)
    ensures |t.threads| == |s.threads|
    ensures a.SwapHead? ==> t.held == s.held && s.chain == [InHands(t.threads[k])] + t.chain && !HasSlot(s.threads[k])
    ensures a.SwapHead? ==> HasSlot(t.threads[k])
    ensures a.SwapTail? ==> t.held == s.held && HasSlot(s.threads[k]) && !HasSlot(t.threads[k])
    ensures a.SwapTail? ==> t.chain == s.chain + [InHands(s.threads[k])]
    ensures a.CountUp? ==> t.chain == s.chain && HasSlot(s.threads[k]) && !HasSlot(t.threads[k])
    ensures a.CountUp? ==> t.held == s.held + multiset{InHands(s.threads[k])}
    ensures a.Push? ==> t.chain == s.chain && !HasSlot(s.threads[k]) && HasSlot(t.threads[k])
    ensures a.Push? ==> InHands(t.threads[k]) in s.held && t.held == s.held - multiset{InHands(t.threads[k])}
  {
    if a.SwapHead? {
      assert s.chain == [s.chain[0]] + s.chain[1..];
    }
  }

  lemma StepMoved(s: List, k: nat, a: Act, t: List)
    requires Step(s, k, a, t) && Shape(s)
    ensures |t.threads| == |s.threads| && Moved(s, k, t)
  {
    hide PopStep, PushStep, HasSlot, Shape;
    if !Hands(s, k, a) {
      MostlyUnmoved(s, k, a, t);
    } else {
      HandedOn(s, k, a, t);
      if a.Push? {
        assert s.held == t.held + multiset{InHands(t.threads[k])};
      }
    }
  }

  lemma OwnedKeeps(s: List, k: nat, a: Act, t: List)
    requires Inv(s) && Step(s, k, a, t) && Current(s, k, a)
    ensures Owned(t) && Counted(t)
  {
    hide Slots, SizeDebts, CountDebts, Slot, SizeDebt, CountDebt, LinksOk, GapsOk, LinkersOk, PopStep, PushStep, Shape;
    KeysKept(s, k, a, t);
    if PopStep(s, k, a, t) {
      PopPaid(s, k, a, t);
    } else {
      PushPaid(s, k, a, t);
    }
    StepMoved(s, k, a, t);
    Updated(s.threads, k, t.threads[k]);
    Sum(multiset(s.chain) + s.held, Slots(s.threads), Slot(s.threads[k]),
        multiset(t.chain) + t.held, Slots(t.threads), Slot(t.threads[k]));
  }

  lemma Sum(a: multiset<nat>, b: multiset<nat>, x: multiset<nat>, c: multiset<nat>, d: multiset<nat>, y: multiset<nat>)
    requires c + y == a + x && d + x == b + y
    ensures c + d == a + b
  {
    forall o ensures (c + d)[o] == (a + b)[o] {
      assert (c + y)[o] == (a + x)[o] && (d + x)[o] == (b + y)[o];
    }
  }

  lemma KeysKept(s: List, k: nat, a: Act, t: List)
    requires Inv(s) && Step(s, k, a, t)
    ensures t.nodes.Keys == s.nodes.Keys && |t.threads| == |s.threads| && |t.nodes| == |s.nodes|
  {
    hide Slots, SizeDebts, CountDebts, LinksOk, GapsOk, LinkersOk, Counted;
    if a.Use? {
      NotInChain(s, a.o);
    }
    assert t.nodes.Keys == s.nodes.Keys;
    assert |t.nodes| == |t.nodes.Keys| && |s.nodes| == |s.nodes.Keys|;
  }

  /** What a thread has in its hands is a slot outside the chain. */
  lemma InHand(s: List, k: nat, o: nat)
    requires Inv(s) && k < |s.threads| && o in Slot(s.threads[k])
    ensures o in s.nodes && o !in s.chain
  {
    hide Slots, LinksOk, GapsOk, LinkersOk, Counted;
    SlotsOne(s.threads, k, o);
    NotInChain(s, o);
  }

  // ---------- steps that leave the chain and the headers alone ----------

  predicate Swaps(s: List, k: nat, a: Act)
    requires k < |s.threads|
  {
    || (a.SwapHead? && s.threads[k].Swapping? && s.head == s.threads[k].h)
    || (a.SwapTail? && s.threads[k].Hanging? && s.tail == s.threads[k].t)
  }

  predicate Rewrites(a: Act)
  {
    a.Clear? || a.Reset? || a.WriteNext? || a.SetFlag? || a.Use?
  }

  lemma Elsewhere(s: List, k: nat, a: Act, t: List)
    requires Step(s, k, a, t) && !Swaps(s, k, a)
    ensures t.chain == s.chain && t.head == s.head && t.tail == s.tail
    ensures !Rewrites(a) ==> t.nodes == s.nodes
    ensures !Rewrites(a) ==> !IsLinker(t.threads[k]) && !IsLinker(s.threads[k])
    ensures !Rewrites(a) && (t.threads[k].Finding? || t.threads[k].Hanging?) ==>
      s.threads[k].Finding? || s.threads[k].Hanging?
    ensures !Rewrites(a) && (t.threads[k].Finding? || t.threads[k].Hanging?) ==> t.threads[k].o == s.threads[k].o
    ensures k < |s.threads| == |t.threads| && forall j :: 0 <= j < |s.threads| && j != k ==>
      t.threads[j] == s.threads[j]
  {
    if PopStep(s, k, a, t) {
    } else {
      assert PushStep(s, k, a, t);
    }
  }

  lemma QuietKeeps(s: List, k: nat, a: Act, t: List)
    requires Inv(s) && Step(s, k, a, t) && !Swaps(s, k, a) && !Rewrites(a)
    ensures Shape(t) && LinksOk(t) && GapsOk(t) && LinkersOk(t)
  {
    hide Slots, SizeDebts, CountDebts, Step, Owned, Counted;
    Elsewhere(s, k, a, t);
    forall i | 0 <= i < |t.chain| - 1 && !t.nodes[t.chain[i]].has ensures Linker(t, i) {
      assert Linker(s, i);
      var j :| 0 <= j < |s.threads| && Links(s.threads[j], s.chain[i + 1], s.chain[i]);
      assert Links(t.threads[j], t.chain[i + 1], t.chain[i]);
    }
    forall j | 0 <= j < |t.threads| ensures LinkerOk(t, t.threads[j]) {
      assert LinkerOk(s, s.threads[j]) && LinkerOk(s, s.threads[k]);
      StillGap(s, s.threads[j], t);
    }
    forall i, j | 0 <= i < j < |t.threads| && IsLinker(t.threads[i]) && IsLinker(t.threads[j])
      ensures t.threads[i].t != t.threads[j].t
    {
      assert t.threads[i] == s.threads[i] && t.threads[j] == s.threads[j];
    }
  }

  /** A pending link stays pending as long as the chain and the header it concerns stay. */
  lemma StillGap(s: List, pc: Pc, t: List)
    requires LinkerOk(s, pc) && t.chain == s.chain
    requires IsLinker(pc) && pc.t in s.nodes ==> pc.t in t.nodes && t.nodes[pc.t] == s.nodes[pc.t]
    ensures IsLinker(pc) ==> LinkerOk(t, pc)
  {
    if IsLinker(pc) {
      var i :| 0 <= i < |s.chain| - 1 && Gap(s, pc.o, pc.t, i);
      assert Gap(t, pc.o, pc.t, i);
    }
  }

  // ---------- steps that rewrite a header ----------

  /** A header outside the chain may change, as long as no pusher's slot gets its flag set. */
  ghost predicate Outside(s: List, k: int, o: nat, t: List)
  {
    && o !in s.chain && o in s.nodes && o in t.nodes && t.nodes == s.nodes[o := t.nodes[o]]
    && t.chain == s.chain && t.head == s.head && t.tail == s.tail && |t.threads| == |s.threads|
    && (forall j :: 0 <= j < |s.threads| && j != k ==> t.threads[j] == s.threads[j])
    && (0 <= k < |s.threads| ==> HeaderSet(s, k, t))
    && (t.nodes[o].has ==> o !in Slots(s.threads))
  }

  predicate HeaderSet(s: List, k: nat, t: List)
    requires k < |s.threads| == |t.threads|
  {
    && !IsLinker(t.threads[k]) && !IsLinker(s.threads[k])
    && (t.threads[k].Finding? || t.threads[k].Hanging? ==> t.threads[k].o in t.nodes && !t.nodes[t.threads[k].o].has)
  }

  lemma OutsideKeeps(s: List, k: int, o: nat, t: List)
    requires Inv(s) && Outside(s, k, o, t)
    ensures Shape(t) && LinksOk(t) && GapsOk(t) && LinkersOk(t)
  {
    hide Slots, SizeDebts, CountDebts, Owned, Counted, GapsOk, LinkersOk;
    forall i | 0 <= i < |t.chain| ensures t.chain[i] in t.nodes && t.nodes[t.chain[i]] == s.nodes[s.chain[i]] {
      assert s.chain[i] in s.chain;
    }
    OutsideGaps(s, k, o, t);
    OutsideLinkers(s, k, o, t);
  }

  lemma OutsideGaps(s: List, k: int, o: nat, t: List)
    requires Inv(s) && Outside(s, k, o, t) && Shape(t)
    requires forall i :: 0 <= i < |t.chain| ==> t.nodes[t.chain[i]] == s.nodes[s.chain[i]]
    ensures GapsOk(t)
  {
    hide Slots, SizeDebts, CountDebts, Owned, Counted, LinkersOk, LinksOk;
    forall i | 0 <= i < |t.chain| - 1 && !t.nodes[t.chain[i]].has ensures Linker(t, i) {
      assert Linker(s, i);
      var j :| 0 <= j < |s.threads| && Links(s.threads[j], s.chain[i + 1], s.chain[i]);
      assert Links(t.threads[j], t.chain[i + 1], t.chain[i]);
    }
  }

  lemma OutsideLinkers(s: List, k: int, o: nat, t: List)
    requires Inv(s) && Outside(s, k, o, t)
    ensures LinkersOk(t)
  {
    hide Slots, SizeDebts, CountDebts, Owned, Counted, LinksOk, GapsOk, Shape;
    forall j | 0 <= j < |t.threads| ensures LinkerOk(t, t.threads[j]) {
      if j != k {
        OtherLinker(s, k, o, t, j);
      }
    }
    forall i, j | 0 <= i < j < |t.threads| && IsLinker(t.threads[i]) && IsLinker(t.threads[j])
      ensures t.threads[i].t != t.threads[j].t
    {
      assert t.threads[i] == s.threads[i] && t.threads[j] == s.threads[j];
    }
  }

  lemma OtherLinker(s: List, k: int, o: nat, t: List, j: nat)
    requires Inv(s) && Outside(s, k, o, t) && j < |s.threads| && j != k
    ensures LinkerOk(t, t.threads[j])
  {
    hide Slots, SizeDebts, CountDebts, Owned, Counted, LinksOk, GapsOk;
    var pc := s.threads[j];
    assert LinkerOk(s, pc);
    if IsLinker(pc) {
      var i :| 0 <= i < |s.chain| - 1 && Gap(s, pc.o, pc.t, i);
      assert pc.t in s.chain;
      StillGap(s, pc, t);
    }
    if pc.Finding? || pc.Hanging? {
      if pc.o == o && t.nodes[o].has {
        SlotsOne(s.threads, j, o);
        assert false;
      }
    }
  }

  lemma HolderKeeps(s: List, k: nat, a: Act, t: List)
    requires Inv(s) && Step(s, k, a, t) && (a.Clear? || a.Reset? || a.Use?)
    ensures Shape(t) && LinksOk(t) && GapsOk(t) && LinkersOk(t)
  {
    hide Slots, SizeDebts, CountDebts, Counted, LinksOk, GapsOk;
    if a.Use? {
      NotInChain(s, a.o);
      NotInHands(s, a.o);
      OutsideKeeps(s, -1, a.o, t);
    } else {
      InHand(s, k, InHands(s.threads[k]));
      OutsideKeeps(s, k, InHands(s.threads[k]), t);
    }
  }

  lemma NotInHands(s: List, o: nat)
    requires Owned(s) && o in s.held
    ensures o !in Slots(s.threads)
  {
    hide Slots;
    var all := multiset(s.chain) + s.held + Slots(s.threads);
    assert all[o] == multiset(s.chain)[o] + s.held[o] + Slots(s.threads)[o];
  }

  /** Writing the next offset of the old tail, and then its flag, closes the gap behind it. */
  lemma LinkKeeps(s: List, k: nat, a: Act, t: List)
    requires Inv(s) && Step(s, k, a, t) && (a.WriteNext? || a.SetFlag?)
    ensures Shape(t) && LinksOk(t) && GapsOk(t) && LinkersOk(t)
  {
    hide Slots, SizeDebts, CountDebts, Owned, Counted, GapsOk, LinkersOk, Links;
    var pc := s.threads[k];
    LinkerHere(s, k);
    var i :| 0 <= i < |s.chain| - 1 && Gap(s, pc.o, pc.t, i);
    forall j | 0 <= j < |s.chain| && j != i ensures t.nodes[s.chain[j]] == s.nodes[s.chain[j]] {
      ChainDistinct(s, if i < j then i else j, if i < j then j else i);
    }
    LinkEffect(s, k, a, t);
    assert t.nodes[s.chain[i]].has || Links(t.threads[k], s.chain[i + 1], s.chain[i]) by { LinksNow(s, k, a, t, i); }
    LinkGaps(s, k, t, i);
    LinkLinkers(s, k, a, t, i);
  }

  lemma LinkerHere(s: List, k: nat)
    requires LinkersOk(s) && k < |s.threads|
    ensures LinkerOk(s, s.threads[k])
  {
  }

  lemma LinkEffect(s: List, k: nat, a: Act, t: List)
    requires Shape(s) && Step(s, k, a, t) && (a.WriteNext? || a.SetFlag?)
    ensures k < |s.threads| == |t.threads| && IsLinker(s.threads[k]) && t.threads == s.threads[k := t.threads[k]]
    ensures t.chain == s.chain && t.head == s.head && t.tail == s.tail && t.nodes.Keys == s.nodes.Keys
    ensures a.WriteNext? ==> t.threads[k] == Flagging(s.threads[k].o, s.threads[k].t)
    ensures a.SetFlag? ==> s.threads[k].t in t.nodes && t.nodes[s.threads[k].t].has
  {
  }

  lemma LinksNow(s: List, k: nat, a: Act, t: List, i: nat)
    requires Shape(s) && Step(s, k, a, t) && (a.WriteNext? || a.SetFlag?)
    requires i < |s.chain| - 1 && k < |s.threads| && IsLinker(s.threads[k]) && Gap(s, s.threads[k].o, s.threads[k].t, i)
    ensures |t.threads| == |s.threads| && s.chain[i] in t.nodes
    ensures t.nodes[s.chain[i]].has || Links(t.threads[k], s.chain[i + 1], s.chain[i])
  {
    hide Step;
    LinkEffect(s, k, a, t);
  }

  lemma LinkGaps(s: List, k: nat, t: List, i: nat)
    requires Shape(s) && GapsOk(s) && Owned(s)
    requires k < |s.threads| == |t.threads| && t.threads == s.threads[k := t.threads[k]]
    requires t.chain == s.chain && t.head == s.head && t.tail == s.tail && t.nodes.Keys == s.nodes.Keys
    requires i < |s.chain| - 1 && IsLinker(s.threads[k]) && Gap(s, s.threads[k].o, s.threads[k].t, i)
    requires forall j :: 0 <= j < |s.chain| && j != i ==> t.nodes[s.chain[j]] == s.nodes[s.chain[j]]
    requires t.nodes[s.chain[i]].has || Links(t.threads[k], s.chain[i + 1], s.chain[i])
    ensures Shape(t) && GapsOk(t)
  {
    hide Slots, Owned;
    forall j | 0 <= j < |t.chain| - 1 && !t.nodes[t.chain[j]].has ensures Linker(t, j) {
      if j == i {
        assert Links(t.threads[k], t.chain[j + 1], t.chain[j]);
      } else {
        assert Linker(s, j);
        var m :| 0 <= m < |s.threads| && Links(s.threads[m], s.chain[j + 1], s.chain[j]);
        ChainDistinct(s, if i < j then i else j, if i < j then j else i);
        assert m != k;
        assert Links(t.threads[m], t.chain[j + 1], t.chain[j]);
      }
    }
  }

  lemma LinkLinkers(s: List, k: nat, a: Act, t: List, i: nat)
    requires Inv(s) && Step(s, k, a, t) && (a.WriteNext? || a.SetFlag?)
    requires i < |s.chain| - 1 && Gap(s, s.threads[k].o, s.threads[k].t, i)
    ensures LinkersOk(t)
  {
    hide Slots, SizeDebts, CountDebts, Counted, LinksOk, GapsOk;
    assert a.WriteNext? ==> Gap(t, s.threads[k].o, s.threads[k].t, i);
    forall j | 0 <= j < |t.threads| ensures LinkerOk(t, t.threads[j]) {
      assert LinkerOk(s, s.threads[j]);
      if j != k {
        StillGap(s, s.threads[j], t);
        HungOutside(s, k, j);
      }
    }
  }

  /** The slot a pusher has in its hands is not the one whose header another pusher rewrites. */
  lemma HungOutside(s: List, k: nat, j: nat)
    requires Inv(s) && j < |s.threads| && k < |s.threads| && IsLinker(s.threads[k])
    ensures s.threads[j].Finding? || s.threads[j].Hanging? ==> s.threads[j].o != s.threads[k].t
    ensures j != k && IsLinker(s.threads[j]) ==> s.threads[j].t != s.threads[k].t
  {
    hide Slots, SizeDebts, CountDebts, Counted, LinksOk, GapsOk, Owned;
    assert LinkerOk(s, s.threads[k]);
    var i :| 0 <= i < |s.chain| - 1 && Gap(s, s.threads[k].o, s.threads[k].t, i);
    assert s.threads[k].t in s.chain;
    if s.threads[j].Finding? || s.threads[j].Hanging? {
      InHand(s, j, s.threads[j].o);
    }
  }

  // ---------- swaps ----------

  lemma SwapHeadKeeps(s: List, k: nat, t: List)
    requires Inv(s) && Step(s, k, SwapHead, t) && Swaps(s, k, SwapHead) && Current(s, k, SwapHead)
    ensures Shape(t) && LinksOk(t) && GapsOk(t) && LinkersOk(t)
  {
    hide Slots, SizeDebts, CountDebts, Counted, Owned, GapsOk, LinkersOk;
    assert s.nodes[s.chain[0]].has;
    assert t.chain == s.chain[1..] && t.nodes == s.nodes;
    forall i | 0 <= i < |t.chain| ensures t.chain[i] == s.chain[i + 1] {
    }
    SwapHeadGaps(s, k, t);
    SwapHeadLinkers(s, k, t);
  }

  lemma SwapHeadGaps(s: List, k: nat, t: List)
    requires Inv(s) && Step(s, k, SwapHead, t) && Swaps(s, k, SwapHead) && Shape(t)
    ensures GapsOk(t)
  {
    hide Slots, SizeDebts, CountDebts, Counted, Owned, LinkersOk, LinksOk;
    forall i | 0 <= i < |t.chain| - 1 && !t.nodes[t.chain[i]].has ensures Linker(t, i) {
      assert Linker(s, i + 1);
      var j :| 0 <= j < |s.threads| && Links(s.threads[j], s.chain[i + 2], s.chain[i + 1]);
      assert Links(t.threads[j], t.chain[i + 1], t.chain[i]);
    }
  }

  lemma SwapHeadLinkers(s: List, k: nat, t: List)
    requires Inv(s) && Step(s, k, SwapHead, t) && Swaps(s, k, SwapHead) && s.nodes[s.chain[0]].has
    ensures LinkersOk(t)
  {
    hide Slots, SizeDebts, CountDebts, Counted, Owned, LinksOk, GapsOk;
    forall j | 0 <= j < |t.threads| ensures LinkerOk(t, t.threads[j]) {
      assert LinkerOk(s, s.threads[j]);
      if IsLinker(t.threads[j]) {
        var pc := s.threads[j];
        var i :| 0 <= i < |s.chain| - 1 && Gap(s, pc.o, pc.t, i);
        assert Gap(t, pc.o, pc.t, i - 1);
      }
    }
  }

  lemma SwapTailKeeps(s: List, k: nat, t: List)
    requires Inv(s) && Step(s, k, SwapTail, t) && Swaps(s, k, SwapTail)
    ensures Shape(t) && LinksOk(t) && GapsOk(t) && LinkersOk(t)
  {
    hide Slots, SizeDebts, CountDebts, Counted, Owned, GapsOk, LinkersOk, Step;
    SwapTailEffect(s, k, t);
    SwapTailGaps(s, k, t);
    SwapTailLinkers(s, k, t);
  }

  lemma SwapTailEffect(s: List, k: nat, t: List)
    requires Inv(s) && Step(s, k, SwapTail, t) && Swaps(s, k, SwapTail)
    ensures k < |s.threads| && s.threads[k].Hanging? && s.threads[k].o in s.nodes
    ensures t.nodes == s.nodes && t.head == s.head
    ensures t.chain == s.chain + [s.threads[k].o] && t.tail == s.threads[k].o
    ensures t.threads == s.threads[k := Linking(s.threads[k].o, s.tail)]
    ensures !s.nodes[s.tail].has && !s.nodes[s.threads[k].o].has
  {
    hide Slots, SizeDebts, CountDebts, Counted, Owned, GapsOk;
    assert LinkerOk(s, s.threads[k]);
  }

  lemma SwapTailGaps(s: List, k: nat, t: List)
    requires Inv(s) && Step(s, k, SwapTail, t) && Swaps(s, k, SwapTail) && Shape(t)
    ensures GapsOk(t)
  {
    hide Slots, SizeDebts, CountDebts, Counted, Owned, LinkersOk, Step, LinksOk;
    var n := |s.chain|;
    SwapTailEffect(s, k, t);
    forall i | 0 <= i < |t.chain| - 1 && !t.nodes[t.chain[i]].has ensures Linker(t, i) {
      if i == n - 1 {
        assert Links(t.threads[k], t.chain[i + 1], t.chain[i]);
      } else {
        assert Linker(s, i);
        var j :| 0 <= j < |s.threads| && Links(s.threads[j], s.chain[i + 1], s.chain[i]);
        assert Links(t.threads[j], t.chain[i + 1], t.chain[i]);
      }
    }
  }

  lemma SwapTailLinkers(s: List, k: nat, t: List)
    requires Inv(s) && Step(s, k, SwapTail, t) && Swaps(s, k, SwapTail)
    ensures LinkersOk(t)
  {
    hide Slots, SizeDebts, CountDebts, Counted, Owned, GapsOk;
    var n := |s.chain|;
    forall j | 0 <= j < |t.threads|
      ensures LinkerOk(t, t.threads[j]) && (j != k && IsLinker(t.threads[j]) ==> t.threads[j].t != s.tail)
    {
      assert LinkerOk(s, s.threads[j]);
      if j == k {
        assert Gap(t, s.threads[k].o, s.tail, n - 1);
      } else if IsLinker(t.threads[j]) {
        var pc := s.threads[j];
        var i :| 0 <= i < n - 1 && Gap(s, pc.o, pc.t, i);
        assert Gap(t, pc.o, pc.t, i);
        ChainDistinct(s, i, n - 1);
      }
    }
  }

  /** Being current is exactly what a successful swap of the head needs. */
  lemma SwapExact(s: List, k: nat, t: List)
    requires Inv(s) && Step(s, k, SwapHead, t) && Swaps(s, k, SwapHead)
    ensures Inv(t) <==> Current(s, k, SwapHead)
  {
    hide Slots, SizeDebts, CountDebts, Owned, Counted, GapsOk, LinkersOk;
    if Current(s, k, SwapHead) {
      StepKeeps(s, k, SwapHead, t);
    }
    if Inv(t) {
      SwapNeedsLink(s, k, t);
    }
  }

  lemma SwapEffect(s: List, k: nat, t: List)
    requires Shape(s) && Step(s, k, SwapHead, t) && Swaps(s, k, SwapHead)
    ensures t.chain == s.chain[1..] && |t.threads| == |s.threads|
    ensures forall j :: 0 <= j < |s.threads| && IsLinker(s.threads[j]) ==> t.threads[j] == s.threads[j]
  {
  }

  /** A head that is not linked yet has a pusher that will link it, and would link a slot that has gone. */
  lemma SwapNeedsLink(s: List, k: nat, t: List)
    requires Inv(s) && Step(s, k, SwapHead, t) && Swaps(s, k, SwapHead) && Shape(t) && LinkersOk(t)
    ensures s.nodes[s.head].has
  {
    hide Slots, SizeDebts, CountDebts, Owned, Counted, LinksOk, Step, GapsOk, LinkersOk;
    SwapEffect(s, k, t);
    if !s.nodes[s.head].has {
      var j := HeadLinker(s);
      LinkerHere(t, j);
      var i :| 0 <= i < |t.chain| - 1 && Gap(t, s.chain[1], s.chain[0], i);
      ChainDistinct(s, 0, i + 1);
      assert false;
    }
  }

  lemma HeadLinker(s: List) returns (j: nat)
    requires Shape(s) && GapsOk(s) && |s.chain| > 1 && !s.nodes[s.head].has
    ensures j < |s.threads| && Links(s.threads[j], s.chain[1], s.chain[0])
  {
    assert Linker(s, 0);
    j :| 0 <= j < |s.threads| && Links(s.threads[j], s.chain[1], s.chain[0]);
  }

  /** Every step whose head swap is current keeps the invariant. */
  lemma StepKeeps(s: List, k: nat, a: Act, t: List)
    requires Inv(s) && Step(s, k, a, t) && Current(s, k, a)
    ensures Inv(t)
  {
    hide Shape, Owned, LinksOk, GapsOk, LinkersOk, Counted, Current, PopStep, PushStep;
    OwnedKeeps(s, k, a, t);
    if Swaps(s, k, a) {
      if a.SwapHead? {
        SwapHeadKeeps(s, k, t);
      } else {
        SwapTailKeeps(s, k, t);
      }
    } else if !Rewrites(a) {
      QuietKeeps(s, k, a, t);
    } else if a.WriteNext? || a.SetFlag? {
      LinkKeeps(s, k, a, t);
    } else {
      HolderKeeps(s, k, a, t);
    }
  }

  // ---------- runs ----------

  datatype Move = Move(k: nat, a: Act)

  /** All slots free and chained in order, nobody at work. */
  ghost predicate Init(s: List)
  {
    && Shape(s) && multiset(s.chain) == multiset(s.nodes.Keys) && s.held == multiset{}
    && (forall i :: 0 <= i < |s.chain| ==> s.nodes[s.chain[i]].has == (i + 1 < |s.chain|))
    && (forall i :: 0 <= i < |s.chain| - 1 ==> s.nodes[s.chain[i]].next == s.chain[i + 1])
    && (forall k :: 0 <= k < |s.threads| ==> s.threads[k] == Idle)
    && s.size == |s.chain| && s.used.creator == 0 == s.used.mapper
  }

  ghost predicate Run(tr: seq<List>, ms: seq<Move>)
  {
    && |tr| == |ms| + 1 && Init(tr[0])
    && forall i :: 0 <= i < |ms| ==> Step(tr[i], ms[i].k, ms[i].a, tr[i + 1])
  }

  /** No head swap of the run was fooled by a head that had left and come back. */
  ghost predicate AllCurrent(tr: seq<List>, ms: seq<Move>)
    requires |tr| == |ms| + 1
  {
    forall i :: 0 <= i < |ms| ==> ms[i].k < |tr[i].threads| && Current(tr[i], ms[i].k, ms[i].a)
  }

  lemma {:induction false} NobodyOwes(ts: seq<Pc>)
    requires forall k :: 0 <= k < |ts| ==> ts[k] == Idle
    ensures Slots(ts) == multiset{} && SizeDebts(ts) == 0 && CountDebts(ts) == 0
  {
    if ts != [] {
      NobodyOwes(ts[1..]);
    }
  }

  lemma InitOk(s: List)
    requires Init(s)
    ensures Inv(s)
  {
    hide Slots, SizeDebts, CountDebts;
    NobodyOwes(s.threads);
    assert |multiset(s.chain)| == |s.chain| && |multiset(s.nodes.Keys)| == |s.nodes.Keys| == |s.nodes|;
    forall k | 0 <= k < |s.threads| ensures LinkerOk(s, s.threads[k]) {
      assert s.threads[k] == Idle;
    }
  }

  lemma {:induction false} RunKeeps(tr: seq<List>, ms: seq<Move>, i: nat)
    requires Run(tr, ms) && AllCurrent(tr, ms) && i < |tr|
    ensures Inv(tr[i])
  {
    hide Inv, Init, Step, Current;
    if i == 0 {
      InitOk(tr[0]);
    } else {
      RunKeeps(tr, ms, i - 1);
      StepKeeps(tr[i - 1], ms[i - 1].k, ms[i - 1].a, tr[i]);
    }
  }

  /**
   The free list under concurrency: every slot is in exactly one place, the chain from head to tail
   is never empty, its set flags are true, and its size and the sum of the two processes' counters are exact
   up to what the threads in the middle of an operation still owe.
   */
  lemma FreeListSound(tr: seq<List>, ms: seq<Move>, i: nat)
    requires Run(tr, ms) && AllCurrent(tr, ms) && i < |tr|
    ensures tr[i].chain != [] && tr[i].head == tr[i].chain[0] && tr[i].tail == tr[i].chain[|tr[i].chain| - 1]
    ensures multiset(tr[i].chain) + tr[i].held + Slots(tr[i].threads) == multiset(tr[i].nodes.Keys)
    ensures Shape(tr[i]) && LinksOk(tr[i]) && GapsOk(tr[i])
    ensures (forall k :: 0 <= k < |tr[i].threads| ==> tr[i].threads[k] == Idle) ==>
      tr[i].size == |tr[i].chain| && tr[i].size + tr[i].used.creator + tr[i].used.mapper == |tr[i].nodes|
  {
    hide Init, Step, Slots, SizeDebts, CountDebts, GapsOk, LinksOk, LinkersOk;
    RunKeeps(tr, ms, i);
    if forall k :: 0 <= k < |tr[i].threads| ==> tr[i].threads[k] == Idle {
      NobodyOwes(tr[i].threads);
    }
  }

  // ---------- one popper at a time ----------

  predicate Popping(pc: Pc)
  {
    pc.Loaded? || pc.Reading? || pc.Linked? || pc.Swapping?
  }

  ghost predicate OnePopper(s: List)
  {
    forall j, k :: 0 <= j < k < |s.threads| ==> !(Popping(s.threads[j]) && Popping(s.threads[k]))
  }

  /** What the only popper has read is still so. */
  ghost predicate Fresh(s: List, pc: Pc)
  {
    && (Popping(pc) ==> pc.h == s.head)
    && (pc.Linked? || pc.Swapping? ==> pc.h in s.nodes && s.nodes[pc.h].has)
    && (pc.Swapping? ==> s.nodes[pc.h].next == pc.n)
  }

  ghost predicate AllFresh(s: List)
  {
    forall k :: 0 <= k < |s.threads| ==> Fresh(s, s.threads[k])
  }

  lemma FreshCurrent(s: List, k: nat, a: Act)
    requires AllFresh(s) && k < |s.threads|
    ensures Current(s, k, a)
  {
    assert Fresh(s, s.threads[k]);
  }

  /** Nobody but a popper moves the head, and a linked head stays linked. */
  lemma FreshKeeps(s: List, k: nat, a: Act, t: List)
    requires Inv(s) && AllFresh(s) && Step(s, k, a, t) && OnePopper(s)
    ensures AllFresh(t)
  {
    hide Inv, PopStep, PushStep, Fresh;
    HeadHeader(s, k, a, t);
    forall j | 0 <= j < |t.threads| ensures Fresh(t, t.threads[j]) {
      assert Fresh(s, s.threads[j]);
      if j == k {
        FreshMover(s, k, a, t);
      } else {
        var lo, hi := if j < k then j else k, if j < k then k else j;
        assert !(Popping(s.threads[lo]) && Popping(s.threads[hi]));
        FreshOther(s, k, a, t, j);
      }
    }
  }

  lemma FreshMover(s: List, k: nat, a: Act, t: List)
    requires Step(s, k, a, t) && Fresh(s, s.threads[k]) && |t.threads| == |s.threads|
    requires s.head in s.nodes && s.head in t.nodes && (s.nodes[s.head].has ==> t.nodes[s.head] == s.nodes[s.head])
    ensures Fresh(t, t.threads[k])
  {
    if PopStep(s, k, a, t) {
    } else {
      assert PushStep(s, k, a, t);
    }
  }

  lemma FreshOther(s: List, k: nat, a: Act, t: List, j: nat)
    requires Step(s, k, a, t) && |t.threads| == |s.threads| && j < |s.threads| && j != k
    requires Fresh(s, s.threads[j]) && !(Popping(s.threads[j]) && Popping(s.threads[k]))
    requires s.head in s.nodes && s.head in t.nodes && (s.nodes[s.head].has ==> t.nodes[s.head] == s.nodes[s.head])
    ensures Fresh(t, t.threads[j])
  {
    if PopStep(s, k, a, t) {
    } else {
      assert PushStep(s, k, a, t);
    }
  }

  lemma HeadHeader(s: List, k: nat, a: Act, t: List)
    requires Inv(s) && Step(s, k, a, t)
    ensures s.head in s.nodes && s.head in t.nodes && |t.threads| == |s.threads|
    ensures s.nodes[s.head].has ==> t.nodes[s.head] == s.nodes[s.head]
  {
    hide Slots, SizeDebts, CountDebts, Owned, Counted, GapsOk, LinksOk;
    assert s.head in s.chain;
    if a.Use? {
      NotInChain(s, a.o);
    } else if a.Clear? || a.Reset? {
      InHand(s, k, InHands(s.threads[k]));
    } else if a.WriteNext? || a.SetFlag? {
      assert LinkerOk(s, s.threads[k]);
    }
  }

  /** When pops do not overlap, no head swap is fooled, whatever the pushers and the holders do. */
  lemma {:induction false} OnePopperCurrent(tr: seq<List>, ms: seq<Move>, i: nat)
    requires Run(tr, ms) && i < |tr| && forall j :: 0 <= j < |tr| ==> OnePopper(tr[j])
    ensures Inv(tr[i]) && AllFresh(tr[i])
    ensures i < |ms| ==> ms[i].k < |tr[i].threads| && Current(tr[i], ms[i].k, ms[i].a)
  {
    hide Inv, Step, OnePopper, AllFresh, Current;
    if i == 0 {
      InitOk(tr[0]);
      InitFresh(tr[0]);
    } else {
      OnePopperCurrent(tr, ms, i - 1);
      StepKeeps(tr[i - 1], ms[i - 1].k, ms[i - 1].a, tr[i]);
      FreshKeeps(tr[i - 1], ms[i - 1].k, ms[i - 1].a, tr[i]);
    }
    if i < |ms| {
      InRange(tr[i], ms[i].k, ms[i].a, tr[i + 1]);
      FreshCurrent(tr[i], ms[i].k, ms[i].a);
    }
  }

  /** So with one popper at a time the free list is sound in every run. */
  lemma OnePopperSound(tr: seq<List>, ms: seq<Move>, i: nat)
    requires Run(tr, ms) && i < |tr| && forall j :: 0 <= j < |tr| ==> OnePopper(tr[j])
    ensures AllCurrent(tr, ms) && Inv(tr[i])
  {
    hide Inv, Step, OnePopper, AllFresh, Current, Init;
    forall j | 0 <= j < |ms| ensures ms[j].k < |tr[j].threads| && Current(tr[j], ms[j].k, ms[j].a) {
      OnePopperCurrent(tr, ms, j);
    }
    RunKeeps(tr, ms, i);
  }

  lemma InRange(s: List, k: nat, a: Act, t: List)
    requires Step(s, k, a, t)
    ensures k < |s.threads|
  {
  }

  lemma InitFresh(s: List)
    requires Init(s)
    ensures AllFresh(s)
  {
    forall k | 0 <= k < |s.threads| ensures Fresh(s, s.threads[k]) {
      assert s.threads[k] == Idle;
    }
  }

  // ---------- two poppers ----------

  ghost predicate Path(tr: seq<List>, ms: seq<Move>)
  {
    |tr| == |ms| + 1 && forall i :: 0 <= i < |ms| ==> Step(tr[i], ms[i].k, ms[i].a, tr[i + 1])
  }

  lemma PathJoin(tr: seq<List>, ms: seq<Move>, tr2: seq<List>, ms2: seq<Move>)
    requires Path(tr, ms) && Path(tr2, ms2) && tr[|tr| - 1] == tr2[0]
    ensures Path(tr + tr2[1..], ms + ms2) && (tr + tr2[1..])[|tr + tr2[1..]| - 1] == tr2[|tr2| - 1]
  {
    hide Step;
    var all, acts, n := tr + tr2[1..], ms + ms2, |ms|;
    forall i | 0 <= i < |acts| ensures Step(all[i], acts[i].k, acts[i].a, all[i + 1]) {
      if i >= n {
        assert all[i] == tr2[i - n] && all[i + 1] == tr2[i - n + 1];
      }
    }
  }

  function AfterPop(s: List, k: nat): List
    requires s.head in s.nodes && s.chain != []
  {
    s.(head := s.nodes[s.head].next, size := s.size - 1, used := Count(s.used, k, 1), chain := s.chain[1..],
       nodes := s.nodes[s.head := s.nodes[s.head].(has := false)], held := s.held + multiset{s.head})
  }

  /** A pop that nobody disturbs. */
  lemma PopRun(s: List, k: nat) returns (tr: seq<List>, ms: seq<Move>)
    requires k < |s.threads| && s.threads[k].Idle? && s.size >= 2 && s.chain != [] && s.head in s.nodes
    requires s.nodes[s.head].has
    ensures Path(tr, ms) && tr[0] == s && tr[|tr| - 1] == AfterPop(s, k)
  {
    var h, n := s.head, s.nodes[s.head].next;
    var a := Go(s, k, Loaded(h));
    var b := Go(a, k, Reading(h, 0)).(size := s.size - 1);
    var c := Go(b, k, Linked(h, 0));
    var d := Go(c, k, Swapping(h, n, 0));
    var e := Go(d, k, Taken(h)).(head := n, chain := s.chain[1..]);
    var f := Go(e, k, Counting(h)).(nodes := s.nodes[h := s.nodes[h].(has := false)]);
    var g := Go(f, k, Idle).(used := Count(s.used, k, 1), held := s.held + multiset{h});
    assert Step(s, k, Pop, a) && Step(a, k, Decrement, b) && Step(b, k, ReadFlag, c) && Step(c, k, ReadNext, d);
    assert Step(d, k, SwapHead, e) && Step(e, k, Clear, f) && Step(f, k, CountUp, g);
    assert g.threads == s.threads;
    tr := [s, a, b, c, d, e, f, g];
    ms := [Move(k, Pop), Move(k, Decrement), Move(k, ReadFlag), Move(k, ReadNext), Move(k, SwapHead), Move(k, Clear),
           Move(k, CountUp)];
  }

  function AfterPush(s: List, k: nat, o: nat): List
    requires o in s.nodes && s.tail in s.nodes
  {
    s.(tail := o, size := s.size + 1, used := Count(s.used, k, -1), chain := s.chain + [o],
       held := s.held - multiset{o}, nodes := s.nodes[o := s.nodes[o].(has := false)][s.tail := Node(o, true)])
  }

  function Hung(s: List, k: nat, o: nat): List
    requires k < |s.threads| && o in s.nodes
  {
    Go(s, k, Linking(o, s.tail)).(held := s.held - multiset{o}, nodes := s.nodes[o := s.nodes[o].(has := false)],
                                  tail := o, chain := s.chain + [o])
  }

  lemma HangRun(s: List, k: nat, o: nat) returns (tr: seq<List>, ms: seq<Move>)
    requires k < |s.threads| && s.threads[k].Idle? && o in s.held && o in s.nodes
    ensures Path(tr, ms) && tr[0] == s && tr[|tr| - 1] == Hung(s, k, o)
  {
    var t := s.tail;
    var a := Go(s, k, Resetting(o)).(held := s.held - multiset{o});
    var b := Go(a, k, Finding(o)).(nodes := s.nodes[o := s.nodes[o].(has := false)]);
    var c := Go(b, k, Hanging(o, t));
    var d := Go(c, k, Linking(o, t)).(tail := o, chain := s.chain + [o]);
    assert Step(s, k, Push(o), a) && Step(a, k, Reset, b) && Step(b, k, LoadTail, c) && Step(c, k, SwapTail, d);
    assert d.threads == Hung(s, k, o).threads;
    tr, ms := [s, a, b, c, d], [Move(k, Push(o)), Move(k, Reset), Move(k, LoadTail), Move(k, SwapTail)];
  }

  lemma LinkRun(s: List, k: nat) returns (tr: seq<List>, ms: seq<Move>)
    requires k < |s.threads| && s.threads[k].Linking? && s.threads[k].t in s.nodes
    ensures Path(tr, ms) && tr[0] == s
    ensures tr[|tr| - 1] == Go(s, k, Idle).(nodes := s.nodes[s.threads[k].t := Node(s.threads[k].o, true)],
                                            size := s.size + 1, used := Count(s.used, k, -1))
  {
    var o, t := s.threads[k].o, s.threads[k].t;
    var e := Go(s, k, Flagging(o, t)).(nodes := s.nodes[t := s.nodes[t].(next := o)]);
    var f := Go(e, k, Sizing).(nodes := e.nodes[t := e.nodes[t].(has := true)]);
    var g := Go(f, k, Discounting).(size := s.size + 1);
    var h := Go(g, k, Idle).(used := Count(s.used, k, -1));
    assert Step(s, k, WriteNext, e) && Step(e, k, SetFlag, f) && Step(f, k, SizeUp, g) && Step(g, k, CountDown, h);
    assert h.threads == Go(s, k, Idle).threads && h.nodes == s.nodes[t := Node(o, true)];
    tr, ms := [s, e, f, g, h], [Move(k, WriteNext), Move(k, SetFlag), Move(k, SizeUp), Move(k, CountDown)];
  }

  /** A push that nobody disturbs. */
  lemma PushRun(s: List, k: nat, o: nat) returns (tr: seq<List>, ms: seq<Move>)
    requires k < |s.threads| && s.threads[k].Idle? && o in s.held && o in s.nodes && s.tail in s.nodes && o != s.tail
    ensures Path(tr, ms) && tr[0] == s && tr[|tr| - 1] == AfterPush(s, k, o)
  {
    hide Step;
    tr, ms := HangRun(s, k, o);
    var t := Hung(s, k, o);
    var tr2, ms2 := LinkRun(t, k);
    PathJoin(tr, ms, tr2, ms2);
    tr, ms := tr + tr2[1..], ms + ms2;
    assert Go(t, k, Idle).threads == s.threads;
  }

  /** The list of four slots as it is created. */
  function FourSlots(): List
  {
    List(0, 3, 4, Used(0, 0, {1}), map[0 := Node(1, true), 1 := Node(2, true), 2 := Node(3, true), 3 := Node(0, false)],
         multiset{}, [Idle, Idle], [0, 1, 2, 3])
  }

  lemma FourSlotsInit()
    ensures Init(FourSlots())
  {
    var s := FourSlots();
    FourKeys();
    assert multiset(s.chain) == multiset{0, 1, 2, 3};
  }

  lemma FourKeys()
    ensures multiset(FourSlots().nodes.Keys) == multiset{0, 1, 2, 3}
  {
    assert FourSlots().nodes.Keys == {0, 1, 2, 3};
    assert multiset({0, 1, 2, 3}) == multiset{0, 1, 2, 3};
  }

  /** The first popper reads the head, 0, and its successor, 1. */
  lemma FirstReads() returns (tr: seq<List>, ms: seq<Move>)
    ensures Path(tr, ms) && tr[0] == FourSlots()
    ensures tr[|tr| - 1] == FourSlots().(size := 3, threads := [Swapping(0, 1, 0), Idle])
  {
    var s := FourSlots();
    var a := Go(s, 0, Loaded(0));
    var b := Go(a, 0, Reading(0, 0)).(size := 3);
    var c := Go(b, 0, Linked(0, 0));
    var d := Go(c, 0, Swapping(0, 1, 0));
    assert Step(s, 0, Pop, a) && Step(a, 0, Decrement, b) && Step(b, 0, ReadFlag, c) && Step(c, 0, ReadNext, d);
    assert d.threads == [Swapping(0, 1, 0), Idle];
    tr, ms := [s, a, b, c, d], [Move(0, Pop), Move(0, Decrement), Move(0, ReadFlag), Move(0, ReadNext)];
  }

  predicate HalfWay(s: List)
  {
    && s.head == 2 && s.tail == 0 && s.size == 2 && s.held == multiset{1} && s.chain == [2, 3, 0]
    && 0 in s.nodes && 2 in s.nodes && s.nodes[2] == Node(3, true) && 3 in s.nodes && s.nodes[3] == Node(0, true)
    && s.threads == [Swapping(0, 1, 0), Idle]
  }

  /** The second takes 0 and 1 and gives 0 back. */
  lemma SecondTakes(s: List) returns (tr: seq<List>, ms: seq<Move>)
    requires s == FourSlots().(size := 3, threads := [Swapping(0, 1, 0), Idle])
    ensures Path(tr, ms) && tr[0] == s
    ensures HalfWay(tr[|tr| - 1])
  {
    hide Step;
    tr, ms := PopRun(s, 1);
    var a := AfterPop(s, 1);
    var tr2, ms2 := PopRun(a, 1);
    PathJoin(tr, ms, tr2, ms2);
    tr, ms := tr + tr2[1..], ms + ms2;
    var b := AfterPop(a, 1);
    assert b.head == 2 && b.tail == 3 && b.size == 1 && b.held == multiset{0, 1} && b.chain == [2, 3];
    var tr3, ms3 := PushRun(b, 1, 0);
    PathJoin(tr, ms, tr3, ms3);
    tr, ms := tr + tr3[1..], ms + ms3;
  }

  /** Then it takes 2, gives it back and takes 3: 0 is the head again. */
  lemma SecondCycles(s: List) returns (tr: seq<List>, ms: seq<Move>)
    requires HalfWay(s)
    ensures Path(tr, ms) && tr[0] == s
    ensures var t := tr[|tr| - 1]; t.head == 0 && t.threads == s.threads && 1 in t.held && t.chain != []
  {
    hide Step;
    tr, ms := PopRun(s, 1);
    var a := AfterPop(s, 1);
    var tr2, ms2 := PushRun(a, 1, 2);
    PathJoin(tr, ms, tr2, ms2);
    tr, ms := tr + tr2[1..], ms + ms2;
    var b := AfterPush(a, 1, 2);
    assert b.head == 3 && b.size == 2 && b.nodes[3] == Node(0, true);
    var tr3, ms3 := PopRun(b, 1);
    PathJoin(tr, ms, tr3, ms3);
    tr, ms := tr + tr3[1..], ms + ms3;
  }

  /**
   Overlapping pops can be fooled: the head has left and come back while the first popper held on
   to its old successor. Its swap succeeds and makes a slot that is in use the new head.
   */
  lemma FooledSwap() returns (tr: seq<List>, ms: seq<Move>)
    ensures Run(tr, ms) && |ms| > 0 && ms[|ms| - 1] == Move(0, SwapHead)
    ensures var t := tr[|tr| - 1]; t.head in t.held && t.threads[0].Taken?
  {
    hide Step, Init;
    tr, ms := FirstReads();
    var tr2, ms2 := SecondTakes(tr[|tr| - 1]);
    PathJoin(tr, ms, tr2, ms2);
    tr, ms := tr + tr2[1..], ms + ms2;
    var tr3, ms3 := SecondCycles(tr2[|tr2| - 1]);
    PathJoin(tr, ms, tr3, ms3);
    tr, ms := tr + tr3[1..], ms + ms3;
    var s := tr3[|tr3| - 1];
    var t := Go(s, 0, Taken(0)).(head := 1, chain := s.chain[1..]);
    LastStep(s, t);
    PathJoin(tr, ms, [s, t], [Move(0, SwapHead)]);
    tr, ms := tr + [s, t][1..], ms + [Move(0, SwapHead)];
    FourSlotsInit();
    RunFrom(tr, ms);
  }

  lemma LastStep(s: List, t: List)
    requires |s.threads| == 2 && s.threads[0] == Swapping(0, 1, 0) && s.head == 0 && s.chain != []
    requires t == Go(s, 0, Taken(0)).(head := 1, chain := s.chain[1..])
    ensures Path([s, t], [Move(0, SwapHead)])
  {
    assert Step(s, 0, SwapHead, t);
  }

  lemma RunFrom(tr: seq<List>, ms: seq<Move>)
    requires Path(tr, ms) && Init(tr[0])
    ensures Run(tr, ms)
  {
  }
}
