/**
 The event queue in shared memory: a ring of three-word elements between the producers of one
 process, who take turns under a lock, and the single consumer of the other process, who takes no
 lock. `Queue` is the queue used by one thread at a time; `Ring` is the machine that interleaves
 the threads word by word.
 */
module RingQueue {

  const ELEMENT_WORDS := 3

  datatype Element = Element(seqId: nat, offset: nat, status: nat)

  /** Two positions less than a full round apart are different cells of the ring. */
  lemma DifferentCells(k: nat, t: nat, cap: nat)
    requires k < t < k + cap
    ensures k % cap != t % cap
  {
    var q := t / cap - k / cap;
    assert t % cap - k % cap == (t - k) - cap * q;
    if q <= 0 {
      assert cap * q <= 0;
    } else {
      assert cap * q >= cap;
    }
  }

  function Word(e: Element, i: nat): nat
    requires i < ELEMENT_WORDS
  {
    if i == 0 then e.seqId else if i == 1 then e.offset else e.status
  }

  // ---------- one thread at a time ----------

  function ElementAt(ws: seq<nat>, cap: nat, k: nat): Element
    requires cap > 0 && |ws| == ELEMENT_WORDS * cap
  {
    var i := ELEMENT_WORDS * (k % cap);
    Element(ws[i], ws[i + 1], ws[i + 2])
  }

  /** The elements at positions `head` to `tail` of the ring. */
  function Elements(ws: seq<nat>, cap: nat, head: nat, tail: nat): seq<Element>
    requires cap > 0 && |ws| == ELEMENT_WORDS * cap && head <= tail
  {
    seq(tail - head, k requires 0 <= k < tail - head => ElementAt(ws, cap, head + k))
  }

  function Stamped(ws: seq<nat>, i: nat, e: Element): seq<nat>
    requires i + 2 < |ws|
  {
    ws[i := e.seqId][i + 1 := e.offset][i + 2 := e.status]
  }

  lemma PutElements(ws: seq<nat>, cap: nat, head: nat, tail: nat, e: Element)
    requires cap > 0 && |ws| == ELEMENT_WORDS * cap && head <= tail < head + cap
    ensures Elements(Stamped(ws, ELEMENT_WORDS * (tail % cap), e), cap, head, tail + 1) ==
      Elements(ws, cap, head, tail) + [e]
  {
    var i := ELEMENT_WORDS * (tail % cap);
    var ws' := Stamped(ws, i, e);
    forall k | head <= k < tail ensures ElementAt(ws', cap, k) == ElementAt(ws, cap, k) {
      DifferentCells(k, tail, cap);
    }
    assert ElementAt(ws', cap, tail) == e;
  }

  lemma PopElements(ws: seq<nat>, cap: nat, head: nat, tail: nat)
    requires cap > 0 && |ws| == ELEMENT_WORDS * cap && head < tail
    ensures Elements(ws, cap, head, tail) == [ElementAt(ws, cap, head)] + Elements(ws, cap, head + 1, tail)
  {
    var a, b := Elements(ws, cap, head, tail), Elements(ws, cap, head + 1, tail);
    forall k | 1 <= k < tail - head ensures a[k] == b[k - 1] {
      assert head + k == head + 1 + (k - 1);
    }
  }

  class Queue {
    const cap: nat
    const words: array<nat>
    var head: nat
    var tail: nat
    var working: bool

    ghost predicate Valid()
      reads this
    {
      cap > 0 && words.Length == ELEMENT_WORDS * cap && head <= tail <= head + cap
    }

    ghost function Contents(): seq<Element>
      requires Valid()
      reads this, words
    {
      Elements(words[..], cap, head, tail)
    }

    constructor (cap: nat)
      requires cap > 0
      ensures Valid() && this.cap == cap && Contents() == [] && !working
    {
      this.cap := cap;
      words := new nat[ELEMENT_WORDS * cap](_ => 0);
      head, tail, working := 0, 0, false;
    }

    method Put(e: Element) returns (ok: bool)
      requires Valid()
      modifies this`tail, words
      ensures Valid() && ok == (|old(Contents())| < cap)
      ensures Contents() == if ok then old(Contents()) + [e] else old(Contents())
    {
      if tail - head >= cap {
        return false;
      }
      ghost var ws := words[..];
      var i := ELEMENT_WORDS * (tail % cap);
      words[i] := e.seqId;
      words[i + 1] := e.offset;
      words[i + 2] := e.status;
      tail := tail + 1;
      assert words[..] == Stamped(ws, i, e);
      PutElements(ws, cap, head, tail - 1, e);
      ok := true;
    }

    method Pop() returns (e: Element, ok: bool)
      requires Valid()
      modifies this`head
      ensures Valid() && ok == (old(Contents()) != [])
      ensures ok ==> e == old(Contents())[0] && Contents() == old(Contents())[1..]
      ensures !ok ==> Contents() == old(Contents())
    {
      if head >= tail {
        return Element(0, 0, 0), false;
      }
      var i := ELEMENT_WORDS * (head % cap);
      e, ok := Element(words[i], words[i + 1], words[i + 2]), true;
      head := head + 1;
      PopElements(words[..], cap, head - 1, tail);
    }

    /** True for the one producer that has to wake the consumer up. */
    method MarkWorking() returns (won: bool)
      modifies this`working
      ensures working && won == !old(working)
    {
      won := !working;
      working := true;
    }

    /** The consumer goes to sleep only when the queue is empty. */
    method MarkNotWorking() returns (asleep: bool)
      requires Valid()
      modifies this`working
      ensures asleep == (Contents() == []) && working == !asleep
    {
      working := false;
      asleep := tail - head == 0;
      if !asleep {
        working := true;
      }
    }
  }

  // ---------- word by word ----------

  /** Where a producer is inside put. `t` is the tail it loaded. */
  datatype Producer =
    | Outside
    | Locked(e: Element)
    | Loaded(e: Element, t: nat)
    | Writing(e: Element, t: nat, done: nat)    // the ring was not full; `done` words are written
    | Full                                      // the ring was full; about to unlock
    | Bumped                                    // the tail is moved; about to unlock

  /** Where the consumer is inside pop. `h` is the head it loaded. */
  datatype Consumer =
    | Away
    | AtHead(h: nat)
    | Reading(h: nat, got: seq<nat>)            // the ring was not empty

  /** `puts` and `pops` record what was put, in the order of the tail, and what pop returned. */
  datatype Ring = Ring(cap: nat, head: nat, tail: nat, words: seq<nat>, lock: int, producers: seq<Producer>,
                       consumer: Consumer, puts: seq<Element>, pops: seq<Element>)

  datatype Act =
    | Enter(e: Element)     // take the lock
    | LoadTail
    | CheckHead
    | WriteWord
    | BumpTail
    | Leave                 // release the lock
    | LoadHead              // the consumer's steps
    | CheckTail
    | ReadWord
    | BumpHead

  function Cell(s: Ring, k: nat, i: nat): nat
    requires s.cap > 0
  {
    ELEMENT_WORDS * (k % s.cap) + i
  }

  /** `p` is the producer that moves; the consumer's steps ignore it. */
  ghost predicate Step(s: Ring, p: nat, a: Act, t: Ring)
  {
    && s.cap > 0 && |s.words| == ELEMENT_WORDS * s.cap && p < |s.producers|
    && var me := s.producers[p];
      match a
      case Enter(e) =>
        me.Outside? && s.lock == -1 && t == s.(lock := p, producers := s.producers[p := Locked(e)])
      case LoadTail =>
        me.Locked? && t == s.(producers := s.producers[p := Loaded(me.e, s.tail)])
      case CheckHead =>
        me.Loaded? && t == s.(producers := s.producers[p := if me.t - s.head >= s.cap then Full
          else Writing(me.e, me.t, 0)])
      case WriteWord =>
        && me.Writing? && me.done < ELEMENT_WORDS
        && t == s.(words := s.words[Cell(s, me.t, me.done) := Word(me.e, me.done)],
                   producers := s.producers[p := me.(done := me.done + 1)])
      case BumpTail =>
        && me.Writing? && me.done == ELEMENT_WORDS
        && t == s.(tail := s.tail + 1, puts := s.puts + [me.e], producers := s.producers[p := Bumped])
      case Leave =>
        (me.Full? || me.Bumped?) && t == s.(lock := -1, producers := s.producers[p := Outside])
      case LoadHead =>
        s.consumer.Away? && t == s.(consumer := AtHead(s.head))
      case CheckTail =>
        s.consumer.AtHead? && t == s.(consumer := if s.consumer.h >= s.tail then Away else Reading(s.consumer.h, []))
      case ReadWord =>
        && s.consumer.Reading? && |s.consumer.got| < ELEMENT_WORDS
        && t == s.(consumer := Reading(s.consumer.h,
          s.consumer.got + [s.words[Cell(s, s.consumer.h, |s.consumer.got|)]]))
      case BumpHead =>
        && s.consumer.Reading? && |s.consumer.got| == ELEMENT_WORDS
        && t == s.(head := s.head + 1, consumer := Away,
                   pops := s.pops + [Element(s.consumer.got[0], s.consumer.got[1], s.consumer.got[2])])
  }

  ghost predicate Holds(s: Ring, k: nat, i: nat)
    requires s.cap > 0 && |s.words| == ELEMENT_WORDS * s.cap && k < |s.puts| && i < ELEMENT_WORDS
  {
    s.words[Cell(s, k, i)] == Word(s.puts[k], i)
  }

  ghost predicate Shape(s: Ring)
  {
    && s.cap > 0 && |s.words| == ELEMENT_WORDS * s.cap
    && s.head <= s.tail <= s.head + s.cap
    && |s.puts| == s.tail && s.pops == s.puts[..s.head]
  }

  /** The elements between head and tail are in their cells. */
  ghost predicate Stored(s: Ring)
    requires Shape(s)
  {
    forall k, i :: s.head <= k < s.tail && 0 <= i < ELEMENT_WORDS ==> Holds(s, k, i)
  }

  ghost predicate ProducerOk(s: Ring, p: nat)
    requires Shape(s) && p < |s.producers|
  {
    var me := s.producers[p];
    && (!me.Outside? <==> s.lock == p)
    && (me.Loaded? || me.Writing? ==> me.t == s.tail)
    && (me.Writing? ==> s.tail < s.head + s.cap && me.done <= ELEMENT_WORDS)
    && (me.Writing? ==> forall i :: 0 <= i < me.done ==> s.words[Cell(s, me.t, i)] == Word(me.e, i))
  }

  ghost predicate ConsumerOk(s: Ring)
    requires Shape(s)
  {
    var me := s.consumer;
    && (me.AtHead? || me.Reading? ==> me.h == s.head)
    && (me.Reading? ==> s.head < s.tail && |me.got| <= ELEMENT_WORDS)
    && (me.Reading? ==> forall i :: 0 <= i < |me.got| ==> me.got[i] == Word(s.puts[s.head], i))
  }

  ghost predicate Inv(s: Ring)
  {
    && Shape(s) && Stored(s) && ConsumerOk(s)
    && forall p :: 0 <= p < |s.producers| ==> ProducerOk(s, p)
  }

  lemma CellsApart(s: Ring, k: nat, i: nat, t: nat, j: nat)
    requires Shape(s) && s.head <= k < s.tail == t < s.head + s.cap && i < ELEMENT_WORDS && j < ELEMENT_WORDS
    ensures Cell(s, k, i) != Cell(s, t, j)
  {
    DifferentCells(k, t, s.cap);
  }

  lemma WriteWordKeeps(s: Ring, p: nat, t: Ring)
    requires Inv(s) && Step(s, p, WriteWord, t)
    ensures Inv(t)
  {
    var me := s.producers[p];
    assert ProducerOk(s, p);
    forall k, i | t.head <= k < t.tail && 0 <= i < ELEMENT_WORDS ensures Holds(t, k, i) {
      CellsApart(s, k, i, me.t, me.done);
      assert Holds(s, k, i);
    }
    forall q | 0 <= q < |t.producers| ensures ProducerOk(t, q) {
      assert ProducerOk(s, q) && ProducerOk(s, p);
    }
  }

  lemma BumpTailKeeps(s: Ring, p: nat, t: Ring)
    requires Inv(s) && Step(s, p, BumpTail, t)
    ensures Inv(t)
  {
    var me := s.producers[p];
    assert ProducerOk(s, p);
    forall k, i | t.head <= k < t.tail && 0 <= i < ELEMENT_WORDS ensures Holds(t, k, i) {
      if k < s.tail {
        assert Holds(s, k, i) && t.puts[k] == s.puts[k];
      } else {
        assert t.puts[k] == me.e && t.words[Cell(t, k, i)] == s.words[Cell(s, me.t, i)];
      }
    }
    assert t.puts[..t.head] == s.puts[..s.head];
    forall q | 0 <= q < |t.producers| ensures ProducerOk(t, q) {
      assert ProducerOk(s, q);
    }
  }

  lemma OtherProducersKept(s: Ring, p: nat, a: Act, t: Ring)
    requires Inv(s) && Step(s, p, a, t) && !a.WriteWord? && !a.BumpTail?
    ensures |t.producers| == |s.producers| && Shape(t) && forall q :: 0 <= q < |t.producers| ==> ProducerOk(t, q)
  {
    hide Stored, Holds;
    if a.BumpHead? {
      var got := s.consumer.got;
      assert Element(got[0], got[1], got[2]) == s.puts[s.head];
      assert t.pops == t.puts[..t.head];
    }
    forall q | 0 <= q < |t.producers| ensures ProducerOk(t, q) {
      assert ProducerOk(s, q) && ProducerOk(s, p);
    }
  }

  lemma ReadWordKeeps(s: Ring, p: nat, t: Ring)
    requires Inv(s) && Step(s, p, ReadWord, t)
    ensures Inv(t)
  {
    OtherProducersKept(s, p, ReadWord, t);
    assert Holds(s, s.head, |s.consumer.got|);
    forall k, i | t.head <= k < t.tail && 0 <= i < ELEMENT_WORDS ensures Holds(t, k, i) {
      assert Holds(s, k, i);
    }
  }

  /** Every step, by whichever thread, keeps the invariant. */
  lemma StepKeeps(s: Ring, p: nat, a: Act, t: Ring)
    requires Inv(s) && Step(s, p, a, t)
    ensures Inv(t)
  {
    match a {
      case WriteWord => WriteWordKeeps(s, p, t);
      case BumpTail => BumpTailKeeps(s, p, t);
      case ReadWord => ReadWordKeeps(s, p, t);
      case _ =>
        OtherProducersKept(s, p, a, t);
        forall k, i | t.head <= k < t.tail && 0 <= i < ELEMENT_WORDS ensures Holds(t, k, i) {
          assert Holds(s, k, i);
        }
    }
  }

  datatype Move = Move(p: nat, a: Act)

  ghost predicate Init(s: Ring)
  {
    && s.cap > 0 && |s.words| == ELEMENT_WORDS * s.cap && s.head == s.tail == 0 && s.lock == -1
    && s.consumer == Away && s.puts == [] && s.pops == []
    && forall p :: 0 <= p < |s.producers| ==> s.producers[p] == Outside
  }

  ghost predicate Run(tr: seq<Ring>, ms: seq<Move>)
  {
    && |tr| == |ms| + 1 && Init(tr[0])
    && forall k :: 0 <= k < |ms| ==> Step(tr[k], ms[k].p, ms[k].a, tr[k + 1])
  }

  lemma {:induction false} RunKeeps(tr: seq<Ring>, ms: seq<Move>, k: nat)
    requires Run(tr, ms) && k < |tr|
    ensures Inv(tr[k])
  {
    hide Step, Stored, ConsumerOk;
    if k == 0 {
      InitOk(tr[0]);
    } else {
      RunKeeps(tr, ms, k - 1);
      StepKeeps(tr[k - 1], ms[k - 1].p, ms[k - 1].a, tr[k]);
    }
  }

  lemma InitOk(s: Ring)
    requires Init(s)
    ensures Inv(s)
  {
    forall p | 0 <= p < |s.producers| ensures ProducerOk(s, p) {
      assert s.producers[p] == Outside;
    }
  }

  /**
   The ring is a first-in first-out queue: in every run, however the threads interleave, what has
   been popped is exactly a prefix of what has been put, never a half-written or an overwritten
   element, and at most `cap` elements are in between.
   */
  lemma Fifo(tr: seq<Ring>, ms: seq<Move>, k: nat)
    requires Run(tr, ms) && k < |tr|
    ensures tr[k].pops <= tr[k].puts && |tr[k].puts| - |tr[k].pops| <= tr[k].cap
  {
    hide Step, Stored, ConsumerOk, ProducerOk, Init;
    RunKeeps(tr, ms, k);
  }

  /** put reports a full ring only when it is full, and pop an empty one only when it is empty. */
  lemma HonestAnswers(tr: seq<Ring>, ms: seq<Move>, k: nat)
    requires Run(tr, ms) && k < |ms|
    ensures ms[k].a.CheckHead? ==>
      (tr[k + 1].producers[ms[k].p].Full? <==> |tr[k].puts| - |tr[k].pops| == tr[k].cap)
    ensures ms[k].a.CheckTail? ==>
      (tr[k + 1].consumer.Away? <==> tr[k].puts == tr[k].pops)
  {
    hide Stored, Init;
    RunKeeps(tr, ms, k);
    assert Step(tr[k], ms[k].p, ms[k].a, tr[k + 1]);
    assert ProducerOk(tr[k], ms[k].p);
  }

  /** Two producers are never inside put together. */
  lemma OneProducer(tr: seq<Ring>, ms: seq<Move>, k: nat, p: nat, q: nat)
    requires Run(tr, ms) && k < |tr| && p < |tr[k].producers| && q < |tr[k].producers|
    requires !tr[k].producers[p].Outside? && !tr[k].producers[q].Outside?
    ensures p == q
  {
    hide Step, Stored, ConsumerOk, Init;
    RunKeeps(tr, ms, k);
    assert ProducerOk(tr[k], p) && ProducerOk(tr[k], q);
  }
}
