/**
 The slot memory as bytes: a manager header, then for each slot class a list header and its slots.
 One process creates the layout, the other finds it again from the bytes. Offsets are 32-bit words
 in the machine's little-endian order; a word is written and read as four bytes.
 */
module ShmLayout {
  import opened Bytes

  const MANAGER_HEADER: nat := 8
  const LIST_HEADER: nat := 36
  const SLOT_HEADER: nat := 20

  // ---------- words ----------

  function Word(m: seq<byte>, at: nat): (r: nat)
    requires at + 4 <= |m|
    ensures r < WORD_LIMIT
  {
    m[at] as nat + 256 * m[at + 1] as nat + 65536 * m[at + 2] as nat + 16777216 * m[at + 3] as nat
  }

  function Half(m: seq<byte>, at: nat): nat
    requires at + 2 <= |m|
  {
    m[at] as nat + 256 * m[at + 1] as nat
  }

  function ByteOf(v: nat, i: nat): byte
    requires i < 4
  {
    (if i == 0 then v % 256 else if i == 1 then v / 256 % 256 else if i == 2 then v / 65536 % 256
      else v / 16777216 % 256) as byte
  }

  /** The bytes of `m` outside `[lo, hi)` are the bytes of `m2`. */
  predicate SameOutside(m: seq<byte>, m2: seq<byte>, lo: nat, hi: nat)
  {
    |m2| == |m| && forall i :: 0 <= i < |m| && !(lo <= i < hi) ==> m2[i] == m[i]
  }

  predicate SameInside(m: seq<byte>, m2: seq<byte>, lo: nat, hi: nat)
  {
    |m2| == |m| && forall i :: lo <= i < hi && i < |m| ==> m2[i] == m[i]
  }

  lemma Digits(v: nat)
    requires v < WORD_LIMIT
    ensures v == v % 256 + 256 * (v / 256 % 256) + 65536 * (v / 65536 % 256) + 16777216 * (v / 16777216 % 256)
  {
    assert v == v % 256 + 256 * (v / 256);
    assert v / 256 == v / 256 % 256 + 256 * (v / 65536);
    assert v / 65536 == v / 65536 % 256 + 256 * (v / 16777216);
    assert v / 16777216 % 256 == v / 16777216;
  }

  lemma WordBytes(m: seq<byte>, at: nat, v: nat)
    requires at + 4 <= |m| && v < WORD_LIMIT && forall i :: 0 <= i < 4 ==> m[at + i] == ByteOf(v, i)
    ensures Word(m, at) == v
  {
    assert m[at] == m[at + 0] == ByteOf(v, 0) && m[at + 1] == ByteOf(v, 1);
    assert m[at + 2] == ByteOf(v, 2) && m[at + 3] == ByteOf(v, 3);
    Digits(v);
  }

  lemma WordKept(m: seq<byte>, m2: seq<byte>, at: nat)
    requires at + 4 <= |m| && SameInside(m, m2, at, at + 4)
    ensures Word(m2, at) == Word(m, at)
  {
  }

  method WriteWord(mem: array<byte>, at: nat, v: nat)
    requires at + 4 <= mem.Length && v < WORD_LIMIT
    modifies mem
    ensures SameOutside(old(mem[..]), mem[..], at, at + 4) && Word(mem[..], at) == v
  {
    mem[at], mem[at + 1], mem[at + 2], mem[at + 3] := ByteOf(v, 0), ByteOf(v, 1), ByteOf(v, 2), ByteOf(v, 3);
    WordBytes(mem[..], at, v);
  }

  /** Two writes, each inside `[lo, hi)`, and a word that neither of them touched. */
  lemma Untouched(m: seq<byte>, m2: seq<byte>, m3: seq<byte>, a: nat, b: nat, lo: nat, hi: nat)
    requires SameOutside(m, m2, lo, hi) && SameOutside(m2, m3, a, b) && lo <= a <= b <= hi
    ensures SameOutside(m, m3, lo, hi)
  {
  }

  lemma WordOutside(m: seq<byte>, m2: seq<byte>, lo: nat, hi: nat, at: nat)
    requires SameOutside(m, m2, lo, hi) && at + 4 <= |m| && (at + 4 <= lo || hi <= at)
    ensures Word(m2, at) == Word(m, at)
  {
    WordKept(m, m2, at);
  }

  method ReadWord(mem: array<byte>, at: nat) returns (v: nat)
    requires at + 4 <= mem.Length
    ensures v == Word(mem[..], at) < WORD_LIMIT
  {
    v := mem[at] as nat + 256 * mem[at + 1] as nat + 65536 * mem[at + 2] as nat + 16777216 * mem[at + 3] as nat;
  }

  // ---------- where things are ----------

  /** A slot class: where its list header is, how many slots it has and how many bytes each carries. */
  datatype Class = Class(at: nat, num: nat, per: nat)

  function Stride(c: Class): nat
  {
    c.per + SLOT_HEADER
  }

  /** Offset of slot `k` in the slot region, as the headers record it. */
  function Offset(c: Class, k: nat): nat
  {
    k * Stride(c)
  }

  function SlotAt(c: Class, k: nat): nat
  {
    c.at + LIST_HEADER + Offset(c, k)
  }

  function End(c: Class): nat
  {
    c.at + LIST_HEADER + c.num * Stride(c)
  }

  predicate Fits(m: seq<byte>, c: Class)
  {
    c.num > 0 && c.per > 0 && End(c) <= |m| < WORD_LIMIT
  }

  lemma OffsetNext(c: Class, k: nat)
    ensures Offset(c, k + 1) == Offset(c, k) + Stride(c)
  {
    assert (k + 1) * Stride(c) == k * Stride(c) + Stride(c);
  }

  /** Two slots do not overlap, and every slot lies inside the class. */
  lemma {:induction false} SlotsApart(c: Class, j: nat, k: nat)
    requires j < k
    ensures Offset(c, j) + Stride(c) <= Offset(c, k)
  {
    OffsetNext(c, k - 1);
    if j < k - 1 {
      SlotsApart(c, j, k - 1);
    }
  }

  lemma SlotInside(c: Class, k: nat)
    requires k < c.num
    ensures SlotAt(c, k) + Stride(c) <= End(c)
  {
    SlotsApart(c, k, c.num);
  }

  // ---------- the counters of used slots ----------

  /** Each process counts used slots in a word of its own: the creator at 20, the mapper at 24. */
  function CounterAt(c: Class, mapper: bool): nat
  {
    c.at + if mapper then 24 else 20
  }

  /** The counter of one process moved by `d`, as a 32-bit word. */
  predicate Counts(m: seq<byte>, m2: seq<byte>, c: Class, mapper: bool, d: int)
  {
    && c.at + LIST_HEADER <= |m| == |m2|
    && Word(m2, CounterAt(c, mapper)) == (Word(m, CounterAt(c, mapper)) + d) % WORD_LIMIT
  }

  /** The creator's counter is at zero, the mapper's is what the memory held before. */
  predicate Zeroed(m: seq<byte>, m2: seq<byte>, c: Class)
  {
    && c.at + LIST_HEADER <= |m| == |m2|
    && Word(m2, CounterAt(c, false)) == 0 && Word(m2, CounterAt(c, true)) == Word(m, CounterAt(c, true))
  }

  lemma CountsAdd(m: seq<byte>, m2: seq<byte>, m3: seq<byte>, c: Class, mapper: bool, x: int, y: int)
    requires Counts(m, m2, c, mapper, x) && Counts(m2, m3, c, mapper, y)
    ensures Counts(m, m3, c, mapper, x + y)
  {
    hide Word;
  }

  /** A write that leaves the list header's last words alone moves no counter. */
  lemma CountsSame(m: seq<byte>, m2: seq<byte>, c: Class, mapper: bool)
    requires c.at + LIST_HEADER <= |m| && SameInside(m, m2, CounterAt(c, mapper), CounterAt(c, mapper) + 4)
    ensures Counts(m, m2, c, mapper, 0)
  {
    WordKept(m, m2, CounterAt(c, mapper));
  }

  // ---------- the free list in the bytes ----------

  function HasNext(m: seq<byte>, c: Class, k: nat): bool
    requires SlotAt(c, k) + SLOT_HEADER <= |m|
  {
    m[SlotAt(c, k) + 16] % 2 == 1
  }

  function Next(m: seq<byte>, c: Class, k: nat): nat
    requires SlotAt(c, k) + SLOT_HEADER <= |m|
  {
    Word(m, SlotAt(c, k) + 12)
  }

  /** Header `i` of the chain `ch` points to slot `ch[i + 1]`, or says there is none. */
  predicate LinkOk(m: seq<byte>, c: Class, ch: seq<nat>, i: nat)
    requires i < |ch|
  {
    && ch[i] < c.num && SlotAt(c, ch[i]) + SLOT_HEADER <= |m|
    && (HasNext(m, c, ch[i]) <==> i + 1 < |ch|)
    && (i + 1 < |ch| ==> Next(m, c, ch[i]) == Offset(c, ch[i + 1]))
  }

  predicate Distinct(ch: seq<nat>)
  {
    forall i, j :: 0 <= i < j < |ch| ==> ch[i] != ch[j]
  }

  predicate Fixed(m: seq<byte>, c: Class)
  {
    c.at + LIST_HEADER <= |m| && Word(m, c.at + 4) == c.num && Word(m, c.at + 16) == c.per
  }

  /** The slots `ch`, in this order, are the free list of class `c`. */
  ghost predicate FreeList(m: seq<byte>, c: Class, ch: seq<nat>)
  {
    && Fits(m, c) && Fixed(m, c) && ch != [] && Distinct(ch)
    && Word(m, c.at) == |ch|
    && Word(m, c.at + 8) == Offset(c, ch[0]) && Word(m, c.at + 12) == Offset(c, ch[|ch| - 1])
    && (forall i :: 0 <= i < |ch| ==> LinkOk(m, c, ch, i))
    && (forall k :: 0 <= k < c.num ==> CapOk(m, c, k))
  }

  /** Every slot, free or not, says how many bytes it carries: a returned slot is filed by this. */
  predicate CapOk(m: seq<byte>, c: Class, k: nat)
  {
    SlotAt(c, k) + SLOT_HEADER <= |m| && Word(m, SlotAt(c, k)) == c.per
  }

  lemma HeaderRoom(m: seq<byte>, c: Class, k: nat)
    requires Fits(m, c) && k < c.num
    ensures SlotAt(c, k) + SLOT_HEADER <= |m| && Offset(c, k) < WORD_LIMIT
  {
    SlotInside(c, k);
  }

  /** Nothing but the bytes of the class matters to its free list. */
  lemma FreeListKept(m: seq<byte>, m2: seq<byte>, c: Class, ch: seq<nat>)
    requires FreeList(m, c, ch) && SameInside(m, m2, c.at, End(c))
    ensures FreeList(m2, c, ch)
  {
    hide Distinct, Word, Offset, LinkOk, CapOk;
    StrideRoom(c);
    WordKept(m, m2, c.at);
    WordKept(m, m2, c.at + 4);
    WordKept(m, m2, c.at + 8);
    WordKept(m, m2, c.at + 12);
    WordKept(m, m2, c.at + 16);
    forall i | 0 <= i < |ch| ensures LinkOk(m2, c, ch, i) {
      LinkIn(m, c, ch, i);
      LinkKept(m, m2, c, ch, i);
    }
    forall k | 0 <= k < c.num ensures CapOk(m2, c, k) {
      SlotInside(c, k);
      CapKept(m, m2, c, k);
    }
  }

  lemma LinkIn(m: seq<byte>, c: Class, ch: seq<nat>, i: nat)
    requires i < |ch| && LinkOk(m, c, ch, i)
    ensures ch[i] < c.num && SlotAt(c, ch[i]) + Stride(c) <= End(c) && SlotAt(c, ch[i]) + SLOT_HEADER <= |m|
  {
    SlotInside(c, ch[i]);
  }

  lemma LinkKept(m: seq<byte>, m2: seq<byte>, c: Class, ch: seq<nat>, i: nat)
    requires i < |ch| && LinkOk(m, c, ch, i) && SameInside(m, m2, SlotAt(c, ch[i]) + 12, SlotAt(c, ch[i]) + SLOT_HEADER)
    ensures LinkOk(m2, c, ch, i)
  {
    hide Offset, Word;
    WordKept(m, m2, SlotAt(c, ch[i]) + 12);
  }

  lemma CapKept(m: seq<byte>, m2: seq<byte>, c: Class, k: nat)
    requires CapOk(m, c, k) && SameInside(m, m2, SlotAt(c, k), SlotAt(c, k) + 4)
    ensures CapOk(m2, c, k)
  {
    hide Offset, Word;
    WordKept(m, m2, SlotAt(c, k));
  }

  function Iota(n: nat): seq<nat>
  {
    seq(n, i => i)
  }

  // ---------- creating ----------

  /** countBufferListMemSize, with the wrap-around of its 32-bit arithmetic. */
  function CountSize(num: nat, per: nat): nat
  {
    (LIST_HEADER + num * ((per + SLOT_HEADER) % WORD_LIMIT)) % WORD_LIMIT
  }

  /** The loop of createFreeBufferList has set up the headers of the first `n` slots. */
  ghost predicate SlotsReady(m: seq<byte>, c: Class, n: nat)
  {
    && n <= c.num && End(c) <= |m|
    && forall k :: 0 <= k < n ==> SlotReady(m, c, k)
  }

  ghost predicate SlotReady(m: seq<byte>, c: Class, k: nat)
  {
    && SlotAt(c, k) + SLOT_HEADER <= |m|
    && Word(m, SlotAt(c, k)) == c.per && Word(m, SlotAt(c, k) + 4) == 0 && Word(m, SlotAt(c, k) + 8) == 0
    && (k + 1 < c.num ==> HasNext(m, c, k) && Next(m, c, k) == Offset(c, k + 1))
  }

  /** Capacity, size and start of a slot that starts at `at`. */
  method WriteFields(mem: array<byte>, at: nat, per: nat)
    requires at + SLOT_HEADER <= mem.Length && per < WORD_LIMIT
    modifies mem
    ensures SameOutside(old(mem[..]), mem[..], at, at + 12)
    ensures Word(mem[..], at) == per && Word(mem[..], at + 4) == 0 && Word(mem[..], at + 8) == 0
  {
    hide Word, SameOutside;
    ghost var m := mem[..];
    WriteWord(mem, at, per);
    ghost var m1 := mem[..];
    WriteWord(mem, at + 4, 0);
    ghost var m2 := mem[..];
    WriteWord(mem, at + 8, 0);
    ghost var m3 := mem[..];
    Grown(m, m1, at, at + 4, at, at + 12);
    Untouched(m, m1, m2, at + 4, at + 8, at, at + 12);
    Untouched(m, m2, m3, at + 8, at + 12, at, at + 12);
    WordOutside(m1, m2, at + 4, at + 8, at);
    WordOutside(m2, m3, at + 8, at + 12, at);
    WordOutside(m2, m3, at + 8, at + 12, at + 4);
  }

  lemma Grown(m: seq<byte>, m2: seq<byte>, a: nat, b: nat, lo: nat, hi: nat)
    requires SameOutside(m, m2, a, b) && lo <= a <= b <= hi
    ensures SameOutside(m, m2, lo, hi)
  {
  }

  /** linkNext on the slot that starts at `at`. */
  method WriteLink(mem: array<byte>, at: nat, next: nat)
    requires at + SLOT_HEADER <= mem.Length && next < WORD_LIMIT
    modifies mem
    ensures SameOutside(old(mem[..]), mem[..], at + 12, at + SLOT_HEADER)
    ensures Word(mem[..], at + 12) == next && mem[at + 16] % 2 == 1
  {
    WriteWord(mem, at + 12, next);
    ghost var m := mem[..];
    if mem[at + 16] % 2 == 0 {
      mem[at + 16] := mem[at + 16] + 1;
    }
    WordOutside(m, mem[..], at + 16, at + 17, at + 12);
  }

  /** One round of the loop: the header of slot `k`. */
  method WriteSlotHeader(mem: array<byte>, c: Class, k: nat, current: nat)
    requires Fits(mem[..], c) && k < c.num && current == Offset(c, k) && SlotsReady(mem[..], c, k)
    modifies mem
    ensures SlotsReady(mem[..], c, k + 1) && SameOutside(old(mem[..]), mem[..], SlotAt(c, k), SlotAt(c, k) + Stride(c))
  {
    hide Word, SameOutside, SlotsReady, Offset;
    ghost var m := mem[..];
    SlotInside(c, k);
    var at := c.at + LIST_HEADER + current;
    WriteFields(mem, at, c.per);
    ghost var m1 := mem[..];
    Grown(m, m1, at, at + 12, at, at + SLOT_HEADER);
    if k < c.num - 1 {
      OffsetNext(c, k);
      HeaderRoom(m, c, k + 1);
      WriteLink(mem, at, current + c.per + SLOT_HEADER);
      Untouched(m, m1, mem[..], at + 12, at + SLOT_HEADER, at, at + SLOT_HEADER);
      WordOutside(m1, mem[..], at + 12, at + SLOT_HEADER, at);
      WordOutside(m1, mem[..], at + 12, at + SLOT_HEADER, at + 4);
      WordOutside(m1, mem[..], at + 12, at + SLOT_HEADER, at + 8);
    }
    HeaderWritten(m, mem[..], c, k);
  }

  lemma HeaderWritten(m: seq<byte>, m2: seq<byte>, c: Class, k: nat)
    requires Fits(m, c) && k < c.num && SlotsReady(m, c, k) && SlotAt(c, k) + Stride(c) <= End(c)
    requires SameOutside(m, m2, SlotAt(c, k), SlotAt(c, k) + SLOT_HEADER) && SlotReady(m2, c, k)
    ensures SlotsReady(m2, c, k + 1) && SameOutside(m, m2, SlotAt(c, k), SlotAt(c, k) + Stride(c))
  {
    forall j | 0 <= j < k ensures SlotReady(m2, c, j) {
      assert SlotReady(m, c, j);
      SlotsApart(c, j, k);
    }
  }

  lemma NotLast(m: seq<byte>, c: Class, k: nat)
    requires SlotsReady(m, c, c.num) && k + 1 < c.num
    ensures SlotAt(c, k) + SLOT_HEADER <= |m| && HasNext(m, c, k) && Next(m, c, k) == Offset(c, k + 1)
  {
    assert SlotReady(m, c, k);
  }

  /** The six words of the list header. */
  method WriteListHeader(mem: array<byte>, c: Class)
    requires Fits(mem[..], c)
    modifies mem
    ensures SameOutside(old(mem[..]), mem[..], c.at, c.at + LIST_HEADER)
    ensures Word(mem[..], c.at) == c.num && Fixed(mem[..], c)
    ensures Word(mem[..], c.at + 8) == 0 && Word(mem[..], c.at + 12) == Offset(c, c.num - 1)
    ensures Zeroed(old(mem[..]), mem[..], c)
  {
    hide Word, SameOutside, Offset;
    var at, hi := c.at, c.at + LIST_HEADER;
    ghost var m0 := mem[..];
    HeaderRoom(m0, c, c.num - 1);
    ClassSmall(m0, c);
    WriteWord(mem, at, c.num);
    ghost var m1 := mem[..];
    WriteWord(mem, at + 4, c.num);
    ghost var m2 := mem[..];
    WriteWord(mem, at + 8, 0);
    ghost var m3 := mem[..];
    WriteWord(mem, at + 12, (c.num - 1) * (c.per + SLOT_HEADER));
    ghost var m4 := mem[..];
    WriteWord(mem, at + 16, c.per);
    ghost var m5 := mem[..];
    WriteWord(mem, at + 20, 0);
    ghost var m6 := mem[..];
    Grown(m0, m1, at, at + 4, at, hi);
    Untouched(m0, m1, m2, at + 4, at + 8, at, hi);
    Untouched(m0, m2, m3, at + 8, at + 12, at, hi);
    Untouched(m0, m3, m4, at + 12, at + 16, at, hi);
    Untouched(m0, m4, m5, at + 16, at + 20, at, hi);
    Untouched(m0, m5, m6, at + 20, at + 24, at, hi);
    KeptBy(m1, m2, m3, m4, m5, m6, at);
    KeptBehind(m0, m1, m2, m3, m4, m5, m6, at);
  }

  lemma KeptBehind(m0: seq<byte>, m1: seq<byte>, m2: seq<byte>, m3: seq<byte>, m4: seq<byte>, m5: seq<byte>,
                   m6: seq<byte>, at: nat)
    requires at + LIST_HEADER <= |m0| && SameOutside(m0, m1, at, at + 4)
    requires SameOutside(m1, m2, at + 4, at + 8) && SameOutside(m2, m3, at + 8, at + 12)
    requires SameOutside(m3, m4, at + 12, at + 16)
    requires SameOutside(m4, m5, at + 16, at + 20) && SameOutside(m5, m6, at + 20, at + 24)
    ensures |m6| == |m0| && Word(m6, at + 24) == Word(m0, at + 24)
  {
    WordKept(m0, m6, at + 24);
  }

  lemma ClassSmall(m: seq<byte>, c: Class)
    requires Fits(m, c)
    ensures c.num < WORD_LIMIT && c.per < WORD_LIMIT && (c.num - 1) * (c.per + SLOT_HEADER) == Offset(c, c.num - 1)
  {
    assert c.num * Stride(c) >= c.num;
    SlotInside(c, 0);
  }

  /** Later header words leave the earlier ones as they were written. */
  lemma KeptBy(m1: seq<byte>, m2: seq<byte>, m3: seq<byte>, m4: seq<byte>, m5: seq<byte>, m6: seq<byte>, at: nat)
    requires at + LIST_HEADER <= |m1|
    requires SameOutside(m1, m2, at + 4, at + 8) && SameOutside(m2, m3, at + 8, at + 12)
    requires SameOutside(m3, m4, at + 12, at + 16)
    requires SameOutside(m4, m5, at + 16, at + 20) && SameOutside(m5, m6, at + 20, at + 24)
    ensures |m6| == |m5| == |m4| == |m3| == |m2| == |m1| && Word(m6, at) == Word(m1, at)
    ensures Word(m6, at + 4) == Word(m2, at + 4)
    ensures Word(m6, at + 8) == Word(m3, at + 8) && Word(m6, at + 12) == Word(m4, at + 12)
    ensures Word(m6, at + 16) == Word(m5, at + 16)
  {
    WordKept(m1, m6, at);
    WordKept(m2, m6, at + 4);
    WordKept(m3, m6, at + 8);
    WordKept(m4, m6, at + 12);
    WordKept(m5, m6, at + 16);
  }

  lemma CountExact(c: Class)
    requires c.per + SLOT_HEADER < WORD_LIMIT && End(c) < WORD_LIMIT
    ensures CountSize(c.num, c.per) == End(c) - c.at && (c.at + CountSize(c.num, c.per)) % WORD_LIMIT == End(c)
  {
    assert (c.per + SLOT_HEADER) % WORD_LIMIT == Stride(c);
    assert LIST_HEADER + c.num * Stride(c) == End(c) - c.at;
  }

  lemma StrideRoom(c: Class)
    requires c.num > 0
    ensures c.at + LIST_HEADER < End(c)
  {
    SlotInside(c, 0);
  }

  lemma NoneReady(m: seq<byte>, c: Class)
    requires End(c) <= |m|
    ensures SlotsReady(m, c, 0) && Offset(c, 0) == 0 && SameOutside(m, m, c.at + LIST_HEADER, End(c))
  {
  }

  /** The list header and all slot headers are in place; clearing the last flag completes the chain. */
  lemma LastCleared(m0: seq<byte>, m1: seq<byte>, m2: seq<byte>, m3: seq<byte>, c: Class)
    requires Fits(m2, c) && SlotsReady(m2, c, c.num)
    requires SameOutside(m0, m2, c.at, End(c)) && SameOutside(m1, m2, c.at + LIST_HEADER, End(c))
    requires Fixed(m1, c) && Word(m1, c.at) == c.num && Word(m1, c.at + 8) == 0
    requires Word(m1, c.at + 12) == Offset(c, c.num - 1)
    requires SlotAt(c, c.num - 1) + SLOT_HEADER <= |m2| && m3 == m2[SlotAt(c, c.num - 1) + 16 := 0]
    ensures FreeList(m3, c, Iota(c.num)) && SameOutside(m0, m3, c.at, End(c))
  {
    hide Word, Zeroed;
    var last := SlotAt(c, c.num - 1);
    SlotInside(c, c.num - 1);
    assert SameOutside(m1, m3, c.at + LIST_HEADER, End(c));
    WordOutside(m1, m3, c.at + LIST_HEADER, End(c), c.at);
    WordOutside(m1, m3, c.at + LIST_HEADER, End(c), c.at + 4);
    WordOutside(m1, m3, c.at + LIST_HEADER, End(c), c.at + 8);
    WordOutside(m1, m3, c.at + LIST_HEADER, End(c), c.at + 12);
    WordOutside(m1, m3, c.at + LIST_HEADER, End(c), c.at + 16);
    forall i | 0 <= i < c.num ensures LinkOk(m3, c, Iota(c.num), i) {
      HeaderRoom(m2, c, i);
      if i + 1 < c.num {
        NotLast(m2, c, i);
        SlotsApart(c, i, c.num - 1);
        WordOutside(m2, m3, last + 16, last + 17, SlotAt(c, i) + 12);
      }
    }
    forall k | 0 <= k < c.num ensures CapOk(m3, c, k) {
      assert SlotReady(m2, c, k);
      if k + 1 < c.num {
        SlotsApart(c, k, c.num - 1);
      }
      WordOutside(m2, m3, last + 16, last + 17, SlotAt(c, k));
    }
    assert Offset(c, 0) == 0;
  }

  lemma ZeroedStays(m0: seq<byte>, m1: seq<byte>, m2: seq<byte>, m3: seq<byte>, c: Class)
    requires Zeroed(m0, m1, c) && c.num > 0 && SameOutside(m1, m2, c.at + LIST_HEADER, End(c))
    requires SlotAt(c, c.num - 1) + SLOT_HEADER <= |m2| && m3 == m2[SlotAt(c, c.num - 1) + 16 := 0]
    ensures Zeroed(m0, m3, c)
  {
    hide Word, Offset;
    WordKept(m1, m3, CounterAt(c, false));
    WordKept(m1, m3, CounterAt(c, true));
  }

  /**
   createFreeBufferList: refuses an empty class and one that does not fit; otherwise the free list
   holds all slots in the order of their offsets. Nothing outside the class is written.
   */
  method CreateFreeList(mem: array<byte>, num: nat, per: nat, at: nat) returns (ok: bool)
    requires mem.Length < WORD_LIMIT && End(Class(at, num, per)) < WORD_LIMIT && per + SLOT_HEADER < WORD_LIMIT
    modifies mem
    ensures ok <==> num > 0 && per > 0 && End(Class(at, num, per)) <= mem.Length
    ensures ok ==> FreeList(mem[..], Class(at, num, per), Iota(num))
    ensures ok ==> SameOutside(old(mem[..]), mem[..], at, End(Class(at, num, per)))
    ensures ok ==> Zeroed(old(mem[..]), mem[..], Class(at, num, per))
    ensures !ok ==> mem[..] == old(mem[..])
  {
    hide Word, SameOutside, SlotsReady, Offset, FreeList, Zeroed;
    if num == 0 || per == 0 {
      return false;
    }
    var c := Class(at, num, per);
    var need := CountSize(num, per);
    CountExact(c);
    if mem.Length < (at + need) % WORD_LIMIT || at > mem.Length || need > mem.Length {
      return false;
    }
    StrideRoom(c);
    if (at + need) % WORD_LIMIT <= (at + LIST_HEADER) % WORD_LIMIT {
      assert false;
    }
    ghost var m0 := mem[..];
    WriteListHeader(mem, c);
    ghost var m1 := mem[..];
    Grown(m0, m1, at, at + LIST_HEADER, at, End(c));
    var current := 0;
    NoneReady(m1, c);
    for i := 0 to num
      invariant current == Offset(c, i) && Fits(mem[..], c) && SlotsReady(mem[..], c, i)
      invariant SameOutside(m1, mem[..], at + LIST_HEADER, End(c)) && SameOutside(m0, mem[..], at, End(c))
    {
      ghost var m := mem[..];
      WriteSlotHeader(mem, c, i, current);
      SlotInside(c, i);
      Untouched(m1, m, mem[..], SlotAt(c, i), SlotAt(c, i) + Stride(c), at + LIST_HEADER, End(c));
      Untouched(m0, m, mem[..], SlotAt(c, i), SlotAt(c, i) + Stride(c), at, End(c));
      OffsetNext(c, i);
      current := current + per + SLOT_HEADER;
    }
    ghost var m2 := mem[..];
    HeaderRoom(m2, c, num - 1);
    ClassSmall(m2, c);
    var last := at + LIST_HEADER + (num - 1) * (per + SLOT_HEADER);
    mem[last + 16] := 0;
    SlotInside(c, num - 1);
    LastCleared(m0, m1, m2, mem[..], c);
    ZeroedStays(m0, m1, m2, mem[..], c);
    ok := true;
  }

  // ---------- the whole memory ----------

  datatype Pair = Pair(size: nat, percent: nat)

  function SumPercent(ps: seq<Pair>): nat
  {
    if ps == [] then 0 else SumPercent(ps[..|ps| - 1]) + ps[|ps| - 1].percent
  }

  /** What the caller of createBufferManager guarantees: no 32-bit sum below can wrap. */
  predicate Config(length: nat, pairs: seq<Pair>, start: nat)
  {
    && length < WORD_LIMIT && 0 < |pairs| < 65536
    && start + MANAGER_HEADER + LIST_HEADER * |pairs| <= length
    && forall i :: 0 <= i < |pairs| ==> pairs[i].size + SLOT_HEADER < WORD_LIMIT && pairs[i].percent < WORD_LIMIT - 100
  }

  function Region(length: nat, pairs: seq<Pair>, start: nat): nat
    requires Config(length, pairs, start)
  {
    length - start - LIST_HEADER * |pairs| - MANAGER_HEADER
  }

  /** How many slots a class gets: its share of the region. */
  function SlotCount(region: nat, pair: Pair): nat
  {
    region * pair.percent / 100 / (pair.size + SLOT_HEADER)
  }

  /** The classes, one behind the other. */
  function Classes(region: nat, pairs: seq<Pair>, start: nat): (cs: seq<Class>)
    ensures |cs| == |pairs|
  {
    if pairs == [] then [] else
      var front := pairs[..|pairs| - 1];
      Classes(region, front, start) + [Class(UsedBy(region, front, start), SlotCount(region, pairs[|pairs| - 1]),
        pairs[|pairs| - 1].size)]
  }

  function UsedBy(region: nat, pairs: seq<Pair>, start: nat): nat
  {
    if pairs == [] then start + MANAGER_HEADER else
      var last := pairs[|pairs| - 1];
      UsedBy(region, pairs[..|pairs| - 1], start) + LIST_HEADER + SlotCount(region, last) * (last.size + SLOT_HEADER)
  }

  lemma ShareBound(region: nat, pair: Pair)
    ensures SlotCount(region, pair) * (pair.size + SLOT_HEADER) <= region * pair.percent / 100
  {
    var share, stride := region * pair.percent / 100, pair.size + SLOT_HEADER;
    assert share == stride * (share / stride) + share % stride;
  }

  lemma SharesAdd(region: nat, x: nat, y: nat)
    ensures region * x / 100 + region * y / 100 <= region * (x + y) / 100
  {
    assert region * (x + y) == region * x + region * y;
  }

  /** The classes never need more than their percentages of the region. */
  lemma {:induction false} UsedBound(region: nat, pairs: seq<Pair>, start: nat)
    ensures UsedBy(region, pairs, start) <= start + MANAGER_HEADER + LIST_HEADER * |pairs|
      + region * SumPercent(pairs) / 100
  {
    if pairs == [] {
      assert region * 0 / 100 == 0;
    } else {
      var front, last := pairs[..|pairs| - 1], pairs[|pairs| - 1];
      UsedBound(region, front, start);
      ShareBound(region, last);
      SharesAdd(region, SumPercent(front), last.percent);
    }
  }

  lemma {:induction false} SumGrows(pairs: seq<Pair>, n: nat)
    requires n <= |pairs|
    ensures SumPercent(pairs[..n]) <= SumPercent(pairs)
  {
    if n < |pairs| {
      SumGrows(pairs[..|pairs| - 1], n);
      assert pairs[..|pairs| - 1][..n] == pairs[..n];
    } else {
      assert pairs[..n] == pairs;
    }
  }

  /** With percentages of at most a hundred, everything fits and no sum wraps. */
  lemma AllFits(length: nat, pairs: seq<Pair>, start: nat, n: nat)
    requires Config(length, pairs, start) && n <= |pairs| && SumPercent(pairs[..n]) <= 100
    ensures UsedBy(Region(length, pairs, start), pairs[..n], start) <= length
  {
    hide UsedBy, SumPercent;
    var region := Region(length, pairs, start);
    UsedBound(region, pairs[..n], start);
    assert LIST_HEADER * n <= LIST_HEADER * |pairs|;
    ShareLess(region, SumPercent(pairs[..n]));
  }

  lemma ShareLess(region: nat, sum: nat)
    requires sum <= 100
    ensures region * sum / 100 <= region
  {
    assert region * 100 == region * sum + region * (100 - sum);
    assert region * (100 - sum) >= 0;
  }

  ghost predicate Consecutive(cs: seq<Class>, start: nat)
  {
    && (cs != [] ==> cs[0].at == start + MANAGER_HEADER)
    && forall i :: 0 <= i < |cs| - 1 ==> cs[i + 1].at == End(cs[i])
  }

  lemma {:induction false} ClassAt(region: nat, pairs: seq<Pair>, start: nat, i: nat)
    requires i < |pairs|
    ensures Classes(region, pairs, start)[i] == Class(UsedBy(region, pairs[..i], start), SlotCount(region, pairs[i]),
      pairs[i].size)
    ensures End(Classes(region, pairs, start)[i]) == UsedBy(region, pairs[..i + 1], start)
  {
    var front := pairs[..|pairs| - 1];
    if i < |pairs| - 1 {
      ClassAt(region, front, start, i);
      assert front[..i] == pairs[..i] && front[..i + 1] == pairs[..i + 1];
    } else {
      assert pairs[..i + 1] == pairs && pairs[..i] == front;
    }
  }

  // ---------- createBufferManager ----------

  /** The first `n` classes are laid out with all their slots free. */
  ghost predicate Built(m: seq<byte>, cs: seq<Class>, n: nat)
  {
    n <= |cs| && forall i :: 0 <= i < n ==> FreeList(m, cs[i], Iota(cs[i].num))
  }

  /** What the second process relies on: the number of classes, the length, and the fixed words of each class. */
  ghost predicate Laid(m: seq<byte>, start: nat, cs: seq<Class>)
  {
    && 0 < |cs| < 65536 && start + MANAGER_HEADER <= |m| < WORD_LIMIT
    && Half(m, start) == |cs| && Word(m, start + 4) == End(cs[|cs| - 1]) - MANAGER_HEADER
    && Consecutive(cs, start)
    && (forall i :: 0 <= i < |cs| ==> Fits(m, cs[i]) && Fixed(m, cs[i]))
  }

  /** Later writes, behind the first `n` classes, leave them as they are. */
  lemma BuiltKept(m: seq<byte>, m2: seq<byte>, cs: seq<Class>, n: nat, lo: nat, hi: nat)
    requires Built(m, cs, n) && SameOutside(m, m2, lo, hi)
    requires forall i :: 0 <= i < n ==> End(cs[i]) <= lo || hi <= cs[i].at
    ensures Built(m2, cs, n)
  {
    hide FreeList;
    forall i | 0 <= i < n ensures FreeList(m2, cs[i], Iota(cs[i].num)) {
      FreeListKept(m, m2, cs[i], Iota(cs[i].num));
    }
  }

  lemma {:induction false} Before(region: nat, pairs: seq<Pair>, start: nat, i: nat, n: nat)
    requires i <= n <= |pairs|
    ensures start + MANAGER_HEADER <= UsedBy(region, pairs[..i], start) <= UsedBy(region, pairs[..n], start)
    decreases n
  {
    hide UsedBy;
    if n == 0 {
      UsedNone(region, start);
      assert pairs[..0] == [];
    } else {
      UsedMore(region, pairs, start, n);
      if i < n {
        Before(region, pairs, start, i, n - 1);
      } else {
        Before(region, pairs, start, n - 1, n - 1);
      }
    }
  }

  lemma UsedNone(region: nat, start: nat)
    ensures UsedBy(region, [], start) == start + MANAGER_HEADER
  {
  }

  lemma UsedMore(region: nat, pairs: seq<Pair>, start: nat, n: nat)
    requires 0 < n <= |pairs|
    ensures UsedBy(region, pairs[..n - 1], start) <= UsedBy(region, pairs[..n], start)
  {
    hide SlotCount;
    assert pairs[..n][..n - 1] == pairs[..n - 1];
  }

  method WriteHalf(mem: array<byte>, at: nat, v: nat)
    requires at + 2 <= mem.Length && v < 65536
    modifies mem
    ensures SameOutside(old(mem[..]), mem[..], at, at + 2) && Half(mem[..], at) == v
  {
    mem[at], mem[at + 1] := (v % 256) as byte, (v / 256) as byte;
  }

  /**
   createBufferManager. It succeeds exactly when the percentages do not exceed a hundred and every
   class gets at least one slot; then the classes lie one behind the other inside the memory, each
   with all its slots in its free list.
   */
  method CreateBufferManager(mem: array<byte>, pairs: seq<Pair>, start: nat) returns (ok: bool, cs: seq<Class>)
    requires Config(mem.Length, pairs, start)
    modifies mem
    ensures var region := Region(mem.Length, pairs, start);
      ok <==> SumPercent(pairs) <= 100 && forall i :: 0 <= i < |pairs| ==>
        pairs[i].size > 0 && SlotCount(region, pairs[i]) > 0
    ensures ok ==> cs == Classes(Region(mem.Length, pairs, start), pairs, start)
    ensures ok ==> Laid(mem[..], start, cs) && Built(mem[..], cs, |cs|)
    ensures ok ==> forall i :: 0 <= i < |cs| ==> Zeroed(old(mem[..]), mem[..], cs[i])
    ensures SameOutside(old(mem[..]), mem[..], start, mem.Length)
  {
    hide Word, Half, FreeList, SameOutside, UsedBy, SumPercent, SlotCount, Classes, Built, Laid, Config, CountSize,
      Zeroed, Underway;
    ConfigFacts(mem.Length, pairs, start);
    var region := mem.Length - start - LIST_HEADER * |pairs| - MANAGER_HEADER;
    ghost var all := Classes(region, pairs, start);
    ghost var m0 := mem[..];
    cs := [];
    WriteHalf(mem, start, |pairs|);
    var used: nat, sum: nat := MANAGER_HEADER + start, 0;
    UnderwayStart(m0, mem[..], region, pairs, start);
    for i := 0 to |pairs|
      invariant |cs| == i && cs == all[..i] && used == UsedBy(region, pairs[..i], start)
      invariant used >= MANAGER_HEADER + start && sum == SumPercent(pairs[..i]) <= 100
      invariant Underway(m0, mem[..], region, pairs, start, i)
      invariant forall j :: 0 <= j < i ==> pairs[j].size > 0 && SlotCount(region, pairs[j]) > 0
    {
      SumRound(mem.Length, pairs, start, i);
      NoWrap(sum + pairs[i].percent);
      sum := (sum + pairs[i].percent) % WORD_LIMIT;
      if sum > 100 {
        UnderwaySame(m0, mem[..], region, pairs, start, i);
        return false, cs;
      }
      CreateRound(mem.Length, pairs, start, i);
      var num := SlotCount(region, pairs[i]);
      ghost var m := mem[..];
      var fits := CreateFreeList(mem, num, pairs[i].size, used);
      if !fits {
        UnderwaySame(m0, mem[..], region, pairs, start, i);
        return false, cs;
      }
      cs := cs + [Class(used, num, pairs[i].size)];
      UnderwayNext(m0, m, mem[..], region, pairs, start, i);
      used := used + CountSize(num, pairs[i].size);
    }
    assert pairs[..|pairs|] == pairs && all[..|pairs|] == all;
    AllFits(mem.Length, pairs, start, |pairs|);
    ghost var m2 := mem[..];
    WriteWord(mem, start + 4, used - MANAGER_HEADER);
    UnderwayEnd(m0, m2, mem[..], region, pairs, start);
    ok := true;
  }

  /** The loop has laid out the first `n` classes and written nothing behind them. */
  ghost predicate Underway(m0: seq<byte>, m: seq<byte>, region: nat, pairs: seq<Pair>, start: nat, n: nat)
  {
    && n <= |pairs| && start + MANAGER_HEADER <= |m0| == |m| && SameOutside(m0, m, start, |m0|)
    && Built(m, Classes(region, pairs, start), n) && Half(m, start) == |pairs|
    && SameInside(m0, m, UsedBy(region, pairs[..n], start), |m0|)
    && forall j :: 0 <= j < n ==> Zeroed(m0, m, Classes(region, pairs, start)[j])
  }

  lemma UnderwayStart(m0: seq<byte>, m: seq<byte>, region: nat, pairs: seq<Pair>, start: nat)
    requires start + MANAGER_HEADER <= |m0| && SameOutside(m0, m, start, start + 2) && Half(m, start) == |pairs|
    ensures Underway(m0, m, region, pairs, start, 0) && Classes(region, pairs, start)[..0] == []
    ensures UsedBy(region, pairs[..0], start) == start + MANAGER_HEADER && SumPercent(pairs[..0]) == 0
  {
    hide Half, Classes;
    Grown(m0, m, start, start + 2, start, |m0|);
    CreateStart(m, region, pairs, start);
    Behind(m0, m, start, start + 2, start + MANAGER_HEADER);
  }

  lemma UnderwaySame(m0: seq<byte>, m: seq<byte>, region: nat, pairs: seq<Pair>, start: nat, n: nat)
    requires Underway(m0, m, region, pairs, start, n)
    ensures SameOutside(m0, m, start, |m0|)
  {
  }

  lemma UnderwayNext(m0: seq<byte>, m: seq<byte>, m2: seq<byte>, region: nat, pairs: seq<Pair>, start: nat, i: nat)
    requires i < |pairs| && Underway(m0, m, region, pairs, start, i)
    requires var c := Classes(region, pairs, start)[i];
      FreeList(m2, c, Iota(c.num)) && SameOutside(m, m2, c.at, End(c)) && Zeroed(m, m2, c) && End(c) <= |m|
    ensures Underway(m0, m2, region, pairs, start, i + 1)
  {
    hide FreeList, UsedBy, SlotCount, Classes, Built, Half, Zeroed, SameOutside, SameInside;
    var c := Classes(region, pairs, start)[i];
    CreateNext(m, m2, region, pairs, start, i);
    ClassAt(region, pairs, start, i);
    Untouched(m0, m, m2, c.at, End(c), start, |m0|);
    CreateCounters(m0, m, m2, region, pairs, start, i);
  }

  lemma UnderwayEnd(m0: seq<byte>, m: seq<byte>, m2: seq<byte>, region: nat, pairs: seq<Pair>, start: nat)
    requires Underway(m0, m, region, pairs, start, |pairs|) && 0 < |pairs| < 65536 && |m| < WORD_LIMIT
    requires SameOutside(m, m2, start + 4, start + 8)
    requires |m2| == |m| && start + MANAGER_HEADER <= |m|
    requires Word(m2, start + 4) == UsedBy(region, pairs, start) - MANAGER_HEADER
    ensures var cs := Classes(region, pairs, start);
      && Laid(m2, start, cs) && Built(m2, cs, |cs|) && SameOutside(m0, m2, start, |m0|)
      && forall i :: 0 <= i < |cs| ==> Zeroed(m0, m2, cs[i])
  {
    hide UsedBy, Classes, Built, Half, Zeroed, SameOutside, SameInside, Laid, Word;
    Untouched(m0, m, m2, start + 4, start + 8, start, |m0|);
    CreateEnd(m, m2, region, pairs, start);
    CountersKept(m0, m, m2, region, pairs, start, |pairs|, start + 4, start + 8);
  }

  /** The percentages so far, and what it means that they exceed a hundred. */
  lemma SumRound(length: nat, pairs: seq<Pair>, start: nat, i: nat)
    requires Config(length, pairs, start) && i < |pairs|
    ensures SumPercent(pairs[..i + 1]) == SumPercent(pairs[..i]) + pairs[i].percent <= SumPercent(pairs)
    ensures pairs[i].percent < WORD_LIMIT - 100
  {
    assert pairs[..i + 1][..i] == pairs[..i];
    SumGrows(pairs, i + 1);
  }

  lemma Behind(m: seq<byte>, m2: seq<byte>, lo: nat, hi: nat, from: nat)
    requires SameOutside(m, m2, lo, hi) && hi <= from
    ensures SameInside(m, m2, from, |m|)
  {
  }

  /** The counters of the classes made so far are outside whatever is written next to them. */
  lemma CountersKept(m0: seq<byte>, m: seq<byte>, m2: seq<byte>, region: nat, pairs: seq<Pair>, start: nat, n: nat,
                     lo: nat, hi: nat)
    requires n <= |pairs| && forall j :: 0 <= j < n ==> Zeroed(m0, m, Classes(region, pairs, start)[j])
    requires SameOutside(m, m2, lo, hi)
    requires hi <= start + MANAGER_HEADER || lo == UsedBy(region, pairs[..n], start)
    ensures forall j :: 0 <= j < n ==> Zeroed(m0, m2, Classes(region, pairs, start)[j])
  {
    hide UsedBy, SlotCount, Classes, Word, Stride;
    forall j | 0 <= j < n ensures Zeroed(m0, m2, Classes(region, pairs, start)[j]) {
      var c := Classes(region, pairs, start)[j];
      ClassAt(region, pairs, start, j);
      Before(region, pairs, start, j, j);
      Before(region, pairs, start, j + 1, n);
      WordOutside(m, m2, lo, hi, CounterAt(c, false));
      WordOutside(m, m2, lo, hi, CounterAt(c, true));
    }
  }

  lemma CreateCounters(m0: seq<byte>, m: seq<byte>, m2: seq<byte>, region: nat, pairs: seq<Pair>, start: nat, i: nat)
    requires i < |pairs| && forall j :: 0 <= j < i ==> Zeroed(m0, m, Classes(region, pairs, start)[j])
    requires SameInside(m0, m, UsedBy(region, pairs[..i], start), |m0|)
    requires var c := Classes(region, pairs, start)[i]; Zeroed(m, m2, c) && SameOutside(m, m2, c.at, End(c))
    ensures forall j :: 0 <= j < i + 1 ==> Zeroed(m0, m2, Classes(region, pairs, start)[j])
    ensures SameInside(m0, m2, UsedBy(region, pairs[..i + 1], start), |m0|)
  {
    hide UsedBy, SlotCount, Classes, Word, Stride;
    var c := Classes(region, pairs, start)[i];
    ClassAt(region, pairs, start, i);
    CountersKept(m0, m, m2, region, pairs, start, i, c.at, End(c));
    WordKept(m0, m, CounterAt(c, true));
  }

  lemma ConfigFacts(length: nat, pairs: seq<Pair>, start: nat)
    requires Config(length, pairs, start)
    ensures length < WORD_LIMIT && 0 < |pairs| < 65536 && start + MANAGER_HEADER + LIST_HEADER * |pairs| <= length
    ensures forall i :: 0 <= i < |pairs| ==>
      pairs[i].size + SLOT_HEADER < WORD_LIMIT && pairs[i].percent < WORD_LIMIT - 100
  {
  }

  lemma CreateStart(m: seq<byte>, region: nat, pairs: seq<Pair>, start: nat)
    ensures Classes(region, pairs, start)[..0] == [] && Built(m, Classes(region, pairs, start), 0)
    ensures UsedBy(region, pairs[..0], start) == start + MANAGER_HEADER && SumPercent(pairs[..0]) == 0
  {
  }

  /** Class `i` starts where the first `i` end, and there is room for it. */
  lemma CreateRound(length: nat, pairs: seq<Pair>, start: nat, i: nat)
    requires Config(length, pairs, start) && i < |pairs| && SumPercent(pairs[..i + 1]) <= 100
    ensures var region := Region(length, pairs, start); var c := Classes(region, pairs, start)[i];
      && c == Class(UsedBy(region, pairs[..i], start), SlotCount(region, pairs[i]), pairs[i].size)
      && UsedBy(region, pairs[..i + 1], start) == End(c) == c.at + CountSize(c.num, c.per) <= length
      && pairs[i].size + SLOT_HEADER < WORD_LIMIT
  {
    hide UsedBy, SumPercent, SlotCount, Classes, CountSize;
    var region := Region(length, pairs, start);
    ClassAt(region, pairs, start, i);
    AllFits(length, pairs, start, i + 1);
    CountExact(Classes(region, pairs, start)[i]);
  }

  lemma CreateNext(m: seq<byte>, m2: seq<byte>, region: nat, pairs: seq<Pair>, start: nat, i: nat)
    requires i < |pairs| && Built(m, Classes(region, pairs, start), i) && start + 8 <= |m|
    requires var c := Classes(region, pairs, start)[i]; FreeList(m2, c, Iota(c.num)) && SameOutside(m, m2, c.at, End(c))
    ensures Built(m2, Classes(region, pairs, start), i + 1)
    ensures Half(m2, start) == Half(m, start) && UsedBy(region, pairs[..i], start) >= start + MANAGER_HEADER
  {
    hide FreeList, UsedBy, SlotCount, Classes;
    var all := Classes(region, pairs, start);
    ClassAt(region, pairs, start, i);
    Before(region, pairs, start, i, i);
    forall j | 0 <= j < i ensures End(all[j]) <= all[i].at {
      ClassAt(region, pairs, start, j);
      Before(region, pairs, start, j + 1, i);
    }
    BuiltKept(m, m2, all, i, all[i].at, End(all[i]));
  }

  lemma CreateEnd(m: seq<byte>, m2: seq<byte>, region: nat, pairs: seq<Pair>, start: nat)
    requires 0 < |pairs| < 65536 && start + MANAGER_HEADER <= |m| < WORD_LIMIT
    requires Built(m, Classes(region, pairs, start), |pairs|) && Half(m, start) == |pairs|
    requires SameOutside(m, m2, start + 4, start + 8)
    requires Word(m2, start + 4) == UsedBy(region, pairs, start) - MANAGER_HEADER
    ensures Laid(m2, start, Classes(region, pairs, start)) && Built(m2, Classes(region, pairs, start), |pairs|)
  {
    hide UsedBy, SlotCount, Classes, Word;
    var cs, n := Classes(region, pairs, start), |pairs|;
    forall i | 0 <= i < n ensures cs[i].at == UsedBy(region, pairs[..i], start)
      && End(cs[i]) == UsedBy(region, pairs[..i + 1], start)
      && start + MANAGER_HEADER <= cs[i].at
    {
      ClassAt(region, pairs, start, i);
      Before(region, pairs, start, i, i);
    }
    BuiltKept(m, m2, cs, n, start + 4, start + 8);
    CreateStart(m, region, pairs, start);
    assert pairs[..n] == pairs;
    forall i | 0 <= i < n ensures Fits(m2, cs[i]) && Fixed(m2, cs[i]) {
      assert FreeList(m2, cs[i], Iota(cs[i].num));
    }
  }

  // ---------- mapping ----------

  /** What a process knows of a class: where it is and what its header says now. */
  datatype View = View(at: nat, size: nat, cap: nat, head: nat, tail: nat, per: nat)

  /** The view of the process that created the class. */
  function Created(m: seq<byte>, c: Class): View
    requires c.at + LIST_HEADER <= |m|
  {
    View(c.at, Word(m, c.at), c.num, Word(m, c.at + 8), Word(m, c.at + 12), c.per)
  }

  /** The mapped slot region lies behind the list header and inside the memory. */
  predicate Inside(v: View, length: nat)
  {
    v.at + LIST_HEADER <= (v.at + CountSize(v.cap, v.per)) % WORD_LIMIT <= length
  }

  /** mappingFreeBufferList */
  method MapFreeList(mem: array<byte>, at: nat) returns (ok: bool, v: View)
    requires mem.Length < WORD_LIMIT
    ensures ok ==> Inside(v, mem.Length)
    ensures at + LIST_HEADER > mem.Length ==> !ok
    ensures at + LIST_HEADER <= mem.Length ==>
      (ok <==> Inside(View(at, 0, Word(mem[..], at + 4), 0, 0, Word(mem[..], at + 16)), mem.Length))
    ensures ok ==> v == View(at, Word(mem[..], at), Word(mem[..], at + 4), Word(mem[..], at + 8),
      Word(mem[..], at + 12), Word(mem[..], at + 16))
  {
    hide Word, CountSize;
    v := View(at, 0, 0, 0, 0, 0);
    if mem.Length < LIST_HEADER + at {
      return false, v;
    }
    NoWrap(at + LIST_HEADER);
    var size := ReadWord(mem, at);
    var cap := ReadWord(mem, at + 4);
    var head := ReadWord(mem, at + 8);
    var tail := ReadWord(mem, at + 12);
    var per := ReadWord(mem, at + 16);
    var need := CountSize(cap, per);
    if (at + need) % WORD_LIMIT > mem.Length || (at + need) % WORD_LIMIT < (at + LIST_HEADER) % WORD_LIMIT {
      return false, v;
    }
    return true, View(at, size, cap, head, tail, per);
  }

  /**
   mappingBufferManager. Whatever the memory holds, the regions it accepts are inside it. On a
   memory laid out with the classes `cs` it finds exactly what their creator sees.
   */
  method MapBufferManager(mem: array<byte>, start: nat, ghost cs: seq<Class>) returns (ok: bool, views: seq<View>)
    requires start + MANAGER_HEADER <= mem.Length < WORD_LIMIT
    ensures ok ==> |views| == Half(mem[..], start) && forall i :: 0 <= i < |views| ==> Inside(views[i], mem.Length)
    ensures Laid(mem[..], start, cs) ==> ok && |views| == |cs| && forall i :: 0 <= i < |cs| ==>
      views[i] == Created(mem[..], cs[i])
  {
    hide Word, Half, Laid, Inside, Created, CountSize;
    ghost var m := mem[..];
    views := [];
    var listNum := mem[start] as nat + 256 * mem[start + 1] as nat;
    HalfRead(m, start);
    var length := ReadWord(mem, start + 4);
    LaidFacts(m, start, cs);
    if mem.Length < MANAGER_HEADER + length || listNum == 0 {
      return false, views;
    }
    var used: nat := MANAGER_HEADER;
    for i := 0 to listNum
      invariant |views| == i && used < WORD_LIMIT
      invariant forall j :: 0 <= j < i ==> Inside(views[j], mem.Length)
      invariant Laid(m, start, cs) ==> start + used == (if i < |cs| then cs[i].at else End(cs[|cs| - 1]))
      invariant Laid(m, start, cs) ==> forall j :: 0 <= j < i ==> views[j] == Created(m, cs[j])
    {
      MapRound(m, start, cs, i);
      if start + used < WORD_LIMIT {
        NoWrap(start + used);
      }
      var good, v := MapFreeList(mem, (start + used) % WORD_LIMIT);
      if !good {
        return false, views;
      }
      views := views + [v];
      ghost var next: nat := used + CountSize(v.cap, v.per);
      used := (used + CountSize(v.cap, v.per)) % WORD_LIMIT;
      if Laid(m, start, cs) {
        assert v == Created(m, cs[i]);
        NoWrap(next);
      }
    }
    ok := true;
  }

  lemma NoWrap(x: nat)
    requires x < WORD_LIMIT
    ensures x % WORD_LIMIT == x
  {
  }

  lemma HalfRead(m: seq<byte>, start: nat)
    requires start + 2 <= |m|
    ensures m[start] as nat + 256 * m[start + 1] as nat == Half(m, start)
  {
  }

  lemma LaidFacts(m: seq<byte>, start: nat, cs: seq<Class>)
    requires start + MANAGER_HEADER <= |m|
    ensures Laid(m, start, cs) ==> |cs| > 0 && Half(m, start) == |cs| && MANAGER_HEADER + Word(m, start + 4) <= |m|
    ensures Laid(m, start, cs) ==> cs[0].at == start + MANAGER_HEADER
    ensures Laid(m, start, cs) ==> forall i :: 0 <= i < |cs| ==> cs[i].at + LIST_HEADER <= |m|
  {
    if Laid(m, start, cs) {
      assert Fits(m, cs[|cs| - 1]);
      StrideRoom(cs[|cs| - 1]);
    }
  }

  lemma MapRound(m: seq<byte>, start: nat, cs: seq<Class>, i: nat)
    requires start + MANAGER_HEADER <= |m|
    ensures Laid(m, start, cs) && i < |cs| ==>
      && cs[i].at + LIST_HEADER <= |m| < WORD_LIMIT && End(cs[i]) < WORD_LIMIT
      && CountSize(cs[i].num, cs[i].per) == End(cs[i]) - cs[i].at
      && Word(m, cs[i].at + 4) == cs[i].num && Word(m, cs[i].at + 16) == cs[i].per
      && (i + 1 < |cs| ==> cs[i + 1].at == End(cs[i]))
      && Created(m, cs[i]) == View(cs[i].at, Word(m, cs[i].at), cs[i].num, Word(m, cs[i].at + 8),
        Word(m, cs[i].at + 12), cs[i].per)
      && Inside(View(cs[i].at, 0, cs[i].num, 0, 0, cs[i].per), |m|)
  {
    hide Word, Half;
    if Laid(m, start, cs) && i < |cs| {
      assert Fits(m, cs[i]) && Fixed(m, cs[i]);
      StrideRoom(cs[i]);
      PerSmall(m, cs[i]);
      CountExact(cs[i]);
    }
  }

  lemma PerSmall(m: seq<byte>, c: Class)
    requires Fits(m, c)
    ensures c.per + SLOT_HEADER < WORD_LIMIT
  {
    SlotInside(c, 0);
  }

  // ---------- taking and returning a slot ----------

  /** Only the counters, the size, the head, the tail and the header of slot `k` were rewritten. */
  ghost predicate OnlySlot(m: seq<byte>, m2: seq<byte>, c: Class, k: nat)
  {
    && |m2| == |m|
    && forall i :: 0 <= i < |m| && !Rewritable(c, k, i) ==> m2[i] == m[i]
  }

  predicate Rewritable(c: Class, k: nat, i: nat)
  {
    || c.at <= i < c.at + 4
    || c.at + 8 <= i < c.at + 16
    || c.at + 20 <= i < c.at + 28
    || SlotAt(c, k) + 4 <= i < SlotAt(c, k) + SLOT_HEADER
  }

  /** The flag of the slot at `at` says in use and nothing else. */
  predicate InUse(m: seq<byte>, at: nat)
  {
    at + SLOT_HEADER <= |m| && m[at + 16] == 2
  }

  /** The slot at `at` has no data, no start and no flag. */
  predicate Wiped(m: seq<byte>, at: nat)
  {
    at + SLOT_HEADER <= |m| && Word(m, at + 4) == 0 && Word(m, at + 8) == 0 && m[at + 16] == 0
  }

  /** The same with two slots; no byte of any slot behind its header was touched. */
  ghost predicate OnlySlots(m: seq<byte>, m2: seq<byte>, c: Class, j: nat, k: nat)
  {
    && |m2| == |m|
    && forall i :: 0 <= i < |m| && !Rewritable(c, j, i) && !Rewritable(c, k, i) ==> m2[i] == m[i]
  }

  lemma SlotDisjoint(c: Class, j: nat, k: nat)
    requires j != k
    ensures SlotAt(c, j) + Stride(c) <= SlotAt(c, k) || SlotAt(c, k) + Stride(c) <= SlotAt(c, j)
  {
    if j < k {
      SlotsApart(c, j, k);
    } else {
      SlotsApart(c, k, j);
    }
  }

  /** What stays of a free list when one slot's header is rewritten. */
  lemma OthersKept(m: seq<byte>, m2: seq<byte>, c: Class, ch: seq<nat>, k: nat)
    requires FreeList(m, c, ch) && k < c.num && OnlySlot(m, m2, c, k)
    ensures Fits(m2, c) && Fixed(m2, c)
    ensures forall j :: 0 <= j < c.num ==> CapOk(m2, c, j)
    ensures forall i :: 0 <= i < |ch| && ch[i] != k ==> LinkOk(m2, c, ch, i)
  {
    hide Distinct, Word, Offset;
    WordKept(m, m2, c.at + 4);
    WordKept(m, m2, c.at + 16);
    forall j | 0 <= j < c.num ensures CapOk(m2, c, j) {
      assert CapOk(m, c, j);
      if j != k {
        SlotDisjoint(c, j, k);
      }
      CapKept(m, m2, c, j);
    }
    forall i | 0 <= i < |ch| && ch[i] != k ensures LinkOk(m2, c, ch, i) {
      assert LinkOk(m, c, ch, i);
      SlotDisjoint(c, ch[i], k);
      LinkKept(m, m2, c, ch, i);
    }
  }

  lemma FreeFacts(m: seq<byte>, c: Class, ch: seq<nat>)
    requires FreeList(m, c, ch)
    ensures c.at + LIST_HEADER <= |m| && Word(m, c.at) == |ch| > 0 && Word(m, c.at + 16) == c.per
    ensures ch[0] < c.num && ch[|ch| - 1] < c.num
    ensures LinkOk(m, c, ch, 0) && SlotAt(c, ch[0]) + SLOT_HEADER <= |m| && Word(m, c.at + 8) == Offset(c, ch[0])
    ensures LinkOk(m, c, ch, |ch| - 1) && SlotAt(c, ch[|ch| - 1]) + SLOT_HEADER <= |m|
    ensures Word(m, c.at + 12) == Offset(c, ch[|ch| - 1])
    ensures |ch| > 1 ==> HasNext(m, c, ch[0]) && Next(m, c, ch[0]) == Offset(c, ch[1])
  {
    hide Distinct, Word;
    StrideRoom(c);
    LinkIn(m, c, ch, 0);
    LinkIn(m, c, ch, |ch| - 1);
  }

  /**
   pop, undisturbed: the last slot is never handed out; otherwise the head slot leaves the list,
   and nothing outside the class's header and that slot's header changes.
   */
  method Pop(mem: array<byte>, c: Class, mapper: bool, ghost ch: seq<nat>) returns (r: Option<nat>)
    requires FreeList(mem[..], c, ch)
    modifies mem
    ensures r.Some? <==> |ch| > 1
    ensures r.Some? ==> r.value == SlotAt(c, ch[0]) && FreeList(mem[..], c, ch[1..])
    ensures r.None? ==> mem[..] == old(mem[..])
    ensures r.Some? ==> InUse(mem[..], SlotAt(c, ch[0])) && SameInside(old(mem[..]), mem[..], r.value, r.value + 16)
    ensures OnlySlot(old(mem[..]), mem[..], c, ch[0])
    ensures Counts(old(mem[..]), mem[..], c, mapper, if r.Some? then 1 else 0)
    ensures Counts(old(mem[..]), mem[..], c, !mapper, 0)
  {
    hide Word, FreeList, Distinct, LinkOk, Offset, OnlySlot, Counts, SameInside;
    ghost var m0 := mem[..];
    FreeFacts(m0, c, ch);
    var head := ReadWord(mem, c.at + 8);
    var size: int := ReadWord(mem, c.at);
    if size - 1 <= 0 {
      OnlyRefl(m0, c, ch[0]);
      CountsSame(m0, m0, c, mapper);
      CountsSame(m0, m0, c, !mapper);
      return None;
    }
    WriteWord(mem, c.at, size - 1);
    ghost var m1 := mem[..];
    var at := c.at + LIST_HEADER + head;
    PopRead(m0, m1, c, ch);
    var next := ReadWord(mem, at + 12);
    WriteWord(mem, c.at + 8, next);
    ghost var m2 := mem[..];
    mem[at + 16] := 2;
    ghost var m3 := mem[..];
    var counter := ReadWord(mem, CounterAt(c, mapper));
    WriteWord(mem, CounterAt(c, mapper), (counter + 1) % WORD_LIMIT);
    PopWritten(m0, m1, m2, m3, mem[..], c, ch, mapper);
    PopCounts(m0, m1, m2, m3, mem[..], c, ch[0], mapper);
    PopFlag(m0, m1, m2, m3, mem[..], c, ch[0], mapper);
    r := Some(at);
  }

  lemma OnlyRefl(m: seq<byte>, c: Class, k: nat)
    ensures OnlySlot(m, m, c, k)
  {
  }

  lemma PopRead(m0: seq<byte>, m1: seq<byte>, c: Class, ch: seq<nat>)
    requires FreeList(m0, c, ch) && |ch| > 1 && SameOutside(m0, m1, c.at, c.at + 4)
    ensures SlotAt(c, ch[0]) + SLOT_HEADER <= |m1| == |m0| && Next(m1, c, ch[0]) == Offset(c, ch[1]) < WORD_LIMIT
  {
    hide Word, Offset, Distinct;
    FreeFacts(m0, c, ch);
    LinkIn(m0, c, ch, 0);
    WordOutside(m0, m1, c.at, c.at + 4, SlotAt(c, ch[0]) + 12);
  }

  lemma PopWritten(m0: seq<byte>, m1: seq<byte>, m2: seq<byte>, m3: seq<byte>, m4: seq<byte>, c: Class, ch: seq<nat>,
                   mapper: bool)
    requires FreeList(m0, c, ch) && |ch| > 1
    requires SameOutside(m0, m1, c.at, c.at + 4) && Word(m1, c.at) == |ch| - 1
    requires SameOutside(m1, m2, c.at + 8, c.at + 12) && Word(m2, c.at + 8) == Offset(c, ch[1])
    requires SlotAt(c, ch[0]) + SLOT_HEADER <= |m2| && m3 == m2[SlotAt(c, ch[0]) + 16 := 2]
    requires SameOutside(m3, m4, CounterAt(c, mapper), CounterAt(c, mapper) + 4)
    ensures FreeList(m4, c, ch[1..]) && OnlySlot(m0, m4, c, ch[0])
  {
    hide Word, Offset, LinkOk, CapOk, Distinct;
    FreeFacts(m0, c, ch);
    assert OnlySlot(m0, m4, c, ch[0]);
    OthersKept(m0, m4, c, ch, ch[0]);
    WordKept(m1, m4, c.at);
    WordKept(m2, m4, c.at + 8);
    WordKept(m0, m4, c.at + 12);
    TailLinks(m4, c, ch);
  }

  lemma PopCounts(m0: seq<byte>, m1: seq<byte>, m2: seq<byte>, m3: seq<byte>, m4: seq<byte>, c: Class, k: nat,
                  mapper: bool)
    requires c.at + LIST_HEADER <= |m0| && SameOutside(m0, m1, c.at, c.at + 4)
    requires SameOutside(m1, m2, c.at + 8, c.at + 12)
    requires SlotAt(c, k) + SLOT_HEADER <= |m2| && m3 == m2[SlotAt(c, k) + 16 := 2]
    requires SameOutside(m3, m4, CounterAt(c, mapper), CounterAt(c, mapper) + 4)
    requires Word(m4, CounterAt(c, mapper)) == (Word(m3, CounterAt(c, mapper)) + 1) % WORD_LIMIT
    ensures Counts(m0, m4, c, mapper, 1) && Counts(m0, m4, c, !mapper, 0)
  {
    hide Word, Offset;
    WordKept(m0, m3, CounterAt(c, mapper));
    CountsSame(m0, m4, c, !mapper);
  }

  lemma PopFlag(m0: seq<byte>, m1: seq<byte>, m2: seq<byte>, m3: seq<byte>, m4: seq<byte>, c: Class, k: nat,
                mapper: bool)
    requires SameOutside(m0, m1, c.at, c.at + 4) && SameOutside(m1, m2, c.at + 8, c.at + 12)
    requires SlotAt(c, k) + SLOT_HEADER <= |m2| && m3 == m2[SlotAt(c, k) + 16 := 2]
    requires SameOutside(m3, m4, CounterAt(c, mapper), CounterAt(c, mapper) + 4)
    ensures InUse(m4, SlotAt(c, k)) && SameInside(m0, m4, SlotAt(c, k), SlotAt(c, k) + 16)
  {
    hide Offset;
  }

  lemma TailLinks(m4: seq<byte>, c: Class, ch: seq<nat>)
    requires |ch| > 1 && Distinct(ch) && forall i :: 0 <= i < |ch| && ch[i] != ch[0] ==> LinkOk(m4, c, ch, i)
    ensures Distinct(ch[1..]) && forall i :: 0 <= i < |ch[1..]| ==> LinkOk(m4, c, ch[1..], i)
  {
    hide Word, Offset;
    var rest := ch[1..];
    forall i | 0 <= i < |rest| ensures LinkOk(m4, c, rest, i) {
      assert ch[i + 1] != ch[0] && LinkOk(m4, c, ch, i + 1);
    }
  }

  /** push, undisturbed: the slot goes behind the tail. */
  method Push(mem: array<byte>, c: Class, mapper: bool, k: nat, ghost ch: seq<nat>)
    requires FreeList(mem[..], c, ch) && k < c.num && k !in ch
    modifies mem
    ensures FreeList(mem[..], c, ch + [k])
    ensures SameOutside(old(mem[..]), mem[..], c.at, End(c))
    ensures OnlySlots(old(mem[..]), mem[..], c, k, ch[|ch| - 1]) && Wiped(mem[..], SlotAt(c, k))
    ensures Counts(old(mem[..]), mem[..], c, mapper, -1) && Counts(old(mem[..]), mem[..], c, !mapper, 0)
  {
    hide Word, FreeList, Distinct, LinkOk, Offset, OnlySlot, SameOutside, Counts;
    ghost var m0 := mem[..];
    FreeFacts(m0, c, ch);
    PushRoom(m0, c, ch, k);
    var at := SlotAt(c, k);
    WriteWord(mem, at + 4, 0);
    ghost var m1 := mem[..];
    WriteWord(mem, at + 8, 0);
    ghost var m2 := mem[..];
    mem[at + 16] := 0;
    ghost var m3 := mem[..];
    ResetKeeps(m0, m1, m2, m3, c, ch, k);
    FreeFacts(m3, c, ch);
    var tail := ReadWord(mem, c.at + 12);
    WriteWord(mem, c.at + 12, Offset(c, k));
    ghost var m4 := mem[..];
    WriteLink(mem, c.at + LIST_HEADER + tail, Offset(c, k));
    ghost var m5 := mem[..];
    var size := ReadWord(mem, c.at);
    SizeSame(m3, m4, m5, c, ch);
    WriteWord(mem, c.at, size + 1);
    ghost var m6 := mem[..];
    var counter := ReadWord(mem, CounterAt(c, mapper));
    WriteWord(mem, CounterAt(c, mapper), (counter + WORD_LIMIT - 1) % WORD_LIMIT);
    PushWritten(m0, m3, m4, m5, m6, mem[..], c, ch, k, mapper);
    PushCounts(m0, m3, m4, m5, m6, mem[..], c, k, ch[|ch| - 1], mapper);
    WipedSlot(m0, m1, m2, m3, c, k);
    PushBytes(m0, m3, m4, m5, m6, mem[..], c, k, ch[|ch| - 1], mapper);
  }

  lemma WipedSlot(m0: seq<byte>, m1: seq<byte>, m2: seq<byte>, m3: seq<byte>, c: Class, k: nat)
    requires SlotAt(c, k) + SLOT_HEADER <= |m0|
    requires SameOutside(m0, m1, SlotAt(c, k) + 4, SlotAt(c, k) + 8) && Word(m1, SlotAt(c, k) + 4) == 0
    requires SameOutside(m1, m2, SlotAt(c, k) + 8, SlotAt(c, k) + 12) && Word(m2, SlotAt(c, k) + 8) == 0
    requires m3 == m2[SlotAt(c, k) + 16 := 0]
    ensures OnlySlot(m0, m3, c, k) && Wiped(m3, SlotAt(c, k))
  {
    hide Offset, Word;
    WordKept(m1, m3, SlotAt(c, k) + 4);
    WordKept(m2, m3, SlotAt(c, k) + 8);
  }

  lemma PushBytes(m0: seq<byte>, m3: seq<byte>, m4: seq<byte>, m5: seq<byte>, m6: seq<byte>, m7: seq<byte>,
                  c: Class, k: nat, last: nat, mapper: bool)
    requires OnlySlot(m0, m3, c, k) && Wiped(m3, SlotAt(c, k)) && k != last && k < c.num && last < c.num
    requires SameOutside(m3, m4, c.at + 12, c.at + 16)
    requires SameOutside(m4, m5, SlotAt(c, last) + 12, SlotAt(c, last) + SLOT_HEADER)
    requires SameOutside(m5, m6, c.at, c.at + 4)
    requires SameOutside(m6, m7, CounterAt(c, mapper), CounterAt(c, mapper) + 4)
    ensures OnlySlots(m0, m7, c, k, last) && Wiped(m7, SlotAt(c, k))
  {
    hide Offset, Word;
    SlotDisjoint(c, k, last);
    WordKept(m3, m7, SlotAt(c, k) + 4);
    WordKept(m3, m7, SlotAt(c, k) + 8);
  }

  lemma PushCounts(m0: seq<byte>, m3: seq<byte>, m4: seq<byte>, m5: seq<byte>, m6: seq<byte>, m7: seq<byte>,
                   c: Class, k: nat, last: nat, mapper: bool)
    requires c.at + LIST_HEADER <= |m0| && SameOutside(m0, m3, SlotAt(c, k), SlotAt(c, k) + SLOT_HEADER)
    requires SameOutside(m3, m4, c.at + 12, c.at + 16)
    requires SameOutside(m4, m5, SlotAt(c, last) + 12, SlotAt(c, last) + SLOT_HEADER)
    requires SameOutside(m5, m6, c.at, c.at + 4)
    requires SameOutside(m6, m7, CounterAt(c, mapper), CounterAt(c, mapper) + 4)
    requires Word(m7, CounterAt(c, mapper)) == (Word(m6, CounterAt(c, mapper)) + WORD_LIMIT - 1) % WORD_LIMIT
    ensures Counts(m0, m7, c, mapper, -1) && Counts(m0, m7, c, !mapper, 0)
  {
    hide Word, Offset;
    WordKept(m0, m6, CounterAt(c, mapper));
    CountsSame(m0, m7, c, !mapper);
  }

  lemma PushRoom(m: seq<byte>, c: Class, ch: seq<nat>, k: nat)
    requires FreeList(m, c, ch) && k < c.num && k !in ch
    ensures SlotAt(c, k) + SLOT_HEADER <= |m| && Offset(c, k) < WORD_LIMIT && |ch| + 1 <= c.num < WORD_LIMIT
  {
    hide Word, Offset;
    HeaderRoom(m, c, k);
    ClassSmall(m, c);
    forall i | 0 <= i < |ch| ensures ch[i] < c.num {
      assert LinkOk(m, c, ch, i);
    }
    Pigeons(ch + [k], c.num);
  }

  /** Different numbers below `n`: there are at most `n` of them. */
  lemma {:induction false} Pigeons(ch: seq<nat>, n: nat)
    requires Distinct(ch) && forall i :: 0 <= i < |ch| ==> ch[i] < n
    ensures |ch| <= n
    decreases n
  {
    assert |ch| > 0 ==> ch[0] < n;
    if n > 0 {
      if i :| 0 <= i < |ch| && ch[i] == n - 1 {
        var rest := ch[..i] + ch[i + 1..];
        forall j | 0 <= j < |rest| ensures rest[j] < n - 1 && rest[j] == ch[if j < i then j else j + 1] {
          assert ch[if j < i then j else j + 1] != ch[i];
        }
        Pigeons(rest, n - 1);
      } else {
        Pigeons(ch, n - 1);
      }
    }
  }

  /** reset touches only the header of a slot that is not in the list. */
  lemma ResetKeeps(m0: seq<byte>, m1: seq<byte>, m2: seq<byte>, m3: seq<byte>, c: Class, ch: seq<nat>, k: nat)
    requires FreeList(m0, c, ch) && k < c.num && k !in ch && SlotAt(c, k) + SLOT_HEADER <= |m0|
    requires SameOutside(m0, m1, SlotAt(c, k) + 4, SlotAt(c, k) + 8)
    requires SameOutside(m1, m2, SlotAt(c, k) + 8, SlotAt(c, k) + 12)
    requires m3 == m2[SlotAt(c, k) + 16 := 0]
    ensures FreeList(m3, c, ch) && SameOutside(m0, m3, SlotAt(c, k), SlotAt(c, k) + SLOT_HEADER) && !HasNext(m3, c, k)
  {
    hide Word, Offset, LinkOk, CapOk, Distinct, OnlySlot, SameOutside;
    var at := SlotAt(c, k);
    FreeFacts(m0, c, ch);
    ResetBytes(m0, m1, m2, m3, c, k);
    OthersKept(m0, m3, c, ch, k);
    WordOutside(m0, m3, at, at + SLOT_HEADER, c.at);
    WordOutside(m0, m3, at, at + SLOT_HEADER, c.at + 8);
    WordOutside(m0, m3, at, at + SLOT_HEADER, c.at + 12);
    assert forall i :: 0 <= i < |ch| ==> ch[i] != k;
  }

  lemma ResetBytes(m0: seq<byte>, m1: seq<byte>, m2: seq<byte>, m3: seq<byte>, c: Class, k: nat)
    requires SlotAt(c, k) + SLOT_HEADER <= |m0| && SameOutside(m0, m1, SlotAt(c, k) + 4, SlotAt(c, k) + 8)
    requires SameOutside(m1, m2, SlotAt(c, k) + 8, SlotAt(c, k) + 12)
    requires m3 == m2[SlotAt(c, k) + 16 := 0]
    ensures OnlySlot(m0, m3, c, k) && SameOutside(m0, m3, SlotAt(c, k), SlotAt(c, k) + SLOT_HEADER)
    ensures |m3| == |m0| && !HasNext(m3, c, k)
  {
    hide Offset;
  }

  lemma SizeSame(m3: seq<byte>, m4: seq<byte>, m5: seq<byte>, c: Class, ch: seq<nat>)
    requires FreeList(m3, c, ch) && SameOutside(m3, m4, c.at + 12, c.at + 16)
    requires SameOutside(m4, m5, SlotAt(c, ch[|ch| - 1]) + 12, SlotAt(c, ch[|ch| - 1]) + SLOT_HEADER)
    ensures |m5| == |m3| && c.at + LIST_HEADER <= |m3| && Word(m5, c.at) == |ch|
  {
    hide Word, Offset, Distinct, LinkOk;
    FreeFacts(m3, c, ch);
    WordOutside(m3, m4, c.at + 12, c.at + 16, c.at);
    WordOutside(m4, m5, SlotAt(c, ch[|ch| - 1]) + 12, SlotAt(c, ch[|ch| - 1]) + SLOT_HEADER, c.at);
  }

  lemma PushWritten(m0: seq<byte>, m3: seq<byte>, m4: seq<byte>, m5: seq<byte>, m6: seq<byte>, m7: seq<byte>,
                    c: Class, ch: seq<nat>, k: nat, mapper: bool)
    requires FreeList(m3, c, ch) && k < c.num && k !in ch && SlotAt(c, k) + SLOT_HEADER <= |m3| && !HasNext(m3, c, k)
    requires SameOutside(m0, m3, SlotAt(c, k), SlotAt(c, k) + SLOT_HEADER)
    requires SameOutside(m3, m4, c.at + 12, c.at + 16) && Word(m4, c.at + 12) == Offset(c, k)
    requires SlotAt(c, ch[|ch| - 1]) + SLOT_HEADER <= |m3|
    requires SameOutside(m4, m5, SlotAt(c, ch[|ch| - 1]) + 12, SlotAt(c, ch[|ch| - 1]) + SLOT_HEADER)
    requires Word(m5, SlotAt(c, ch[|ch| - 1]) + 12) == Offset(c, k) && m5[SlotAt(c, ch[|ch| - 1]) + 16] % 2 == 1
    requires SameOutside(m5, m6, c.at, c.at + 4) && Word(m6, c.at) == |ch| + 1
    requires SameOutside(m6, m7, CounterAt(c, mapper), CounterAt(c, mapper) + 4)
    ensures FreeList(m7, c, ch + [k]) && SameOutside(m0, m7, c.at, End(c))
  {
    hide Word, Offset, LinkOk, CapOk, Distinct;
    var last := ch[|ch| - 1];
    FreeFacts(m3, c, ch);
    SlotInside(c, last);
    SlotInside(c, k);
    SlotDisjoint(c, last, k);
    assert OnlySlot(m3, m7, c, last);
    OthersKept(m3, m7, c, ch, last);
    WordKept(m6, m7, c.at);
    WordKept(m3, m7, c.at + 8);
    WordKept(m4, m7, c.at + 12);
    WordKept(m5, m7, SlotAt(c, last) + 12);
    PushLinks(m3, m7, c, ch, k);
  }

  lemma PushLinks(m3: seq<byte>, m7: seq<byte>, c: Class, ch: seq<nat>, k: nat)
    requires FreeList(m3, c, ch) && k < c.num && k !in ch && SlotAt(c, k) + SLOT_HEADER <= |m3| == |m7|
    requires HasNext(m7, c, k) == HasNext(m3, c, k) == false
    requires forall i :: 0 <= i < |ch| && ch[i] != ch[|ch| - 1] ==> LinkOk(m7, c, ch, i)
    requires SlotAt(c, ch[|ch| - 1]) + SLOT_HEADER <= |m7| && HasNext(m7, c, ch[|ch| - 1])
    requires Next(m7, c, ch[|ch| - 1]) == Offset(c, k)
    ensures Distinct(ch + [k]) && forall i :: 0 <= i < |ch + [k]| ==> LinkOk(m7, c, ch + [k], i)
  {
    hide Word, Offset;
    var all, n := ch + [k], |ch|;
    forall i | 0 <= i < |all| ensures LinkOk(m7, c, all, i) {
      if i < n - 1 {
        assert ch[i] != ch[n - 1] && LinkOk(m7, c, ch, i);
      } else if i == n - 1 {
        assert LinkOk(m3, c, ch, i);
      }
    }
  }

  // ---------- after any run ----------

  /** A memory operation on class `c`: pops, pushes and the holders of its slots write only here. */
  lemma LaidKept(m: seq<byte>, m2: seq<byte>, start: nat, cs: seq<Class>, j: nat)
    requires Laid(m, start, cs) && j < |cs| && SameOutside(m, m2, cs[j].at, End(cs[j])) && Fixed(m2, cs[j])
    ensures Laid(m2, start, cs)
  {
    hide Word, Half;
    ClassesApart(m, start, cs, j);
    WordKept(m, m2, start + 4);
    HalfKept(m, m2, start);
    forall i | 0 <= i < |cs| ensures Fits(m2, cs[i]) && Fixed(m2, cs[i]) {
      assert Fits(m, cs[i]) && Fixed(m, cs[i]);
      if i != j {
        StrideRoom(cs[i]);
        WordKept(m, m2, cs[i].at + 4);
        WordKept(m, m2, cs[i].at + 16);
      }
    }
  }

  lemma HalfKept(m: seq<byte>, m2: seq<byte>, at: nat)
    requires at + 2 <= |m| && SameInside(m, m2, at, at + 2)
    ensures Half(m2, at) == Half(m, at)
  {
  }

  lemma {:induction false} InOrder(m: seq<byte>, start: nat, cs: seq<Class>, i: nat, j: nat)
    requires Laid(m, start, cs) && i <= j < |cs|
    ensures start + MANAGER_HEADER <= cs[i].at && (i < j ==> End(cs[i]) <= cs[j].at)
    decreases j
  {
    hide Word, Half, Fixed;
    if i < j {
      InOrder(m, start, cs, i, j - 1);
      InOrder(m, start, cs, j - 1, j - 1);
      assert cs[j].at == End(cs[j - 1]);
    } else if j > 0 {
      InOrder(m, start, cs, j - 1, j - 1);
      assert cs[j].at == End(cs[j - 1]);
    }
  }

  /** No two classes overlap, and none reaches into the manager header. */
  lemma ClassesApart(m: seq<byte>, start: nat, cs: seq<Class>, j: nat)
    requires Laid(m, start, cs) && j < |cs|
    ensures start + MANAGER_HEADER <= cs[j].at < End(cs[j]) <= |m|
    ensures forall i :: 0 <= i < |cs| && i != j ==> End(cs[i]) <= cs[j].at || End(cs[j]) <= cs[i].at
  {
    hide Word, Half, Fixed;
    InOrder(m, start, cs, j, j);
    assert Fits(m, cs[j]);
    StrideRoom(cs[j]);
    forall i | 0 <= i < |cs| && i != j ensures End(cs[i]) <= cs[j].at || End(cs[j]) <= cs[i].at {
      InOrder(m, start, cs, if i < j then i else j, if i < j then j else i);
    }
  }

  /** The free lists of a memory, class by class. */
  ghost predicate FreeLists(m: seq<byte>, cs: seq<Class>, chs: seq<seq<nat>>)
  {
    |chs| == |cs| && forall i :: 0 <= i < |cs| ==> FreeList(m, cs[i], chs[i])
  }

  /** An operation on class `j` replaces its free list and no other. */
  lemma ListsKept(m: seq<byte>, m2: seq<byte>, start: nat, cs: seq<Class>, chs: seq<seq<nat>>, j: nat, ch: seq<nat>)
    requires Laid(m, start, cs) && FreeLists(m, cs, chs) && j < |cs|
    requires SameOutside(m, m2, cs[j].at, End(cs[j])) && FreeList(m2, cs[j], ch)
    ensures Laid(m2, start, cs) && FreeLists(m2, cs, chs[j := ch])
  {
    hide FreeList, Laid;
    FixedFree(m2, cs[j], ch);
    LaidKept(m, m2, start, cs, j);
    ClassesApart(m, start, cs, j);
    forall i | 0 <= i < |cs| ensures FreeList(m2, cs[i], chs[j := ch][i]) {
      if i != j {
        FreeListKept(m, m2, cs[i], chs[i]);
      }
    }
  }

  lemma FixedFree(m: seq<byte>, c: Class, ch: seq<nat>)
    requires FreeList(m, c, ch)
    ensures Fixed(m, c)
  {
  }

  lemma OnlySlotInside(m: seq<byte>, m2: seq<byte>, c: Class, k: nat)
    requires OnlySlot(m, m2, c, k) && k < c.num
    ensures SameOutside(m, m2, c.at, End(c))
  {
    SlotInside(c, k);
  }

  /** One process, the mapper or the creator, takes a slot of class `j` or returns its slot `k`. */
  datatype Op = Take(j: nat, mapper: bool) | Return(j: nat, k: nat, mapper: bool)

  /** The free lists after one operation; a pop of a last slot changes nothing. */
  function AfterOne(chs: seq<seq<nat>>, op: Op): seq<seq<nat>>
  {
    match op
    case Take(j, _) => if j < |chs| && |chs[j]| > 1 then chs[j := chs[j][1..]] else chs
    case Return(j, k, _) => if j < |chs| then chs[j := chs[j] + [k]] else chs
  }

  /** The free lists after a run of pops and pushes. */
  function After(chs: seq<seq<nat>>, ops: seq<Op>): seq<seq<nat>>
  {
    if ops == [] then chs else
      AfterOne(After(chs, ops[..|ops| - 1]), ops[|ops| - 1])
  }

  /** A push returns a slot of its class that is not free. */
  predicate ProperOp(cs: seq<Class>, chs: seq<seq<nat>>, op: Op)
  {
    && op.j < |cs|
    && (op.Return? ==> op.k < cs[op.j].num && op.j < |chs| && op.k !in chs[op.j])
  }

  predicate Proper(cs: seq<Class>, chs: seq<seq<nat>>, ops: seq<Op>)
  {
    forall i :: 0 <= i < |ops| ==> ProperOp(cs, After(chs, ops[..i]), ops[i])
  }

  /** What one operation adds to a process's counter for class `j`: a pop that gives a slot adds one. */
  function Moves(chs: seq<seq<nat>>, op: Op, j: nat, mapper: bool): int
  {
    if op.j != j || op.mapper != mapper then 0
    else if op.Return? then -1
    else if j < |chs| && |chs[j]| > 1 then 1 else 0
  }

  /** How many more slots of class `j` a process took in a run than it returned. */
  function Net(chs: seq<seq<nat>>, ops: seq<Op>, j: nat, mapper: bool): int
  {
    if ops == [] then 0 else
      var init := ops[..|ops| - 1];
      Net(chs, init, j, mapper) + Moves(After(chs, init), ops[|ops| - 1], j, mapper)
  }

  /** Every counter has moved by what its process took and returned. */
  ghost predicate Tallied(m0: seq<byte>, m: seq<byte>, cs: seq<Class>, chs: seq<seq<nat>>, ops: seq<Op>)
  {
    forall j, mapper :: 0 <= j < |cs| ==> Counts(m0, m, cs[j], mapper, Net(chs, ops, j, mapper))
  }

  lemma TallyStart(m: seq<byte>, start: nat, cs: seq<Class>, chs: seq<seq<nat>>)
    requires Laid(m, start, cs)
    ensures Tallied(m, m, cs, chs, [])
  {
    hide Word, Half, Counts;
    forall j, mapper | 0 <= j < |cs| ensures Counts(m, m, cs[j], mapper, Net(chs, [], j, mapper)) {
      assert Fixed(m, cs[j]);
      CountsSame(m, m, cs[j], mapper);
    }
  }

  /** An operation on class `op.j` moves one counter of that class and none of another. */
  lemma TallyNext(m0: seq<byte>, m: seq<byte>, m2: seq<byte>, start: nat, cs: seq<Class>, chs: seq<seq<nat>>,
                  ops: seq<Op>, op: Op)
    requires Laid(m, start, cs) && op.j < |cs| && Tallied(m0, m, cs, chs, ops)
    requires SameOutside(m, m2, cs[op.j].at, End(cs[op.j]))
    requires Counts(m, m2, cs[op.j], op.mapper, Moves(After(chs, ops), op, op.j, op.mapper))
    requires Counts(m, m2, cs[op.j], !op.mapper, 0)
    ensures Tallied(m0, m2, cs, chs, ops + [op])
  {
    hide Laid, Counts, After, CounterAt, Word;
    var all := ops + [op];
    assert all[..|all| - 1] == ops;
    ClassesApart(m, start, cs, op.j);
    forall j, mapper | 0 <= j < |cs| ensures Counts(m0, m2, cs[j], mapper, Net(chs, all, j, mapper)) {
      var d := Moves(After(chs, ops), op, j, mapper);
      if j != op.j {
        CountsElsewhere(m, m2, start, cs, j, op.j, mapper);
      }
      CountsAdd(m0, m, m2, cs[j], mapper, Net(chs, ops, j, mapper), d);
    }
  }

  lemma CountsElsewhere(m: seq<byte>, m2: seq<byte>, start: nat, cs: seq<Class>, j: nat, k: nat, mapper: bool)
    requires Laid(m, start, cs) && j < |cs| && k < |cs| && j != k && SameOutside(m, m2, cs[k].at, End(cs[k]))
    ensures Counts(m, m2, cs[j], mapper, 0)
  {
    hide Word, Half, Counts;
    ClassesApart(m, start, cs, k);
    assert Fixed(m, cs[j]) && Fits(m, cs[j]);
    StrideRoom(cs[j]);
    CountsSame(m, m2, cs[j], mapper);
  }

  /** Slots are conserved: what left a free list is what the two processes took and did not return. */
  lemma {:induction false} Balance(cs: seq<Class>, chs: seq<seq<nat>>, ops: seq<Op>, j: nat)
    requires |chs| == |cs| && j < |cs| && Proper(cs, chs, ops)
    ensures |After(chs, ops)| == |chs|
    ensures |After(chs, ops)[j]| + Net(chs, ops, j, false) + Net(chs, ops, j, true) == |chs[j]|
    decreases |ops|
  {
    if ops != [] {
      var n := |ops| - 1;
      var init := ops[..n];
      forall i | 0 <= i < n ensures ProperOp(cs, After(chs, init[..i]), init[i]) {
        assert init[..i] == ops[..i] && ProperOp(cs, After(chs, ops[..i]), ops[i]);
      }
      Balance(cs, chs, init, j);
      assert ProperOp(cs, After(chs, init), ops[n]);
    }
  }

  /** One operation: the lists are what it makes of them, and one counter has moved. */
  ghost predicate Operated(m: seq<byte>, m2: seq<byte>, start: nat, cs: seq<Class>, chs: seq<seq<nat>>, op: Op)
    requires op.j < |cs|
  {
    && Laid(m2, start, cs) && FreeLists(m2, cs, AfterOne(chs, op)) && SameOutside(m, m2, cs[op.j].at, End(cs[op.j]))
    && Counts(m, m2, cs[op.j], op.mapper, Moves(chs, op, op.j, op.mapper)) && Counts(m, m2, cs[op.j], !op.mapper, 0)
  }

  method TakeOne(mem: array<byte>, start: nat, cs: seq<Class>, op: Op, ghost chs: seq<seq<nat>>)
    requires Laid(mem[..], start, cs) && FreeLists(mem[..], cs, chs) && op.Take? && op.j < |cs|
    modifies mem
    ensures Operated(old(mem[..]), mem[..], start, cs, chs, op)
  {
    hide Laid, FreeList, OnlySlot, SameOutside, Counts, Word;
    ghost var m, j := mem[..], op.j;
    FirstInside(m, cs[j], chs[j]);
    var r := Pop(mem, cs[op.j], op.mapper, chs[j]);
    OnlySlotInside(m, mem[..], cs[j], chs[j][0]);
    ListsKept(m, mem[..], start, cs, chs, j, if r.Some? then chs[j][1..] else chs[j]);
    assert chs[j := chs[j]] == chs;
  }

  method ReturnOne(mem: array<byte>, start: nat, cs: seq<Class>, op: Op, ghost chs: seq<seq<nat>>)
    requires Laid(mem[..], start, cs) && FreeLists(mem[..], cs, chs) && op.Return? && ProperOp(cs, chs, op)
    modifies mem
    ensures Operated(old(mem[..]), mem[..], start, cs, chs, op)
  {
    hide Laid, FreeList, SameOutside, Counts, Word;
    ghost var m, j := mem[..], op.j;
    Push(mem, cs[op.j], op.mapper, op.k, chs[j]);
    ListsKept(m, mem[..], start, cs, chs, j, chs[j] + [op.k]);
  }

  /** The state of a run after its first `n` operations. */
  ghost predicate RunTo(m0: seq<byte>, m: seq<byte>, start: nat, cs: seq<Class>, chs: seq<seq<nat>>, ops: seq<Op>)
  {
    Laid(m, start, cs) && FreeLists(m, cs, After(chs, ops)) && Tallied(m0, m, cs, chs, ops)
  }

  lemma RunToNext(m0: seq<byte>, m: seq<byte>, m2: seq<byte>, start: nat, cs: seq<Class>, chs: seq<seq<nat>>,
                  ops: seq<Op>, op: Op)
    requires RunTo(m0, m, start, cs, chs, ops) && op.j < |cs|
    requires Operated(m, m2, start, cs, After(chs, ops), op)
    ensures RunTo(m0, m2, start, cs, chs, ops + [op])
  {
    hide Laid, FreeLists, Tallied, Counts, SameOutside, Net;
    TallyNext(m0, m, m2, start, cs, chs, ops, op);
    assert (ops + [op])[..|ops|] == ops;
  }

  lemma RunToStart(m: seq<byte>, start: nat, cs: seq<Class>, chs: seq<seq<nat>>)
    requires Laid(m, start, cs) && FreeLists(m, cs, chs)
    ensures RunTo(m, m, start, cs, chs, [])
  {
    hide Laid, FreeLists, Tallied;
    TallyStart(m, start, cs, chs);
  }

  /**
   Any run of pops and pushes, by either process, on a memory that has just been laid out: the free
   lists are what the run makes of them, every counter is what its own process took and did not
   return, and the mapper finds exactly the creator's view.
   */
  method RunOps(mem: array<byte>, start: nat, cs: seq<Class>, ops: seq<Op>, ghost chs: seq<seq<nat>>)
    returns (views: seq<View>)
    requires Laid(mem[..], start, cs) && FreeLists(mem[..], cs, chs) && Proper(cs, chs, ops)
    modifies mem
    ensures Laid(mem[..], start, cs) && FreeLists(mem[..], cs, After(chs, ops))
    ensures Tallied(old(mem[..]), mem[..], cs, chs, ops)
    ensures |views| == |cs| && forall i :: 0 <= i < |cs| ==>
      cs[i].at + LIST_HEADER <= mem.Length && views[i] == Created(mem[..], cs[i])
  {
    hide Laid, FreeLists, Created, Word, Half, Tallied, Operated, After;
    ghost var m0 := mem[..];
    RunToStart(m0, start, cs, chs);
    for n := 0 to |ops|
      invariant RunTo(m0, mem[..], start, cs, chs, ops[..n])
    {
      ghost var m, now := mem[..], After(chs, ops[..n]);
      assert ProperOp(cs, now, ops[n]);
      match ops[n] {
        case Take(_, _) => TakeOne(mem, start, cs, ops[n], now);
        case Return(_, _, _) => ReturnOne(mem, start, cs, ops[n], now);
      }
      assert ops[..n + 1] == ops[..n] + [ops[n]];
      RunToNext(m0, m, mem[..], start, cs, chs, ops[..n], ops[n]);
    }
    assert ops[..|ops|] == ops;
    LaidStart(mem[..], start, cs);
    var ok, found := MapBufferManager(mem, start, cs);
    LaidFacts(mem[..], start, cs);
    views := found;
  }

  lemma FirstInside(m: seq<byte>, c: Class, ch: seq<nat>)
    requires FreeList(m, c, ch)
    ensures ch != [] && ch[0] < c.num
  {
    FreeFacts(m, c, ch);
  }

  lemma LaidStart(m: seq<byte>, start: nat, cs: seq<Class>)
    requires Laid(m, start, cs)
    ensures start + MANAGER_HEADER <= |m| < WORD_LIMIT
  {
  }

  // ---------- are all slots back? ----------

  /** What checkBufferReturned looks for in one class: as many free slots as slots, and its own counter at zero. */
  predicate LooksReturned(m: seq<byte>, c: Class, mapper: bool)
    requires c.at + LIST_HEADER <= |m|
  {
    Word(m, c.at) == Word(m, c.at + 4) && Word(m, CounterAt(c, mapper)) == 0
  }

  /** checkBufferReturned, by the creator or by the mapper. */
  method CheckReturned(mem: array<byte>, cs: seq<Class>, mapper: bool) returns (all: bool)
    requires forall i :: 0 <= i < |cs| ==> cs[i].at + LIST_HEADER <= mem.Length
    ensures all <==> forall i :: 0 <= i < |cs| ==> LooksReturned(mem[..], cs[i], mapper)
  {
    hide Word;
    for i := 0 to |cs|
      invariant forall j :: 0 <= j < i ==> LooksReturned(mem[..], cs[j], mapper)
    {
      var size := ReadWord(mem, cs[i].at);
      var cap := ReadWord(mem, cs[i].at + 4);
      if size != cap {
        assert !LooksReturned(mem[..], cs[i], mapper);
        return false;
      }
      var counter := ReadWord(mem, CounterAt(cs[i], mapper));
      if counter != 0 {
        assert !LooksReturned(mem[..], cs[i], mapper);
        return false;
      }
    }
    return true;
  }

  /** A memory as createBufferManager leaves a freshly mapped file: all slots free, all counters at zero. */
  ghost predicate Untaken(m: seq<byte>, start: nat, cs: seq<Class>, chs: seq<seq<nat>>)
  {
    && Laid(m, start, cs) && FreeLists(m, cs, chs)
    && forall j :: 0 <= j < |cs| ==> |chs[j]| == cs[j].num && Unused(m, cs[j])
  }

  predicate Unused(m: seq<byte>, c: Class)
  {
    c.at + LIST_HEADER <= |m| && Word(m, CounterAt(c, false)) == 0 == Word(m, CounterAt(c, true))
  }

  lemma CreatedUntaken(m0: seq<byte>, m: seq<byte>, start: nat, cs: seq<Class>)
    requires Laid(m, start, cs) && Built(m, cs, |cs|) && forall i :: 0 <= i < |cs| ==> Zeroed(m0, m, cs[i])
    requires forall i :: 0 <= i < |m0| ==> m0[i] == 0
    ensures Untaken(m, start, cs, seq(|cs|, i requires 0 <= i < |cs| => Iota(cs[i].num)))
  {
    hide FreeList, Laid;
    forall j | 0 <= j < |cs| ensures Unused(m, cs[j]) {
      assert Zeroed(m0, m, cs[j]);
    }
  }

  /**
   After any run from there, the check of a process succeeds exactly when every slot is back and
   that process has itself returned as many slots of each class as it took, up to the width of a
   word; and then the check of the other process succeeds too.
   */
  lemma ReturnedExactly(m0: seq<byte>, m: seq<byte>, start: nat, cs: seq<Class>, chs: seq<seq<nat>>, ops: seq<Op>,
                        j: nat, mapper: bool)
    requires Untaken(m0, start, cs, chs) && Proper(cs, chs, ops) && j < |cs|
    requires FreeLists(m, cs, After(chs, ops)) && Tallied(m0, m, cs, chs, ops)
    ensures cs[j].at + LIST_HEADER <= |m| && (LooksReturned(m, cs[j], mapper) <==>
      |After(chs, ops)[j]| == cs[j].num && Net(chs, ops, j, mapper) % WORD_LIMIT == 0)
    ensures LooksReturned(m, cs[j], mapper) <==> LooksReturned(m, cs[j], !mapper)
  {
    hide Laid, Word, After, Net, Proper, LinkOk, CapOk, Distinct;
    Balance(cs, chs, ops, j);
    assert Unused(m0, cs[j]) && FreeList(m, cs[j], After(chs, ops)[j]);
    assert Counts(m0, m, cs[j], false, Net(chs, ops, j, false));
    assert Counts(m0, m, cs[j], true, Net(chs, ops, j, true));
    Opposite(Net(chs, ops, j, false), Net(chs, ops, j, true));
  }

  lemma Opposite(x: int, y: int)
    ensures x + y == 0 ==> (x % WORD_LIMIT == 0 <==> y % WORD_LIMIT == 0)
  {
  }

  /** One process takes a slot and the other returns it. */
  function Passed(j: nat, k: nat, mapper: bool): seq<Op>
  {
    [Take(j, mapper), Return(j, k, !mapper)]
  }

  /**
   The check is not told by a slot that crosses over: one process takes a slot, the other reads it
   and gives it back. Every slot is free again, and the check of neither process succeeds.
   */
  lemma CrossedOver(m0: seq<byte>, m: seq<byte>, start: nat, cs: seq<Class>, chs: seq<seq<nat>>, j: nat, mapper: bool)
    requires Untaken(m0, start, cs, chs) && j < |cs| && cs[j].num > 1
    requires var ops := Passed(j, chs[j][0], mapper); FreeLists(m, cs, After(chs, ops)) && Tallied(m0, m, cs, chs, ops)
    ensures Proper(cs, chs, Passed(j, chs[j][0], mapper))
    ensures cs[j].at + LIST_HEADER <= |m| && Word(m, cs[j].at) == Word(m, cs[j].at + 4) == cs[j].num
    ensures !LooksReturned(m, cs[j], mapper) && !LooksReturned(m, cs[j], !mapper)
  {
    hide Laid, Word, LinkOk, CapOk, Distinct, After, Net, Proper, Tallied, LooksReturned;
    var ops := Passed(j, chs[j][0], mapper);
    FirstInside(m0, cs[j], chs[j]);
    DistinctFree(m0, cs[j], chs[j]);
    PassedOn(cs, chs, j, mapper);
    ReturnedExactly(m0, m, start, cs, chs, ops, j, mapper);
    assert FreeList(m, cs[j], After(chs, ops)[j]);
  }

  lemma DistinctFree(m: seq<byte>, c: Class, ch: seq<nat>)
    requires FreeList(m, c, ch)
    ensures Distinct(ch)
  {
  }

  lemma {:induction false} PassedOn(cs: seq<Class>, chs: seq<seq<nat>>, j: nat, mapper: bool)
    requires |chs| == |cs| && j < |cs| && |chs[j]| > 1 && chs[j][0] < cs[j].num && Distinct(chs[j])
    ensures var ops := Passed(j, chs[j][0], mapper);
      && Proper(cs, chs, ops) && |After(chs, ops)| == |chs| && |After(chs, ops)[j]| == |chs[j]|
      && Net(chs, ops, j, mapper) == 1
  {
    var k := chs[j][0];
    var ops := Passed(j, k, mapper);
    var one := ops[..1];
    assert ops[..0] == [] && one == [Take(j, mapper)] && one[..0] == [];
    assert After(chs, one) == chs[j := chs[j][1..]];
    assert ops[..|ops| - 1] == one;
    assert Net(chs, one, j, mapper) == 1;
    assert k !in chs[j][1..];
  }

  // ---------- reading a slot by its offset ----------

  /** The outcome of readBufferSlice: a reported error, a slice expression out of range, or the data region. */
  datatype Found = Broken | OutOfRange | Data(from: nat, to: nat)

  /** readBufferSlice: the bounds it checks, with the wrap-around of its 32-bit end offset. */
  method ReadSlice(mem: array<byte>, offset: nat) returns (r: Found)
    requires offset < WORD_LIMIT && mem.Length < WORD_LIMIT
    ensures offset + SLOT_HEADER >= mem.Length ==> r.Broken?
    ensures offset + SLOT_HEADER < mem.Length ==>
      var cap := Word(mem[..], offset);
      && (r.Data? <==> offset + SLOT_HEADER + cap <= mem.Length)
      && (r.Data? ==> r == Data(offset + SLOT_HEADER, offset + SLOT_HEADER + cap))
      && (r.OutOfRange? <==> offset + SLOT_HEADER + cap >= WORD_LIMIT)
  {
    if offset + SLOT_HEADER >= mem.Length {
      return Broken;
    }
    var cap := ReadWord(mem, offset);
    var end := (offset + SLOT_HEADER + cap) % WORD_LIMIT;
    if end > mem.Length {
      return Broken;
    }
    if end < offset + SLOT_HEADER {
      return OutOfRange;
    }
    return Data(offset + SLOT_HEADER, end);
  }

  /** In a memory that a run has left, the offset of any slot, free or in use, gives exactly its own data bytes. */
  lemma SlotFound(m: seq<byte>, cs: seq<Class>, chs: seq<seq<nat>>, j: nat, k: nat)
    requires FreeLists(m, cs, chs) && j < |cs| && k < cs[j].num
    ensures var at := SlotAt(cs[j], k);
      at + SLOT_HEADER < |m| < WORD_LIMIT && Word(m, at) == cs[j].per && at + SLOT_HEADER + Word(m, at) <= |m|
      && at + SLOT_HEADER + Word(m, at) <= End(cs[j])
  {
    hide LinkOk, Word, Distinct, Offset;
    assert FreeList(m, cs[j], chs[j]) && CapOk(m, cs[j], k);
    SlotInside(cs[j], k);
  }
}
