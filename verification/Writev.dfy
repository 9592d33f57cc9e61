/**
 Vectored writes: byte strings are submitted in batches of at most 256 vectors, and the kernel may
 take any number of bytes of a batch, stop in the middle of a vector, ask to try again, or fail.
 */
module Writev {
  import opened Bytes

  const MAX_VECTORS: nat := 256

  /** How one round goes: the kernel takes up to `n` bytes, asks for another try, fails, or the connection is closed. */
  datatype Answer = Wrote(n: nat) | Again | Fail | Closed

  datatype Result =
    | Done
    | Error
    | Blocked                     // no further answer has come yet
    | Panic                       // the first byte of an empty byte string was asked for

  /** One of the byte strings of a batch is empty. */
  predicate HasEmpty(data: seq<seq<byte>>, n: nat)
    requires n <= |data|
  {
    exists i :: 0 <= i < n && data[i] == []
  }

  function BatchSize(data: seq<seq<byte>>): nat
  {
    if |data| < MAX_VECTORS then |data| else MAX_VECTORS
  }

  /** How many of `total` bytes are on the wire after some answers. */
  function Progress(answers: seq<Answer>, total: nat): (r: nat)
    ensures r <= total
  {
    if answers == [] then 0
    else
      var a, before := answers[|answers| - 1], Progress(answers[..|answers| - 1], total);
      if a.Wrote? && before + a.n < total then before + a.n
      else if a.Wrote? then total
      else before
  }

  lemma NoAnswer(total: nat)
    ensures Progress([], total) == 0
  {
  }

  lemma NextAnswer(answers: seq<Answer>, used: nat, total: nat)
    requires used < |answers|
    ensures Progress(answers[..used + 1], total) ==
      var before := Progress(answers[..used], total);
      if !answers[used].Wrote? then before
      else if before + answers[used].n < total then before + answers[used].n
      else total
  {
    assert answers[..used + 1][..used] == answers[..used];
  }

  /** A submitted vector: `len` bytes of its byte string, from `from` on. */
  datatype Iovec = Iovec(from: nat, len: nat)

  /** Vector `i` stands for the unwritten end of data[i]. */
  predicate Covers(data: seq<seq<byte>>, ivs: seq<Iovec>, i: nat)
    requires i < |data| && i < |ivs|
  {
    ivs[i].from < |data[i]| && ivs[i].len == |data[i]| - ivs[i].from
  }

  ghost predicate Matches(data: seq<seq<byte>>, ivs: seq<Iovec>, v: nat, n: nat)
  {
    v <= n <= |data| && n <= |ivs| && forall i :: v <= i < n ==> Covers(data, ivs, i)
  }

  /** What the vectors from `v` to `n` still have to write. */
  ghost function Left(data: seq<seq<byte>>, ivs: seq<Iovec>, v: nat, n: nat): seq<byte>
    requires Matches(data, ivs, v, n)
    decreases n - v
  {
    if v == n then [] else
      assert Covers(data, ivs, v);
      data[v][ivs[v].from..] + Left(data, ivs, v + 1, n)
  }

  /** Nothing behind a vector changes when that vector is cut. */
  lemma {:induction false} LeftFrame(data: seq<seq<byte>>, ivs: seq<Iovec>, ivs2: seq<Iovec>, v: nat, n: nat)
    requires Matches(data, ivs, v, n) && Matches(data, ivs2, v, n) && forall i :: v <= i < n ==> ivs2[i] == ivs[i]
    ensures Left(data, ivs2, v, n) == Left(data, ivs, v, n)
    decreases n - v
  {
    if v < n {
      LeftFrame(data, ivs, ivs2, v + 1, n);
    }
  }

  lemma {:induction false} LeftAll(data: seq<seq<byte>>, ivs: seq<Iovec>, v: nat, n: nat)
    requires Matches(data, ivs, v, n) && forall i :: v <= i < n ==> ivs[i].from == 0
    ensures Left(data, ivs, v, n) == Concat(data[v..n])
    decreases n - v
  {
    if v < n {
      LeftAll(data, ivs, v + 1, n);
      assert data[v..n][1..] == data[v + 1..n] && data[v][0..] == data[v];
    }
  }

  class Conn {
    const iovecs: array<Iovec>
    var wire: seq<byte>

    ghost predicate Valid()
    {
      iovecs.Length == MAX_VECTORS
    }

    constructor ()
      ensures Valid() && wire == [] && fresh(iovecs)
    {
      iovecs := new Iovec[MAX_VECTORS](_ => Iovec(0, 0));
      wire := [];
    }

    /** The acknowledgement loop: `written` bytes of the vectors from `v` on are done. */
    method Ack(data: seq<seq<byte>>, v0: nat, n: nat, written: nat) returns (v: nat)
      requires Valid() && Matches(data, iovecs[..], v0, n) && written <= |Left(data, iovecs[..], v0, n)|
      modifies iovecs
      ensures v0 <= v <= n && Matches(data, iovecs[..], v, n)
      ensures Left(data, iovecs[..], v, n) == old(Left(data, iovecs[..], v0, n))[written..]
    {
      hide Left;
      v := v0;
      var size: nat := written;
      ghost var all := Left(data, iovecs[..], v, n);
      assert all[0..] == all;
      while size > 0
        invariant v0 <= v <= n && Matches(data, iovecs[..], v, n) && size <= written <= |all|
        invariant iovecs[..] == old(iovecs[..])
        invariant Left(data, iovecs[..], v, n) == all[written - size..]
        decreases size
      {
        ghost var ivs := iovecs[..];
        Unfolded(data, ivs, v, n);
        ghost var k := written - size;
        if size >= iovecs[v].len {
          assert Left(data, ivs, v + 1, n) == all[k..][ivs[v].len..];
          size := size - iovecs[v].len;
          v := v + 1;
        } else {
          var len := iovecs[v].len - size;
          iovecs[v] := Iovec(|data[v]| - len, len);
          assert iovecs[..] == ivs[v := Iovec(|data[v]| - len, len)];
          CutVector(data, ivs, v, n, size);
          assert all[k..][size..] == all[written..];
          return;
        }
      }
    }

    /** The loop that sets up the vectors of a batch; it asks every byte string for its first byte. */
    method Submit(data: seq<seq<byte>>) returns (ok: bool)
      requires Valid()
      modifies iovecs
      ensures !ok <==> HasEmpty(data, BatchSize(data))
      ensures ok ==> Matches(data, iovecs[..], 0, BatchSize(data))
      ensures ok ==> Left(data, iovecs[..], 0, BatchSize(data)) == Concat(data[..BatchSize(data)])
    {
      hide Left, Concat;
      var batch := 0;
      while batch < |data| && batch < MAX_VECTORS
        invariant batch <= |data| && batch <= MAX_VECTORS && Matches(data, iovecs[..], 0, batch)
        invariant forall i :: 0 <= i < batch ==> iovecs[i].from == 0 && data[i] != []
      {
        ghost var ivs := iovecs[..];
        if data[batch] == [] {
          return false;
        }
        iovecs[batch] := Iovec(0, |data[batch]|);
        forall i | 0 <= i < batch + 1 ensures Covers(data, iovecs[..], i) {
          assert i < batch ==> Covers(data, ivs, i) && iovecs[i] == ivs[i];
        }
        batch := batch + 1;
      }
      LeftAll(data, iovecs[..], 0, batch);
      assert data[0..batch] == data[..batch];
      ok := true;
    }

    /**
     doWritev: submits the first vectors and goes on until the kernel has taken all of them. A batch
     with an empty byte string is not submitted.
     */
    method DoWritev(data: seq<seq<byte>>, answers: seq<Answer>) returns (r: Result, batch: nat, used: nat)
      requires Valid() && data != []
      modifies this`wire, iovecs
      ensures batch == BatchSize(data) && used <= |answers|
      ensures r == Panic <==> HasEmpty(data, batch)
      ensures r == Panic ==> wire == old(wire) && used == 0
      ensures old(wire) <= wire && wire[|old(wire)|..] <= Concat(data[..batch])
      ensures r != Panic ==> (r == Done <==> wire == old(wire) + Concat(data[..batch]))
      ensures r != Panic ==> |wire| == |old(wire)| + Progress(answers[..used], |Concat(data[..batch])|)
      ensures r == Blocked ==> used == |answers|
      ensures r == Error ==> used > 0 && (answers[used - 1].Fail? || answers[used - 1].Closed?)
      ensures r == Done ==> used > 0 && Progress(answers[..used - 1], |Concat(data[..batch])|) < |Concat(data[..batch])|
      ensures forall j :: 0 <= j < (if r == Error then used - 1 else used) ==> answers[j].Wrote? || answers[j].Again?
    {
      hide Left, Concat, Progress;
      batch := BatchSize(data);
      used := 0;
      var ok := Submit(data);
      if !ok {
        NothingSent(wire, Concat(data[..batch]));
        return Panic, batch, 0;
      }
      var n, v := batch, 0;
      ghost var all := Concat(data[..batch]);
      assert old(wire) + all == wire + Left(data, iovecs[..], 0, n);
      assert answers[..0] == [] && Progress([], |all|) == 0 by { NoAnswer(|all|); }
      while v < n
        invariant v <= n && Matches(data, iovecs[..], v, n) && used <= |answers|
        invariant old(wire) + all == wire + Left(data, iovecs[..], v, n) && old(wire) <= wire
        invariant |wire| == |old(wire)| + Progress(answers[..used], |all|)
        invariant v == n ==> used > 0 && Progress(answers[..used - 1], |all|) < |all|
        invariant forall j :: 0 <= j < used ==> answers[j].Wrote? || answers[j].Again?
        decreases |answers| - used
      {
        Unfolded(data, iovecs[..], v, n);
        Prefix(old(wire), all, wire, Left(data, iovecs[..], v, n));
        if used == |answers| {
          return Blocked, batch, used;
        }
        var a := answers[used];
        NextAnswer(answers, used, |all|);
        used := used + 1;
        match a {
          case Closed => return Error, batch, used;
          case Fail => return Error, batch, used;
          case Again =>
          case Wrote(m) =>
            v := WriteSome(data, v, n, m);
        }
      }
      NothingLeft(data, iovecs[..], n);
      Prefix(old(wire), all, wire, []);
      r := Done;
    }

    /** The kernel takes `m` bytes of the vectors from `v0` on, or all of them, and they are acknowledged. */
    method WriteSome(data: seq<seq<byte>>, v0: nat, n: nat, m: nat) returns (v: nat)
      requires Valid() && Matches(data, iovecs[..], v0, n)
      modifies this`wire, iovecs
      ensures v0 <= v <= n && Matches(data, iovecs[..], v, n) && old(wire) <= wire
      ensures wire + Left(data, iovecs[..], v, n) == old(wire + Left(data, iovecs[..], v0, n))
      ensures var left := old(|Left(data, iovecs[..], v0, n)|); |wire| == |old(wire)| + if m < left then m else left
    {
      hide Left;
      var bytes := Gather(data, v0, n);
      var k := if m < |bytes| then m else |bytes|;
      ghost var before := wire;
      wire := wire + bytes[..k];
      assert before + bytes == wire + bytes[k..];
      v := Ack(data, v0, n, k);
    }

    /** The bytes the kernel sees in the vectors from `v` on. */
    method Gather(data: seq<seq<byte>>, v: nat, n: nat) returns (bytes: seq<byte>)
      requires Valid() && Matches(data, iovecs[..], v, n)
      ensures bytes == Left(data, iovecs[..], v, n)
    {
      bytes := [];
      var i := n;
      while i > v
        invariant v <= i <= n && bytes == Left(data, iovecs[..], i, n)
      {
        i := i - 1;
        assert Covers(data, iovecs[..], i);
        bytes := data[i][iovecs[i].from..] + bytes;
      }
    }

    /**
     writev: batch after batch. On success exactly the concatenation of the inputs is on the wire;
     otherwise a prefix of it. It panics only at a batch with an empty byte string, with exactly the
     batches before it on the wire.
     */
    method Write(data: seq<seq<byte>>, answers: seq<Answer>) returns (r: Result)
      requires Valid()
      modifies this`wire, iovecs
      ensures old(wire) <= wire && wire[|old(wire)|..] <= Concat(data)
      ensures r != Panic ==> (r == Done <==> wire == old(wire) + Concat(data))
      ensures r == Done ==> !HasEmpty(data, |data|)
      ensures r == Panic ==> exists n: nat :: EmptyBatch(data, n) && wire == old(wire) + Concat(data[..n])
    {
      hide Concat;
      var rest, at := data, 0;
      ghost var sent: seq<seq<byte>> := [];
      NoParts();
      while rest != []
        invariant data == sent + rest && 0 <= at <= |answers| && wire == old(wire) + Concat(sent)
        invariant (|sent| % MAX_VECTORS == 0 || rest == []) && !HasEmpty(sent, |sent|)
        decreases |rest|
      {
        ghost var was := wire;
        var how, n, used := DoWritev(rest, answers[at..]);
        ghost var batch := rest[..n];
        Cut(sent, rest, n);
        if how == Panic {
          assert EmptyBatch(data, |sent|) by { StopsHere(sent, rest); }
          assert data[..|sent|] == sent;
          PanicPrefix(old(wire), Concat(sent), Concat(batch), Concat(rest[n..]), wire);
          return how;
        }
        if how != Done {
          Partial(old(wire), Concat(sent), Concat(batch), Concat(rest[n..]), wire);
          return how;
        }
        assert (old(wire) + Concat(sent)) + Concat(batch) == old(wire) + (Concat(sent) + Concat(batch));
        assert forall i :: 0 <= i < |sent + batch| ==> (sent + batch)[i] != [];
        sent, rest, at := sent + batch, rest[n..], at + used;
      }
      assert sent + [] == sent;
      r := Done;
    }
  }

  /** The batch that starts at `n`, after whole batches, has an empty byte string. */
  ghost predicate EmptyBatch(data: seq<seq<byte>>, n: nat)
  {
    n <= |data| && n % MAX_VECTORS == 0 && HasEmpty(data[n..], BatchSize(data[n..]))
  }

  lemma StopsHere(sent: seq<seq<byte>>, rest: seq<seq<byte>>)
    requires |sent| % MAX_VECTORS == 0 && HasEmpty(rest, BatchSize(rest))
    ensures EmptyBatch(sent + rest, |sent|)
  {
    assert (sent + rest)[|sent|..] == rest;
  }

  lemma PanicPrefix(old_: seq<byte>, a: seq<byte>, b: seq<byte>, c: seq<byte>, wire: seq<byte>)
    requires wire == old_ + a
    ensures old_ <= wire && wire[|old_|..] <= (a + b) + c
  {
    assert wire[|old_|..] == a;
  }

  lemma NothingSent(wire: seq<byte>, all: seq<byte>)
    ensures wire[|wire|..] <= all
  {
  }

  lemma NoParts()
    ensures Concat([]) == []
  {
  }

  lemma Unfolded(data: seq<seq<byte>>, ivs: seq<Iovec>, v: nat, n: nat)
    requires Matches(data, ivs, v, n)
    ensures v < n ==> Covers(data, ivs, v) && Matches(data, ivs, v + 1, n) && |data[v][ivs[v].from..]| == ivs[v].len > 0
    ensures v < n ==> Left(data, ivs, v, n) == data[v][ivs[v].from..] + Left(data, ivs, v + 1, n)
    ensures v == n ==> Left(data, ivs, v, n) == []
  {
  }

  /** A write that stops inside vector `v`, after `size` of its bytes. */
  lemma CutVector(data: seq<seq<byte>>, ivs: seq<Iovec>, v: nat, n: nat, size: nat)
    requires Matches(data, ivs, v, n) && v < n && Covers(data, ivs, v) && size < ivs[v].len
    ensures size <= |Left(data, ivs, v, n)|
    ensures var ivs2 := ivs[v := Iovec(|data[v]| - (ivs[v].len - size), ivs[v].len - size)];
      Matches(data, ivs2, v, n) && Left(data, ivs2, v, n) == Left(data, ivs, v, n)[size..]
  {
    hide Left;
    var ivs2 := ivs[v := Iovec(|data[v]| - (ivs[v].len - size), ivs[v].len - size)];
    forall i | v <= i < n ensures Covers(data, ivs2, i) {
      assert Covers(data, ivs, i);
    }
    Unfolded(data, ivs, v, n);
    Unfolded(data, ivs2, v, n);
    LeftFrame(data, ivs, ivs2, v + 1, n);
    CutFront(data[v], ivs[v].from, size, Left(data, ivs, v + 1, n));
  }

  lemma CutFront(d: seq<byte>, from: nat, size: nat, rest: seq<byte>)
    requires from + size <= |d|
    ensures (d[from..] + rest)[size..] == d[from + size..] + rest
  {
  }

  lemma NothingLeft(data: seq<seq<byte>>, ivs: seq<Iovec>, n: nat)
    requires Matches(data, ivs, n, n)
    ensures Left(data, ivs, n, n) == []
  {
  }

  lemma Prefix(old_: seq<byte>, all: seq<byte>, wire: seq<byte>, left: seq<byte>)
    requires old_ + all == wire + left && old_ <= wire
    ensures wire[|old_|..] <= all && (wire == old_ + all <==> left == [])
  {
    assert wire[|old_|..] == all[..|wire| - |old_|] by {
      forall i | 0 <= i < |wire| - |old_| ensures wire[|old_| + i] == all[i] {
        assert (old_ + all)[|old_| + i] == (wire + left)[|old_| + i];
      }
    }
  }

  lemma Cut(sent: seq<seq<byte>>, rest: seq<seq<byte>>, n: nat)
    requires n <= |rest|
    ensures Concat(sent + rest[..n]) == Concat(sent) + Concat(rest[..n])
    ensures sent + rest == (sent + rest[..n]) + rest[n..]
    ensures Concat(sent + rest) == (Concat(sent) + Concat(rest[..n])) + Concat(rest[n..])
  {
    hide Concat;
    var front, back := rest[..n], rest[n..];
    assert rest == front + back;
    ConcatAppend(sent, front);
    ConcatAppend(sent + front, back);
    assert sent + (front + back) == (sent + front) + back;
  }

  lemma Partial(old_: seq<byte>, a: seq<byte>, b: seq<byte>, c: seq<byte>, wire: seq<byte>)
    requires old_ + a <= wire && wire[|old_ + a|..] <= b && wire != (old_ + a) + b
    ensures old_ <= wire && wire[|old_|..] <= (a + b) + c && wire != old_ + ((a + b) + c)
  {
    var x := wire[|old_ + a|..];
    assert wire == (old_ + a) + x;
    assert wire[|old_|..] == a + x;
    assert x == b[..|x|] && |x| < |b|;
    assert ((a + b) + c)[..|a + x|] == a + x;
  }
}
