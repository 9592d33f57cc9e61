/**
 Frames on the socket: an eight-byte header (length, magic number, version, type; big-endian) and a
 body. The parser takes whole frames off the front of whatever bytes are there; the reader keeps
 the rest in a buffer that doubles, compacts and shrinks.
 */
module Framing {
  import opened Bytes

  const HEADER: nat := 8
  const MAGIC: nat := 0x7758

  datatype Event =
    | Polling
    | StreamClose(id: nat)
    | FallbackData(seqId: nat, status: nat, payload: seq<byte>)
    | HotRestart(epoch: nat)
    | HotRestartAck(epoch: nat)

  function Type(e: Event): nat
  {
    match e
    case Polling => 1
    case StreamClose(_) => 2
    case FallbackData(_, _, _) => 3
    case HotRestart(_) => 8
    case HotRestartAck(_) => 9
  }

  // ---------- numbers ----------

  function Byte(v: nat, scale: nat): byte
    requires scale > 0
  {
    (v / scale % 256) as byte
  }

  function Put16(v: nat): (r: seq<byte>)
    ensures |r| == 2
  {
    [Byte(v, 256), Byte(v, 1)]
  }

  function Put32(v: nat): (r: seq<byte>)
    ensures |r| == 4
  {
    [Byte(v, 16777216), Byte(v, 65536), Byte(v, 256), Byte(v, 1)]
  }

  function Put64(v: nat): (r: seq<byte>)
    ensures |r| == 8
  {
    Put32(v / WORD_LIMIT) + Put32(v % WORD_LIMIT)
  }

  function Get16(b: seq<byte>): nat
    requires |b| >= 2
  {
    256 * b[0] as nat + b[1] as nat
  }

  function Get32(b: seq<byte>): (r: nat)
    requires |b| >= 4
    ensures r < WORD_LIMIT
  {
    16777216 * b[0] as nat + 65536 * b[1] as nat + 256 * b[2] as nat + b[3] as nat
  }

  function Get64(b: seq<byte>): nat
    requires |b| >= 8
  {
    WORD_LIMIT * Get32(b) + Get32(b[4..])
  }

  lemma Word32(v: nat, rest: seq<byte>)
    requires v < WORD_LIMIT
    ensures Get32(Put32(v) + rest) == v
  {
    assert v == 256 * (v / 256) + v % 256;
    assert v / 256 == 256 * (v / 65536) + v / 256 % 256;
    assert v / 65536 == 256 * (v / 16777216) + v / 65536 % 256;
    assert v / 16777216 % 256 == v / 16777216;
  }

  lemma Word32Back(b: seq<byte>)
    requires |b| >= 4
    ensures Put32(Get32(b)) == b[..4]
  {
    Digits(b[0] as nat, b[1] as nat, b[2] as nat, b[3] as nat);
    assert Put32(Get32(b)) == [b[0], b[1], b[2], b[3]] == b[..4];
  }

  lemma Digits(w: nat, x: nat, y: nat, z: nat)
    requires w < 256 && x < 256 && y < 256 && z < 256
    ensures var v := 16777216 * w + 65536 * x + 256 * y + z;
      v % 256 == z && v / 256 % 256 == y && v / 65536 % 256 == x && v / 16777216 % 256 == w
  {
    var v := 16777216 * w + 65536 * x + 256 * y + z;
    assert v / 256 == 65536 * w + 256 * x + y;
    assert v / 65536 == 256 * w + x;
    assert v / 16777216 == w;
  }

  lemma Word64Back(b: seq<byte>)
    requires |b| >= 8
    ensures Put64(Get64(b)) == b[..8] && Get64(b) < WORD_LIMIT * WORD_LIMIT
  {
    hide Put32, Get32;
    var hi, lo := Get32(b), Get32(b[4..]);
    assert (WORD_LIMIT * hi + lo) / WORD_LIMIT == hi && (WORD_LIMIT * hi + lo) % WORD_LIMIT == lo;
    Word32Back(b);
    Word32Back(b[4..]);
    assert b[..8] == b[..4] + b[4..][..4];
  }

  lemma Word64(v: nat, rest: seq<byte>)
    requires v < WORD_LIMIT * WORD_LIMIT
    ensures Get64(Put64(v) + rest) == v
  {
    var hi, lo := Put32(v / WORD_LIMIT), Put32(v % WORD_LIMIT);
    assert Put64(v) + rest == hi + (lo + rest) && (Put64(v) + rest)[4..] == lo + rest;
    Word32(v / WORD_LIMIT, lo + rest);
    Word32(v % WORD_LIMIT, rest);
  }

  // ---------- encoding ----------

  function Header(length: nat, version: nat, kind: nat): (r: seq<byte>)
    ensures |r| == HEADER
  {
    Put32(length) + Put16(MAGIC) + [Byte(version, 1), Byte(kind, 1)]
  }

  function Body(e: Event): seq<byte>
  {
    match e
    case Polling => []
    case StreamClose(id) => Put32(id)
    case FallbackData(seqId, status, payload) => Put32(seqId) + Put32(status) + payload
    case HotRestart(epoch) => Put64(epoch)
    case HotRestartAck(epoch) => Put64(epoch)
  }

  function Encode(version: nat, e: Event): seq<byte>
  {
    Header(HEADER + |Body(e)|, version, Type(e)) + Body(e)
  }

  /** What the fields of an event can hold. */
  predicate Encodable(e: Event)
  {
    match e
    case Polling => true
    case StreamClose(id) => id < WORD_LIMIT
    case FallbackData(seqId, status, payload) => seqId < WORD_LIMIT && status < WORD_LIMIT
      && HEADER + 8 + |payload| < WORD_LIMIT
    case HotRestart(epoch) => epoch < WORD_LIMIT * WORD_LIMIT
    case HotRestartAck(epoch) => epoch < WORD_LIMIT * WORD_LIMIT
  }

  /** What the receiver makes of an event: it keeps only the low byte of the status. */
  function Received(e: Event): Event
  {
    if e.FallbackData? then e.(status := e.status % 256) else e
  }

  // ---------- parsing ----------

  datatype One =
    | NeedMore              // the frame is not complete yet
    | Got(e: Event, n: nat) // an event and the bytes it took
    | Invalid               // wrong magic number, version or type
    | Broken                // a fallback frame too short for its own fields: the reader panics

  function Fallback(buf: seq<byte>): One
    requires |buf| >= HEADER
  {
    var length := Get32(buf);
    var rest := buf[HEADER..];
    if |rest| < length - HEADER then NeedMore
    else if length < HEADER + 8 then Broken
    else Got(FallbackData(Get32(rest), Get32(rest[4..]) % 256, rest[8..length - HEADER]), length)
  }

  /** One round of handleEvents. */
  function ParseOne(buf: seq<byte>): (r: One)
    ensures r.Got? ==> HEADER <= r.n <= |buf|
  {
    if |buf| < HEADER then NeedMore
    else if Get16(buf[4..]) != MAGIC || buf[6] == 0 then Invalid
    else
      var kind, rest := buf[7] as nat, buf[HEADER..];
      if kind == 1 then Got(Polling, HEADER)
      else if kind == 2 then (if |rest| < 4 then NeedMore else Got(StreamClose(Get32(rest)), HEADER + 4))
      else if kind == 3 then Fallback(buf)
      else if kind == 8 then (if |rest| < 8 then NeedMore else Got(HotRestart(Get64(rest)), HEADER + 8))
      else if kind == 9 then (if |rest| < 8 then NeedMore else Got(HotRestartAck(Get64(rest)), HEADER + 8))
      else Invalid
  }

  datatype End = Waiting | Failed | Panicked

  datatype Parsed = Parsed(events: seq<Event>, consumed: nat, end: End)

  /** handleEvents: all the events at the front of `buf`, and how it ended. */
  function Parse(buf: seq<byte>): (r: Parsed)
    ensures r.consumed <= |buf|
    decreases |buf|
  {
    match ParseOne(buf)
    case NeedMore => Parsed([], 0, Waiting)
    case Invalid => Parsed([], HEADER, Failed)
    case Broken => Parsed([], 0, Panicked)
    case Got(e, n) =>
      var r := Parse(buf[n..]);
      Parsed([e] + r.events, n + r.consumed, r.end)
  }

  /** The loop itself. */
  method HandleEvents(buf: seq<byte>) returns (events: seq<Event>, consumed: nat, end: End)
    ensures Parsed(events, consumed, end) == Parse(buf)
  {
    hide Parse, ParseOne;
    events, consumed, end := [], 0, Waiting;
    assert buf[0..] == buf;
    while |buf[consumed..]| >= HEADER
      invariant consumed <= |buf| && end == Waiting
      invariant Parse(buf) == Then(events, consumed, Parse(buf[consumed..]))
      decreases |buf| - consumed
    {
      ParseRound(events, consumed, buf);
      match ParseOne(buf[consumed..]) {
        case Invalid =>
          return events, consumed + HEADER, Failed;
        case Broken =>
          return events, consumed, Panicked;
        case NeedMore =>
          return events, consumed, Waiting;
        case Got(e, n) =>
          events, consumed := events + [e], consumed + n;
      }
    }
    TooShort(buf[consumed..]);
  }

  lemma TooShort(buf: seq<byte>)
    requires |buf| < HEADER
    ensures Parse(buf) == Parsed([], 0, Waiting)
  {
  }

  /** What one round of the loop adds to the result. */
  lemma ParseRound(events: seq<Event>, consumed: nat, buf: seq<byte>)
    requires consumed <= |buf|
    ensures match ParseOne(buf[consumed..])
      case NeedMore => Then(events, consumed, Parse(buf[consumed..])) == Parsed(events, consumed, Waiting)
      case Invalid => Then(events, consumed, Parse(buf[consumed..])) == Parsed(events, consumed + HEADER, Failed)
      case Broken => Then(events, consumed, Parse(buf[consumed..])) == Parsed(events, consumed, Panicked)
      case Got(e, n) =>
        && 0 < n <= |buf| - consumed
        && Then(events, consumed, Parse(buf[consumed..])) ==
          Then(events + [e], consumed + n, Parse(buf[consumed + n..]))
  {
    hide ParseOne;
    var rest := buf[consumed..];
    match ParseOne(rest) {
      case Got(e, n) =>
        assert rest[n..] == buf[consumed + n..];
        assert events + ([e] + Parse(rest[n..]).events) == (events + [e]) + Parse(rest[n..]).events;
      case _ =>
    }
  }

  function Then(events: seq<Event>, consumed: nat, r: Parsed): Parsed
  {
    Parsed(events + r.events, consumed + r.consumed, r.end)
  }

  // ---------- cutting the stream ----------

  /** More bytes do not change a verdict that has been reached. */
  lemma OneStable(a: seq<byte>, b: seq<byte>)
    requires !ParseOne(a).NeedMore?
    ensures ParseOne(a + b) == ParseOne(a)
  {
    var c := a + b;
    assert c[4..] == a[4..] + b && c[HEADER..] == a[HEADER..] + b;
    assert Get16(c[4..]) == Get16(a[4..]);
    if a[7] == 3 && Get16(a[4..]) == MAGIC && a[6] != 0 {
      FallbackStable(a, b);
    } else if |a[HEADER..]| >= 8 {
      assert c[HEADER..][4..] == a[HEADER..][4..] + b;
    }
  }

  lemma FallbackStable(a: seq<byte>, b: seq<byte>)
    requires |a| >= HEADER && !Fallback(a).NeedMore?
    ensures Fallback(a + b) == Fallback(a)
  {
    var c := a + b;
    var length, x, y := Get32(a), a[HEADER..], c[HEADER..];
    assert Get32(c) == length && y == x + b;
    if length >= HEADER + 8 {
      assert y[8..length - HEADER] == x[8..length - HEADER];
      assert Get32(y) == Get32(x) && Get32(y[4..]) == Get32(x[4..]);
    }
  }

  /** Parsing what is there and then the rest with what comes is parsing it all at once. */
  lemma {:induction false} CutAnywhere(a: seq<byte>, b: seq<byte>)
    ensures Parse(a).end == Waiting ==>
      Parse(a + b) == Then(Parse(a).events, Parse(a).consumed, Parse(a[Parse(a).consumed..] + b))
    ensures Parse(a).end != Waiting ==> Parse(a + b) == Parse(a)
    decreases |a|
  {
    hide ParseOne;
    var one := ParseOne(a);
    if one.NeedMore? {
      assert a[0..] == a;
      assert [] + Parse(a + b).events == Parse(a + b).events;
    } else {
      OneStable(a, b);
      if one.Got? {
        var n, rest := one.n, a[one.n..];
        assert (a + b)[n..] == rest + b;
        CutAnywhere(rest, b);
        var r := Parse(rest);
        assert a[n + r.consumed..] == rest[r.consumed..];
        if r.end == Waiting {
          ThenThen([one.e], n, r.events, r.consumed, Parse(rest[r.consumed..] + b));
        }
      }
    }
  }

  /** After a parse the rest yields nothing until more bytes come. */
  lemma {:induction false} RestIdle(a: seq<byte>)
    requires Parse(a).end == Waiting
    ensures Parse(a[Parse(a).consumed..]) == Parsed([], 0, Waiting)
    decreases |a|
  {
    var one := ParseOne(a);
    if one.Got? {
      RestIdle(a[one.n..]);
      assert a[one.n..][Parse(a[one.n..]).consumed..] == a[Parse(a).consumed..];
    } else {
      assert a[0..] == a;
    }
  }

  // ---------- round trip ----------

  lemma HeaderFields(length: nat, version: nat, kind: nat, rest: seq<byte>)
    requires length < WORD_LIMIT && 0 < version < 256 && kind < 256
    ensures var b := Header(length, version, kind) + rest;
      Get32(b) == length && Get16(b[4..]) == MAGIC && b[6] as nat == version && b[7] as nat == kind
        && b[HEADER..] == rest
  {
    var b := Header(length, version, kind) + rest;
    var tail := Put16(MAGIC) + [Byte(version, 1), Byte(kind, 1)] + rest;
    assert b == Put32(length) + tail;
    Word32(length, tail);
    assert b[4..] == tail;
    assert Get16(Put16(MAGIC) + ([Byte(version, 1), Byte(kind, 1)] + rest)) == MAGIC;
    assert tail == Put16(MAGIC) + ([Byte(version, 1), Byte(kind, 1)] + rest);
  }

  /** One frame, whatever follows it, is read back as the event it was made from. */
  lemma OneRoundTrip(version: nat, e: Event, rest: seq<byte>)
    requires Encodable(e) && 0 < version < 256
    ensures ParseOne(Encode(version, e) + rest) == Got(Received(e), |Encode(version, e)|)
  {
    hide Get32, Get16, Put32, Put64, Get64, Header;
    var body := Body(e);
    var b := Encode(version, e) + rest;
    assert b == Header(HEADER + |body|, version, Type(e)) + (body + rest);
    HeaderFields(HEADER + |body|, version, Type(e), body + rest);
    match e {
      case Polling =>
      case StreamClose(id) => Word32(id, rest);
      case HotRestart(epoch) => Word64(epoch, rest);
      case HotRestartAck(epoch) => Word64(epoch, rest);
      case FallbackData(seqId, status, payload) => FallbackFields(seqId, status, payload, rest);
    }
  }

  /** Where the fields of a frame lie. */
  lemma FieldsAt(version: nat, e: Event)
    requires Encodable(e) && 0 < version < 256
    ensures var b := Encode(version, e);
      && |b| >= HEADER && Get32(b) == |b| && b[4] == 0x77 && b[5] == 0x58 && b[6] as nat == version
      && match e
         case Polling => b[7] == 1 && |b| == 8
         case StreamClose(id) => b[7] == 2 && |b| == 12 && Get32(b[8..]) == id
         case FallbackData(seqId, status, payload) =>
           b[7] == 3 && |b| >= 16 && Get32(b[8..]) == seqId && Get32(b[12..]) == status && b[16..] == payload
         case HotRestart(epoch) => b[7] == 8 && |b| == 16 && Get64(b[8..]) == epoch
         case HotRestartAck(epoch) => b[7] == 9 && |b| == 16 && Get64(b[8..]) == epoch
  {
    hide Get32, Put32, Put64, Get64;
    var body := Body(e);
    var b := Encode(version, e);
    HeaderFields(HEADER + |body|, version, Type(e), body);
    match e {
      case Polling =>
      case StreamClose(id) =>
        Word32(id, []);
        assert body + [] == body;
      case HotRestart(epoch) =>
        Word64(epoch, []);
        assert body + [] == body;
      case HotRestartAck(epoch) =>
        Word64(epoch, []);
        assert body + [] == body;
      case FallbackData(seqId, status, payload) =>
        FallbackFields(seqId, status, payload, []);
        assert body + [] == body;
        assert b[12..] == b[8..][4..] && b[16..] == b[8..][8..8 + |payload|];
    }
  }

  /**
   The bytes `frame` could have been made by an encoder from an event that is received as `e`: all of
   them for a fallback frame, all but the length field, which nobody looks at, for the others.
   */
  ghost predicate MadeFrom(frame: seq<byte>, version: nat, sent: Event, e: Event)
  {
    && Encodable(sent) && Received(sent) == e && 0 < version < 256
    && |frame| == |Encode(version, sent)| >= HEADER && frame[4..] == Encode(version, sent)[4..]
    && (e.FallbackData? ==> frame == Encode(version, sent))
  }

  /** Whatever is taken for a frame is one. */
  lemma GotIsFrame(buf: seq<byte>)
    requires ParseOne(buf).Got?
    ensures exists version, sent :: MadeFrom(buf[..ParseOne(buf).n], version, sent, ParseOne(buf).e)
  {
    hide Get32, Get16, Get64, Body, Encode, Header;
    GotHeader(buf);
    var e, n, v, rest := ParseOne(buf).e, ParseOne(buf).n, buf[6] as nat, buf[HEADER..];
    var sent := if e.FallbackData? then e.(status := Get32(rest[4..])) else e;
    GotBody(buf, sent);
    assert buf[..n][HEADER..] == buf[HEADER..n] && buf[..n][4..] == buf[4..n];
    FrameBack(buf[..n], v, sent);
    if e.FallbackData? {
      assert Get32(buf[..n]) == Get32(buf) by { FirstWord(buf, n); }
    }
    assert MadeFrom(buf[..n], v, sent, e);
  }

  lemma FirstWord(buf: seq<byte>, n: nat)
    requires 4 <= n <= |buf|
    ensures Get32(buf[..n]) == Get32(buf)
  {
  }

  /** What the parser has looked at before it takes a frame. */
  lemma GotHeader(buf: seq<byte>)
    requires ParseOne(buf).Got?
    ensures var e, n := ParseOne(buf).e, ParseOne(buf).n;
      && HEADER <= n <= |buf| && Get16(buf[..n][4..]) == MAGIC && 0 < buf[6] as nat && buf[7] as nat == Type(e)
      && (e.FallbackData? ==> n >= HEADER + 8 && Get32(buf) == n && e.status == Get32(buf[HEADER..][4..]) % 256)
  {
    hide Get32, Get64;
    assert Get16(buf[..ParseOne(buf).n][4..]) == Get16(buf[4..]);
  }

  /** A frame with such a header and body is the encoded event; its length field may differ. */
  lemma FrameBack(frame: seq<byte>, v: nat, sent: Event)
    requires |frame| >= HEADER && Get16(frame[4..]) == MAGIC && frame[6] as nat == v && frame[7] as nat == Type(sent)
    requires frame[HEADER..] == Body(sent)
    ensures |Encode(v, sent)| == |frame| && Encode(v, sent)[4..] == frame[4..]
    ensures Get32(frame) == |frame| ==> Encode(v, sent) == frame
  {
    hide Get32, Put32, Put64, Body;
    HeaderBack(frame, v, Type(sent));
    var h, b := Header(|frame|, v, Type(sent)), Body(sent);
    assert |h| == HEADER && Encode(v, sent) == h + b;
    assert (h + b)[4..] == h[4..] + b;
    assert frame[4..] == frame[4..HEADER] + frame[HEADER..];
    if Get32(frame) == |frame| {
      Word32Back(frame);
      assert (h + b)[..4] == Put32(|frame|) == frame[..4];
      assert h + b == (h + b)[..4] + (h + b)[4..] && frame == frame[..4] + frame[4..];
    }
  }

  lemma HeaderBack(frame: seq<byte>, v: nat, kind: nat)
    requires |frame| >= HEADER && v < 256 && kind < 256
    requires Get16(frame[4..]) == MAGIC && frame[6] as nat == v && frame[7] as nat == kind
    ensures Header(|frame|, v, kind)[4..] == frame[4..HEADER]
  {
    hide Put32;
    var h := Header(|frame|, v, kind);
    assert h[4] == Byte(MAGIC, 256) == frame[4] && h[5] == Byte(MAGIC, 1) == frame[5];
  }

  /** The body of what was taken for a frame, with the whole status put back. */
  lemma GotBody(buf: seq<byte>, sent: Event)
    requires ParseOne(buf).Got?
    requires var e := ParseOne(buf).e;
      sent == if e.FallbackData? then e.(status := Get32(buf[HEADER..][4..])) else e
    ensures Body(sent) == buf[HEADER..ParseOne(buf).n] && Encodable(sent)
  {
    hide Get32, Put32, Put64, Get64;
    var n, rest := ParseOne(buf).n, buf[HEADER..];
    assert rest[..n - HEADER] == buf[HEADER..n];
    match sent {
      case Polling =>
      case StreamClose(id) => Word32Back(rest);
      case HotRestart(epoch) => Word64Back(rest);
      case HotRestartAck(epoch) => Word64Back(rest);
      case FallbackData(seqId, status, payload) =>
        Word32Back(rest);
        Word32Back(rest[4..]);
        assert rest[..n - HEADER] == rest[..4] + rest[4..][..4] + rest[8..n - HEADER];
    }
  }

  lemma FallbackFields(seqId: nat, status: nat, payload: seq<byte>, rest: seq<byte>)
    requires seqId < WORD_LIMIT && status < WORD_LIMIT
    ensures var body := Put32(seqId) + Put32(status) + payload + rest;
      Get32(body) == seqId && Get32(body[4..]) == status && body[8..8 + |payload|] == payload
  {
    hide Get32, Put32;
    var body := Put32(seqId) + Put32(status) + payload + rest;
    var tail := Put32(status) + (payload + rest);
    assert body == Put32(seqId) + tail && body[4..] == tail;
    Word32(seqId, tail);
    Word32(status, payload + rest);
    assert body[8..] == payload + rest;
  }

  datatype Sent = Sent(version: nat, e: Event)

  function EncodeAll(es: seq<Sent>): seq<byte>
  {
    if es == [] then [] else Encode(es[0].version, es[0].e) + EncodeAll(es[1..])
  }

  function ReceivedAll(es: seq<Sent>): seq<Event>
  {
    if es == [] then [] else [Received(es[0].e)] + ReceivedAll(es[1..])
  }

  /** Any sequence of frames is read back, completely and in order. */
  lemma {:induction false} RoundTrip(es: seq<Sent>)
    requires forall i :: 0 <= i < |es| ==> Encodable(es[i].e) && 0 < es[i].version < 256
    ensures Parse(EncodeAll(es)) == Parsed(ReceivedAll(es), |EncodeAll(es)|, Waiting)
  {
    hide Encode, Received, ParseOne;
    if es == [] {
      assert ParseOne([]) == NeedMore by { Nothing(); }
    } else {
      var first, rest := Encode(es[0].version, es[0].e), EncodeAll(es[1..]);
      RoundTrip(es[1..]);
      OneRoundTrip(es[0].version, es[0].e, rest);
      assert (first + rest)[|first|..] == rest;
    }
  }

  lemma Nothing()
    ensures ParseOne([]) == NeedMore
  {
  }

  // ---------- the reader ----------

  const INITIAL_BUFFER: nat := 65536
  const DATA_THRESHOLD: nat := 1048576
  const SHRINK_LIMIT: nat := 4194304

  /** One read call: how many bytes the kernel would give, that there is nothing now, or another error. */
  datatype ReadCall = Bytes(n: nat) | Again | Error

  /** Why onReadReady ended. */
  datatype Stop = Emptied | PeerGone | Faulty | Refused

  predicate Gives(c: ReadCall)
  {
    c.Bytes? && c.n > 0
  }

  /** After `used` calls that gave bytes, what stopped the reading. */
  predicate Stopped(calls: seq<ReadCall>, used: nat, left: nat, why: Stop)
  {
    && used <= |calls| && (forall j :: 0 <= j < used ==> Gives(calls[j]))
    && match why
       case Emptied => used == |calls| || calls[used].Again? || (Gives(calls[used]) && left == 0)
       case PeerGone => used < |calls| && calls[used] == Bytes(0)
       case Faulty => used < |calls| && calls[used].Error?
       case Refused => true
  }

  predicate Suffix(all: seq<byte>, part: seq<byte>)
  {
    |all| >= |part| && all[|all| - |part|..] == part
  }

  class Reader {
    var buffer: array<byte>
    var start: nat
    var end: nat
    var closed: bool
    var events: seq<Event>
    ghost var received: seq<byte>     // everything read from the socket so far

    ghost predicate Valid()
      reads this
    {
      buffer.Length > 0 && start <= end <= buffer.Length
    }

    ghost function Pending(): seq<byte>
      requires Valid()
      reads this, buffer
    {
      buffer[start..end]
    }

    /** The events so far, and those still in the buffer, are the events of the uncut stream. */
    ghost predicate Faithful()
      requires Valid()
      reads this, buffer
    {
      if closed then
        Parse(received).events == events && Parse(received).end != Waiting
      else
        Suffix(received, Pending()) && Parse(received) == Then(events, |received| - |Pending()|, Parse(Pending()))
    }

    constructor ()
      ensures Valid() && fresh(buffer) && Faithful() && !closed && events == [] && received == []
      ensures buffer.Length == INITIAL_BUFFER
    {
      buffer := new byte[INITIAL_BUFFER];
      start, end, closed, events, received := 0, 0, false, [], [];
    }

    /** maybeExpandReadBuffer: a full buffer is replaced by one twice as large, unread bytes in front. */
    method Expand()
      requires Valid() && Faithful()
      modifies this`buffer, this`start, this`end
      ensures Valid() && end < buffer.Length && Pending() == old(Pending()) && Faithful()
      ensures buffer == old(buffer) || fresh(buffer)
      ensures if old(end) == old(buffer.Length) then buffer.Length == 2 * old(buffer.Length) && start == 0
        else buffer == old(buffer) && start == old(start) && end == old(end)
    {
      hide Parse, Then, Suffix;
      if buffer.Length - end == 0 {
        var bigger := new byte[2 * buffer.Length];
        ghost var unread := buffer[start..end];
        forall i | 0 <= i < end - start {
          bigger[i] := buffer[start + i];
        }
        assert forall i :: 0 <= i < |unread| ==> bigger[i] == unread[i];
        end := end - start;
        start := 0;
        buffer := bigger;
        assert buffer[start..end] == unread;
      }
    }

    /** onEventData followed by commitRead: parses, and shrinks a large buffer that has become empty. */
    method Consume()
      requires Valid() && Faithful()
      modifies this
      ensures buffer == old(buffer) || fresh(buffer)
      ensures Valid() && Faithful() && received == old(received)
      ensures buffer.Length == old(buffer.Length)
        || (buffer.Length == old(buffer.Length) / 2 && old(buffer.Length) > SHRINK_LIMIT && start == end == 0)
      ensures old(events) <= events && (old(closed) ==> closed)
      ensures events == Parse(received).events && (closed <==> Parse(received).end != Waiting)
    {
      hide Parse;
      ghost var was, all := events, received;
      if closed {
        return;
      }
      var part := buffer[start..end];
      var more, consumed, how := HandleEvents(part);
      events := events + more;
      start := start + consumed;
      assert how == Waiting ==> buffer[start..end] == part[consumed..];
      if how == Waiting {
        RestIdle(part);
        CommittedStill(was, all, part);
      } else {
        closed := true;
      }
      if start == end {
        if buffer.Length > SHRINK_LIMIT {
          var smaller := new byte[buffer.Length / 2];
          buffer := smaller;
        }
        start, end := 0, 0;
      }
    }

    /** One read of up to `n` bytes of `input` into the free part of the buffer. */
    method Fill(input: seq<byte>, n: nat) returns (got: nat)
      requires Valid() && Faithful() && end < buffer.Length && 0 < n <= |input|
      modifies this`end, this`received, buffer
      ensures Valid() && Faithful() && 0 < got
      ensures got == if n < old(buffer.Length - end) then n else old(buffer.Length - end)
      ensures received == old(received) + input[..got] && Pending() == old(Pending()) + input[..got]
    {
      hide Parse, Then, Suffix;
      var room := buffer.Length - end;
      got := if n < room then n else room;
      ghost var pending, was, e := Pending(), received, end;
      forall i | 0 <= i < got {
        buffer[end + i] := input[i];
      }
      end := end + got;
      received := received + input[..got];
      assert buffer[start..e] == pending && buffer[e..end] == input[..got];
      assert buffer[start..end] == buffer[start..e] + buffer[e..end];
      if closed {
        CutAnywhere(was, input[..got]);
      } else {
        MoreCame(was, events, pending, input[..got]);
      }
    }

    /**
     onReadReady: reads until the kernel has nothing more, parsing in between whenever a megabyte
     has piled up. However the stream was cut, the events are those of the whole of it. Every call
     that gives bytes is used, until one does not or the stream turns out malformed. Only after an
     error of the read call are the last bytes left unparsed.
     */
    method OnReadReady(input: seq<byte>, calls: seq<ReadCall>) returns (taken: nat, used: nat, why: Stop)
      requires Valid() && Faithful()
      modifies this, buffer
      ensures Valid() && Faithful() && used <= taken <= |input| && received == old(received) + input[..taken]
      ensures Stopped(calls, used, |input| - taken, why)
      ensures why != Faulty ==> events == Parse(received).events && (closed <==> Parse(received).end != Waiting)
      ensures why == Refused ==> closed
      ensures |calls| >= |input| && (forall j :: 0 <= j < |calls| ==> Gives(calls[j])) ==>
        events == Parse(old(received) + input).events
    {
      hide Parse, Faithful, Pending;
      taken, used, why := 0, 0, Emptied;
      assert received == old(received) + input[..0];
      while used < |calls|
        invariant used <= |calls| && Valid() && Faithful() && used <= taken <= |input| && why == Emptied
        invariant received == old(received) + input[..taken]
        invariant buffer == old(buffer) || fresh(buffer)
        invariant forall j :: 0 <= j < used ==> Gives(calls[j])
      {
        Expand();
        var rest := input[taken..];
        if calls[used].Again? || (Gives(calls[used]) && rest == []) {
          break;
        }
        if calls[used].Error? {
          why := Faulty;
          return;
        }
        if calls[used].n == 0 {
          why := PeerGone;
          break;
        }
        var n := Fill(rest, if calls[used].n < |rest| then calls[used].n else |rest|);
        Joined(input, taken, n);
        taken, used := taken + n, used + 1;
        if end - start >= DATA_THRESHOLD {
          Consume();
          assert received == old(received) + input[..taken];
          if closed {
            why := Refused;
            Uncut(old(received), input, taken);
            return;
          }
        }
      }
      Consume();
      if taken == |input| {
        Uncut(old(received), input, taken);
      }
    }
  }

  /** Once it is malformed, or when it is complete, the rest of the stream changes nothing. */
  lemma Uncut(was: seq<byte>, input: seq<byte>, taken: nat)
    requires taken <= |input| && (taken == |input| || Parse(was + input[..taken]).end != Waiting)
    ensures Parse(was + input) == Parse(was + input[..taken])
  {
    hide Parse;
    assert was + input == was + input[..taken] + input[taken..];
    if taken < |input| {
      CutAnywhere(was + input[..taken], input[taken..]);
    } else {
      assert input[..taken] == input;
    }
  }

  lemma Joined(input: seq<byte>, taken: nat, n: nat)
    requires taken + n <= |input|
    ensures input[..taken] + input[taken..][..n] == input[..taken + n]
  {
  }

  lemma CommittedStill(events: seq<Event>, all: seq<byte>, part: seq<byte>)
    requires Suffix(all, part) && Parse(all) == Then(events, |all| - |part|, Parse(part)) && Parse(part).end == Waiting
    ensures var r := Parse(part); var rest := part[r.consumed..];
      Suffix(all, rest) && Parse(all) == Then(events + r.events, |all| - |rest|, Parse(rest))
        && Parse(all).events == events + r.events
  {
    hide Parse;
    RestIdle(part);
    var r := Parse(part);
    assert all[|all| - |part[r.consumed..]|..] == all[|all| - |part|..][r.consumed..];
    assert events + r.events == (events + r.events) + [];
  }

  lemma MoreCame(all: seq<byte>, events: seq<Event>, pending: seq<byte>, more: seq<byte>)
    requires Suffix(all, pending) && Parse(all) == Then(events, |all| - |pending|, Parse(pending))
    ensures Suffix(all + more, pending + more)
    ensures Parse(all + more) == Then(events, |all| - |pending|, Parse(pending + more))
  {
    hide Parse;
    assert (all + more)[|all| - |pending|..] == all[|all| - |pending|..] + more;
    CutAnywhere(all, more);
    CutAnywhere(pending, more);
    var p, k := Parse(pending), |all| - |pending|;
    if p.end == Waiting {
      Aligned(all, events, pending);
      ThenThen(events, k, p.events, p.consumed, Parse(pending[p.consumed..] + more));
    }
  }

  lemma ThenThen(a: seq<Event>, m: nat, b: seq<Event>, n: nat, r: Parsed)
    ensures Then(a + b, m + n, r) == Then(a, m, Then(b, n, r))
  {
    assert (a + b) + r.events == a + (b + r.events);
  }

  /** The two parses stop at the same place. */
  lemma Aligned(all: seq<byte>, events: seq<Event>, pending: seq<byte>)
    requires Suffix(all, pending) && Parse(all) == Then(events, |all| - |pending|, Parse(pending))
    ensures all[Parse(all).consumed..] == pending[Parse(pending).consumed..]
  {
    hide Parse;
  }
}
