/** The debugger's receiver: frames are found in a stream of bytes that arrives in
    chunks.
  */
module Frames {
  import opened Ir

  const DOLLAR: Byte := 0x24
  const SHARP: Byte := 0x23

  // ----- decoding -----

  /** Where the first `ch` is; the length when there is none. */
  function Find(b: seq<Byte>, ch: Byte): (i: nat)
    ensures i <= |b| && (i < |b| ==> b[i] == ch) && forall j :: 0 <= j < i ==> b[j] != ch
  {
    if b == [] then 0 else if b[0] == ch then 0 else 1 + Find(b[1..], ch)
  }

  function Sum(b: seq<Byte>): int { if b == [] then 0 else Sum(b[..|b|-1]) + b[|b|-1] as int }

  function HexDigit(ch: Byte): Option<nat> {
    if 0x30 <= ch <= 0x39 then Some(ch - 0x30)
    else if 0x61 <= ch <= 0x66 then Some(ch - 0x61 + 10)
    else if 0x41 <= ch <= 0x46 then Some(ch - 0x41 + 10)
    else None
  }

  datatype Decoded = Accepted | Deferred | Rejected

  /** The frame `$body#cs` at the beginning of the bytes. */
  function Decode(b: seq<Byte>): Decoded {
    if b == [] || b[0] != DOLLAR then Rejected
    else
      var sharp := Find(b, SHARP);
      if |b| < sharp + 3 then Deferred
      else
        var hi, lo := HexDigit(b[sharp+1]), HexDigit(b[sharp+2]);
        if hi.None? || lo.None? || Sum(b[1..sharp]) % 256 != hi.value * 16 + lo.value then Rejected else Accepted
  }

  function BodyOf(b: seq<Byte>): seq<Byte>
    requires Decode(b).Accepted?
  {
    b[1..Find(b, SHARP)]
  }

  // ----- what the receiver is meant to find -----

  /** A frame for every place in the stream where one stands, in order. */
  function FramesIn(b: seq<Byte>): seq<seq<Byte>> {
    if b == [] then [] else (if Decode(b).Accepted? then [BodyOf(b)] else []) + FramesIn(b[1..])
  }

  /** The stream from the first frame on that is not complete yet. */
  function Pending(b: seq<Byte>): seq<Byte> {
    if b == [] then [] else if Decode(b).Deferred? then b else Pending(b[1..])
  }

  // ----- what it does -----

  function Strip(b: seq<Byte>): (r: seq<Byte>)
    ensures |r| <= |b| && (r != [] ==> r[0] == DOLLAR)
  {
    b[Find(b, DOLLAR)..]
  }

  datatype Session = Session(frames: seq<seq<Byte>>, buf: seq<Byte>)

  /** The loop that drains the buffer. */
  function Drain(s: Session): Session
    decreases |s.buf|
  {
    if s.buf == [] then s
    else
      match Decode(s.buf)
      case Accepted => Drain(Session(s.frames + [BodyOf(s.buf)], Strip(s.buf[1..])))
      case Deferred => s
      case Rejected => Drain(Session(s.frames, Strip(s.buf[1..])))
  }

  /** A chunk arrives. */
  function Receive(s: Session, chunk: seq<Byte>): Session { Drain(Session(s.frames, Strip(s.buf + chunk))) }

  function ReceiveAll(s: Session, chunks: seq<seq<Byte>>): Session {
    if chunks == [] then s else Receive(ReceiveAll(s, chunks[..|chunks|-1]), chunks[|chunks|-1])
  }

  function Joined(chunks: seq<seq<Byte>>): seq<Byte> {
    if chunks == [] then [] else Joined(chunks[..|chunks|-1]) + chunks[|chunks|-1]
  }

  // ----- draining finds what there is -----

  lemma {:induction false} StripKeeps(b: seq<Byte>)
    ensures FramesIn(Strip(b)) == FramesIn(b) && Pending(Strip(b)) == Pending(b)
  {
    if b != [] && b[0] != DOLLAR {
      StripKeeps(b[1..]);
      assert Strip(b) == Strip(b[1..]);
    }
  }

  /** After a frame that is not complete, none is. */
  lemma {:induction false} NoneAfterDeferred(b: seq<Byte>)
    requires b != [] && |b| < Find(b, SHARP) + 3
    ensures FramesIn(b) == []
    decreases |b|
  {
    if |b| > 1 {
      var rest := b[1..];
      if b[0] != SHARP {
        assert Find(b, SHARP) == 1 + Find(rest, SHARP);
        NoneAfterDeferred(rest);
      } else {
        FewBytes(rest);
      }
    }
  }

  lemma FewBytes(b: seq<Byte>)
    requires |b| <= 2
    ensures FramesIn(b) == []
  {
    if |b| == 2 { assert FramesIn(b[1..]) == [] by { assert b[1..][1..] == []; } }
  }

  /** The drained buffer has yielded the frames of the buffer, and holds what is
      pending. */
  lemma {:induction false} DrainFinds(s: Session)
    requires s.buf != [] ==> s.buf[0] == DOLLAR
    ensures Drain(s) == Session(s.frames + FramesIn(s.buf), Pending(s.buf))
    decreases |s.buf|
  {
    hide Strip;
    if s.buf == [] {
    } else {
      var rest := s.buf[1..];
      match Decode(s.buf)
      case Accepted =>
        DrainFinds(Session(s.frames + [BodyOf(s.buf)], Strip(rest)));
        StripKeeps(rest);
        assert s.frames + [BodyOf(s.buf)] + FramesIn(rest) == s.frames + ([BodyOf(s.buf)] + FramesIn(rest));
      case Deferred => NoneAfterDeferred(s.buf);
      case Rejected =>
        DrainFinds(Session(s.frames, Strip(rest)));
        StripKeeps(rest);
    }
  }

  lemma ReceiveFinds(s: Session, chunk: seq<Byte>)
    ensures Receive(s, chunk) == Session(s.frames + FramesIn(s.buf + chunk), Pending(s.buf + chunk))
  {
    DrainFinds(Session(s.frames, Strip(s.buf + chunk)));
    StripKeeps(s.buf + chunk);
  }

  // ----- more bytes change nothing that is decided -----

  lemma {:induction false} FindMore(b: seq<Byte>, more: seq<Byte>, ch: Byte)
    ensures Find(b, ch) < |b| ==> Find(b + more, ch) == Find(b, ch)
    ensures Find(b, ch) == |b| ==> Find(b + more, ch) == |b| + Find(more, ch)
  {
    if b == [] {
      assert b + more == more;
    } else {
      assert (b + more)[1..] == b[1..] + more;
      FindMore(b[1..], more, ch);
    }
  }

  lemma DecodeMore(b: seq<Byte>, more: seq<Byte>)
    requires b != [] && !Decode(b).Deferred?
    ensures Decode(b + more) == Decode(b)
    ensures Decode(b).Accepted? ==> BodyOf(b + more) == BodyOf(b)
  {
    var sharp := Find(b, SHARP);
    FindMore(b, more, SHARP);
    if b[0] == DOLLAR { assert (b + more)[1..sharp] == b[1..sharp]; }
  }

  lemma DeferredIsShort(b: seq<Byte>)
    requires b != [] && Decode(b).Deferred?
    ensures |b| < Find(b, SHARP) + 3
  {
  }

  /** What has been decided of a stream stays, and the rest of the work is on what is
      pending. */
  lemma {:induction false} FramesMore(b: seq<Byte>, more: seq<Byte>)
    ensures FramesIn(b + more) == FramesIn(b) + FramesIn(Pending(b) + more)
    ensures Pending(b + more) == Pending(Pending(b) + more)
    decreases |b|
  {
    hide Decode, BodyOf, Find;
    if b == [] {
      assert b + more == more == Pending(b) + more;
    } else if Decode(b).Deferred? {
      DeferredIsShort(b);
      NoneAfterDeferred(b);
    } else {
      assert (b + more)[1..] == b[1..] + more;
      DecodeMore(b, more);
      FramesMore(b[1..], more);
    }
  }

  /** However a stream is split into chunks, the receiver finds the frames that stand
      in it, each once and in order, and keeps what is pending. */
  lemma {:induction false} ChunksDoNotMatter(chunks: seq<seq<Byte>>)
    ensures ReceiveAll(Session([], []), chunks) == Session(FramesIn(Joined(chunks)), Pending(Joined(chunks)))
    decreases |chunks|
  {
    if chunks != [] {
      var init, last := chunks[..|chunks|-1], chunks[|chunks|-1];
      ChunksDoNotMatter(init);
      ReceiveFinds(ReceiveAll(Session([], []), init), last);
      FramesMore(Joined(init), last);
    }
  }

  // ----- step by step -----

  const INIT_CAPACITY := 64
  const EXTRA_CAPACITY := 64

  class HBuf {
    var buf: array<Byte>
    var size: nat
    var capacity: nat

    constructor ()
      ensures Valid() && Contents() == [] && fresh(buf)
    {
      buf := new Byte[INIT_CAPACITY + 1](_ => 0);
      size, capacity := 0, INIT_CAPACITY;
    }

    ghost predicate Valid()
      reads this
    {
      size < capacity <= buf.Length
    }

    function Contents(): seq<Byte>
      reads this, buf
      requires Valid()
    {
      buf[..size]
    }

    /** `hbuf_clear` */
    method Clear()
      requires Valid()
      modifies this`size, buf
      ensures Valid() && Contents() == []
    {
      buf[0] := 0;
      size := 0;
    }

    /** `hbuf_append` */
    method Append(s: seq<Byte>)
      requires Valid()
      modifies this, buf
      ensures Valid() && Contents() == old(Contents()) + s
      ensures buf == old(buf) || fresh(buf)
    {
      if size + |s| + 1 >= capacity {
        capacity := size + |s| + 1 + EXTRA_CAPACITY;
        var extended := new Byte[capacity](_ => 0);
        forall i | 0 <= i < size { extended[i] := buf[i]; }
        forall i | 0 <= i < |s| { extended[size + i] := s[i]; }
        size := size + |s|;
        buf := extended;
      } else {
        forall i | 0 <= i < |s| { buf[size + i] := s[i]; }
        size := size + |s|;
        buf[size] := 0;
      }
    }

    /** `hbuf_find`; the size when there is none */
    method IndexOf(ch: Byte) returns (i: nat)
      requires Valid()
      ensures i == Find(Contents(), ch)
    {
      i := 0;
      while i != size && buf[i] != ch
        invariant 0 <= i <= size
        invariant forall j :: 0 <= j < i ==> buf[j] != ch
      {
        i := i + 1;
      }
      FoundAt(Contents(), ch, i);
    }

    /** `hbuf_shift`; the bytes are copied in ascending order. */
    method Shift(n: nat)
      requires Valid()
      modifies this`size, buf
      ensures Valid()
      ensures Contents() == if n <= |old(Contents())| then old(Contents())[n..] else old(Contents())
    {
      if size == 0 || size < n { return; }
      var i := 0;
      while i != size - n
        invariant 0 <= i <= size - n && size == old(size)
        invariant forall j :: 0 <= j < i ==> buf[j] == old(buf[j + n])
        invariant forall j :: i <= j < buf.Length ==> buf[j] == old(buf[j])
      {
        buf[i] := buf[i + n];
        i := i + 1;
      }
      size := size - n;
    }

    /** `hbuf_left_strip` */
    method LeftStrip(ch: Byte)
      requires Valid()
      modifies this`size, buf
      ensures Valid() && Contents() == old(Contents())[Find(old(Contents()), ch)..]
    {
      if size == 0 { return; }
      var offset := IndexOf(ch);
      if offset == size {
        Clear();
      } else if offset != 0 {
        Shift(offset);
      }
    }
  }

  lemma {:induction false} FoundAt(b: seq<Byte>, ch: Byte, i: nat)
    requires i <= |b| && (forall j :: 0 <= j < i ==> b[j] != ch) && (i < |b| ==> b[i] == ch)
    ensures Find(b, ch) == i
  {
    if i > 0 { FoundAt(b[1..], ch, i - 1); }
  }

  method Checksum(b: seq<Byte>) returns (sum: Byte)
    ensures sum == Sum(b) % 256
  {
    sum := 0;
    var i := 0;
    while i != |b|
      invariant 0 <= i <= |b| && sum as int == Sum(b[..i]) % 256
    {
      assert b[..i+1][..i] == b[..i];
      sum := ((sum as int + b[i] as int) % 256) as Byte;
      i := i + 1;
    }
    assert b[..|b|] == b;
  }

  /** `xjdb_protocol_try_decode` */
  method TryDecode(hb: HBuf) returns (result: Decoded)
    requires hb.Valid() && hb.Contents() != []
    ensures result == Decode(hb.Contents())
  {
    var body := hb.Contents();
    if body[0] != DOLLAR { return Rejected; }
    var sharp := hb.IndexOf(SHARP);
    if sharp == hb.size { return Deferred; }
    if hb.size < sharp + 3 { return Deferred; }
    var hi, lo := HexDigit(body[sharp+1]), HexDigit(body[sharp+2]);
    if hi.None? || lo.None? { return Rejected; }
    var sum := Checksum(body[1..sharp]);
    if hi.value * 16 + lo.value != sum as int { return Rejected; }
    return Accepted;
  }

  /** A chunk is appended, and the buffer drained; each body found is reported. */
  method ReceiveChunk(hb: HBuf, chunk: seq<Byte>, frames: seq<seq<Byte>>) returns (found: seq<seq<Byte>>)
    requires hb.Valid()
    modifies hb, hb.buf
    ensures hb.Valid() && (hb.buf == old(hb.buf) || fresh(hb.buf))
    ensures found == frames + FramesIn(old(hb.Contents()) + chunk)
    ensures hb.Contents() == Pending(old(hb.Contents()) + chunk)
  {
    hide *;
    found := frames;
    ghost var received := hb.Contents() + chunk;
    ReceiveFinds(Session(frames, hb.Contents()), chunk);
    StripAppended(frames, hb.Contents(), chunk);
    hb.Append(chunk);
    hb.LeftStrip(DOLLAR);
    var deferred := false;
    while hb.size != 0 && !deferred
      invariant hb.Valid() && (hb.buf == old(hb.buf) || fresh(hb.buf))
      invariant Drain(Session(found, hb.Contents())) == Session(frames + FramesIn(received), Pending(received))
      invariant deferred ==> hb.size != 0 && Decode(hb.Contents()).Deferred?
      decreases hb.size, !deferred
    {
      SizeIs(hb);
      DrainStep(found, hb.Contents());
      var result := TryDecode(hb);
      match result {
        case Accepted =>
          found := found + [BodyOf(hb.Contents())];
          hb.Shift(1);
          hb.LeftStrip(DOLLAR);
          SizeIs(hb);
        case Deferred =>
          deferred := true;
        case Rejected =>
          hb.Shift(1);
          hb.LeftStrip(DOLLAR);
          SizeIs(hb);
      }
    }
    SizeIs(hb);
    DrainEnds(found, hb.Contents());
  }

  lemma SizeIs(hb: HBuf)
    requires hb.Valid()
    ensures |hb.Contents()| == hb.size
  {
  }

  lemma StripAppended(frames: seq<seq<Byte>>, b: seq<Byte>, chunk: seq<Byte>)
    ensures Receive(Session(frames, b), chunk) == Drain(Session(frames, (b + chunk)[Find(b + chunk, DOLLAR)..]))
  {
  }

  lemma DrainStep(found: seq<seq<Byte>>, b: seq<Byte>)
    requires b != []
    ensures Drain(Session(found, b)) ==
      match Decode(b)
      case Accepted => Drain(Session(found + [BodyOf(b)], b[1..][Find(b[1..], DOLLAR)..]))
      case Deferred => Session(found, b)
      case Rejected => Drain(Session(found, b[1..][Find(b[1..], DOLLAR)..]))
  {
  }

  lemma DrainEnds(found: seq<seq<Byte>>, b: seq<Byte>)
    requires b == [] || Decode(b).Deferred?
    ensures Drain(Session(found, b)) == Session(found, b)
  {
  }

  // ----- connections -----

  /** What the receiver is given: a chunk, or the end of a connection. */
  datatype Event = Chunk(bytes: seq<Byte>) | Closed

  /** What arrived on connections that have ended, and what arrived on the one that goes on. */
  function Streams(events: seq<Event>): (seq<seq<Byte>>, seq<Byte>) {
    if events == [] then ([], [])
    else
      var (ended, current) := Streams(events[..|events|-1]);
      match events[|events|-1]
      case Chunk(bytes) => (ended, current + bytes)
      case Closed => (ended + [current], [])
  }

  function FramesOfAll(streams: seq<seq<Byte>>): seq<seq<Byte>> {
    if streams == [] then [] else FramesOfAll(streams[..|streams|-1]) + FramesIn(streams[|streams|-1])
  }

  lemma {:induction false} FramesJoin(streams: seq<seq<Byte>>, last: seq<Byte>)
    ensures FramesOfAll(streams + [last]) == FramesOfAll(streams) + FramesIn(last)
  {
    assert (streams + [last])[..|streams|] == streams;
  }

  /** The receive loop over any run of events: each connection yields the frames of its
      stream, and at the end the buffer holds what is pending of the current one. */
  method SessionLoop(hb: HBuf, events: seq<Event>) returns (found: seq<seq<Byte>>)
    requires hb.Valid() && hb.Contents() == []
    modifies hb, hb.buf
    ensures hb.Valid() && hb.Contents() == Pending(Streams(events).1)
    ensures found == FramesOfAll(Streams(events).0 + [Streams(events).1])
  {
    hide FramesIn, Pending, FramesOfAll;
    found := [];
    var i := 0;
    NothingReceived();
    assert events[..0] == [] && Streams([]).0 + [Streams([]).1] == [[]];
    while i < |events|
      invariant 0 <= i <= |events|
      invariant hb.Valid() && (hb.buf == old(hb.buf) || fresh(hb.buf))
      invariant hb.Contents() == Pending(Streams(events[..i]).1)
      invariant found == FramesOfAll(Streams(events[..i]).0 + [Streams(events[..i]).1])
    {
      ghost var before := Streams(events[..i]);
      assert events[..i+1][..i] == events[..i];
      match events[i] {
        case Chunk(bytes) =>
          found := ReceiveChunk(hb, bytes, found);
          FramesJoin(before.0, before.1);
          FramesJoin(before.0, before.1 + bytes);
          FramesMore(before.1, bytes);
        case Closed =>
          hb.Clear();
          NothingReceived();
          FramesJoin(before.0 + [before.1], []);
      }
      i := i + 1;
    }
    assert events[..|events|] == events;
  }

  lemma NothingReceived()
    ensures FramesIn([]) == [] && Pending([]) == [] && FramesOfAll([[]]) == []
  {
    var none: seq<seq<Byte>> := [];
    FramesJoin(none, []);
    assert none + [[]] == [[]];
  }

  // ----- frames as they are meant -----

  const UPPER: seq<Byte> := [0x30, 0x31, 0x32, 0x33, 0x34, 0x35, 0x36, 0x37, 0x38, 0x39, 0x41, 0x42, 0x43, 0x44, 0x45,
      0x46]
  const LOWER: seq<Byte> := [0x30, 0x31, 0x32, 0x33, 0x34, 0x35, 0x36, 0x37, 0x38, 0x39, 0x61, 0x62, 0x63, 0x64, 0x65,
      0x66]

  /** A hexadecimal digit, in either case. */
  predicate Spells(ch: Byte, n: int) { 0 <= n < 16 && (ch == UPPER[n] || ch == LOWER[n]) }

  lemma DigitIs(ch: Byte, n: int)
    ensures HexDigit(ch) == Some(n) <==> Spells(ch, n)
  {
  }

  /** Body, sum of the body modulo 256 in two digits. */
  predicate IsFrame(frame: seq<Byte>, body: seq<Byte>) {
    && |frame| == |body| + 4 && SHARP !in body
    && frame[0] == DOLLAR && frame[1..|body|+1] == body && frame[|body|+1] == SHARP
    && Spells(frame[|body|+2], Sum(body) % 256 / 16) && Spells(frame[|body|+3], Sum(body) % 16)
  }

  ghost predicate BeginsWithFrame(b: seq<Byte>, body: seq<Byte>) { |body| + 4 <= |b| && IsFrame(b[..|body|+4], body) }

  lemma SharpAt(b: seq<Byte>, body: seq<Byte>)
    requires |body| + 2 <= |b| && b[0] == DOLLAR && b[1..|body|+1] == body && b[|body|+1] == SHARP && SHARP !in body
    ensures Find(b, SHARP) == |body| + 1
  {
    forall j | 0 <= j < |body| + 1 ensures b[j] != SHARP {
      if j > 0 { assert b[j] == body[j-1]; }
    }
    FoundAt(b, SHARP, |body| + 1);
  }

  lemma TwoDigits(hi: int, lo: int, sum: int)
    requires 0 <= hi < 16 && 0 <= lo < 16
    ensures sum % 256 == hi * 16 + lo <==> hi == sum % 256 / 16 && lo == sum % 16
  {
    assert sum % 16 == sum % 256 % 16;
  }

  /** What the decoder accepts is what begins with a frame, and nothing else. */
  lemma AcceptsFrames(b: seq<Byte>)
    ensures Decode(b).Accepted? <==> exists body :: BeginsWithFrame(b, body)
    ensures forall body :: BeginsWithFrame(b, body) ==> Decode(b).Accepted? && BodyOf(b) == body
  {
    if Decode(b).Accepted? {
      var sharp := Find(b, SHARP);
      var body := b[1..sharp];
      var hi, lo := HexDigit(b[sharp+1]).value, HexDigit(b[sharp+2]).value;
      TwoDigits(hi, lo, Sum(body));
      DigitIs(b[sharp+1], hi);
      DigitIs(b[sharp+2], lo);
      var frame := b[..|body|+4];
      assert frame[1..|body|+1] == body;
      assert BeginsWithFrame(b, body);
    }
    forall body | BeginsWithFrame(b, body) ensures Decode(b).Accepted? && BodyOf(b) == body { FrameAccepted(b, body); }
  }

  lemma FrameAccepted(b: seq<Byte>, body: seq<Byte>)
    requires BeginsWithFrame(b, body)
    ensures Decode(b).Accepted? && BodyOf(b) == body
  {
    var frame := b[..|body|+4];
    assert b[1..|body|+1] == frame[1..|body|+1];
    SharpAt(b, body);
    var hi, lo := Sum(body) % 256 / 16, Sum(body) % 16;
    assert b[|body|+2] == frame[|body|+2] && b[|body|+3] == frame[|body|+3];
    DigitIs(b[|body|+2], hi);
    DigitIs(b[|body|+3], lo);
    TwoDigits(hi, lo, Sum(body));
  }

  /** After a frame has been accepted, one byte is dropped and not the frame: what
      follows a `$` in the body is found too if it has the sum of the whole body. */
  function Nested(body: seq<Byte>, sum: int): seq<seq<Byte>> {
    if body == [] then []
    else (if body[0] == DOLLAR && Sum(body[1..]) % 256 == sum then [body[1..]] else []) + Nested(body[1..], sum)
  }

  lemma NoFrameHere(b: seq<Byte>)
    requires b != [] && b[0] != DOLLAR
    ensures FramesIn(b) == FramesIn(b[1..])
  {
  }

  lemma DigitsYieldNothing(hi: Byte, lo: Byte, x: int, y: int, more: seq<Byte>)
    requires Spells(hi, x) && Spells(lo, y)
    ensures FramesIn([SHARP, hi, lo] + more) == FramesIn(more)
  {
    hide FramesIn;
    assert hi != DOLLAR && lo != DOLLAR;
    hide Spells;
    var b2, b1 := [lo] + more, [hi, lo] + more;
    var b0 := [SHARP, hi, lo] + more;
    assert b0[1..] == b1 && b1[1..] == b2 && b2[1..] == more;
    NoFrameHere(b0);
    NoFrameHere(b1);
    NoFrameHere(b2);
  }

  /** A `$`, a body, `#` and two digits: a frame if the digits denote the sum of the body. */
  lemma SumDecides(b: seq<Byte>, body: seq<Byte>, hi: Byte, lo: Byte, sum: int, more: seq<Byte>)
    requires b == [DOLLAR] + body + [SHARP, hi, lo] + more && SHARP !in body
    requires 0 <= sum < 256 && Spells(hi, sum / 16) && Spells(lo, sum % 16)
    ensures Decode(b).Accepted? <==> Sum(body) % 256 == sum
    ensures Decode(b).Accepted? ==> BodyOf(b) == body
  {
    hide Find, Sum;
    assert b[1..|body|+1] == body;
    SharpAt(b, body);
    DigitIs(hi, sum / 16);
    DigitIs(lo, sum % 16);
    TwoDigits(sum / 16, sum % 16, Sum(body));
  }

  /** The frames found where `body`, `#` and two digits stand, and before what follows. */
  lemma {:induction false} TailFrames(body: seq<Byte>, hi: Byte, lo: Byte, sum: int, more: seq<Byte>)
    requires SHARP !in body && 0 <= sum < 256 && Spells(hi, sum / 16) && Spells(lo, sum % 16)
    ensures FramesIn(body + [SHARP, hi, lo] + more) == Nested(body, sum) + FramesIn(more)
    decreases |body|
  {
    hide Decode, Spells, Sum, Find, BodyOf;
    var b := body + [SHARP, hi, lo] + more;
    if body == [] {
      assert b == [SHARP, hi, lo] + more;
      DigitsYieldNothing(hi, lo, sum / 16, sum % 16, more);
    } else {
      var rest := body[1..];
      assert b[1..] == rest + [SHARP, hi, lo] + more;
      TailFrames(rest, hi, lo, sum, more);
      if body[0] == DOLLAR {
        assert b == [DOLLAR] + rest + [SHARP, hi, lo] + more;
        SumDecides(b, rest, hi, lo, sum, more);
      } else {
        NoFrameHere(b);
      }
    }
  }

  lemma FrameParts(frame: seq<Byte>, body: seq<Byte>) returns (hi: Byte, lo: Byte)
    requires IsFrame(frame, body)
    ensures frame == [DOLLAR] + body + [SHARP, hi, lo] && SHARP !in body
    ensures Spells(hi, Sum(body) % 256 / 16) && Spells(lo, Sum(body) % 256 % 16)
  {
    hide Spells, Sum;
    hi, lo := frame[|body|+2], frame[|body|+3];
    FrameJoins(frame, |body|);
    LowDigit(Sum(body));
  }

  lemma FrameJoins(frame: seq<Byte>, n: nat)
    requires |frame| == n + 4
    ensures frame == [frame[0]] + frame[1..n+1] + [frame[n+1], frame[n+2], frame[n+3]]
  {
  }

  lemma LowDigit(sum: int)
    ensures sum % 16 == sum % 256 % 16
  {
    Remainder(sum, sum / 256 * 16 + sum % 256 / 16, sum % 256 % 16);
  }

  lemma Remainder(n: int, q: int, r: int)
    requires n == 16 * q + r && 0 <= r < 16
    ensures n % 16 == r
  {
  }

  /** A frame followed by any bytes yields its body, whatever is nested in it, and what
      those bytes yield. */
  lemma FrameYields(frame: seq<Byte>, body: seq<Byte>, more: seq<Byte>)
    requires IsFrame(frame, body)
    ensures FramesIn(frame + more) == [body] + Nested(body, Sum(body) % 256) + FramesIn(more)
  {
    hide IsFrame, Decode, Spells, Sum, Find, BodyOf, Nested;
    var b := frame + more;
    var hi, lo := FrameParts(frame, body);
    assert b == [DOLLAR] + body + [SHARP, hi, lo] + more;
    SumDecides(b, body, hi, lo, Sum(body) % 256, more);
    assert b[1..] == body + [SHARP, hi, lo] + more;
    TailFrames(body, hi, lo, Sum(body) % 256, more);
  }

  /** What follows the `$` at `i` has the sum of a whole body. */
  predicate NestedAt(body: seq<Byte>, sum: int, i: int) {
    0 <= i < |body| && body[i] == DOLLAR && Sum(body[i+1..]) % 256 == sum
  }

  lemma NestedLater(body: seq<Byte>, sum: int, i: int)
    requires body != [] && 0 <= i
    ensures NestedAt(body, sum, i + 1) <==> NestedAt(body[1..], sum, i)
  {
    hide Sum;
    if i < |body| - 1 { assert body[1..][i+1..] == body[i+2..]; }
  }

  /** So a frame yields its body alone exactly when no part of the body after a `$` has
      the sum of the whole body. */
  lemma {:induction false} NothingNested(body: seq<Byte>, sum: int)
    ensures Nested(body, sum) == [] <==> forall i :: !NestedAt(body, sum, i)
  {
    hide Sum;
    if body != [] {
      NothingNested(body[1..], sum);
      assert NestedAt(body, sum, 0) <==> body[0] == DOLLAR && Sum(body[1..]) % 256 == sum;
      if i :| NestedAt(body, sum, i) {
        if i > 0 { NestedLater(body, sum, i - 1); }
      }
      if i :| NestedAt(body[1..], sum, i) { NestedLater(body, sum, i); }
    }
  }

  /** One frame from which two are found: the body is DC 24, and 24 is `$`. */
  lemma FrameFoundTwice()
    ensures IsFrame([0x24, 0xDC, 0x24, 0x23, 0x30, 0x30], [0xDC, 0x24])
    ensures FramesIn([0x24, 0xDC, 0x24, 0x23, 0x30, 0x30]) == [[0xDC, 0x24], []]
  {
    hide FramesIn;
    var body: seq<Byte>, frame: seq<Byte> := [0xDC, 0x24], [0x24, 0xDC, 0x24, 0x23, 0x30, 0x30];
    TwoSums(0xDC, 0x24);
    assert frame[1..3] == body;
    FrameYields(frame, body, []);
    assert frame + [] == frame;
    NothingReceived();
    assert body[1..] == [0x24] && [0x24][1..] == [];
    assert Nested([0x24], 0) == [[]];
    assert Nested(body, 0) == [[]];
  }

  /** The sum is that of all bytes, each counted as it is, in any grouping. */
  lemma {:induction false} SumOfParts(a: seq<Byte>, b: seq<Byte>, ch: Byte)
    ensures Sum(a + b) == Sum(a) + Sum(b) && Sum([ch]) == ch as int
    decreases |b|
  {
    assert [ch][..0] == [];
    if b == [] {
      assert a + b == a;
    } else {
      assert (a + b)[..|a|+|b|-1] == a + b[..|b|-1];
      SumOfParts(a, b[..|b|-1], ch);
    }
  }

  lemma TwoSums(x: Byte, y: Byte)
    ensures Sum([]) == 0 && Sum([y]) == y as int && Sum([x, y]) == x as int + y as int
  {
    assert [y][..0] == [] && [x][..0] == [] && [x, y][..1] == [x];
  }
}
