/**
  Native TCP framing: a four-byte big-endian length followed by the payload, the
  incremental decoder that reassembles frames from arbitrary reads, and the
  payload reader on top of it.
*/
module Framing {
  import opened Prelude

  type Byte = x: int | 0 <= x < 256
  type Bytes = seq<Byte>

  const U32_LIMIT: int := 0x1_0000_0000

  datatype EncodeError = EmptyPayload | PayloadTooLarge(length: nat, max: nat) | LengthOverflow

  datatype DecodeError = Poisoned | EmptyFrame | FrameTooLarge(length: nat, max: nat)

  /** The `width` low base-256 digits of `n`, most significant first. */
  function Digits(n: nat, width: nat): (b: Bytes)
    ensures |b| == width
  {
    if width == 0 then [] else Digits(n / 256, width - 1) + [n % 256]
  }

  function Number(b: Bytes): nat {
    if b == [] then 0 else 256 * Number(b[..|b| - 1]) + b[|b| - 1]
  }

  function Power256(width: nat): nat {
    if width == 0 then 1 else 256 * Power256(width - 1)
  }

  lemma {:induction false} NumberOfDigits(n: nat, width: nat)
    requires n < Power256(width)
    ensures Number(Digits(n, width)) == n
  {
    if 0 < width {
      NumberOfDigits(n / 256, width - 1);
      assert Digits(n, width)[..width - 1] == Digits(n / 256, width - 1);
    }
  }

  lemma {:induction false} DigitsOfNumber(b: Bytes)
    ensures Number(b) < Power256(|b|) && Digits(Number(b), |b|) == b
  {
    if b != [] {
      var front, last := b[..|b| - 1], b[|b| - 1];
      DigitsOfNumber(front);
      assert Number(b) == 256 * Number(front) + last;
      assert Number(b) / 256 == Number(front) && Number(b) % 256 == last;
      assert b == front + [last];
    }
  }

  /** The big-endian `u32` length prefix. */
  function ToBe(n: nat): (b: Bytes)
    requires n < U32_LIMIT
    ensures |b| == 4 && FromBe(b) == n
  {
    assert Power256(4) == U32_LIMIT;
    NumberOfDigits(n, 4);
    Digits(n, 4)
  }

  function FromBe(b: Bytes): (n: nat)
    requires |b| == 4
    ensures n < U32_LIMIT && Digits(n, 4) == b
  {
    assert Power256(4) == U32_LIMIT;
    DigitsOfNumber(b);
    Number(b)
  }

  /** `encode_native_tcp_frame`. */
  function Encode(payload: Bytes, max: nat): (r: Result<Bytes, EncodeError>)
    ensures r.Ok? <==> LegalPayload(payload, max)
  {
    if payload == [] then Err(EmptyPayload)
    else if |payload| > max then Err(PayloadTooLarge(|payload|, max))
    else if |payload| >= U32_LIMIT then Err(LengthOverflow)
    else Ok(ToBe(|payload|) + payload)
  }

  predicate LegalPayload(payload: Bytes, max: nat) {
    0 < |payload| <= max && |payload| < U32_LIMIT
  }

  predicate AllLegal(payloads: seq<Bytes>, max: nat) {
    forall i :: 0 <= i < |payloads| ==> LegalPayload(payloads[i], max)
  }

  /** The bytes a peer puts on the wire for a list of payloads. */
  function Wire(payloads: seq<Bytes>, max: nat): (w: Bytes)
    requires AllLegal(payloads, max)
  {
    if payloads == [] then [] else Encode(payloads[0], max).value + Wire(payloads[1..], max)
  }

  lemma LegalWider(payloads: seq<Bytes>, max: nat, wider: nat)
    requires AllLegal(payloads, max) && max <= wider
    ensures AllLegal(payloads, wider)
  {
  }

  lemma {:induction false} WireAppend(a: seq<Bytes>, b: seq<Bytes>, max: nat)
    requires AllLegal(a, max) && AllLegal(b, max)
    ensures AllLegal(a + b, max)
    ensures Wire(a + b, max) == Wire(a, max) + Wire(b, max)
  {
    hide Encode, LegalPayload;
    if a == [] {
      assert a + b == b;
    } else {
      assert (a + b)[1..] == a[1..] + b && (a + b)[0] == a[0];
      WireAppend(a[1..], b, max);
    }
  }

  /** The prefix is the length in network byte order, most significant byte first. */
  lemma BigEndian(n: nat)
    requires n < U32_LIMIT
    ensures ToBe(n) == [n / 0x100_0000, n / 0x1_0000 % 256, n / 256 % 256, n % 256]
  {
    hide Power256;
    var a, b, c := n / 256, n / 256 / 256, n / 256 / 256 / 256;
    assert Digits(n, 4) == Digits(a, 3) + [n % 256];
    assert Digits(a, 3) == Digits(b, 2) + [a % 256];
    assert Digits(b, 2) == Digits(c, 1) + [b % 256];
    assert Digits(c, 1) == Digits(c / 256, 0) + [c % 256];
    assert c / 256 == 0 && c % 256 == c;
  }

  lemma FromBigEndian(b: Bytes)
    requires |b| == 4
    ensures FromBe(b) == b[0] as int * 0x100_0000 + b[1] as int * 0x1_0000 + b[2] as int * 256 + b[3] as int
  {
    var c, d, e := b[..3], b[..2], b[..1];
    assert b[..3][..2] == d && b[..2][..1] == e && b[..1][..0] == [];
    assert Number(b) == 256 * Number(c) + b[3] && Number(c) == 256 * Number(d) + b[2];
    assert Number(d) == 256 * Number(e) + b[1] && Number(e) == 256 * Number([]) + b[0];
  }

  /** A frame is its prefix and the payload; each refusal names its cause and the limit. */
  lemma EncodeAnswers(payload: Bytes, max: nat)
    ensures var r := Encode(payload, max);
            && (r == Err(EmptyPayload) <==> payload == [])
            && (payload != [] && max < |payload| ==> r == Err(PayloadTooLarge(|payload|, max)))
            && (payload != [] && 0x1_0000_0000 <= |payload| <= max ==> r == Err(LengthOverflow))
            && (r.Ok? ==> r.value == ToBe(|payload|) + payload)
  {
  }

  /** What a whole byte stream means: its complete frames, what is left, and the first violation. */
  datatype Parsed = Parsed(frames: seq<Bytes>, rest: Bytes, error: Option<DecodeError>)

  /** Reference decoder: parses a stream that is available all at once. */
  function Parse(max: nat, s: Bytes): Parsed
    decreases |s|
  {
    if |s| < 4 then Parsed([], s, None)
    else
      var n := FromBe(s[..4]);
      if n == 0 then Parsed([], s, Some(EmptyFrame))
      else if n > max then Parsed([], s, Some(FrameTooLarge(n, max)))
      else if |s| < 4 + n then Parsed([], s, None)
      else
        var tail := Parse(max, s[4 + n..]);
        Prepend([s[4..4 + n]], tail)
  }

  /** What one `feed` returns: the frames completed so far, or the violation alone. */
  function Fed(max: nat, pending: Bytes, chunk: Bytes): Result<seq<Bytes>, DecodeError> {
    var p := Parse(max, pending + chunk);
    if p.error.Some? then Err(p.error.value) else Ok(p.frames)
  }

  /** `t` is an incomplete frame: a proper prefix of a frame that could still become legal. */
  predicate Incomplete(t: Bytes, max: nat) {
    |t| < 4 || (0 < FromBe(t[..4]) <= max && |t| < 4 + FromBe(t[..4]))
  }

  /** A complete frame at the front is split off exactly. */
  lemma ParseFrame(max: nat, payload: Bytes, s: Bytes)
    requires LegalPayload(payload, max)
    ensures Parse(max, ToBe(|payload|) + payload + s) == Prepend([payload], Parse(max, s))
  {
    var t := ToBe(|payload|) + payload + s;
    assert t[..4] == ToBe(|payload|);
    assert t[4..4 + |payload|] == payload;
    assert t[4 + |payload|..] == s;
  }

  function Prepend(frames: seq<Bytes>, p: Parsed): Parsed {
    p.(frames := frames + p.frames)
  }

  lemma PrependNil(p: Parsed)
    ensures Prepend([], p) == p
  {
  }

  lemma PrependTwice(a: seq<Bytes>, b: seq<Bytes>, p: Parsed)
    ensures Prepend(a, Prepend(b, p)) == Prepend(a + b, p)
  {
  }

  /** The front of a stream is either one complete frame or all there is to see. */
  predicate StartsWithFrame(max: nat, s: Bytes) {
    4 <= |s| && 0 < FromBe(s[..4]) <= max && 4 + FromBe(s[..4]) <= |s|
  }

  lemma SplitFrame(max: nat, s: Bytes)
    requires StartsWithFrame(max, s)
    ensures var n := FromBe(s[..4]);
            LegalPayload(s[4..4 + n], max) && s == ToBe(n) + s[4..4 + n] + s[4 + n..]
  {
  }

  /**
    Chunk independence: parsing a concatenation is parsing the first part and
    continuing with what it left over.
  */
  lemma {:induction false} ParseAppend(max: nat, a: Bytes, b: Bytes)
    ensures Parse(max, a).error.Some? ==>
              Parse(max, a + b) == Parse(max, a).(rest := Parse(max, a).rest + b)
    ensures Parse(max, a).error.None? ==>
              Parse(max, a + b) == Prepend(Parse(max, a).frames, Parse(max, Parse(max, a).rest + b))
    decreases |a|
  {
    hide Parse, ToBe, FromBe, LegalPayload;
    if StartsWithFrame(max, a) {
      var n := FromBe(a[..4]);
      var payload, tail := a[4..4 + n], a[4 + n..];
      ParseAppend(max, tail, b);
      SplitFrame(max, a);
      ParseFrame(max, payload, tail);
      ParseFrame(max, payload, tail + b);
      Regroup(ToBe(n), payload, tail, b);
      PrependTwice([payload], Parse(max, tail).frames, Parse(max, Parse(max, tail).rest + b));
    } else {
      ParseNoFrame(max, a, b);
    }
  }

  /** A bad length prefix is reported whatever follows it. */
  lemma ParseViolation(max: nat, prefix: Bytes, s: Bytes)
    requires |prefix| == 4
    ensures FromBe(prefix) == 0 <==>
              Parse(max, prefix + s).frames == [] && Parse(max, prefix + s).error == Some(EmptyFrame)
    ensures FromBe(prefix) > max && FromBe(prefix) != 0 ==>
              Parse(max, prefix + s) == Parsed([], prefix + s, Some(FrameTooLarge(FromBe(prefix), max)))
  {
  }

  lemma ParseNoFrame(max: nat, a: Bytes, b: Bytes)
    requires !StartsWithFrame(max, a)
    ensures Parse(max, a).frames == [] && Parse(max, a).rest == a
    ensures Parse(max, a).error.Some? ==> Parse(max, a + b) == Parsed([], a + b, Parse(max, a).error)
    ensures Prepend([], Parse(max, a + b)) == Parse(max, a + b)
  {
    PrependNil(Parse(max, a + b));
    assert 4 <= |a| ==> (a + b)[..4] == a[..4];
  }

  /**
    A stream parses without error exactly when it is a list of legal frames
    followed by an incomplete frame, and the parse recovers that list. So the
    stream ends mid-frame exactly when the leftover is non-empty.
  */
  lemma {:induction false} ParseSound(max: nat, s: Bytes)
    requires Parse(max, s).error.None?
    ensures var p := Parse(max, s);
            AllLegal(p.frames, max) && Incomplete(p.rest, max) && s == Wire(p.frames, max) + p.rest
    decreases |s|
  {
    if StartsWithFrame(max, s) {
      var n := FromBe(s[..4]);
      var payload, tail := s[4..4 + n], Parse(max, s[4 + n..]);
      ParseSound(max, s[4 + n..]);
      WireCons(payload, tail.frames, max);
      Regroup(ToBe(n), payload, Wire(tail.frames, max), tail.rest);
      SplitFrame(max, s);
    }
  }

  lemma {:induction false} ParseComplete(max: nat, payloads: seq<Bytes>, t: Bytes)
    requires AllLegal(payloads, max) && Incomplete(t, max)
    ensures Parse(max, Wire(payloads, max) + t) == Parsed(payloads, t, None)
    decreases |payloads|
  {
    if payloads == [] {
      assert Wire(payloads, max) + t == t;
    } else {
      var p := payloads[0];
      ParseComplete(max, payloads[1..], t);
      ParseFrame(max, p, Wire(payloads[1..], max) + t);
      Regroup(ToBe(|p|), p, Wire(payloads[1..], max), t);
      assert payloads == [p] + payloads[1..];
    }
  }

  lemma WireCons(payload: Bytes, payloads: seq<Bytes>, max: nat)
    requires LegalPayload(payload, max) && AllLegal(payloads, max)
    ensures AllLegal([payload] + payloads, max)
    ensures Wire([payload] + payloads, max) == ToBe(|payload|) + payload + Wire(payloads, max)
  {
  }

  lemma Regroup<T>(a: seq<T>, b: seq<T>, c: seq<T>, d: seq<T>)
    ensures (a + b + c) + d == a + b + (c + d)
  {
  }

  /** A prefix of a frame list's bytes never looks like a violation. */
  lemma ParsePrefix(max: nat, a: Bytes, b: Bytes)
    requires Parse(max, a + b).error.None?
    ensures Parse(max, a).error.None?
    ensures Parse(max, a).frames <= Parse(max, a + b).frames
  {
    ParseAppend(max, a, b);
  }

  /** `NativeTcpFrameDecoder`. */
  class FrameDecoder {
    const max: nat
    var buffer: Bytes
    var expected: Option<nat>
    var poisoned: bool

    /** The subtractions in `Feed` cannot underflow. */
    ghost predicate Valid()
      reads this
    {
      && (expected.Some? ==> 0 < expected.value <= max && expected.value < U32_LIMIT
                             && |buffer| < expected.value && !poisoned)
      && (expected.None? && !poisoned ==> |buffer| < 4)
    }

    /** The bytes consumed since the last complete frame. */
    ghost function Rest(): Bytes
      requires Valid()
      reads this
    {
      match expected
      case Some(n) => ToBe(n) + buffer
      case None => buffer
    }

    constructor (max: nat)
      ensures Valid() && Rest() == [] && !poisoned && this.max == max
    {
      this.max := max;
      buffer, expected, poisoned := [], None, false;
    }

    predicate HasPendingFrame()
      reads this
    {
      buffer != [] || expected.Some?
    }

    method Clear()
      modifies this
      ensures Valid() && Rest() == [] && !poisoned
    {
      buffer, expected, poisoned := [], None, false;
    }

    /**
      Feeding any chunk is parsing "what was left over, then the chunk"; a
      violation poisons the decoder and discards the frames of its own chunk.
    */
    method Feed(bytes: Bytes) returns (r: Result<seq<Bytes>, DecodeError>)
      requires Valid()
      modifies this
      ensures Valid()
      ensures old(poisoned) ==> r == Err(Poisoned) && poisoned && unchanged(this)
      ensures !old(poisoned) ==> r == Fed(max, old(Rest()), bytes) && poisoned == r.Err?
      ensures !poisoned ==> Rest() == Parse(max, old(Rest()) + bytes).rest
      ensures !poisoned ==> (HasPendingFrame() <==> Rest() != [])
    {
      if poisoned {
        return Err(Poisoned);
      }
      hide Parse;
      ghost var whole := Parse(max, Rest() + bytes);
      PrependNil(whole);
      var input := bytes;
      var frames: seq<Bytes> := [];
      while input != []
        invariant Valid() && !poisoned
        invariant whole == Prepend(frames, Parse(max, Rest() + input))
        decreases |input|
      {
        if expected.Some? {
          var frame;
          input, frame := AbsorbPayload(input);
          PrependTwice(frames, frame, Parse(max, Rest() + input));
          frames := frames + frame;
          continue;
        }
        var violation;
        input, violation := AbsorbPrefix(input);
        if violation.Some? {
          poisoned := true;
          return Err(violation.value);
        }
      }
      assert Rest() + input == Rest();
      ParseIncomplete();
      assert frames + [] == frames;
      return Ok(frames);
    }

    /** One round of the loop while a payload is expected: buffers bytes, perhaps completing a frame. */
    method AbsorbPayload(input: Bytes) returns (left: Bytes, frame: seq<Bytes>)
      requires Valid() && expected.Some? && input != []
      modifies this`buffer, this`expected
      ensures Valid() && |left| < |input|
      ensures Parse(max, old(Rest()) + input) == Prepend(frame, Parse(max, Rest() + left))
    {
      hide Parse;
      var needed := expected.value - |buffer|;
      var take := if needed < |input| then needed else |input|;
      MoveBytes(ToBe(expected.value), buffer, input, take);
      buffer := buffer + input[..take];
      left, frame := input[take..], [];
      PrependNil(Parse(max, ToBe(expected.value) + buffer + left));
      if |buffer| == expected.value {
        ParseFrame(max, buffer, left);
        frame := [buffer];
        buffer, expected := [], None;
        assert Rest() + left == left;
      }
    }

    /** One round of the loop while the length prefix is incomplete. */
    method AbsorbPrefix(input: Bytes) returns (left: Bytes, violation: Option<DecodeError>)
      requires Valid() && expected.None? && !poisoned && input != []
      modifies this`buffer, this`expected
      ensures |left| < |input|
      ensures violation.Some? ==> expected.None? && Parse(max, old(Rest()) + input).error == violation
      ensures violation.None? ==> Valid() && Parse(max, old(Rest()) + input) == Parse(max, Rest() + left)
    {
      hide Parse;
      var needed := 4 - |buffer|;
      var take := if needed < |input| then needed else |input|;
      assert buffer + input == buffer + input[..take] + input[take..];
      buffer := buffer + input[..take];
      left, violation := input[take..], None;
      if |buffer| < 4 {
        return;
      }
      var length := FromBe(buffer);
      ParseViolation(max, buffer, left);
      if length == 0 {
        violation := Some(EmptyFrame);
      } else if length > max {
        violation := Some(FrameTooLarge(length, max));
      } else {
        PrefixOf(buffer);
        buffer, expected := [], Some(length);
      }
    }

    /** Whatever the decoder holds between two chunks is an incomplete frame. */
    lemma ParseIncomplete()
      requires Valid() && !poisoned
      ensures Parse(max, Rest()) == Parsed([], Rest(), None)
    {
    }
  }

  lemma PrefixOf(prefix: Bytes)
    requires |prefix| == 4
    ensures ToBe(FromBe(prefix)) + [] == prefix
  {
  }

  lemma MoveBytes<T>(head: seq<T>, buffer: seq<T>, input: seq<T>, take: nat)
    requires take <= |input|
    ensures head + buffer + input == head + (buffer + input[..take]) + input[take..]
  {
  }

  lemma EmptyParse(max: nat)
    ensures Parse(max, []) == Parsed([], [], None)
  {
  }

  /** Feeding the bytes of any frame list, cut into any chunks, returns exactly those payloads. */
  method DecodeChunks(max: nat, payloads: seq<Bytes>, chunks: seq<Bytes>)
    returns (decoded: seq<Bytes>, pending: bool)
    requires AllLegal(payloads, max)
    requires Flatten(chunks) == Wire(payloads, max)
    ensures decoded == payloads && !pending
  {
    hide Parse, Wire, ToBe;
    var decoder := new FrameDecoder(max);
    decoded := [];
    EmptyParse(max);
    ghost var seen: Bytes := [];
    ParseComplete(max, payloads, []);
    assert Wire(payloads, max) + [] == Wire(payloads, max);
    for i := 0 to |chunks|
      invariant decoder.Valid() && !decoder.poisoned && decoder.max == max
      invariant seen + Flatten(chunks[i..]) == Wire(payloads, max)
      invariant Parse(max, seen) == Parsed(decoded, decoder.Rest(), None)
    {
      ghost var later := Flatten(chunks[i + 1..]);
      assert chunks[i..][1..] == chunks[i + 1..];
      assert (seen + chunks[i]) + later == Wire(payloads, max);
      ParsePrefix(max, seen + chunks[i], later);
      ParseAppend(max, seen, chunks[i]);
      var frames := decoder.Feed(chunks[i]);
      decoded := decoded + frames.value;
      seen := seen + chunks[i];
    }
    assert seen + [] == seen;
    pending := decoder.HasPendingFrame();
  }

  datatype ReadError = Frame(error: DecodeError) | MessageTooLarge | UnexpectedEof | Io

  /**
    `NativeTcpPayloadReader`. `socket` is the list of reads the transport will
    return before it ends (cleanly, or with an I/O error when `broken`).
  */
  class PayloadReader {
    const decoder: FrameDecoder
    const maxMessage: nat
    var pending: seq<Bytes>
    var socket: seq<Bytes>
    const broken: bool

    ghost predicate Valid()
      reads this, decoder
    {
      && decoder.Valid() && decoder.max <= maxMessage && !decoder.poisoned
      && AllLegal(pending, maxMessage)
      && forall i :: 0 <= i < |socket| ==> socket[i] != []
    }

    /** Everything still to be parsed. */
    ghost function Unread(): Parsed
      requires Valid()
      reads this, decoder
    {
      Prepend(pending, Parse(decoder.max, decoder.Rest() + Flatten(socket)))
    }

    constructor (maxFrame: nat, maxMessage: nat, socket: seq<Bytes>, broken: bool)
      requires forall i :: 0 <= i < |socket| ==> socket[i] != []
      ensures Valid() && fresh(decoder)
      ensures decoder.max == (if maxFrame < maxMessage then maxFrame else maxMessage)
      ensures this.broken == broken && Unread() == Parse(decoder.max, Flatten(socket))
    {
      decoder := new FrameDecoder(if maxFrame < maxMessage then maxFrame else maxMessage);
      this.maxMessage := maxMessage;
      this.pending, this.socket, this.broken := [], socket, broken;
      new;
      assert decoder.Rest() + Flatten(socket) == Flatten(socket);
      assert [] + Parse(decoder.max, Flatten(socket)).frames == Parse(decoder.max, Flatten(socket)).frames;
    }

    /**
      On a stream without violations the reader returns the parsed payloads in
      order, then reports an incomplete frame exactly when the bytes stop
      mid-frame. The message-size branch is never taken.
    */
    method NextPayload() returns (r: Result<Option<Bytes>, ReadError>)
      requires Valid()
      modifies this, decoder
      ensures r != Err(MessageTooLarge)
      ensures r.Ok? ==> Valid()
      ensures old(Unread()).error.None? ==> Valid()
      ensures old(Unread()).error.None? ==>
        var u := old(Unread());
        if u.frames != [] then
          r == Ok(Some(u.frames[0])) && Unread() == u.(frames := u.frames[1..])
        else
          r == if broken then Err(Io) else if u.rest != [] then Err(UnexpectedEof) else Ok(None)
      ensures old(Unread()).error.Some? ==>
        var u := old(Unread());
        || r == Err(Frame(u.error.value))
        || (u.frames != [] && r == Ok(Some(u.frames[0])) && Unread() == u.(frames := u.frames[1..]))
    {
      hide Parse;
      ghost var whole := Unread();
      while true
        invariant Valid() && Unread() == whole
        decreases |socket|
      {
        if pending != [] {
          var payload := pending[0];
          ghost var p := Parse(decoder.max, decoder.Rest() + Flatten(socket));
          assert (pending + p.frames)[1..] == pending[1..] + p.frames;
          pending := pending[1..];
          if |payload| > maxMessage {
            return Err(MessageTooLarge);
          }
          return Ok(Some(payload));
        }
        if socket == [] {
          assert decoder.Rest() + Flatten(socket) == decoder.Rest();
          decoder.ParseIncomplete();
          if broken {
            return Err(Io);
          }
          return if decoder.HasPendingFrame() then Err(UnexpectedEof) else Ok(None);
        }
        var violation := Fill();
        if violation.Some? {
          return Err(Frame(violation.value));
        }
      }
    }

    /** One successful read: the decoded frames join `pending`. */
    method Fill() returns (violation: Option<DecodeError>)
      requires Valid() && pending == [] && socket != []
      modifies this, decoder
      ensures violation.Some? ==> old(Unread()).error == violation
      ensures violation.None? ==> Valid() && Unread() == old(Unread()) && |socket| < |old(socket)|
    {
      hide Parse;
      var chunk := socket[0];
      ghost var rest, later := decoder.Rest(), Flatten(socket[1..]);
      assert rest + Flatten(socket) == (rest + chunk) + later;
      ParseAppend(decoder.max, rest + chunk, later);
      PrependNil(Parse(decoder.max, rest + Flatten(socket)));
      socket := socket[1..];
      var frames := decoder.Feed(chunk);
      if frames.Err? {
        return Some(frames.error);
      }
      ParseSound(decoder.max, rest + chunk);
      LegalWider(frames.value, decoder.max, maxMessage);
      pending := frames.value;
      return None;
    }
  }

  /**
    Chunking matters once a violation follows complete frames: fed together with
    the offending bytes every frame before them is lost, fed on their own they are
    all returned and only the next feed fails. (Without a violation `ParseAppend`
    shows chunking never matters.)
  */
  lemma ViolationDropsCoalescedFrames(max: nat, payloads: seq<Bytes>, bad: Bytes, e: DecodeError)
    requires AllLegal(payloads, max) && Fed(max, [], bad) == Err(e)
    ensures Fed(max, [], Wire(payloads, max) + bad) == Err(e)
    ensures Fed(max, [], Wire(payloads, max)) == Ok(payloads)
    ensures Parse(max, Wire(payloads, max)).rest == []
  {
    hide Parse, Wire;
    var good := Wire(payloads, max);
    assert [] + bad == bad && [] + good == good && [] + (good + bad) == good + bad && good + [] == good;
    ParseComplete(max, payloads, []);
    ParseAppend(max, good, bad);
  }
}
