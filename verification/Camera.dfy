/** The TCP-JPEG camera: a streaming frame parser, and the fan-out of its frames. */
module Camera {
  import opened Prelude
  import DropOldest

  const HEADER_SIZE := 16

  // Little-endian length in the first four bytes of a header.
  function LengthOf(header: Bytes): nat
    requires |header| >= 4
  {
    header[0] as nat + 0x100 * (header[1] as nat + 0x100 * (header[2] as nat + 0x100 * header[3] as nat))
  }

  // A payload with the twelve header bytes the parser ignores.
  datatype Frame = Frame(reserved: Bytes, payload: Bytes)

  predicate WellFormed(f: Frame) {
    |f.reserved| == 12 && |f.payload| < 0x1_0000_0000
  }

  function LittleEndian(n: nat): (r: Bytes)
    requires n < 0x1_0000_0000
    ensures |r| == 4
  {
    var q1 := n / 0x100;
    var q2 := q1 / 0x100;
    var q3 := q2 / 0x100;
    [(n % 0x100) as Byte, (q1 % 0x100) as Byte, (q2 % 0x100) as Byte, q3 as Byte]
  }

  function Encode(f: Frame): Bytes
    requires WellFormed(f)
  {
    LittleEndian(|f.payload|) + f.reserved + f.payload
  }

  function EncodeAll(frames: seq<Frame>): Bytes
    requires forall f | f in frames :: WellFormed(f)
  {
    if frames == [] then [] else Encode(frames[0]) + EncodeAll(frames[1..])
  }

  // ---------------------------------------------------------------------
  // The reference: decoding a stream that is available all at once.

  // A header and its whole payload are there.
  predicate Complete(stream: Bytes) {
    |stream| >= HEADER_SIZE && |stream| - HEADER_SIZE >= LengthOf(stream)
  }

  function FirstPayload(stream: Bytes): Bytes
    requires Complete(stream)
  {
    stream[HEADER_SIZE..HEADER_SIZE + LengthOf(stream)]
  }

  function AfterFirst(stream: Bytes): Bytes
    requires Complete(stream)
  {
    stream[HEADER_SIZE + LengthOf(stream)..]
  }

  function Payloads(stream: Bytes): seq<Bytes>
    decreases |stream|
  {
    if Complete(stream) then [FirstPayload(stream)] + Payloads(AfterFirst(stream)) else []
  }

  // What decoding leaves over: the start of a frame that is not complete yet.
  function Remainder(stream: Bytes): (r: Bytes)
    ensures !Complete(r)
    decreases |stream|
  {
    if Complete(stream) then Remainder(AfterFirst(stream)) else stream
  }

  lemma LengthOfPrefix(a: Bytes, b: Bytes)
    ensures |a| >= 4 ==> LengthOf(a + b) == LengthOf(a)
  {}

  lemma DecodeStep(stream: Bytes)
    ensures Complete(stream) ==>
              && Payloads(stream) == [FirstPayload(stream)] + Payloads(AfterFirst(stream))
              && Remainder(stream) == Remainder(AfterFirst(stream))
    ensures !Complete(stream) ==> Payloads(stream) == [] && Remainder(stream) == stream
  {}

  lemma {:induction false} DecodeConcat(a: Bytes, b: Bytes)
    ensures Payloads(a + b) == Payloads(a) + Payloads(Remainder(a) + b)
    ensures Remainder(a + b) == Remainder(Remainder(a) + b)
    decreases |a|
  {
    if Complete(a) {
      assert FirstPayload(a + b) == FirstPayload(a);
      assert AfterFirst(a + b) == AfterFirst(a) + b;
      DecodeConcat(AfterFirst(a), b);
    }
  }

  lemma LittleEndianLength(n: nat)
    requires n < 0x1_0000_0000
    ensures LengthOf(LittleEndian(n)) == n
  {}

  lemma LengthLittleEndian(header: Bytes)
    requires |header| >= 4
    ensures LengthOf(header) < 0x1_0000_0000
    ensures LittleEndian(LengthOf(header)) == header[..4]
  {
    var b0, b1, b2, b3 := header[0] as nat, header[1] as nat, header[2] as nat, header[3] as nat;
    var q2 := b2 + 0x100 * b3;
    var q1 := b1 + 0x100 * q2;
    assert LengthOf(header) == b0 + 0x100 * q1;
    assert (b0 + 0x100 * q1) / 0x100 == q1 && (b0 + 0x100 * q1) % 0x100 == b0;
    assert q1 / 0x100 == q2 && q1 % 0x100 == b1;
    assert q2 / 0x100 == b3 && q2 % 0x100 == b2;
  }

  lemma {:induction false} DecodeEncoded(frames: seq<Frame>, rest: Bytes)
    requires forall f | f in frames :: WellFormed(f)
    requires !Complete(rest)
    ensures Payloads(EncodeAll(frames) + rest) == seq(|frames|, i requires 0 <= i < |frames| => frames[i].payload)
    ensures Remainder(EncodeAll(frames) + rest) == rest
  {
    hide LengthOf, LittleEndian;
    if frames == [] {
      assert EncodeAll(frames) + rest == rest;
    } else {
      var head, tail := frames[0], EncodeAll(frames[1..]) + rest;
      var stream := EncodeAll(frames) + rest;
      assert stream == Encode(head) + tail;
      LittleEndianLength(|head.payload|);
      LengthOfPrefix(LittleEndian(|head.payload|), stream[4..]);
      assert stream == LittleEndian(|head.payload|) + stream[4..];
      assert FirstPayload(stream) == head.payload;
      assert AfterFirst(stream) == tail;
      DecodeEncoded(frames[1..], rest);
    }
  }

  function FirstFrame(stream: Bytes): Frame
    requires Complete(stream)
  {
    Frame(stream[4..HEADER_SIZE], FirstPayload(stream))
  }

  // Reads a stream back into frames, reserved bytes included.
  function FramesOf(stream: Bytes): (frames: seq<Frame>)
    decreases |stream|
  {
    if Complete(stream) then [FirstFrame(stream)] + FramesOf(AfterFirst(stream)) else []
  }

  lemma EncodeFirst(stream: Bytes)
    requires Complete(stream)
    ensures WellFormed(FirstFrame(stream))
    ensures Encode(FirstFrame(stream)) + AfterFirst(stream) == stream
  {
    hide LengthOf, LittleEndian;
    LengthLittleEndian(stream);
  }

  lemma FramesStep(stream: Bytes)
    requires Complete(stream)
    ensures FramesOf(stream) == [FirstFrame(stream)] + FramesOf(AfterFirst(stream))
    ensures FirstFrame(stream).payload == FirstPayload(stream)
  {}

  lemma {:induction false} FramesCarryPayloads(stream: Bytes)
    ensures Payloads(stream) == seq(|FramesOf(stream)|,
                                    i requires 0 <= i < |FramesOf(stream)| => FramesOf(stream)[i].payload)
    decreases |stream|
  {
    if Complete(stream) {
      FramesCarryPayloads(AfterFirst(stream));
      DecodeStep(stream);
      FramesStep(stream);
      hide Payloads, FramesOf, AfterFirst, FirstPayload, FirstFrame, Complete;
    }
  }

  /** Every stream is the encoding of the frames decoded from it, followed by what was left over. */
  lemma {:induction false} EncodeDecoded(stream: Bytes)
    ensures forall f | f in FramesOf(stream) :: WellFormed(f)
    ensures EncodeAll(FramesOf(stream)) + Remainder(stream) == stream
    ensures Payloads(stream) == seq(|FramesOf(stream)|,
                                    i requires 0 <= i < |FramesOf(stream)| => FramesOf(stream)[i].payload)
    decreases |stream|
  {
    FramesCarryPayloads(stream);
    if Complete(stream) {
      var first, rest := FirstFrame(stream), AfterFirst(stream);
      EncodeFirst(stream);
      EncodeDecoded(rest);
      FramesStep(stream);
      DecodeStep(stream);
      hide FramesOf, AfterFirst, FirstPayload, FirstFrame, Complete, Payloads, Encode, LengthOf, WellFormed, Remainder;
      assert ([first] + FramesOf(rest))[1..] == FramesOf(rest);
      assert EncodeAll(FramesOf(stream)) == Encode(first) + EncodeAll(FramesOf(rest));
      assert EncodeAll(FramesOf(stream)) + Remainder(stream) == Encode(first) + rest;
    }
  }

  // ---------------------------------------------------------------------
  // The streaming parser

  /** Keeps the bytes of one incomplete frame; once its header is read, only its payload so far. */
  class FrameParser {
    var buffer: Bytes
    var expectedLen: Option<nat>
    ghost var received: Bytes

    // The parser holds the remainder of everything it was fed.
    ghost predicate Valid()
      reads this
    {
      Parsing(Remainder(received))
    }

    ghost predicate Parsing(rest: Bytes)
      reads this
    {
      match expectedLen
      case None => buffer == rest
      case Some(n) => |rest| >= HEADER_SIZE && LengthOf(rest) == n && buffer == rest[HEADER_SIZE..]
    }

    constructor ()
      ensures Valid() && received == []
    {
      buffer, expectedLen, received := [], None, [];
    }

    /** Returns the payloads completed by this chunk: those of the whole stream that were not returned before. */
    method Feed(data: Bytes) returns (out: seq<Bytes>)
      requires Valid()
      modifies this
      ensures Valid()
      ensures received == old(received) + data
      ensures Payloads(received) == Payloads(old(received)) + out
      ensures |buffer| < if expectedLen.Some? then expectedLen.value else HEADER_SIZE
    {
      hide Payloads, Remainder, LengthOf;
      ghost var rest := Remainder(received) + data;
      LengthOfPrefix(Remainder(received), data);
      DecodeConcat(received, data);
      received := received + data;
      buffer := buffer + data;
      out := [];
      while true
        invariant Parsing(rest)
        invariant out + Payloads(rest) == Payloads(Remainder(old(received)) + data)
        invariant Remainder(rest) == Remainder(received)
        invariant received == old(received) + data
        decreases |buffer|, if expectedLen.Some? then 1 else 0
      {
        DecodeStep(rest);
        if expectedLen.None? {
          if |buffer| < HEADER_SIZE {
            break;
          }
          assert LengthOf(buffer) == LengthOf(rest);
          expectedLen := Some(LengthOf(buffer));
          buffer := buffer[HEADER_SIZE..];
        }
        if |buffer| < expectedLen.value {
          break;
        }
        var jpeg := buffer[..expectedLen.value];
        buffer := buffer[expectedLen.value..];
        expectedLen := None;
        assert Complete(rest) && jpeg == FirstPayload(rest);
        assert out + Payloads(rest) == (out + [jpeg]) + Payloads(AfterFirst(rest));
        out := out + [jpeg];
        rest := AfterFirst(rest);
      }
    }
  }

  /** Feeding a stream in any chunks yields, all together, the payloads of the whole stream. */
  method FeedAll(chunks: seq<Bytes>) returns (out: seq<Bytes>)
    ensures out == Payloads(Concat(chunks))
  {
    var parser := new FrameParser();
    out := [];
    for i := 0 to |chunks|
      invariant parser.Valid() && fresh(parser)
      invariant parser.received == Concat(chunks[..i])
      invariant out == Payloads(parser.received)
    {
      var more := parser.Feed(chunks[i]);
      out := out + more;
      assert chunks[..i + 1][..i] == chunks[..i];
    }
    assert chunks[..|chunks|] == chunks;
  }

  function Concat(chunks: seq<Bytes>): Bytes {
    if chunks == [] then [] else Concat(chunks[..|chunks| - 1]) + chunks[|chunks| - 1]
  }

  // Where a stream is cut: from its beginning on, never going back.
  predicate Cuts(stream: Bytes, cuts: seq<nat>) {
    && cuts != [] && cuts[0] == 0
    && (forall i | 0 <= i < |cuts| :: cuts[i] <= |stream|)
    && (forall i, j | 0 <= i <= j < |cuts| :: cuts[i] <= cuts[j])
  }

  function Pieces(stream: Bytes, cuts: seq<nat>): seq<Bytes>
    requires Cuts(stream, cuts)
  {
    seq(|cuts| - 1, i requires 0 <= i < |cuts| - 1 => stream[cuts[i]..cuts[i + 1]])
  }

  /** However a stream is cut into chunks, they are together the stream up to the last cut. */
  lemma {:induction false} PiecesJoin(stream: Bytes, cuts: seq<nat>)
    requires Cuts(stream, cuts)
    ensures Concat(Pieces(stream, cuts)) == stream[..cuts[|cuts| - 1]]
  {
    if |cuts| > 1 {
      var shorter := cuts[..|cuts| - 1];
      PiecesJoin(stream, shorter);
      assert Pieces(stream, cuts)[..|cuts| - 2] == Pieces(stream, shorter);
    }
  }

  // ---------------------------------------------------------------------
  // Fan-out

  /** Caches the latest frame and queues it for every subscriber. */
  class CameraProxy {
    const queueMaxsize: int
    var latestFrame: Option<Bytes>
    var subscribers: map<DropOldest.Subscriber, seq<Bytes>>

    function Fan(): DropOldest.Fan<Bytes>
      reads this
    {
      DropOldest.Fan(latestFrame, subscribers)
    }

    constructor (queueMaxsize: int)
      ensures this.queueMaxsize == queueMaxsize && Fan() == DropOldest.Fan(None, map[])
    {
      this.queueMaxsize := queueMaxsize;
      latestFrame, subscribers := None, map[];
    }

    method Subscribe(id: DropOldest.Subscriber)
      requires id !in subscribers
      modifies this
      ensures Fan() == DropOldest.FanStep(old(Fan()), queueMaxsize, DropOldest.Join(id))
    {
      var queue := [];
      if latestFrame.Some? {
        queue := [latestFrame.value];
      }
      subscribers := subscribers[id := queue];
    }

    method Next(id: DropOldest.Subscriber) returns (frame: Option<Bytes>)
      requires id in subscribers
      modifies this
      ensures Fan() == DropOldest.FanStep(old(Fan()), queueMaxsize, DropOldest.Receive(id))
      ensures frame == if old(subscribers)[id] == [] then None else Some(old(subscribers)[id][0])
    {
      var queue := subscribers[id];
      if queue == [] {
        return None;
      }
      subscribers := subscribers[id := queue[1..]];
      return Some(queue[0]);
    }

    method Unsubscribe(id: DropOldest.Subscriber)
      modifies this
      ensures Fan() == DropOldest.FanStep(old(Fan()), queueMaxsize, DropOldest.Leave(id))
    {
      subscribers := subscribers - {id};
    }

    method Publish(frame: Bytes)
      modifies this
      ensures Fan() == DropOldest.FanStep(old(Fan()), queueMaxsize, DropOldest.Publish(frame))
    {
      latestFrame := Some(frame);
      var waiting := subscribers.Keys;
      while waiting != {}
        invariant latestFrame == Some(frame)
        invariant waiting <= subscribers.Keys == old(subscribers).Keys
        invariant forall id | id in subscribers ::
          subscribers[id] == if id in waiting then old(subscribers)[id]
                             else DropOldest.Push(old(subscribers)[id], queueMaxsize, frame)
      {
        var id :| id in waiting;
        var queue := subscribers[id];
        if DropOldest.Full(queue, queueMaxsize) {
          queue := queue[1..];
        }
        subscribers := subscribers[id := queue + [frame]];
        waiting := waiting - {id};
      }
      assert subscribers == DropOldest.PushAll(old(subscribers), queueMaxsize, frame);
    }
  }
}
