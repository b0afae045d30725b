/** The framed channel between the lab and its nodes (ops/fifo-lab/node.py, ops/fifo-lab/run.py): an incremental
    parser at one end and a blocking reader at the other, over any cutting of the same bytes.
 */
module FramedChannel {
  import opened Chunks
  import opened Options

  type Byte = x: int | 0 <= x < 256

  datatype Frame = Frame(kind: Byte, payload: seq<Byte>)

  const HEADER_SIZE := 5
  const MAX_FRAME := 131072
  const PACKET: Byte := 80   // 'P'
  const COMMAND: Byte := 67  // 'C'

  /** The length field: four bytes, the most significant first. */
  function Length(n: nat): (r: seq<Byte>)
    requires n < 0x1_0000_0000
    ensures |r| == 4
  {
    [n / 0x100_0000, n / 0x1_0000 % 256, n / 256 % 256, n % 256]
  }

  function LengthOf(b: seq<Byte>): nat
    requires |b| >= HEADER_SIZE
  {
    Number(b[1], b[2], b[3], b[4])
  }

  function Number(a: int, b: int, c: int, d: int): int {
    ((a * 256 + b) * 256 + c) * 256 + d
  }

  function Encode(f: Frame): (r: Option<seq<Byte>>)
    ensures r.Some? <==> |f.payload| <= MAX_FRAME
  {
    if |f.payload| > MAX_FRAME then None else Some([f.kind] + Length(|f.payload|) + f.payload)
  }

  predicate Sendable(frames: seq<Frame>) {
    forall k :: 0 <= k < |frames| ==> |frames[k].payload| <= MAX_FRAME
  }

  function EncodeAll(frames: seq<Frame>): seq<Byte>
    requires Sendable(frames)
  {
    if frames == [] then [] else Encode(frames[0]).value + EncodeAll(frames[1..])
  }

  // ----- One frame

  datatype Next = Wait | Oversized | Got(frame: Frame, size: nat)

  /** What the bytes received so far begin with. */
  function Look(b: seq<Byte>): (r: Next)
    ensures r.Got? ==> HEADER_SIZE <= r.size <= |b|
  {
    if |b| < HEADER_SIZE then Wait
    else if LengthOf(b) > MAX_FRAME then Oversized
    else if |b| < HEADER_SIZE + LengthOf(b) then Wait
    else Got(Frame(b[0], b[HEADER_SIZE..HEADER_SIZE + LengthOf(b)]), HEADER_SIZE + LengthOf(b))
  }

  lemma LengthRoundTrip(n: nat)
    requires n < 0x1_0000_0000
    ensures
      var r := Length(n);
      Number(r[0], r[1], r[2], r[3]) == n
  {
    var a, b := n / 256, n / 0x1_0000;
    assert n / 0x1_0000 == a / 256 && n / 0x100_0000 == b / 256;
    assert n == a * 256 + n % 256 && a == b * 256 + a % 256 && b == b / 256 * 256 + b % 256;
  }

  /** A frame is read back from its own bytes, whatever follows them. */
  lemma LookAtEncoded(f: Frame, tail: seq<Byte>)
    requires |f.payload| <= MAX_FRAME
    ensures Look(Encode(f).value + tail) == Got(f, HEADER_SIZE + |f.payload|)
  {
    var b := Encode(f).value + tail;
    LengthRoundTrip(|f.payload|);
    assert b[0] == f.kind && b[1..HEADER_SIZE] == Length(|f.payload|);
    assert forall k :: 1 <= k < HEADER_SIZE ==> b[k] == Length(|f.payload|)[k - 1];
    assert b[HEADER_SIZE..HEADER_SIZE + |f.payload|] == f.payload;
  }

  /** Conversely the bytes taken for a frame are the bytes of that frame. */
  lemma EncodedIsTaken(b: seq<Byte>)
    requires Look(b).Got?
    ensures |Look(b).frame.payload| <= MAX_FRAME
    ensures b == Encode(Look(b).frame).value + b[Look(b).size..]
  {
    hide Length, Number;
    var n := LengthOf(b);
    LengthInjective(b[1], b[2], b[3], b[4]);
    assert Encode(Look(b).frame).value == [b[0]] + [b[1], b[2], b[3], b[4]] + b[HEADER_SIZE..HEADER_SIZE + n];
    assert b[..HEADER_SIZE] == [b[0]] + [b[1], b[2], b[3], b[4]];
  }

  lemma LengthInjective(b1: Byte, b2: Byte, b3: Byte, b4: Byte)
    ensures 0 <= Number(b1, b2, b3, b4) < 0x1_0000_0000 && Length(Number(b1, b2, b3, b4)) == [b1, b2, b3, b4]
  {
    var x: int := b1 as int * 256 + b2;
    var y := x * 256 + b3;
    var n := y * 256 + b4;
    assert n / 256 == y && y / 256 == x && x / 256 == b1;
    assert n / 0x1_0000 == x && n / 0x100_0000 == b1;
  }

  /** More bytes never change a decision that was already possible. */
  lemma LookIsStable(b: seq<Byte>, more: seq<Byte>)
    requires !Look(b).Wait?
    ensures Look(b + more) == Look(b)
  {
    if Look(b).Got? {
      assert (b + more)[HEADER_SIZE..HEADER_SIZE + LengthOf(b)] == b[HEADER_SIZE..HEADER_SIZE + LengthOf(b)];
    }
  }

  // ----- A whole stream

  datatype Fault = OversizedFrame | UnexpectedKind

  /** What a node makes of a stream: the frames it handled, the bytes left over, and what stopped it. */
  datatype Consumed = Consumed(frames: seq<Frame>, pending: seq<Byte>, fault: Option<Fault>)

  predicate Known(kind: Byte) {
    kind == PACKET || kind == COMMAND
  }

  function Consume(b: seq<Byte>): Consumed
    decreases |b|
  {
    var next := Look(b);
    if next.Wait? then Consumed([], b, None)
    else if next.Oversized? then Consumed([], b, Some(OversizedFrame))
    else if !Known(next.frame.kind) then Consumed([], b[next.size..], Some(UnexpectedKind))
    else
      var rest := Consume(b[next.size..]);
      rest.(frames := [next.frame] + rest.frames)
  }

  /** Continues after the bytes of `r` with more bytes; a fault is final. */
  function Continue(r: Consumed, more: seq<Byte>): Consumed {
    if r.fault.Some? then r.(pending := r.pending + more)
    else
      var s := Consume(r.pending + more);
      s.(frames := r.frames + s.frames)
  }

  /** Where a stream is cut does not matter. */
  lemma {:induction false} ConsumeInTwo(a: seq<Byte>, b: seq<Byte>)
    ensures Consume(a + b) == Continue(Consume(a), b)
    decreases |a|
  {
    var next := Look(a);
    if !next.Wait? {
      LookIsStable(a, b);
      if next.Got? {
        var rest := a[next.size..];
        assert (a + b)[next.size..] == rest + b;
        if Known(next.frame.kind) {
          ConsumeInTwo(rest, b);
          var r := Consume(rest);
          assert [next.frame] + (r.frames + Consume(r.pending + b).frames)
             == [next.frame] + r.frames + Consume(r.pending + b).frames;
        }
      }
    } else {
      assert [] + Consume(a + b).frames == Consume(a + b).frames;
    }
  }

  predicate AllKnown(frames: seq<Frame>) {
    forall k :: 0 <= k < |frames| ==> Known(frames[k].kind)
  }

  /** Every frame sent is delivered, in order, once and whole. */
  lemma {:induction false} SentIsDelivered(frames: seq<Frame>, tail: seq<Byte>)
    requires Sendable(frames) && AllKnown(frames) && Look(tail).Wait?
    ensures Consume(EncodeAll(frames) + tail) == Consumed(frames, tail, None)
  {
    hide Look, Length;
    if frames == [] {
      assert EncodeAll(frames) + tail == tail;
    } else {
      var first, rest := Encode(frames[0]).value, EncodeAll(frames[1..]);
      assert EncodeAll(frames) + tail == first + (rest + tail);
      LookAtEncoded(frames[0], rest + tail);
      assert (first + (rest + tail))[|first|..] == rest + tail;
      SentIsDelivered(frames[1..], tail);
    }
  }

  /** No byte is lost or invented: a stream that causes no fault is the delivered frames and an incomplete one. */
  lemma {:induction false} BytesAreConserved(b: seq<Byte>)
    ensures
      var r := Consume(b);
      && Sendable(r.frames) && AllKnown(r.frames)
      && (r.fault.None? ==> Look(r.pending).Wait? && EncodeAll(r.frames) + r.pending == b)
    decreases |b|
  {
    hide Look, Encode, EncodeAll, Known;
    var next := Look(b);
    if next.Got? && Known(next.frame.kind) {
      var r := Consume(b[next.size..]);
      BytesAreConserved(b[next.size..]);
      EncodedIsTaken(b);
      EncodesFirst(next.frame, r.frames, r.pending);
    } else {
      EncodesNothing(b);
    }
  }

  lemma EncodesNothing(tail: seq<Byte>)
    ensures EncodeAll([]) + tail == tail
  {
  }

  lemma EncodesFirst(f: Frame, frames: seq<Frame>, tail: seq<Byte>)
    requires |f.payload| <= MAX_FRAME && Sendable(frames)
    ensures Sendable([f] + frames)
    ensures AllKnown([f] + frames) <==> Known(f.kind) && AllKnown(frames)
    ensures EncodeAll([f] + frames) + tail == Encode(f).value + (EncodeAll(frames) + tail)
  {
    hide Encode, Known;
    var all := [f] + frames;
    assert all[0] == f && all[1..] == frames;
    assert Encode(f).value + EncodeAll(frames) + tail == Encode(f).value + (EncodeAll(frames) + tail);
  }

  // ----- Chunks

  /** The incremental parser: bytes wait in `pending` until a frame is complete. */
  class Node {
    var pending: seq<Byte>
    var handled: seq<Frame>
    var fault: Option<Fault>

    function State(): Consumed
      reads this
    {
      Consumed(handled, pending, fault)
    }

    constructor ()
      ensures State() == Consumed([], [], None)
    {
      pending, handled, fault := [], [], None;
    }

    method Feed(chunk: seq<Byte>)
      requires fault.None?
      modifies this
      ensures State() == Continue(old(State()), chunk)
    {
      hide Look, LengthOf;
      pending := pending + chunk;
      ghost var goal := Continue(old(State()), chunk);
      assert pending + [] == pending;
      while |pending| >= HEADER_SIZE
        invariant fault.None? && goal == Continue(State(), [])
        decreases |pending|
      {
        assert pending + [] == pending;
        LookFollowsHeader(pending);
        var length := LengthOf(pending);
        if length > MAX_FRAME {
          fault := Some(OversizedFrame);
          assert pending + [] == pending;
          return;
        }
        if |pending| < HEADER_SIZE + length {
          break;
        }
        var frame := Frame(pending[0], pending[HEADER_SIZE..HEADER_SIZE + length]);
        ghost var rest := Consume(pending[HEADER_SIZE + length..]);
        pending := pending[HEADER_SIZE + length..];
        assert pending + [] == pending;
        if !Known(frame.kind) {
          fault := Some(UnexpectedKind);
          assert handled + [] == handled;
          return;
        }
        assert handled + ([frame] + rest.frames) == handled + [frame] + rest.frames;
        handled := handled + [frame];
      }
      assert pending + [] == pending;
      LookWaits(pending);
      assert handled + [] == handled;
    }

    /** The loop over what reading yields; an empty read closes the channel. */
    method Loop(chunks: seq<seq<Byte>>)
      requires State() == Consumed([], [], None)
      requires forall k :: 0 <= k < |chunks| ==> chunks[k] != []
      modifies this
      ensures State().frames == Consume(Join(chunks)).frames && fault == Consume(Join(chunks)).fault
      ensures fault.None? ==> pending == Consume(Join(chunks)).pending && Look(pending).Wait?
    {
      hide Consume, Look;
      var k := 0;
      EmptyIsNothing();
      while k < |chunks| && fault.None?
        invariant 0 <= k <= |chunks|
        invariant State() == Consume(Join(chunks[..k]))
      {
        assert chunks[..k + 1][..k] == chunks[..k];
        ConsumeInTwo(Join(chunks[..k]), chunks[k]);
        Feed(chunks[k]);
        k := k + 1;
      }
      JoinSplits(chunks, k);
      ConsumeInTwo(Join(chunks[..k]), Join(chunks[k..]));
      if fault.None? {
        assert chunks[..k] == chunks;
        BytesAreConserved(Join(chunks));
      }
    }
  }

  lemma EmptyIsNothing()
    ensures Consume(Join([])) == Consumed([], [], None)
  {
  }

  lemma LookFollowsHeader(b: seq<Byte>)
    requires |b| >= HEADER_SIZE
    ensures
      Look(b) ==
        if LengthOf(b) > MAX_FRAME then Oversized
        else if |b| < HEADER_SIZE + LengthOf(b) then Wait
        else Got(Frame(b[0], b[HEADER_SIZE..HEADER_SIZE + LengthOf(b)]), HEADER_SIZE + LengthOf(b))
  {
  }

  lemma LookWaits(b: seq<Byte>)
    ensures |b| < HEADER_SIZE ==> Look(b) == Wait
  {
  }

  // ----- The blocking reader

  datatype End = Closed | Refused

  datatype Reading = Reading(frames: seq<Frame>, end: End)

  /** What the lab's reader queues before the channel ends; it checks lengths and leaves kinds to its consumer. */
  function ReadFrames(b: seq<Byte>): Reading
    decreases |b|
  {
    var next := Look(b);
    if next.Wait? then Reading([], Closed)
    else if next.Oversized? then Reading([], Refused)
    else
      var rest := ReadFrames(b[next.size..]);
      rest.(frames := [next.frame] + rest.frames)
  }

  /** Frames of any kind reach the queue in order, once and whole; an incomplete last one is dropped. */
  lemma {:induction false} SentIsQueued(frames: seq<Frame>, tail: seq<Byte>)
    requires Sendable(frames) && Look(tail).Wait?
    ensures ReadFrames(EncodeAll(frames) + tail) == Reading(frames, Closed)
  {
    hide Look, Length;
    if frames == [] {
      assert EncodeAll(frames) + tail == tail;
    } else {
      var first, rest := Encode(frames[0]).value, EncodeAll(frames[1..]);
      assert EncodeAll(frames) + tail == first + (rest + tail);
      LookAtEncoded(frames[0], rest + tail);
      assert (first + (rest + tail))[|first|..] == rest + tail;
      SentIsQueued(frames[1..], tail);
    }
  }

  /** Both ends agree on every stream, up to the first kind that only the node refuses. */
  lemma {:induction false} BothEndsAgree(b: seq<Byte>)
    ensures
      var n := Consume(b);
      var r := ReadFrames(b);
      && n.frames <= r.frames
      && (n.fault == Some(UnexpectedKind) <==> !AllKnown(r.frames))
      && (n.fault != Some(UnexpectedKind) ==>
            n.frames == r.frames && (n.fault == Some(OversizedFrame) <==> r.end == Refused))
      && (n.fault == Some(UnexpectedKind) ==> |n.frames| < |r.frames| && !Known(r.frames[|n.frames|].kind))
    decreases |b|
  {
    var next := Look(b);
    if next.Got? {
      var n, r := Consume(b[next.size..]), ReadFrames(b[next.size..]);
      BothEndsAgree(b[next.size..]);
      var all := [next.frame] + r.frames;
      assert all[0] == next.frame && all[1..] == r.frames;
      assert AllKnown(all) <==> Known(next.frame.kind) && AllKnown(r.frames);
    }
  }

  /** The bytes of a channel until it closes; one read returns some of them, and none only at the end. */
  class Stream {
    var data: seq<Byte>

    constructor (data: seq<Byte>)
      ensures this.data == data
    {
      this.data := data;
    }

    method Read(size: nat) returns (chunk: seq<Byte>)
      requires size > 0
      modifies this
      ensures chunk + data == old(data) && |chunk| <= size
      ensures chunk == [] <==> old(data) == []
    {
      var most := if |data| < size then |data| else size;
      if most == 0 {
        return [];
      }
      var n :| 1 <= n <= most;
      chunk := data[..n];
      data := data[n..];
    }
  }

  method ReadExact(stream: Stream, size: nat) returns (out: Option<seq<Byte>>)
    modifies stream
    ensures |old(stream.data)| >= size ==>
      out == Some(old(stream.data)[..size]) && stream.data == old(stream.data)[size..]
    ensures |old(stream.data)| < size ==> out.None? && stream.data == []
  {
    var got: seq<Byte> := [];
    while |got| < size
      invariant |got| <= size && got + stream.data == old(stream.data)
      decreases size - |got|
    {
      var chunk := stream.Read(size - |got|);
      if chunk == [] {
        return None;
      }
      got := got + chunk;
    }
    out := Some(got);
  }

  lemma SameLength(b: seq<Byte>)
    requires |b| >= HEADER_SIZE
    ensures LengthOf(b[..HEADER_SIZE]) == LengthOf(b)
  {
  }

  lemma PayloadFollows(b: seq<Byte>, length: nat)
    requires HEADER_SIZE + length <= |b|
    ensures b[HEADER_SIZE..][..length] == b[HEADER_SIZE..HEADER_SIZE + length]
    ensures b[HEADER_SIZE..][length..] == b[HEADER_SIZE + length..]
  {
  }

  method Reader(stream: Stream) returns (queued: seq<Frame>, end: End)
    modifies stream
    ensures Reading(queued, end) == ReadFrames(old(stream.data))
  {
    hide Look, LengthOf;
    queued := [];
    ghost var goal := ReadFrames(stream.data);
    while true
      invariant
        var rest := ReadFrames(stream.data);
        goal == rest.(frames := queued + rest.frames)
      decreases |stream.data|
    {
      ghost var b := stream.data;
      LookWaits(b);
      var header := ReadExact(stream, HEADER_SIZE);
      if header.None? {
        return queued, Closed;
      }
      LookFollowsHeader(b);
      SameLength(b);
      var length := LengthOf(header.value);
      if length > MAX_FRAME {
        return queued, Refused;
      }
      var payload := ReadExact(stream, length);
      if payload.None? {
        return queued, Closed;
      }
      PayloadFollows(b, length);
      var frame := Frame(header.value[0], payload.value);
      ghost var rest := ReadFrames(stream.data);
      assert queued + ([frame] + rest.frames) == queued + [frame] + rest.frames;
      queued := queued + [frame];
    }
  }
}
