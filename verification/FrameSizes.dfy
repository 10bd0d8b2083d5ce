/** The private link's frames in plain numbers: four length bytes, chunks of 64 KiB, heads of 8 KiB and responses of 8 MiB. */
module FrameSizes {
  import opened Utf8
  import opened Frames

  // ---------------------------------------------------------------------------------------------
  // One frame

  /** Four bytes, the most significant first. */
  predicate BigEndian(b: Bytes, n: nat)
    requires |b| >= 4
  {
    n == 16777216 * (b[0] as int) + 65536 * (b[1] as int) + 256 * (b[2] as int) + b[3] as int
  }

  lemma FrameIs(data: Bytes)
    requires |data| < 4294967296
    ensures |Frame(data)| == 4 + |data| && BigEndian(Frame(data), |data|) && Frame(data)[4..] == data
  {
    LengthReads(|data|, data);
  }

  /** What a reader makes of the next bytes: too few, a length over its limit, or exactly that many bytes. */
  lemma ReadIs(b: Bytes, max: nat, n: nat)
    ensures |b| < 4 ==> ReadFrame(b, max) == Broken
    ensures |b| >= 4 && BigEndian(b, n) ==>
              ReadFrame(b, max) == if max < n then TooLong else if |b| < 4 + n then Broken else Got(b[4..4 + n], b[4 + n..])
  {
  }

  // ---------------------------------------------------------------------------------------------
  // The chunks of an item

  /** All but the last have 65536 bytes, and the last is not empty. */
  predicate Pieces(item: Bytes, chunks: seq<Bytes>)
  {
    && Concat(chunks) == item
    && (forall i :: 0 <= i < |chunks| - 1 ==> |chunks[i]| == 65536)
    && (chunks != [] ==> 1 <= |chunks[|chunks| - 1]| <= 65536)
  }

  lemma {:induction false} ChunksAre(item: Bytes)
    ensures Pieces(item, Chunks(item))
    decreases |item|
  {
    ChunksAreSound(item);
    if |item| > 65536 {
      var tail := item[65536..];
      ChunksAre(tail);
      var chunks, rest := Chunks(item), Chunks(tail);
      assert chunks == [item[..65536]] + rest;
      assert rest != [];
      forall i | 0 <= i < |chunks| - 1 ensures |chunks[i]| == 65536 { if i > 0 { assert chunks[i] == rest[i - 1]; } }
      assert chunks[|chunks| - 1] == rest[|rest| - 1];
    }
  }

  // ---------------------------------------------------------------------------------------------
  // Whole responses

  /** Nonempty chunks of at most 64 KiB, together at most 8 MiB. */
  predicate Body(chunks: seq<Bytes>)
  {
    (forall i :: 0 <= i < |chunks| ==> 1 <= |chunks[i]| <= 65536) && |Concat(chunks)| <= 8388608
  }

  /** The frames of the chunks, one after the other. */
  function Wire(chunks: seq<Bytes>): Bytes
    requires forall i :: 0 <= i < |chunks| ==> 1 <= |chunks[i]| <= 65536
  {
    if chunks == [] then [] else Frame(chunks[0]) + Wire(chunks[1..])
  }

  lemma {:induction false} WireIs(chunks: seq<Bytes>)
    requires forall i :: 0 <= i < |chunks| ==> 1 <= |chunks[i]| <= 65536
    ensures Wire(chunks) == Framed(chunks)
  {
    hide Frame;
    if chunks != [] {
      WireIs(chunks[1..]);
    }
  }

  /** A response is terminated exactly when its body is at most 8 MiB. */
  lemma ServedIs(head: Bytes, items: seq<Bytes>)
    requires |head| <= 8192
    ensures Sound(AllChunks(items))
    ensures var sent := Serve(head, items, AllChunks(items));
            && (sent.Complete? <==> |Concat(items)| <= 8388608)
            && sent.wire == Frame(head) + Framed(AllChunks(items)) + if sent.Complete? then [0, 0, 0, 0] else []
  {
    hide Frame, Framed;
    AllChunksAreSound(items);
    assert Frame(head) + Framed(AllChunks(items)) + [] == Frame(head) + Framed(AllChunks(items));
  }

  /** Main result: a response completes exactly when it is a head of at most 8 KiB, a body within its limits, and the terminator. */
  lemma CompletesExactlyWhen(wire: Bytes, head: Bytes, chunks: seq<Bytes>)
    ensures Receive(wire) == Received(head, Done(chunks)) <==>
            |head| <= 8192 && Body(chunks) && wire == Frame(head) + (Wire(chunks) + [0, 0, 0, 0])
  {
    hide ReadFrame, Frame, Framed, ReadBody, Wire;
    if Receive(wire) == Received(head, Done(chunks)) {
      var r := ReadFrame(wire, 8192);
      ReadIsWritten(wire, 8192);
      CompletedIsFramed(r.rest, 0);
      WireIs(chunks);
    }
    if |head| <= 8192 && Body(chunks) && wire == Frame(head) + (Wire(chunks) + [0, 0, 0, 0]) {
      WireIs(chunks);
      FrameReads(head, Wire(chunks) + [0, 0, 0, 0], 8192);
      BodyReads(chunks, 0, []);
      assert Framed(chunks) + END + [] == Wire(chunks) + [0, 0, 0, 0];
    }
  }
}
