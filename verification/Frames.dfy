/** Length-prefixed frames and the framed response of the private link (crates/link/src/lib.rs). */
module Frames {
  import opened Utf8

  type Bytes = seq<Byte>

  const HEADER := 8192
  const CHUNK := 65536
  const RESPONSE := 8388608
  const U32 := 0x1_0000_0000

  // ---------------------------------------------------------------------------------------------
  // One frame

  /** Big-endian, as `write_u32`. */
  function Length(n: nat): Bytes
    requires n < U32
  {
    [n / 0x100_0000, n / 0x1_0000 % 256, n / 256 % 256, n % 256]
  }

  function LengthOf(b: Bytes): nat
    requires |b| >= 4
  {
    var a: int := b[0];
    var c: int := b[1];
    var d: int := b[2];
    var e: int := b[3];
    a * 0x100_0000 + c * 0x1_0000 + d * 256 + e
  }

  /** `write_frame`: a length that does not fit in 32 bits is an error there, and never happens for a chunk or a head. */
  function Frame(data: Bytes): Bytes
    requires |data| < U32
  {
    Length(|data|) + data
  }

  datatype Read = Broken | TooLong | Got(data: Bytes, rest: Bytes)

  function ReadFrame(b: Bytes, max: nat): (r: Read)
    ensures r.Got? ==> |r.rest| + 4 <= |b| && |r.data| <= max
  {
    if |b| < 4 then Broken
    else
      var n := LengthOf(b);
      if n > max then TooLong else if |b| - 4 < n then Broken else Got(b[4..4 + n], b[4 + n..])
  }

  lemma LengthReads(n: nat, rest: Bytes)
    requires n < U32
    ensures LengthOf(Length(n) + rest) == n
  {
    assert n / 0x100_0000 * 0x100_0000 + n / 0x1_0000 % 256 * 0x1_0000 + n / 256 % 256 * 256 + n % 256 == n;
  }

  lemma LengthIsUnique(b: Bytes)
    requires |b| >= 4
    ensures LengthOf(b) < U32 && b[..4] == Length(LengthOf(b))
  {
    var a: int, c: int, d: int := b[0], b[1], b[2];
    var n := LengthOf(b);
    assert n / 0x100_0000 == a;
    assert n / 0x1_0000 == a * 256 + c;
    assert n / 256 == a * 0x1_0000 + c * 256 + d;
  }

  /** A frame within the limit reads back, whatever follows it. */
  lemma FrameReads(data: Bytes, rest: Bytes, max: nat)
    requires |data| <= max && |data| < U32
    ensures ReadFrame(Frame(data) + rest, max) == Got(data, rest)
  {
    hide LengthOf, Length;
    FourBytes(|data|);
    var b := Frame(data) + rest;
    LengthReads(|data|, data + rest);
    assert b == Length(|data|) + (data + rest);
    assert b[4..4 + |data|] == data && b[4 + |data|..] == rest;
  }

  lemma FourBytes(n: nat)
    requires n < U32
    ensures |Length(n)| == 4
  {
  }

  /** And only a written frame reads: the bytes taken are exactly the frame's encoding. */
  lemma ReadIsWritten(b: Bytes, max: nat)
    requires ReadFrame(b, max).Got?
    ensures var r := ReadFrame(b, max); |r.data| < U32 && b == Frame(r.data) + r.rest
  {
    hide LengthOf, Length;
    LengthIsUnique(b);
    var n := LengthOf(b);
    assert b == b[..4] + b[4..4 + n] + b[4 + n..];
  }

  // ---------------------------------------------------------------------------------------------
  // The framed response

  function Concat(items: seq<Bytes>): Bytes { if items == [] then [] else items[0] + Concat(items[1..]) }

  /** `bytes.chunks(CHUNK)`: nothing at all for an empty item. */
  function Chunks(item: Bytes): seq<Bytes>
    decreases |item|
  {
    if item == [] then [] else if |item| <= CHUNK then [item] else [item[..CHUNK]] + Chunks(item[CHUNK..])
  }

  function AllChunks(items: seq<Bytes>): seq<Bytes>
  {
    if items == [] then [] else Chunks(items[0]) + AllChunks(items[1..])
  }

  /** Every chunk of a response: never empty, never over the limit. */
  predicate Sound(chunks: seq<Bytes>) { forall i :: 0 <= i < |chunks| ==> 0 < |chunks[i]| <= CHUNK }

  function Framed(chunks: seq<Bytes>): Bytes
    requires Sound(chunks)
  {
    if chunks == [] then [] else Frame(chunks[0]) + Framed(chunks[1..])
  }

  const END: Bytes := [0, 0, 0, 0]

  lemma {:induction false} ChunksAreSound(item: Bytes)
    ensures Sound(Chunks(item)) && Concat(Chunks(item)) == item
    decreases |item|
  {
    if item != [] {
      if |item| <= CHUNK {
        assert [item][1..] == [];
        assert Concat([item]) == item + Concat([]);
      } else {
        var head, tail := item[..CHUNK], item[CHUNK..];
        ChunksAreSound(tail);
        assert ([head] + Chunks(tail))[1..] == Chunks(tail);
        assert head + tail == item;
      }
    }
  }

  lemma Associate<T>(a: seq<T>, b: seq<T>, c: seq<T>)
    ensures (a + b) + c == a + (b + c)
  {
  }

  lemma {:induction false} ConcatJoins(a: seq<Bytes>, b: seq<Bytes>)
    ensures Concat(a + b) == Concat(a) + Concat(b)
  {
    if a == [] {
      assert a + b == b;
    } else {
      ConcatJoins(a[1..], b);
      assert (a + b)[1..] == a[1..] + b && (a + b)[0] == a[0];
      Associate(a[0], Concat(a[1..]), Concat(b));
    }
  }

  lemma {:induction false} AllChunksAreSound(items: seq<Bytes>)
    ensures Sound(AllChunks(items)) && Concat(AllChunks(items)) == Concat(items)
  {
    if items != [] {
      ChunksAreSound(items[0]);
      AllChunksAreSound(items[1..]);
      ConcatJoins(Chunks(items[0]), AllChunks(items[1..]));
    }
  }

  /** What the server puts on the wire: all of it when the response stays within the limit, else no terminator. */
  datatype Sent = Complete(wire: Bytes) | Interrupted(wire: Bytes)

  function Size(items: seq<Bytes>): nat { |Concat(items)| }

  function Serve(head: Bytes, items: seq<Bytes>, chunks: seq<Bytes>): Sent
    requires |head| <= HEADER && Sound(chunks)
  {
    if Size(items) <= RESPONSE then Complete(Frame(head) + Framed(chunks) + END)
    else Interrupted(Frame(head) + Framed(chunks))
  }

  // ---------------------------------------------------------------------------------------------
  // The reader

  datatype Response = Failed(chunks: seq<Bytes>) | Done(chunks: seq<Bytes>)

  /** The proxy's loop: chunks are passed on as they arrive, and only the terminator before the end of the stream completes. */
  function ReadBody(b: Bytes, size: nat): (r: Response)
    ensures Sound(r.chunks)
    decreases |b|
  {
    match ReadFrame(b, CHUNK)
    case Broken => Failed([])
    case TooLong => Failed([])
    case Got(data, rest) =>
      if data == [] then if rest == [] then Done([]) else Failed([])
      else if size + |data| > RESPONSE then Failed([])
      else
        match ReadBody(rest, size + |data|)
        case Failed(chunks) => Failed([data] + chunks)
        case Done(chunks) => Done([data] + chunks)
  }

  datatype Received = NoHead | Received(head: Bytes, body: Response)

  function Receive(wire: Bytes): Received
  {
    match ReadFrame(wire, HEADER)
    case Broken => NoHead
    case TooLong => NoHead
    case Got(head, rest) => Received(head, ReadBody(rest, 0))
  }

  lemma EndReads(rest: Bytes)
    ensures ReadFrame(END + rest, CHUNK) == Got([], rest)
  {
    assert Frame([]) == END + [];
    FrameReads([], rest, CHUNK);
    assert END + [] + rest == END + rest;
  }

  /** A terminated sequence of frames within the limit reads back, and trailing bytes are rejected. */
  lemma {:induction false} BodyReads(chunks: seq<Bytes>, size: nat, trailing: Bytes)
    requires Sound(chunks) && size + |Concat(chunks)| <= RESPONSE
    ensures ReadBody(Framed(chunks) + END + trailing, size) == (if trailing == [] then Done(chunks) else Failed(chunks))
  {
    hide ReadFrame, Frame;
    var b := Framed(chunks) + END + trailing;
    if chunks == [] {
      assert b == END + trailing;
      EndReads(trailing);
    } else {
      var rest := Framed(chunks[1..]) + END + trailing;
      assert b == Frame(chunks[0]) + rest;
      FrameReads(chunks[0], rest, CHUNK);
      BodyReads(chunks[1..], size + |chunks[0]|, trailing);
      assert [chunks[0]] + chunks[1..] == chunks;
    }
  }

  /** Whatever completes is exactly a terminated sequence of nonempty frames within the limit. */
  lemma {:induction false} CompletedIsFramed(b: Bytes, size: nat)
    requires ReadBody(b, size).Done?
    ensures b == Framed(ReadBody(b, size).chunks) + END
    ensures ReadBody(b, size).chunks == [] || size + |Concat(ReadBody(b, size).chunks)| <= RESPONSE
    decreases |b|
  {
    hide ReadFrame, Frame;
    var r := ReadFrame(b, CHUNK);
    ReadIsWritten(b, CHUNK);
    if r.data == [] {
      NoFrames();
      assert b == END + [];
    } else {
      CompletedIsFramed(r.rest, size + |r.data|);
      var rest := ReadBody(r.rest, size + |r.data|).chunks;
      assert ([r.data] + rest)[1..] == rest;
      assert b == Frame(r.data) + Framed(rest) + END;
    }
  }

  lemma NoFrames()
    ensures Frame([]) == END && Framed([]) == []
  {
  }

  // ---------------------------------------------------------------------------------------------
  // Main results

  /** However the backend's stream was cut, including empty items, the response reads back as the whole body. */
  lemma {:induction false} ResponseRoundTrips(head: Bytes, items: seq<Bytes>)
    requires |head| <= HEADER && Size(items) <= RESPONSE
    ensures Sound(AllChunks(items))
    ensures var r := Receive(Serve(head, items, AllChunks(items)).wire);
            r.Received? && r.head == head && r.body.Done? && Concat(r.body.chunks) == Concat(items)
  {
    hide ReadFrame, Frame, Framed, ReadBody;
    AllChunksAreSound(items);
    var body := Framed(AllChunks(items)) + END;
    FrameReads(head, body, HEADER);
    BodyReads(AllChunks(items), 0, []);
    assert Frame(head) + Framed(AllChunks(items)) + END == Frame(head) + body;
    assert body + [] == body;
  }

  /** Bytes after the terminator are rejected. */
  lemma {:induction false} TrailingIsRejected(head: Bytes, items: seq<Bytes>, trailing: Bytes)
    requires |head| <= HEADER && Size(items) <= RESPONSE && trailing != []
    ensures Sound(AllChunks(items))
    ensures var r := Receive(Serve(head, items, AllChunks(items)).wire + trailing); r.Received? && r.body.Failed?
  {
    hide ReadFrame, Frame, Framed, ReadBody;
    AllChunksAreSound(items);
    var body := Framed(AllChunks(items)) + END + trailing;
    FrameReads(head, body, HEADER);
    BodyReads(AllChunks(items), 0, trailing);
    assert Frame(head) + Framed(AllChunks(items)) + END + trailing == Frame(head) + body;
  }

  /** Reading only ever sees the bytes it takes: a frame read from a prefix is the frame read from the whole. */
  lemma FrameOfPrefix(b: Bytes, more: Bytes, max: nat)
    requires ReadFrame(b, max).Got?
    ensures ReadFrame(b + more, max) == Got(ReadFrame(b, max).data, ReadFrame(b, max).rest + more)
  {
    hide LengthOf;
    SameLength(b, more);
    var n := LengthOf(b);
    assert (b + more)[4..4 + n] == b[4..4 + n] && (b + more)[4 + n..] == b[4 + n..] + more;
  }

  lemma SameLength(b: Bytes, more: Bytes)
    requires |b| >= 4
    ensures LengthOf(b + more) == LengthOf(b)
  {
  }

  /** No encoding that completes is a proper prefix of another stream that completes. */
  lemma {:induction false} CompletionIsPrefixFree(b: Bytes, more: Bytes, size: nat)
    requires ReadBody(b, size).Done? && more != []
    ensures ReadBody(b + more, size).Failed?
    decreases |b|
  {
    hide ReadFrame;
    FrameOfPrefix(b, more, CHUNK);
    var r := ReadFrame(b, CHUNK);
    if r.data != [] {
      CompletionIsPrefixFree(r.rest, more, size + |r.data|);
    }
  }

  /** A link that breaks anywhere before the last byte never yields a completed response. */
  lemma {:induction false} CutNeverCompletes(head: Bytes, items: seq<Bytes>, cut: nat)
    requires |head| <= HEADER && Size(items) <= RESPONSE && Sound(AllChunks(items))
    requires cut < |Serve(head, items, AllChunks(items)).wire|
    ensures var r := Receive(Serve(head, items, AllChunks(items)).wire[..cut]); r.NoHead? || r.body.Failed?
  {
    hide ReadFrame, Frame, Framed, ReadBody;
    var wire := Serve(head, items, AllChunks(items)).wire;
    var b, more := wire[..cut], wire[cut..];
    assert b + more == wire && more != [];
    ResponseRoundTrips(head, items);
    var r := ReadFrame(b, HEADER);
    if r.Got? {
      FrameOfPrefix(b, more, HEADER);
      if ReadBody(r.rest, 0).Done? {
        CompletionIsPrefixFree(r.rest, more, 0);
      }
    }
  }

  /** A response that is too long, or interrupted by the backend, is never terminated and never completes. */
  lemma {:induction false} UnterminatedNeverCompletes(chunks: seq<Bytes>, size: nat)
    requires Sound(chunks)
    ensures ReadBody(Framed(chunks), size).Failed?
  {
    hide ReadFrame, Frame;
    if chunks == [] {
      NoFrames();
      EmptyIsBroken();
    } else {
      FrameReads(chunks[0], Framed(chunks[1..]), CHUNK);
      UnterminatedNeverCompletes(chunks[1..], size + |chunks[0]|);
    }
  }

  lemma EmptyIsBroken()
    ensures ReadFrame([], CHUNK) == Broken
  {
  }

  // ---------------------------------------------------------------------------------------------
  // The loops

  /** The server's loop over the backend's stream. */
  method ServeLoop(head: Bytes, items: seq<Bytes>) returns (wire: Bytes, complete: bool)
    requires |head| <= HEADER
    ensures Sound(AllChunks(items))
    ensures complete <==> Size(items) <= RESPONSE
    ensures complete ==> Complete(wire) == Serve(head, items, AllChunks(items))
    ensures !complete ==> exists k :: 0 <= k <= |items| && Sound(AllChunks(items[..k]))
                                      && wire == Frame(head) + Framed(AllChunks(items[..k]))
  {
    hide Frame, Framed, Chunks, Concat, AllChunks;
    AllChunksAreSound(items);
    wire := Frame(head);
    var size, i := 0, 0;
    assert items[..0] == [];
    NoneYet();
    assert wire + [] == wire;
    while i < |items|
      invariant 0 <= i <= |items| && Sound(AllChunks(items[..i])) && size == Size(items[..i]) <= RESPONSE
      invariant wire == Frame(head) + Framed(AllChunks(items[..i]))
    {
      SizeStep(items, i);
      size := size + |items[i]|;
      if size > RESPONSE {
        SizeGrows(items, i + 1);
        return wire, false;
      }
      ChunksAreSound(items[i]);
      var frames := WriteChunks(items[i]);
      FramedStep(items, i);
      wire := wire + frames;
      assert wire == Frame(head) + (Framed(AllChunks(items[..i])) + frames);
      i := i + 1;
    }
    assert items[..|items|] == items;
    wire := wire + END;
    complete := true;
  }

  lemma NoneYet()
    ensures AllChunks([]) == [] && Framed([]) == [] && Size([]) == 0
  {
  }

  lemma SizeStep(items: seq<Bytes>, i: nat)
    requires i < |items|
    ensures Size(items[..i + 1]) == Size(items[..i]) + |items[i]|
  {
    var last: seq<Bytes> := [items[i]];
    assert items[..i + 1] == items[..i] + last;
    ConcatJoins(items[..i], last);
    assert last[1..] == [];
  }

  lemma SizeGrows(items: seq<Bytes>, i: nat)
    requires i <= |items|
    ensures Size(items[..i]) <= Size(items)
  {
    assert items == items[..i] + items[i..];
    ConcatJoins(items[..i], items[i..]);
  }

  lemma {:induction false} ChunksJoin(a: seq<Bytes>, b: seq<Bytes>)
    ensures AllChunks(a + b) == AllChunks(a) + AllChunks(b)
  {
    hide Chunks;
    if a == [] {
      assert a + b == b;
    } else {
      ChunksJoin(a[1..], b);
      assert (a + b)[1..] == a[1..] + b && (a + b)[0] == a[0];
      Associate(Chunks(a[0]), AllChunks(a[1..]), AllChunks(b));
    }
  }

  lemma {:induction false} FramedJoins(a: seq<Bytes>, b: seq<Bytes>)
    requires Sound(a) && Sound(b)
    ensures Sound(a + b) && Framed(a + b) == Framed(a) + Framed(b)
  {
    hide Frame;
    if a == [] {
      assert a + b == b;
    } else {
      FramedJoins(a[1..], b);
      assert (a + b)[1..] == a[1..] + b && (a + b)[0] == a[0];
      Associate(Frame(a[0]), Framed(a[1..]), Framed(b));
    }
  }

  lemma FramedStep(items: seq<Bytes>, i: nat)
    requires i < |items| && Sound(AllChunks(items[..i])) && Sound(Chunks(items[i]))
    ensures Sound(AllChunks(items[..i + 1]))
    ensures Framed(AllChunks(items[..i + 1])) == Framed(AllChunks(items[..i])) + Framed(Chunks(items[i]))
  {
    hide Chunks, Framed;
    var last: seq<Bytes> := [items[i]];
    assert items[..i + 1] == items[..i] + last;
    ChunksJoin(items[..i], last);
    assert last[1..] == [] && AllChunks(last) == Chunks(items[i]) + [];
    assert Chunks(items[i]) + [] == Chunks(items[i]);
    FramedJoins(AllChunks(items[..i]), Chunks(items[i]));
  }

  method WriteChunks(item: Bytes) returns (wire: Bytes)
    ensures Sound(Chunks(item)) && wire == Framed(Chunks(item))
  {
    hide Frame;
    ChunksAreSound(item);
    wire := [];
    var left := item;
    while left != []
      invariant Sound(Chunks(left)) && wire + Framed(Chunks(left)) == Framed(Chunks(item))
      decreases |left|
    {
      var chunk := if |left| <= CHUNK then left else left[..CHUNK];
      ChunksAreSound(left[|chunk|..]);
      assert Chunks(left) == [chunk] + Chunks(left[|chunk|..]);
      assert Chunks(left)[1..] == Chunks(left[|chunk|..]);
      assert wire + (Frame(chunk) + Framed(Chunks(left[|chunk|..])))
          == wire + Frame(chunk) + Framed(Chunks(left[|chunk|..]));
      wire := wire + Frame(chunk);
      left := left[|chunk|..];
    }
  }

  /** What was already passed on comes first. */
  function After(chunks: seq<Bytes>, r: Response): Response
  {
    match r
    case Failed(more) => Failed(chunks + more)
    case Done(more) => Done(chunks + more)
  }

  lemma AfterStep(chunks: seq<Bytes>, b: Bytes, size: nat)
    ensures var f := ReadFrame(b, CHUNK);
            After(chunks, ReadBody(b, size)) ==
              if !f.Got? then Failed(chunks)
              else if f.data == [] then if f.rest == [] then Done(chunks) else Failed(chunks)
              else if size + |f.data| > RESPONSE then Failed(chunks)
              else After(chunks + [f.data], ReadBody(f.rest, size + |f.data|))
  {
    hide ReadFrame;
    assert chunks + [] == chunks;
    var f := ReadFrame(b, CHUNK);
    if f.Got? && f.data != [] && size + |f.data| <= RESPONSE {
      var more := ReadBody(f.rest, size + |f.data|).chunks;
      assert chunks + ([f.data] + more) == chunks + [f.data] + more;
    }
  }

  /** The proxy's loop. */
  method ReadLoop(b: Bytes) returns (r: Response)
    ensures r == ReadBody(b, 0)
  {
    hide ReadFrame, ReadBody;
    var left: Bytes, size: nat, chunks: seq<Bytes> := b, 0, [];
    FromStart(ReadBody(b, 0));
    while true
      invariant ReadBody(b, 0) == After(chunks, ReadBody(left, size))
      decreases |left|
    {
      AfterStep(chunks, left, size);
      var frame := ReadFrame(left, CHUNK);
      if !frame.Got? {
        return Failed(chunks);
      }
      if frame.data == [] {
        if frame.rest == [] {
          return Done(chunks);
        }
        return Failed(chunks);
      }
      size := size + |frame.data|;
      if size > RESPONSE {
        return Failed(chunks);
      }
      chunks := chunks + [frame.data];
      left := frame.rest;
    }
  }

  lemma FromStart(r: Response)
    ensures After([], r) == r
  {
    assert [] + r.chunks == r.chunks;
  }
}
