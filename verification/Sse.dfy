/**
 The bounded incremental event-stream decoder (crates/runtime-core/src/lib.rs): a restricted subset of section
 9.2.6 of the HTML Living Standard ("Interpreting an event stream").
 */
module Sse {
  import opened Contracts
  import opened Utf8

  const LIMIT := 65536
  const LF: Byte := 10
  const CR: Byte := 13

  // ---------------------------------------------------------------------------------------------
  // Finding the end of an event

  predicate LfAt(b: seq<Byte>, i: nat) { i + 2 <= |b| && b[i] == LF && b[i + 1] == LF }

  predicate CrlfAt(b: seq<Byte>, i: nat)
  {
    i + 4 <= |b| && b[i] == CR && b[i + 1] == LF && b[i + 2] == CR && b[i + 3] == LF
  }

  /** `windows(n).position(...)` from index k on. */
  function FirstLf(b: seq<Byte>, k: nat): (r: Option<nat>)
    requires k <= |b|
    ensures r.Some? ==> k <= r.value && LfAt(b, r.value) && forall i: nat :: k <= i < r.value ==> !LfAt(b, i)
    ensures r.None? ==> forall i: nat :: k <= i ==> !LfAt(b, i)
    decreases |b| - k
  {
    if LfAt(b, k) then Some(k) else if k == |b| then None else FirstLf(b, k + 1)
  }

  function FirstCrlf(b: seq<Byte>, k: nat): (r: Option<nat>)
    requires k <= |b|
    ensures r.Some? ==> k <= r.value && CrlfAt(b, r.value) && forall i: nat :: k <= i < r.value ==> !CrlfAt(b, i)
    ensures r.None? ==> forall i: nat :: k <= i ==> !CrlfAt(b, i)
    decreases |b| - k
  {
    if CrlfAt(b, k) then Some(k) else if k == |b| then None else FirstCrlf(b, k + 1)
  }

  datatype Separator = Separator(end: nat, length: nat)

  /** The first blank line of either kind. */
  function Next(b: seq<Byte>): (r: Option<Separator>)
    ensures r.Some? ==> r.value.end + r.value.length <= |b| && r.value.length > 0
  {
    match (FirstLf(b, 0), FirstCrlf(b, 0))
    case (Some(i), Some(j)) => Some(if i < j then Separator(i, 2) else Separator(j, 4))
    case (Some(i), None) => Some(Separator(i, 2))
    case (None, Some(j)) => Some(Separator(j, 4))
    case (None, None) => None
  }

  /** An independent description: the separator at the least position where one stands. */
  predicate IsNext(b: seq<Byte>, s: Separator)
  {
    && (if s.length == 2 then LfAt(b, s.end) else s.length == 4 && CrlfAt(b, s.end))
    && forall i: nat :: i < s.end ==> !LfAt(b, i) && !CrlfAt(b, i)
  }

  lemma NextIsFirst(b: seq<Byte>, s: Separator)
    ensures Next(b) == Some(s) <==> IsNext(b, s)
  {
  }

  /** More bytes never move an event's end: a separator cannot begin inside another one. */
  lemma NextIsStable(b: seq<Byte>, more: seq<Byte>)
    requires Next(b).Some?
    ensures Next(b + more) == Next(b)
  {
    hide Next;
    var s := Next(b).value;
    NextIsFirst(b, s);
    NextIsFirst(b + more, s);
    forall i: nat | i < s.end ensures !LfAt(b + more, i) && !CrlfAt(b + more, i) {
      assert !LfAt(b, i) && !CrlfAt(b, i);
    }
  }

  // ---------------------------------------------------------------------------------------------
  // The text of an event

  /** Unicode White_Space, as `str::trim_start` removes it. */
  predicate IsSpace(c: char)
  {
    var n := c as int;
    9 <= n <= 13 || n == 0x20 || n == 0x85 || n == 0xA0 || n == 0x1680 || 0x2000 <= n <= 0x200A
    || n == 0x2028 || n == 0x2029 || n == 0x202F || n == 0x205F || n == 0x3000
  }

  function TrimStart(s: string): string { if s != [] && IsSpace(s[0]) then TrimStart(s[1..]) else s }

  /** Everything before the first line feed, or all of it. */
  function Line(s: string): (r: string)
    ensures |r| <= |s|
    ensures r == s[..|r|] && '\n' !in r && (|r| < |s| ==> s[|r|] == '\n')
  {
    if s == [] || s[0] == '\n' then [] else [s[0]] + Line(s[1..])
  }

  /** `str::lines`: a carriage return right before a line feed belongs to the line's end. */
  function Lines(s: string): seq<string>
    decreases |s|
  {
    if s == [] then []
    else
      var line := Line(s);
      if |line| == |s| then [line]
      else [if line != [] && line[|line| - 1] == '\r' then line[..|line| - 1] else line] + Lines(s[|line| + 1..])
  }

  const FIELD := "data:"

  /** The values of the data fields. */
  function DataLines(lines: seq<string>): seq<string>
  {
    if lines == [] then []
    else (if FIELD <= lines[0] then [TrimStart(lines[0][|FIELD|..])] else []) + DataLines(lines[1..])
  }

  function Join(lines: seq<string>): string
  {
    if lines == [] then [] else if |lines| == 1 then lines[0] else lines[0] + "\n" + Join(lines[1..])
  }

  function Data(event: string): string { Join(DataLines(Lines(event))) }

  // ---------------------------------------------------------------------------------------------
  // push

  datatype Pushed = Fail | Ok(events: seq<string>, rest: seq<Byte>)

  function Before(events: seq<string>, p: Pushed): Pushed
  {
    match p
    case Fail => Fail
    case Ok(more, rest) => Ok(events + more, rest)
  }

  function Emit(data: string): seq<string> { if data == [] then [] else [data] }

  /** What the loop of `push` makes of its buffer. */
  function Drain(b: seq<Byte>): (p: Pushed)
    ensures p.Ok? ==> |p.rest| <= LIMIT && |p.rest| <= |b| && Next(p.rest).None?
    decreases |b|
  {
    match Next(b)
    case None => if |b| <= LIMIT then Ok([], b) else Fail
    case Some(s) =>
      if s.end > LIMIT then Fail
      else
        match Decode(b[..s.end + s.length])
        case None => Fail
        case Some(text) => Before(Emit(Data(text)), Drain(b[s.end + s.length..]))
  }

  class Decoder {
    var buffer: seq<Byte>

    constructor ()
      ensures buffer == []
    {
      buffer := [];
    }

    /** After a failure the decoder is abandoned: only its result is specified. */
    method Push(bytes: seq<Byte>) returns (ok: bool, events: seq<string>)
      modifies this
      ensures ok == Drain(old(buffer) + bytes).Ok?
      ensures ok ==> Drain(old(buffer) + bytes) == Ok(events, buffer)
      ensures ok ==> |buffer| <= LIMIT
    {
      hide Next, Decode, Data;
      buffer := buffer + bytes;
      events := [];
      while true
        invariant Drain(old(buffer) + bytes) == Before(events, Drain(buffer))
        decreases |buffer|
      {
        var next := Next(buffer);
        if next.None? {
          break;
        }
        var s := next.value;
        if s.end > LIMIT {
          return false, [];
        }
        var text := Decode(buffer[..s.end + s.length]);
        if text.None? {
          return false, [];
        }
        var data := Data(text.value);
        BeforeJoin(events, Emit(data), Drain(buffer[s.end + s.length..]));
        if data != [] {
          events := events + [data];
        }
        buffer := buffer[s.end + s.length..];
      }
      ok := |buffer| <= LIMIT;
    }
  }

  lemma BeforeJoin(a: seq<string>, b: seq<string>, p: Pushed)
    ensures Before(a, Before(b, p)) == Before(a + b, p)
    ensures Before([], p) == p
  {
    if p.Ok? { assert a + (b + p.events) == a + b + p.events; assert [] + p.events == p.events; }
    assert a + [] == a;
  }

  // ---------------------------------------------------------------------------------------------
  // Chunking

  /** Decoding is incremental: what follows only ever sees what was left over. */
  lemma {:induction false} DrainContinues(b: seq<Byte>, more: seq<Byte>)
    requires Drain(b).Ok?
    ensures Drain(b + more) == Before(Drain(b).events, Drain(Drain(b).rest + more))
    decreases |b|
  {
    hide Next, Decode, Data;
    if Next(b).None? {
      BeforeJoin([], [], Drain(b + more));
    } else {
      var s := Next(b).value;
      var cut := s.end + s.length;
      NextIsStable(b, more);
      assert (b + more)[..cut] == b[..cut] && (b + more)[cut..] == b[cut..] + more;
      DrainContinues(b[cut..], more);
      var head, tail := Emit(Data(Decode(b[..cut]).value)), Drain(b[cut..]);
      BeforeJoin(head, tail.events, Drain(tail.rest + more));
    }
  }

  /** Pushing chunk after chunk; Fail as soon as one push fails. */
  function Feed(buffer: seq<Byte>, chunks: seq<seq<Byte>>): Pushed
    decreases |chunks|
  {
    if chunks == [] then Ok([], buffer)
    else
      match Drain(buffer + chunks[0])
      case Fail => Fail
      case Ok(events, rest) => Before(events, Feed(rest, chunks[1..]))
  }

  function Concat(chunks: seq<seq<Byte>>): seq<Byte>
  {
    if chunks == [] then [] else chunks[0] + Concat(chunks[1..])
  }

  /** Any chunking that succeeds gives exactly what one push of everything gives. */
  lemma {:induction false} FeedIsOnePush(buffer: seq<Byte>, chunks: seq<seq<Byte>>)
    requires Drain(buffer) == Ok([], buffer) && Feed(buffer, chunks).Ok?
    ensures Feed(buffer, chunks) == Drain(buffer + Concat(chunks))
    decreases |chunks|
  {
    hide Drain;
    if chunks == [] {
      assert buffer + Concat(chunks) == buffer;
    } else {
      var first := Drain(buffer + chunks[0]);
      RestIsSettled(buffer + chunks[0]);
      FeedIsOnePush(first.rest, chunks[1..]);
      DrainContinues(buffer + chunks[0], Concat(chunks[1..]));
      assert buffer + Concat(chunks) == buffer + chunks[0] + Concat(chunks[1..]);
    }
  }

  /** What a successful push leaves holds no complete event. */
  lemma {:induction false} RestIsSettled(b: seq<Byte>)
    requires Drain(b).Ok?
    ensures Drain(Drain(b).rest) == Ok([], Drain(b).rest)
  {
    hide Decode, Data, Next;
  }

  /** Main result: two chunkings of one byte stream whose pushes all succeed give the same events and the same leftover. */
  lemma {:induction false} ChunkingIsIrrelevant(chunks: seq<seq<Byte>>, others: seq<seq<Byte>>)
    requires Concat(chunks) == Concat(others) && Feed([], chunks).Ok? && Feed([], others).Ok?
    ensures Feed([], chunks) == Feed([], others)
  {
    hide Feed;
    EmptyIsSettled();
    FeedIsOnePush([], chunks);
    FeedIsOnePush([], others);
  }

  lemma EmptyIsSettled()
    ensures Drain([]) == Ok([], [])
  {
  }

  function Singles(b: seq<Byte>): (r: seq<seq<Byte>>)
    ensures |r| == |b|
  {
    if b == [] then [] else [[b[0]]] + Singles(b[1..])
  }

  lemma {:induction false} ConcatSingles(b: seq<Byte>)
    ensures Concat(Singles(b)) == b
  {
    if b != [] {
      ConcatSingles(b[1..]);
      assert [b[0]] + b[1..] == b;
    }
  }

  /** Feeding two lists of chunks one after the other. */
  lemma {:induction false} FeedJoins(buffer: seq<Byte>, a: seq<seq<Byte>>, b: seq<seq<Byte>>)
    requires Feed(buffer, a + b).Ok?
    ensures Feed(buffer, a).Ok? && Feed(buffer, a + b) == Before(Feed(buffer, a).events, Feed(Feed(buffer, a).rest, b))
    decreases |a|
  {
    hide Drain;
    if a == [] {
      assert a + b == b;
      BeforeJoin([], [], Feed(buffer, b));
    } else {
      assert (a + b)[1..] == a[1..] + b;
      var first := Drain(buffer + a[0]);
      FeedJoins(first.rest, a[1..], b);
      BeforeJoin(first.events, Feed(first.rest, a[1..]).events, Feed(Feed(first.rest, a[1..]).rest, b));
    }
  }

  lemma {:induction false} SinglesJoin(a: seq<Byte>, b: seq<Byte>)
    ensures Singles(a + b) == Singles(a) + Singles(b)
  {
    if a == [] {
      assert a + b == b;
    } else {
      SinglesJoin(a[1..], b);
      assert (a + b)[1..] == a[1..] + b;
    }
  }

  /** If one byte at a time succeeds, every chunking succeeds, with the same result. */
  lemma {:induction false} BytewiseIsStrictest(buffer: seq<Byte>, chunks: seq<seq<Byte>>)
    requires Drain(buffer) == Ok([], buffer) && Feed(buffer, Singles(Concat(chunks))).Ok?
    ensures Feed(buffer, chunks) == Feed(buffer, Singles(Concat(chunks)))
    decreases |chunks|
  {
    hide Drain;
    if chunks != [] {
      var first, rest := chunks[0], Concat(chunks[1..]);
      SinglesJoin(first, rest);
      FeedJoins(buffer, Singles(first), Singles(rest));
      FeedIsOnePush(buffer, Singles(first));
      ConcatSingles(first);
      RestIsSettled(buffer + first);
      BytewiseIsStrictest(Drain(buffer + first).rest, chunks[1..]);
    }
  }

  /**
   Success itself does depend on chunking: an event that ends exactly at the limit passes in one push, and fails
   when a push ends between the two line feeds.
   */
  lemma SuccessDependsOnChunking(b: seq<Byte>)
    requires |b| == LIMIT && forall i :: 0 <= i < |b| ==> b[i] == 97
    ensures Feed([], [b + [LF, LF]]) != Fail && Feed([], [b + [LF], [LF]]) == Fail
  {
    hide Data;
    var all, part := b + [LF, LF], b + [LF];
    NextIsFirst(all, Separator(LIMIT, 2));
    assert forall i: nat :: !LfAt(part, i) && !CrlfAt(part, i);
    assert Next(part).None?;
    assert [] + part == part && [] + all == all;
    assert Drain(part) == Fail;
    AsciiDecodes(all);
    assert all[..LIMIT + 2] == all && all[LIMIT + 2..] == [];
    EmptyIsSettled();
    assert [all][1..] == [];
    assert [all][0] == all;
    assert [part, [LF]][0] == part;
  }

  lemma {:induction false} AsciiDecodes(b: seq<Byte>)
    requires forall i :: 0 <= i < |b| ==> b[i] < 0x80
    ensures Decode(b).Some?
  {
    if b != [] {
      assert DecodeFirst(b) == Some((b[0] as char, 1));
      AsciiDecodes(b[1..]);
    }
  }
}
