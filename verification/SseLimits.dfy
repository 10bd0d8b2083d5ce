/** Exactly which byte streams the event-stream decoder accepts however they are cut into chunks. */
module SseLimits {
  import opened Contracts
  import opened Utf8
  import opened Sse
  import SseRoundTrip

  /** Every event leaves room for its separator up to the last byte, and so does what follows the last event. */
  predicate Roomy(b: seq<Byte>)
    decreases |b|
  {
    match Next(b)
    case None => |b| <= LIMIT
    case Some(s) => s.end + s.length - 1 <= LIMIT && Roomy(b[s.end + s.length..])
  }

  /** Every complete event, with its separator, is UTF-8. */
  ghost predicate Textual(b: seq<Byte>)
    decreases |b|
  {
    match Next(b)
    case None => true
    case Some(s) => IsText(b[..s.end + s.length]) && Textual(b[s.end + s.length..])
  }

  /** With room for every event, one push accepts exactly what is UTF-8. */
  lemma {:induction false} RoomyDrains(b: seq<Byte>)
    requires Roomy(b)
    ensures Drain(b).Ok? <==> Textual(b)
    decreases |b|
  {
    hide Next, Decode, Data, IsText;
    if Next(b).Some? {
      var s := Next(b).value;
      DecodesExactlyText(b[..s.end + s.length]);
      RoomyDrains(b[s.end + s.length..]);
    }
  }

  /** While no separator is complete, single bytes pile up until the limit. */
  lemma {:induction false} BytesPileUp(done: seq<Byte>, left: seq<Byte>)
    requires |done| <= LIMIT && Next(done + left).None?
    ensures Feed(done, Singles(left)) == if |done + left| <= LIMIT then Ok([], done + left) else Fail
    decreases |left|
  {
    hide Next, Decode, Data;
    if left == [] {
      assert done + left == done;
    } else {
      var now := done + [left[0]];
      assert now + left[1..] == done + left;
      if Next(now).Some? { NextIsStable(now, left[1..]); }
      if |now| <= LIMIT {
        BytesPileUp(now, left[1..]);
        BeforeJoin([], [], Feed(now, Singles(left[1..])));
      }
    }
  }

  /** Up to its last byte an event holds no separator, and with it exactly the one that ends it. */
  lemma EventEnds(b: seq<Byte>)
    requires Next(b).Some?
    ensures var s := Next(b).value; var cut := s.end + s.length;
            Next(b[..cut - 1]).None? && Next(b[..cut]) == Some(s)
  {
    hide Next;
    var s := Next(b).value;
    var cut := s.end + s.length;
    NextIsFirst(b, s);
    NextIsFirst(b[..cut], s);
    forall i: nat | i < s.end ensures !LfAt(b[..cut], i) && !CrlfAt(b[..cut], i) {
      assert !LfAt(b, i) && !CrlfAt(b, i);
    }
    assert b[..cut - 1] + b[cut - 1..] == b;
    if Next(b[..cut - 1]).Some? { NextIsStable(b[..cut - 1], b[cut - 1..]); }
  }

  /** One event, byte by byte: accepted exactly when it has room and its text is valid. */
  lemma EventByBytes(b: seq<Byte>)
    requires Next(b).Some?
    ensures var s := Next(b).value; var head := b[..s.end + s.length];
            Feed([], Singles(head))
            == if s.end + s.length - 1 <= LIMIT && Decode(head).Some? then Ok(Emit(Data(Decode(head).value)), []) else Fail
  {
    hide Next, Decode, Data, Feed, Singles;
    var s := Next(b).value;
    var cut := s.end + s.length;
    var head, body, last := b[..cut], b[..cut - 1], [b[cut - 1]];
    EventEnds(b);
    assert head == body + last && [] + body == body;
    SinglesJoin(body, last);
    BytesPileUp([], body);
    LastByte(body, b[cut - 1]);
    if cut - 1 <= LIMIT {
      SseRoundTrip.FeedAppends([], Singles(body), Singles(last));
      HeadDrains(head, s);
      BeforeJoin([], [], Drain(head));
    } else if Feed([], Singles(head)).Ok? {
      FeedJoins([], Singles(body), Singles(last));
    }
  }

  lemma {:induction false} LastByte(body: seq<Byte>, x: Byte)
    ensures Feed(body, Singles([x])) == Drain(body + [x])
  {
    hide Drain;
    assert Singles([x]) == [[x]] && [[x]][1..] == [];
    var p := Drain(body + [x]);
    if p.Ok? { assert p.events + [] == p.events; }
  }

  lemma {:induction false} HeadDrains(head: seq<Byte>, s: Separator)
    requires Next(head) == Some(s) && |head| == s.end + s.length
    ensures Drain(head) == if s.end <= LIMIT && Decode(head).Some? then Ok(Emit(Data(Decode(head).value)), []) else Fail
  {
    hide Next, Decode, Data;
    assert head[..|head|] == head && head[|head|..] == [];
    EmptyIsSettled();
    if Decode(head).Some? {
      var e := Emit(Data(Decode(head).value));
      assert e + [] == e;
    }
  }

  lemma {:induction false} BytewiseIsExact(b: seq<Byte>)
    ensures Feed([], Singles(b)).Ok? <==> Drain(b).Ok? && Roomy(b)
    decreases |b|
  {
    hide Next, Decode, Data, Feed, Singles;
    if Next(b).None? {
      assert [] + b == b;
      BytesPileUp([], b);
    } else {
      var s := Next(b).value;
      var cut := s.end + s.length;
      var head, rest := b[..cut], b[cut..];
      assert b == head + rest;
      SinglesJoin(head, rest);
      EventByBytes(b);
      if Feed([], Singles(head)).Ok? {
        SseRoundTrip.FeedAppends([], Singles(head), Singles(rest));
        BytewiseIsExact(rest);
      } else if Feed([], Singles(b)).Ok? {
        FeedJoins([], Singles(head), Singles(rest));
      }
    }
  }

  /**
   Success is independent of chunking exactly for the streams whose events, and whatever follows them, stay within the
   limit until their separator is complete, and whose events are UTF-8.
   */
  lemma {:induction false} SucceedsHoweverCut(b: seq<Byte>)
    ensures (forall chunks :: Concat(chunks) == b ==> Feed([], chunks).Ok?) <==> Roomy(b) && Textual(b)
  {
    hide Drain, Feed, Singles, Concat, Roomy, Textual;
    BytewiseIsExact(b);
    if Roomy(b) { RoomyDrains(b); }
    ConcatSingles(b);
    EmptyIsSettled();
    forall chunks | Concat(chunks) == b && Feed([], Singles(b)).Ok? ensures Feed([], chunks).Ok? {
      BytewiseIsStrictest([], chunks);
    }
  }
}
