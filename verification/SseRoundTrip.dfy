/** Printing events with `event` and decoding them again, in whatever chunks they arrive. */
module SseRoundTrip {
  import opened Contracts
  import opened Utf8
  import opened Sse

  /** What compact JSON text always satisfies: no line ends (they are escaped), and it starts with a visible character. */
  predicate Printable(v: string) { v != [] && '\n' !in v && '\r' !in v && !IsSpace(v[0]) }

  function Body(v: string): seq<Byte> { Encode("data: " + v) }

  /** `event(value)`, as bytes. */
  function Event(v: string): seq<Byte> { Encode("data: " + v + "\n\n") }

  function Stream(values: seq<string>): seq<Byte>
  {
    if values == [] then [] else Event(values[0]) + Stream(values[1..])
  }

  lemma EventIsBody(v: string)
    ensures Event(v) == Body(v) + [LF, LF]
  {
    EncodeJoin("data: " + v, "\n\n");
    assert Encode("\n\n") == [LF, LF] by {
      assert "\n\n"[1..] == "\n" && "\n"[1..] == "";
      assert EncodeChar('\n') == [LF];
    }
    assert "data: " + v + "\n\n" == ("data: " + v) + "\n\n";
  }

  lemma BodyHasNoLineEnd(v: string)
    requires Printable(v)
    ensures LF !in Body(v) && CR !in Body(v)
  {
    if LF in Body(v) { AsciiIsItself("data: " + v, LF); }
    if CR in Body(v) { AsciiIsItself("data: " + v, CR); }
  }

  lemma {:induction false} LineEnds(a: string, rest: string)
    requires '\n' !in a
    ensures Line(a + "\n" + rest) == a
  {
    if a == [] {
      assert a + "\n" + rest == "\n" + rest;
    } else {
      assert (a + "\n" + rest)[1..] == a[1..] + "\n" + rest;
      LineEnds(a[1..], rest);
      assert [a[0]] + a[1..] == a;
    }
  }

  lemma {:induction false} FirstLine(a: string, rest: string)
    requires '\n' !in a && (a != [] ==> a[|a| - 1] != '\r')
    ensures Lines(a + "\n" + rest) == [a] + Lines(rest)
  {
    hide Line;
    var s := a + "\n" + rest;
    LineEnds(a, rest);
    assert s[|a| + 1..] == rest;
  }

  lemma {:induction false} LinesOfEvent(line: string)
    requires '\n' !in line && line != [] && line[|line| - 1] != '\r'
    ensures Lines(line + "\n\n") == [line, ""]
  {
    hide Lines;
    assert line + "\n\n" == line + "\n" + "\n";
    FirstLine(line, "\n");
    assert "" + "\n" + "" == "\n";
    FirstLine("", "");
    assert Lines("") == [] by { NoLines(); }
  }

  lemma NoLines()
    ensures Lines("") == []
  {
  }

  lemma DataOfLine(v: string)
    requires v != [] && !IsSpace(v[0])
    ensures DataLines(["data: " + v, ""]) == [v]
  {
    hide IsSpace;
    var line := "data: " + v;
    assert [line, ""][1..] == [""] && [""][1..] == [];
    assert line[|FIELD|..] == " " + v;
    assert (" " + v)[1..] == v && (" " + v)[0] == ' ';
    assert IsSpace(' ') by { SpaceIsSpace(); }
    assert TrimStart(" " + v) == TrimStart(v) == v;
    assert FIELD <= line && !(FIELD <= "");
    assert DataLines([""]) == [] + DataLines([]);
  }

  lemma SpaceIsSpace()
    ensures IsSpace(' ')
  {
  }

  /** The one data line of a printed event is its value. */
  lemma DataOfEvent(v: string)
    requires Printable(v)
    ensures Data("data: " + v + "\n\n") == v
  {
    hide Lines, DataLines;
    var line := "data: " + v;
    assert line[|line| - 1] == v[|v| - 1];
    LinesOfEvent(line);
    DataOfLine(v);
  }

  /** A prefix of an event that ends before its second line feed holds no separator. */
  lemma PrefixIsIncomplete(v: string, b: seq<Byte>)
    requires Printable(v) && b <= Body(v) + [LF]
    ensures Next(b).None?
  {
    BodyHasNoLineEnd(v);
    forall i: nat ensures !LfAt(b, i) && !CrlfAt(b, i) {
      if i < |Body(v)| && i < |b| { assert b[i] == Body(v)[i] && b[i] in Body(v); }
    }
  }

  lemma {:induction false} EventDrains(v: string, more: seq<Byte>)
    requires Printable(v) && |Body(v)| <= LIMIT
    ensures Drain(Event(v) + more) == Before([v], Drain(more))
  {
    hide Next, Data;
    var b := Event(v) + more;
    EventIsBody(v);
    BodyHasNoLineEnd(v);
    forall i: nat | i < |Body(v)| ensures !LfAt(b, i) && !CrlfAt(b, i) {
      assert b[i] == Body(v)[i] && b[i] in Body(v);
    }
    NextIsFirst(b, Separator(|Body(v)|, 2));
    assert b[..|Body(v)| + 2] == Event(v) && b[|Body(v)| + 2..] == more;
    Utf8.RoundTrip("data: " + v + "\n\n");
    DataOfEvent(v);
  }

  /** Decoding a concatenation of printed events in one push returns exactly the printed values. */
  lemma {:induction false} PrintedEventsDecode(values: seq<string>)
    requires forall i :: 0 <= i < |values| ==> Printable(values[i]) && |Body(values[i])| <= LIMIT
    ensures Drain(Stream(values)) == Ok(values, [])
  {
    hide Drain;
    if values == [] {
      EmptyIsSettled();
    } else {
      EventDrains(values[0], Stream(values[1..]));
      PrintedEventsDecode(values[1..]);
      assert [values[0]] + values[1..] == values;
    }
  }

  // ---------------------------------------------------------------------------------------------
  // In any chunks

  lemma {:induction false} FeedAppends(buffer: seq<Byte>, a: seq<seq<Byte>>, b: seq<seq<Byte>>)
    requires Feed(buffer, a).Ok?
    ensures Feed(buffer, a + b) == Before(Feed(buffer, a).events, Feed(Feed(buffer, a).rest, b))
    decreases |a|
  {
    hide Drain;
    if a == [] {
      assert a + b == b;
      BeforeJoin([], [], Feed(buffer, b));
    } else {
      assert (a + b)[1..] == a[1..] + b && (a + b)[0] == a[0];
      var first := Drain(buffer + a[0]);
      FeedAppends(first.rest, a[1..], b);
      BeforeJoin(first.events, Feed(first.rest, a[1..]).events, Feed(Feed(first.rest, a[1..]).rest, b));
    }
  }

  /** Byte by byte, an event stays buffered until its last byte. */
  lemma {:induction false} EventBytes(v: string, done: seq<Byte>, left: seq<Byte>)
    requires Printable(v) && |Body(v)| < LIMIT && done + left == Event(v) && left != []
    ensures Feed(done, Singles(left)) == Ok([v], [])
    decreases |left|
  {
    hide Next, Data;
    EventIsBody(v);
    var now := done + [left[0]];
    assert now + left[1..] == Event(v);
    if |left| == 1 {
      EmptyIsSettled();
      EventDrains(v, []);
      assert now == Event(v) + [];
    } else {
      assert now == Event(v)[..|now|];
      assert now <= Body(v) + [LF];
      PrefixIsIncomplete(v, now);
      EventBytes(v, now, left[1..]);
    }
  }

  lemma {:induction false} StreamBytes(values: seq<string>)
    requires forall i :: 0 <= i < |values| ==> Printable(values[i]) && |Body(values[i])| < LIMIT
    ensures Feed([], Singles(Stream(values))) == Ok(values, [])
  {
    hide Drain;
    if values != [] {
      var first, rest := Event(values[0]), Stream(values[1..]);
      EventIsBody(values[0]);
      assert [] + first == first;
      EventBytes(values[0], [], first);
      SinglesJoin(first, rest);
      FeedAppends([], Singles(first), Singles(rest));
      StreamBytes(values[1..]);
      assert [values[0]] + values[1..] == values;
    }
  }

  /** Main result: however a stream of printed events is cut into chunks, exactly the printed values come out. */
  lemma {:induction false} AnyChunkingDecodes(values: seq<string>, chunks: seq<seq<Byte>>)
    requires forall i :: 0 <= i < |values| ==> Printable(values[i]) && |Body(values[i])| < LIMIT
    requires Concat(chunks) == Stream(values)
    ensures Feed([], chunks) == Ok(values, [])
  {
    hide Drain, Feed;
    EmptyIsSettled();
    StreamBytes(values);
    BytewiseIsStrictest([], chunks);
  }
}
