/** What the event-stream decoder makes of its bytes, in plain numbers: where events end, what is too long, and what an event says. */
module SseEvents {
  import opened Contracts
  import opened Utf8
  import opened Sse
  import SseRoundTrip

  // ---------------------------------------------------------------------------------------------
  // Where an event ends

  /** Two line feeds, or carriage return and line feed twice. */
  predicate BlankAt(b: seq<Byte>, i: nat, n: nat)
  {
    (n == 2 && i + 2 <= |b| && b[i..i + 2] == [10, 10]) || (n == 4 && i + 4 <= |b| && b[i..i + 4] == [13, 10, 13, 10])
  }

  predicate EndsAt(b: seq<Byte>, i: nat, n: nat)
  {
    BlankAt(b, i, n) && forall j: nat :: j < i ==> !BlankAt(b, j, 2) && !BlankAt(b, j, 4)
  }

  lemma BlankIs(b: seq<Byte>, i: nat)
    ensures BlankAt(b, i, 2) <==> LfAt(b, i)
    ensures BlankAt(b, i, 4) <==> CrlfAt(b, i)
  {
    if i + 2 <= |b| {
      var s := b[i..i + 2];
      assert s[0] == b[i] && s[1] == b[i + 1] && s == [s[0], s[1]];
    }
    if i + 4 <= |b| {
      var s := b[i..i + 4];
      assert s[0] == b[i] && s[1] == b[i + 1] && s[2] == b[i + 2] && s[3] == b[i + 3] && s == [s[0], s[1], s[2], s[3]];
    }
  }

  lemma NextIs(b: seq<Byte>, i: nat, n: nat)
    ensures EndsAt(b, i, n) <==> Next(b) == Some(Separator(i, n))
    ensures Next(b).None? <==> forall j: nat :: !BlankAt(b, j, 2) && !BlankAt(b, j, 4)
  {
    hide Next, LfAt, CrlfAt, BlankAt;
    forall j: nat ensures (BlankAt(b, j, 2) <==> LfAt(b, j)) && (BlankAt(b, j, 4) <==> CrlfAt(b, j)) { BlankIs(b, j); }
    NextIsFirst(b, Separator(i, n));
    if BlankAt(b, i, n) { TwoKinds(b, i, n); }
    if Next(b).Some? { NextIsFirst(b, Next(b).value); }
    if Next(b).None? { NoneStands(b); }
  }

  lemma TwoKinds(b: seq<Byte>, i: nat, n: nat)
    requires BlankAt(b, i, n)
    ensures n == 2 || n == 4
  {
  }

  lemma NoneStands(b: seq<Byte>)
    requires Next(b).None?
    ensures forall j: nat :: !LfAt(b, j) && !CrlfAt(b, j)
  {
    hide LfAt, CrlfAt;
  }

  // ---------------------------------------------------------------------------------------------
  // What a push makes of its buffer

  /**
   Main result: without a blank line a push keeps what fits 65536 bytes and fails otherwise; with one, it fails when the
   event before it is longer than that or not text, and otherwise emits what the event says, unless that is nothing, and
   goes on with what follows.
   */
  lemma DrainIs(b: seq<Byte>, i: nat, n: nat)
    ensures (forall j: nat :: !BlankAt(b, j, 2) && !BlankAt(b, j, 4)) ==>
              Drain(b) == if |b| <= 65536 then Ok([], b) else Fail
    ensures EndsAt(b, i, n) ==>
              && i + n <= |b| && 0 < n
              && (i > 65536 || !IsText(b[..i + n]) ==> Drain(b) == Fail)
              && forall text: string :: i <= 65536 && b[..i + n] == Encode(text) ==>
                   var told, later := Data(text), Drain(b[i + n..]);
                   Drain(b) == if later.Fail? then Fail else Ok((if told == "" then [] else [told]) + later.events, later.rest)
  {
    hide Data, Next, IsText, BlankAt;
    NextIs(b, i, n);
    if EndsAt(b, i, n) {
      BlankFits(b, i, n);
      DecodesExactlyText(b[..i + n]);
      forall text: string | b[..i + n] == Encode(text) ensures Decode(b[..i + n]) == Some(text) { RoundTrip(text); }
    }
  }

  lemma BlankFits(b: seq<Byte>, i: nat, n: nat)
    requires BlankAt(b, i, n)
    ensures i + n <= |b| && 0 < n
  {
  }

  // ---------------------------------------------------------------------------------------------
  // What an event says

  /** The characters with the White_Space property. */
  predicate White(c: char)
  {
    (c as int) in {9, 10, 11, 12, 13, 32, 133, 160, 5760, 8192, 8193, 8194, 8195, 8196, 8197, 8198, 8199, 8200, 8201, 8202,
                   8232, 8233, 8239, 8287, 12288}
  }

  lemma WhiteIsSpace(c: char)
    ensures White(c) <==> IsSpace(c)
  {
  }

  /** v is s without its leading white space. */
  predicate Trimmed(s: string, v: string)
  {
    && |v| <= |s| && v == s[|s| - |v|..] && (v != "" ==> !White(v[0]))
    && forall i :: 0 <= i < |s| - |v| ==> White(s[i])
  }

  lemma {:induction false} TrimIs(s: string)
    ensures Trimmed(s, TrimStart(s))
  {
    hide White, IsSpace;
    if s != "" { WhiteIsSpace(s[0]); }
    if s != "" && IsSpace(s[0]) { TrimIs(s[1..]); }
  }

  /** Only one string is s without its leading white space. */
  lemma OneTrimmed(s: string, v: string, w: string)
    requires Trimmed(s, v) && Trimmed(s, w)
    ensures v == w
  {
    hide White;
    assert w != "" ==> w[0] == s[|s| - |w|];
    assert v != "" ==> v[0] == s[|s| - |v|];
  }

  /** A line with its end: a line feed, or a carriage return and a line feed. */
  datatype Ended = Ended(line: string, crlf: bool)

  function Printed(es: seq<Ended>): string
  {
    if es == [] then "" else es[0].line + (if es[0].crlf then "\r\n" else "\n") + Printed(es[1..])
  }

  predicate Clean(e: Ended)
  {
    '\n' !in e.line && (!e.crlf && e.line != "" ==> e.line[|e.line| - 1] != '\r')
  }

  /** What the data fields say: their values, one to a line. */
  ghost predicate Says(es: seq<Ended>, told: seq<string>)
    decreases |es|
  {
    if es == [] then told == []
    else if |es[0].line| >= 5 && es[0].line[..5] == ['d', 'a', 't', 'a', ':'] then
      told != [] && Trimmed(es[0].line[5..], told[0]) && Says(es[1..], told[1..])
    else Says(es[1..], told)
  }

  lemma EndedByLf(line: string, rest: string)
    requires '\n' !in line && (line != "" ==> line[|line| - 1] != '\r')
    ensures Lines(line + "\n" + rest) == [line] + Lines(rest)
  {
    SseRoundTrip.FirstLine(line, rest);
  }

  lemma EndedByCrlf(line: string, rest: string)
    requires '\n' !in line
    ensures Lines(line + "\r\n" + rest) == [line] + Lines(rest)
  {
    hide Line;
    var whole := line + "\r";
    var s := whole + "\n" + rest;
    assert line + "\r\n" + rest == s;
    SseRoundTrip.LineEnds(whole, rest);
    assert s[|whole| + 1..] == rest;
    assert whole[..|whole| - 1] == line;
  }

  lemma {:induction false} LinesOfPrinted(es: seq<Ended>, lines: seq<string>)
    requires forall i :: 0 <= i < |es| ==> Clean(es[i])
    requires |lines| == |es| && forall i :: 0 <= i < |es| ==> lines[i] == es[i].line
    ensures Lines(Printed(es)) == lines
    decreases |es|
  {
    hide Lines;
    if es == [] {
      SseRoundTrip.NoLines();
    } else {
      var e, rest := es[0], Printed(es[1..]);
      assert Clean(e);
      LinesOfPrinted(es[1..], lines[1..]);
      if e.crlf { EndedByCrlf(e.line, rest); } else { EndedByLf(e.line, rest); }
      assert lines == [e.line] + lines[1..];
    }
  }

  lemma {:induction false} FieldsSay(es: seq<Ended>, lines: seq<string>)
    requires |lines| == |es| && forall i :: 0 <= i < |es| ==> lines[i] == es[i].line
    ensures Says(es, DataLines(lines))
    decreases |es|
  {
    hide Trimmed, TrimStart;
    if es != [] {
      FieldsSay(es[1..], lines[1..]);
      FieldIs(es[0].line);
      if FIELD <= es[0].line { TrimIs(es[0].line[5..]); }
      var told := DataLines(lines[1..]);
      var all := DataLines(lines);
      assert FIELD <= es[0].line ==> all == [TrimStart(es[0].line[5..])] + told && all[1..] == told;
      assert !(FIELD <= es[0].line) ==> all == told;
    }
  }

  lemma FieldIs(line: string)
    ensures FIELD <= line <==> |line| >= 5 && line[..5] == ['d', 'a', 't', 'a', ':']
  {
    assert FIELD == ['d', 'a', 't', 'a', ':'];
  }

  /** The lines of a text, each but the last followed by a line feed. */
  predicate Separated(text: string, lines: seq<string>)
    decreases |lines|
  {
    if lines == [] then text == ""
    else if |lines| == 1 then text == lines[0]
    else |lines[0]| < |text| && text[..|lines[0]|] == lines[0] && text[|lines[0]|] == '\n'
         && Separated(text[|lines[0]| + 1..], lines[1..])
  }

  lemma {:induction false} JoinSeparates(lines: seq<string>)
    ensures Separated(Join(lines), lines)
  {
    if |lines| > 1 {
      JoinSeparates(lines[1..]);
      assert Join(lines)[|lines[0]| + 1..] == Join(lines[1..]);
    }
  }

  /**
   Main result: an event printed with any line ends says exactly the values of its data fields, in order, one to a line,
   each without its leading white space; every other line is ignored.
   */
  lemma EventSays(es: seq<Ended>) returns (told: seq<string>)
    requires forall i :: 0 <= i < |es| ==> Clean(es[i])
    ensures Says(es, told) && Separated(Data(Printed(es)), told)
  {
    hide Lines, DataLines, Says, Separated, Printed, Clean;
    var lines := seq(|es|, i requires 0 <= i < |es| => es[i].line);
    LinesOfPrinted(es, lines);
    FieldsSay(es, lines);
    told := DataLines(lines);
    JoinSeparates(told);
  }
}
