/** UTF-8, as Rust's `String::from_utf8` accepts it and `str::as_bytes` produces it. */
module Utf8 {
  import opened Contracts

  type Byte = b: int | 0 <= b < 256

  function EncodeChar(c: char): (r: seq<Byte>)
    ensures 1 <= |r| <= 4
  {
    var n := c as int;
    if n < 0x80 then [n]
    else if n < 0x800 then [0xC0 + n / 64, 0x80 + n % 64]
    else if n < 0x1_0000 then [0xE0 + n / 4096, 0x80 + n / 64 % 64, 0x80 + n % 64]
    else [0xF0 + n / 262144, 0x80 + n / 4096 % 64, 0x80 + n / 64 % 64, 0x80 + n % 64]
  }

  function Encode(s: string): seq<Byte>
  {
    if s == [] then [] else EncodeChar(s[0]) + Encode(s[1..])
  }

  predicate Tail(b: Byte) { 0x80 <= b < 0xC0 }
  function Low(b: Byte): int { b - 0x80 }

  /** The first character and its length; no overlong forms, no surrogates, nothing above U+10FFFF. */
  function DecodeFirst(b: seq<Byte>): (r: Option<(char, nat)>)
    ensures r.Some? ==> 1 <= r.value.1 <= |b|
  {
    if |b| == 0 then None
    else
      var lead: int := b[0];
      if lead < 0x80 then Some((lead as char, 1))
      else if 0xC2 <= lead < 0xE0 && |b| >= 2 && Tail(b[1]) then Some((((lead - 0xC0) * 64 + Low(b[1])) as char, 2))
      else if 0xE0 <= lead < 0xF0 && |b| >= 3 && Tail(b[1]) && Tail(b[2]) then
        var n := (lead - 0xE0) * 4096 + Low(b[1]) * 64 + Low(b[2]);
        if 0x800 <= n && !(0xD800 <= n < 0xE000) then Some((n as char, 3)) else None
      else if 0xF0 <= lead < 0xF5 && |b| >= 4 && Tail(b[1]) && Tail(b[2]) && Tail(b[3]) then
        var n := (lead - 0xF0) * 262144 + Low(b[1]) * 4096 + Low(b[2]) * 64 + Low(b[3]);
        if 0x1_0000 <= n < 0x11_0000 then Some((n as char, 4)) else None
      else None
  }

  function Decode(b: seq<Byte>): Option<string>
    decreases |b|
  {
    if b == [] then Some([])
    else
      match DecodeFirst(b)
      case None => None
      case Some((c, n)) =>
        match Decode(b[n..])
        case None => None
        case Some(rest) => Some([c] + rest)
  }

  lemma Base64Digits(n: int)
    requires 0 <= n
    ensures n / 64 * 64 + n % 64 == n
    ensures n / 4096 * 4096 + n / 64 % 64 * 64 + n % 64 == n
    ensures n / 262144 * 262144 + n / 4096 % 64 * 4096 + n / 64 % 64 * 64 + n % 64 == n
  {
    var a := n / 64;
    var b := a / 64;
    assert b == n / 4096 && b / 64 == n / 262144;
  }

  lemma DecodesChar(c: char, rest: seq<Byte>)
    ensures DecodeFirst(EncodeChar(c) + rest) == Some((c, |EncodeChar(c)|))
  {
    var n := c as int;
    var b := EncodeChar(c) + rest;
    Base64Digits(n);
  }

  /** What a byte adds to the number, without the mark it starts with. */
  function Bits(b: int, mark: int, weight: int): int { (b - mark) * weight }

  /** The bytes of a character, by section 3 of RFC 3629: a lead byte that tells how many follow, and six bits in each of those. */
  lemma CharacterIs(c: char)
    ensures var n, b := c as int, EncodeChar(c);
            && (forall i :: 1 <= i < |b| ==> 128 <= b[i] < 192)
            && |b| == (if n < 128 then 1 else if n < 2048 then 2 else if n < 65536 then 3 else 4)
            && match |b|
               case 1 => b[0] == n
               case 2 => 192 <= b[0] < 224 && n == Bits(b[0], 192, 64) + Bits(b[1], 128, 1)
               case 3 => 224 <= b[0] < 240 && n == Bits(b[0], 224, 4096) + Bits(b[1], 128, 64) + Bits(b[2], 128, 1)
               case _ =>
                 240 <= b[0] < 248 && n == Bits(b[0], 240, 262144) + Bits(b[1], 128, 4096) + Bits(b[2], 128, 64) + Bits(b[3], 128, 1)
  {
    Base64Digits(c as int);
  }

  lemma {:induction false} RoundTrip(s: string)
    ensures Decode(Encode(s)) == Some(s)
  {
    hide DecodeFirst, EncodeChar;
    if s != [] {
      var first, rest := EncodeChar(s[0]), Encode(s[1..]);
      DecodesChar(s[0], rest);
      assert (first + rest)[|first|..] == rest;
      RoundTrip(s[1..]);
      assert [s[0]] + s[1..] == s;
    }
  }

  lemma FirstIsEncoded(b: seq<Byte>)
    requires DecodeFirst(b).Some?
    ensures var (c, n) := DecodeFirst(b).value; EncodeChar(c) == b[..n]
  {
    var lead: int := b[0];
    if 0xC2 <= lead < 0xE0 {
      Base64Sum(lead - 0xC0, Low(b[1]));
    } else if 0xE0 <= lead < 0xF0 {
      ThreeAreEncoded(b);
    } else if 0xF0 <= lead {
      FourAreEncoded(b);
    }
  }

  lemma ThreeAreEncoded(b: seq<Byte>)
    requires |b| >= 3 && 0xE0 <= b[0] < 0xF0 && DecodeFirst(b).Some?
    ensures var (c, n) := DecodeFirst(b).value; EncodeChar(c) == b[..n]
  {
    var lead: int := b[0];
    Base64Sum((lead - 0xE0) * 64 + Low(b[1]), Low(b[2]));
    Base64Sum(lead - 0xE0, Low(b[1]));
  }

  lemma FourAreEncoded(b: seq<Byte>)
    requires |b| >= 4 && 0xF0 <= b[0] && DecodeFirst(b).Some?
    ensures var (c, n) := DecodeFirst(b).value; EncodeChar(c) == b[..n]
  {
    var lead: int := b[0];
    Base64Sum(((lead - 0xF0) * 64 + Low(b[1])) * 64 + Low(b[2]), Low(b[3]));
    Base64Sum((lead - 0xF0) * 64 + Low(b[1]), Low(b[2]));
    Base64Sum(lead - 0xF0, Low(b[1]));
  }

  lemma Base64Sum(high: int, low: int)
    requires 0 <= high && 0 <= low < 64
    ensures (high * 64 + low) / 64 == high && (high * 64 + low) % 64 == low
    ensures (high * 64 + low) / 4096 == high / 64 && (high * 64 + low) / 262144 == high / 4096
  {
  }

  /** Nothing but the encoding of a text is accepted as its bytes. */
  lemma {:induction false} DecodedIsEncoded(b: seq<Byte>)
    requires Decode(b).Some?
    ensures Encode(Decode(b).value) == b
    decreases |b|
  {
    hide DecodeFirst, EncodeChar;
    if b != [] {
      var (c, n) := DecodeFirst(b).value;
      FirstIsEncoded(b);
      DecodedIsEncoded(b[n..]);
      assert ([c] + Decode(b[n..]).value)[1..] == Decode(b[n..]).value;
      assert b[..n] + b[n..] == b;
    }
  }

  /** The bytes are the encoding of some text. */
  ghost predicate IsText(b: seq<Byte>) { exists s :: Encode(s) == b }

  lemma {:induction false} DecodesExactlyText(b: seq<Byte>)
    ensures Decode(b).Some? <==> IsText(b)
  {
    hide Decode, Encode;
    if Decode(b).Some? {
      DecodedIsEncoded(b);
    } else if IsText(b) {
      var s :| Encode(s) == b;
      RoundTrip(s);
    }
  }

  lemma {:induction false} EncodeJoin(s: string, t: string)
    ensures Encode(s + t) == Encode(s) + Encode(t)
  {
    hide EncodeChar;
    if s == [] {
      assert s + t == t;
    } else {
      EncodeJoin(s[1..], t);
      assert (s + t)[1..] == s[1..] + t;
    }
  }

  /** An ASCII byte only ever stands for its own character. */
  lemma {:induction false} AsciiIsItself(s: string, b: Byte)
    requires b < 0x80 && b in Encode(s)
    ensures b as char in s
  {
    if b in EncodeChar(s[0]) {
    } else {
      AsciiIsItself(s[1..], b);
    }
  }
}
