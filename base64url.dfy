/**
 * The URL- and filename-safe base64 alphabet with padding (section 5 of RFC 4648),
 * which Go's base64.URLEncoding implements and the CSRF token text uses.
 * The decoder is used to prove that encoding loses nothing.
 */
module Base64Url {
  import opened Wrappers

  type Byte = b: int | 0 <= b < 256
  type Sextet = i: int | 0 <= i < 64

  const Pad := '='

  /** The 64 letters of the alphabet: A-Z, a-z, 0-9, '-' and '_'. */
  predicate InAlphabet(c: char) {
    ('A' <= c <= 'Z') || ('a' <= c <= 'z') || ('0' <= c <= '9') || c == '-' || c == '_'
  }

  function Letter(i: Sextet): (c: char)
    ensures InAlphabet(c)
  {
    if i < 26 then ('A' as int + i) as char
    else if i < 52 then ('a' as int + (i - 26)) as char
    else if i < 62 then ('0' as int + (i - 52)) as char
    else if i == 62 then '-'
    else '_'
  }

  function Value(c: char): (i: Sextet)
    requires InAlphabet(c)
  {
    if 'A' <= c <= 'Z' then c as int - 'A' as int
    else if 'a' <= c <= 'z' then c as int - 'a' as int + 26
    else if '0' <= c <= '9' then c as int - '0' as int + 52
    else if c == '-' then 62
    else 63
  }

  lemma ValueOfLetter(i: Sextet)
    ensures Value(Letter(i)) == i
  {
  }

  /** Three bytes as four letters. */
  function EncodeGroup(b0: Byte, b1: Byte, b2: Byte): (s: string)
    ensures |s| == 4 && forall k :: 0 <= k < 4 ==> InAlphabet(s[k])
  {
    [Letter(b0 / 4), Letter((b0 % 4) * 16 + b1 / 16), Letter((b1 % 16) * 4 + b2 / 64), Letter(b2 % 64)]
  }

  /** One left-over byte: two letters and two pads. */
  function EncodeOne(b0: Byte): (s: string)
    ensures |s| == 4 && InAlphabet(s[0]) && InAlphabet(s[1]) && s[2] == Pad && s[3] == Pad
  {
    [Letter(b0 / 4), Letter((b0 % 4) * 16), Pad, Pad]
  }

  /** Two left-over bytes: three letters and one pad. */
  function EncodeTwo(b0: Byte, b1: Byte): (s: string)
    ensures |s| == 4 && InAlphabet(s[0]) && InAlphabet(s[1]) && InAlphabet(s[2]) && s[3] == Pad
  {
    [Letter(b0 / 4), Letter((b0 % 4) * 16 + b1 / 16), Letter((b1 % 16) * 4), Pad]
  }

  /** The encoding: whole groups of three, then one padded group for one or two left-over bytes. */
  function Encode(b: seq<Byte>): (s: string)
    ensures |s| == 4 * ((|b| + 2) / 3)
    decreases |b|
  {
    if |b| == 0 then ""
    else if |b| == 1 then EncodeOne(b[0])
    else if |b| == 2 then EncodeTwo(b[0], b[1])
    else EncodeGroup(b[0], b[1], b[2]) + Encode(b[3..])
  }

  /** Every character of an encoding is a letter of the alphabet or padding. */
  lemma {:induction false} EncodeIsUrlSafe(b: seq<Byte>)
    ensures forall k :: 0 <= k < |Encode(b)| ==> InAlphabet(Encode(b)[k]) || Encode(b)[k] == Pad
    decreases |b|
  {
    if |b| >= 3 {
      EncodeIsUrlSafe(b[3..]);
      var g, rest := EncodeGroup(b[0], b[1], b[2]), Encode(b[3..]);
      forall k | 0 <= k < |g + rest| ensures InAlphabet((g + rest)[k]) || (g + rest)[k] == Pad {
        if k >= 4 {
          assert (g + rest)[k] == rest[k - 4];
        }
      }
    }
  }

  /** Four letters back to three bytes; the last group may carry one or two pads. */
  function DecodeQuad(s: string, last: bool): (r: Option<seq<Byte>>)
    requires |s| == 4
  {
    if InAlphabet(s[0]) && InAlphabet(s[1]) && InAlphabet(s[2]) && InAlphabet(s[3]) then
      var v0, v1, v2, v3 := Value(s[0]), Value(s[1]), Value(s[2]), Value(s[3]);
      Some([v0 * 4 + v1 / 16, (v1 % 16) * 16 + v2 / 4, (v2 % 4) * 64 + v3])
    else if last && InAlphabet(s[0]) && InAlphabet(s[1]) && InAlphabet(s[2]) && s[3] == Pad then
      var v0, v1, v2 := Value(s[0]), Value(s[1]), Value(s[2]);
      Some([v0 * 4 + v1 / 16, (v1 % 16) * 16 + v2 / 4])
    else if last && InAlphabet(s[0]) && InAlphabet(s[1]) && s[2] == Pad && s[3] == Pad then
      Some([Value(s[0]) * 4 + Value(s[1]) / 16])
    else None
  }

  function Decode(s: string): (r: Option<seq<Byte>>)
    decreases |s|
  {
    if |s| == 0 then Some([])
    else if |s| < 4 then None
    else if |s| == 4 then DecodeQuad(s, true)
    else
      match DecodeQuad(s[..4], false)
      case None => None
      case Some(head) =>
        match Decode(s[4..])
        case None => None
        case Some(tail) => Some(head + tail)
  }

  /** Division by 16 recovers the high part of a value packed as q * 16 + r. */
  lemma Unpack16(q: int, r: int)
    requires 0 <= r < 16
    ensures (q * 16 + r) / 16 == q && (q * 16 + r) % 16 == r
  {
  }

  /** Division by 4 recovers the high part of a value packed as q * 4 + r. */
  lemma Unpack4(q: int, r: int)
    requires 0 <= r < 4
    ensures (q * 4 + r) / 4 == q && (q * 4 + r) % 4 == r
  {
  }

  /** The letters of one group give back the byte values they were cut from. */
  lemma SplitBytes(b0: Byte, b1: Byte, b2: Byte)
    ensures ((b0 % 4) * 16 + b1 / 16) / 16 == b0 % 4 && ((b0 % 4) * 16 + b1 / 16) % 16 == b1 / 16
    ensures ((b1 % 16) * 4 + b2 / 64) / 4 == b1 % 16 && ((b1 % 16) * 4 + b2 / 64) % 4 == b2 / 64
    ensures (b0 / 4) * 4 + b0 % 4 == b0
    ensures (b1 / 16) * 16 + b1 % 16 == b1
    ensures (b2 / 64) * 64 + b2 % 64 == b2
  {
    Unpack16(b0 % 4, b1 / 16);
    Unpack4(b1 % 16, b2 / 64);
  }

  lemma GroupRoundTrip(b0: Byte, b1: Byte, b2: Byte, last: bool)
    ensures DecodeQuad(EncodeGroup(b0, b1, b2), last) == Some([b0, b1, b2])
  {
    var s0, s1, s2, s3 := b0 / 4, (b0 % 4) * 16 + b1 / 16, (b1 % 16) * 4 + b2 / 64, b2 % 64;
    ValueOfLetter(s0);
    ValueOfLetter(s1);
    ValueOfLetter(s2);
    ValueOfLetter(s3);
    SplitBytes(b0, b1, b2);
    var g := EncodeGroup(b0, b1, b2);
    assert Value(g[0]) == s0 && Value(g[1]) == s1 && Value(g[2]) == s2 && Value(g[3]) == s3;
    assert s0 * 4 + s1 / 16 == b0;
    assert (s1 % 16) * 16 + s2 / 4 == b1;
    assert (s2 % 4) * 64 + s3 == b2;
  }

  /** One left-over byte: two letters and two pads. */
  lemma OneByteRoundTrip(b0: Byte)
    ensures Decode(Encode([b0])) == Some([b0])
  {
    var e := Encode([b0]);
    ValueOfLetter(b0 / 4);
    ValueOfLetter((b0 % 4) * 16);
    SplitBytes(b0, 0, 0);
    assert !InAlphabet(e[2]) && !InAlphabet(e[3]);
    var v0: int, v1: int := Value(e[0]), Value(e[1]);
    assert v0 == b0 / 4 && v1 == (b0 % 4) * 16;
    Unpack16(b0 % 4, 0);
    assert v0 * 4 + v1 / 16 == b0;
  }

  /** Two left-over bytes: three letters and one pad. */
  lemma TwoBytesRoundTrip(b0: Byte, b1: Byte)
    ensures Decode(Encode([b0, b1])) == Some([b0, b1])
  {
    var e := Encode([b0, b1]);
    ValueOfLetter(b0 / 4);
    ValueOfLetter((b0 % 4) * 16 + b1 / 16);
    ValueOfLetter((b1 % 16) * 4);
    SplitBytes(b0, b1, 0);
    Unpack4(b1 % 16, 0);
    assert !InAlphabet(e[3]);
    var v0: int, v1: int, v2: int := Value(e[0]), Value(e[1]), Value(e[2]);
    assert v0 == b0 / 4 && v1 == (b0 % 4) * 16 + b1 / 16 && v2 == (b1 % 16) * 4;
    assert v0 * 4 + v1 / 16 == b0;
    assert (v1 % 16) * 16 + v2 / 4 == b1;
  }

  /** A leading group that is not the last one is decoded on its own, then the rest. */
  lemma DecodeLeadingGroup(g: string, rest: string)
    requires |g| == 4 && |rest| > 0
    ensures Decode(g + rest) ==
      match DecodeQuad(g, false)
      case None => None
      case Some(head) => (match Decode(rest) case None => None case Some(tail) => Some(head + tail))
  {
    assert (g + rest)[..4] == g;
    assert (g + rest)[4..] == rest;
  }

  /** Decoding an encoding gives the bytes back: the token text loses nothing of its randomness. */
  lemma {:induction false} DecodeEncode(b: seq<Byte>)
    ensures Decode(Encode(b)) == Some(b)
    decreases |b|
  {
    if |b| == 1 {
      assert b == [b[0]];
      OneByteRoundTrip(b[0]);
    } else if |b| == 2 {
      assert b == [b[0], b[1]];
      TwoBytesRoundTrip(b[0], b[1]);
    } else if |b| == 3 {
      ThreeBytesRoundTrip(b);
    } else if |b| > 3 {
      DecodeEncode(b[3..]);
      LongRoundTrip(b);
    }
  }

  lemma SplitFirstThree(b: seq<Byte>)
    requires |b| >= 3
    ensures [b[0], b[1], b[2]] + b[3..] == b
  {
  }

  /** The step of the induction: a full leading group in front of an encoding that round-trips. */
  lemma LongRoundTrip(b: seq<Byte>)
    requires |b| > 3 && Decode(Encode(b[3..])) == Some(b[3..])
    ensures Decode(Encode(b)) == Some(b)
  {
    var tail := b[3..];
    var g, rest := EncodeGroup(b[0], b[1], b[2]), Encode(tail);
    assert Encode(b) == g + rest;
    assert |rest| > 0;
    GroupRoundTrip(b[0], b[1], b[2], false);
    DecodeLeadingGroup(g, rest);
    assert Decode(g + rest) == Some([b[0], b[1], b[2]] + tail);
    SplitFirstThree(b);
  }

  lemma ThreeBytesRoundTrip(b: seq<Byte>)
    requires |b| == 3
    ensures Decode(Encode(b)) == Some(b)
  {
    assert Encode(b[3..]) == "";
    assert Encode(b) == EncodeGroup(b[0], b[1], b[2]) + "";
    assert EncodeGroup(b[0], b[1], b[2]) + "" == EncodeGroup(b[0], b[1], b[2]);
    GroupRoundTrip(b[0], b[1], b[2], true);
    assert [b[0], b[1], b[2]] == b;
  }

  /** Distinct byte strings give distinct texts. */
  lemma EncodeInjective(a: seq<Byte>, b: seq<Byte>)
    requires Encode(a) == Encode(b)
    ensures a == b
  {
    DecodeEncode(a);
    DecodeEncode(b);
  }
}
