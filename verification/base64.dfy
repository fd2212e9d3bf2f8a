/**
 * The base64 encoding of section 4 of RFC 4648 (standard alphabet, with
 * `=` padding), with a decoder and the proof that decoding inverts encoding.
 */
module Base64 {
  import opened Common

  type byte = x: int | 0 <= x < 256

  /** A six-bit group: the index of one alphabet character. */
  type sextet = x: int | 0 <= x < 64

  /** Table 1 of RFC 4648, section 4: the 64-character alphabet. */
  function CharOf(v: sextet): (c: char)
  {
    if v < 26 then ('A' as int + v) as char
    else if v < 52 then ('a' as int + (v - 26)) as char
    else if v < 62 then ('0' as int + (v - 52)) as char
    else if v == 62 then '+'
    else '/'
  }

  /** The value of an alphabet character; `=` and every other character have none. */
  function ValueOf(c: char): (r: Option<sextet>)
    ensures r.Some? ==> CharOf(r.value) == c
  {
    if 'A' <= c <= 'Z' then Some(c as int - 'A' as int)
    else if 'a' <= c <= 'z' then Some(c as int - 'a' as int + 26)
    else if '0' <= c <= '9' then Some(c as int - '0' as int + 52)
    else if c == '+' then Some(62)
    else if c == '/' then Some(63)
    else None
  }

  lemma ValueOfCharOf(v: sextet)
    ensures ValueOf(CharOf(v)) == Some(v)
  {
  }

  /** A character that may appear in an encoding: an alphabet character or the pad. */
  predicate IsEncodingChar(c: char)
  {
    ValueOf(c).Some? || c == '='
  }

  /** Three bytes as four characters. */
  function EncodeThree(b0: byte, b1: byte, b2: byte): string
  {
    [CharOf(b0 / 4), CharOf((b0 % 4) * 16 + b1 / 16), CharOf((b1 % 16) * 4 + b2 / 64), CharOf(b2 % 64)]
  }

  /** A final pair of bytes: three characters and one pad. */
  function EncodeTwo(b0: byte, b1: byte): string
  {
    [CharOf(b0 / 4), CharOf((b0 % 4) * 16 + b1 / 16), CharOf((b1 % 16) * 4), '=']
  }

  /** A final single byte: two characters and two pads. */
  function EncodeOne(b0: byte): string
  {
    [CharOf(b0 / 4), CharOf((b0 % 4) * 16), '=', '=']
  }

  /** Encode bytes: four characters per three bytes, the last group padded. */
  function Encode(b: seq<byte>): (s: string)
    ensures |s| == 4 * ((|b| + 2) / 3)
    ensures forall i :: 0 <= i < |s| ==> IsEncodingChar(s[i])
  {
    if |b| == 0 then ""
    else if |b| == 1 then EncodeOne(b[0])
    else if |b| == 2 then EncodeTwo(b[0], b[1])
    else
      var head := EncodeThree(b[0], b[1], b[2]);
      var tail := Encode(b[3..]);
      assert forall i :: 0 <= i < |tail| ==> (head + tail)[4 + i] == tail[i];
      head + tail
  }

  /** The test vectors of section 10 of RFC 4648 ("f", "fo", "foo", "foob", "fooba", "foobar"). */
  lemma EncodeTestVectors()
    ensures Encode([]) == ""
    ensures Encode([102]) == "Zg=="
    ensures Encode([102, 111]) == "Zm8="
    ensures Encode([102, 111, 111]) == "Zm9v"
    ensures Encode([102, 111, 111, 98]) == "Zm9vYg=="
    ensures Encode([102, 111, 111, 98, 97]) == "Zm9vYmE="
    ensures Encode([102, 111, 111, 98, 97, 114]) == "Zm9vYmFy"
  {
  }

  /** Decode a quartet without padding. */
  function DecodeQuartet(q: string): Option<seq<byte>>
    requires |q| == 4
  {
    var v0, v1, v2, v3 := ValueOf(q[0]), ValueOf(q[1]), ValueOf(q[2]), ValueOf(q[3]);
    if v0.None? || v1.None? || v2.None? || v3.None? then None
    else
      var a, b, c, d := v0.value, v1.value, v2.value, v3.value;
      Some([a * 4 + b / 16, (b % 16) * 16 + c / 4, (c % 4) * 64 + d])
  }

  /** Decode the final quartet, which may end in one or two pads. */
  function DecodeFinal(q: string): Option<seq<byte>>
    requires |q| == 4
  {
    var v0, v1, v2 := ValueOf(q[0]), ValueOf(q[1]), ValueOf(q[2]);
    if q[2] == '=' && q[3] == '=' then
      if v0.None? || v1.None? then None
      else Some([v0.value * 4 + v1.value / 16])
    else if q[3] == '=' then
      if v0.None? || v1.None? || v2.None? then None
      else Some([v0.value * 4 + v1.value / 16, (v1.value % 16) * 16 + v2.value / 4])
    else DecodeQuartet(q)
  }

  /** Decode a whole encoding; a length not a multiple of four or a stray character is refused. */
  function Decode(s: string): Option<seq<byte>>
  {
    if |s| == 0 then Some([])
    else if |s| < 4 then None
    else if |s| == 4 then DecodeFinal(s)
    else
      match DecodeQuartet(s[..4])
      case None => None
      case Some(head) =>
        match Decode(s[4..])
        case None => None
        case Some(tail) => Some(head + tail)
  }

  /** The high six bits and the low two bits of a byte put it back together. */
  lemma FirstByteSplit(b0: byte, b1: byte)
    ensures (b0 / 4) * 4 + ((b0 % 4) * 16 + b1 / 16) / 16 == b0
  {
    assert ((b0 % 4) * 16 + b1 / 16) / 16 == b0 % 4;
  }

  lemma MiddleByteSplit(b0: byte, b1: byte, b2: byte)
    ensures (((b0 % 4) * 16 + b1 / 16) % 16) * 16 + ((b1 % 16) * 4 + b2 / 64) / 4 == b1
  {
    assert ((b0 % 4) * 16 + b1 / 16) % 16 == b1 / 16;
    assert ((b1 % 16) * 4 + b2 / 64) / 4 == b1 % 16;
  }

  lemma LastByteSplit(b1: byte, b2: byte)
    ensures (((b1 % 16) * 4 + b2 / 64) % 4) * 64 + b2 % 64 == b2
  {
    assert ((b1 % 16) * 4 + b2 / 64) % 4 == b2 / 64;
  }

  lemma DecodeEncodeThree(b0: byte, b1: byte, b2: byte)
    ensures DecodeQuartet(EncodeThree(b0, b1, b2)) == Some([b0, b1, b2])
    ensures DecodeFinal(EncodeThree(b0, b1, b2)) == Some([b0, b1, b2])
  {
    var c0, c1, c2, c3 := b0 / 4, (b0 % 4) * 16 + b1 / 16, (b1 % 16) * 4 + b2 / 64, b2 % 64;
    var q := EncodeThree(b0, b1, b2);
    assert q == [CharOf(c0), CharOf(c1), CharOf(c2), CharOf(c3)];
    ValueOfCharOf(c0);
    ValueOfCharOf(c1);
    ValueOfCharOf(c2);
    ValueOfCharOf(c3);
    FirstByteSplit(b0, b1);
    MiddleByteSplit(b0, b1, b2);
    LastByteSplit(b1, b2);
    assert DecodeQuartet(q) == Some([c0 * 4 + c1 / 16, (c1 % 16) * 16 + c2 / 4, (c2 % 4) * 64 + c3]);
    assert q[3] != '=';
  }

  lemma DecodeEncodeTwo(b0: byte, b1: byte)
    ensures DecodeFinal(EncodeTwo(b0, b1)) == Some([b0, b1])
  {
    ValueOfCharOf(b0 / 4);
    ValueOfCharOf((b0 % 4) * 16 + b1 / 16);
    ValueOfCharOf((b1 % 16) * 4);
  }

  lemma DecodeEncodeOne(b0: byte)
    ensures DecodeFinal(EncodeOne(b0)) == Some([b0])
  {
  }

  /** A full quartet in front of a non-empty encoding decodes to its three bytes in front. */
  lemma DecodePrefixQuartet(head: string, tail: string, h: seq<byte>, t: seq<byte>)
    requires |head| == 4 && |tail| >= 4
    requires DecodeQuartet(head) == Some(h)
    requires Decode(tail) == Some(t)
    ensures Decode(head + tail) == Some(h + t)
  {
  }

  /** The encoding of three or more bytes starts with the full quartet of the first three. */
  lemma EncodeSplits(b: seq<byte>)
    requires |b| >= 3
    ensures Encode(b) == EncodeThree(b[0], b[1], b[2]) + Encode(b[3..])
  {
  }

  /** A single quartet is decoded as the final one. */
  lemma DecodeOneQuartet(q: string)
    requires |q| == 4
    ensures Decode(q) == DecodeFinal(q)
  {
  }

  lemma DecodeEncodeLastOne(b: seq<byte>)
    requires |b| == 1
    ensures Decode(Encode(b)) == Some(b)
  {
    var q := EncodeOne(b[0]);
    assert Encode(b) == q;
    DecodeOneQuartet(q);
    DecodeEncodeOne(b[0]);
    assert [b[0]] == b;
  }

  lemma DecodeEncodeLastTwo(b: seq<byte>)
    requires |b| == 2
    ensures Decode(Encode(b)) == Some(b)
  {
    var q := EncodeTwo(b[0], b[1]);
    assert Encode(b) == q;
    DecodeOneQuartet(q);
    DecodeEncodeTwo(b[0], b[1]);
    assert [b[0], b[1]] == b;
  }

  lemma DecodeEncodeLastThree(b: seq<byte>)
    requires |b| == 3
    ensures Decode(Encode(b)) == Some(b)
  {
    var q := EncodeThree(b[0], b[1], b[2]);
    EncodeSplits(b);
    assert Encode(b[3..]) == "";
    assert Encode(b) == q;
    DecodeOneQuartet(q);
    DecodeEncodeThree(b[0], b[1], b[2]);
    assert [b[0], b[1], b[2]] == b;
  }

  /** Decoding an encoding gives back the bytes. */
  lemma {:induction false} DecodeEncode(b: seq<byte>)
    ensures Decode(Encode(b)) == Some(b)
    decreases |b|
  {
    if |b| == 0 {
    } else if |b| == 1 {
      DecodeEncodeLastOne(b);
    } else if |b| == 2 {
      DecodeEncodeLastTwo(b);
    } else if |b| == 3 {
      DecodeEncodeLastThree(b);
    } else {
      var head, tail := EncodeThree(b[0], b[1], b[2]), Encode(b[3..]);
      EncodeSplits(b);
      DecodeEncodeThree(b[0], b[1], b[2]);
      DecodeEncode(b[3..]);
      DecodePrefixQuartet(head, tail, [b[0], b[1], b[2]], b[3..]);
      assert [b[0], b[1], b[2]] + b[3..] == b;
    }
  }
}
