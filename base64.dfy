/** The base 64 encoding of section 4 of RFC 4648 (Table 1 alphabet, `=`
    padding), and the browser functions `btoa` / `atob` that apply it to
    binary strings, whose characters stand for bytes. */
module Base64 {
  import opened Wrappers

  newtype byte = x: int | 0 <= x < 256

  /** A 6-bit group: the value one encoded character carries. */
  type sextet = x: int | 0 <= x < 64

  const Pad := '='

  /** Table 1 of RFC 4648: A-Z for 0-25, a-z for 26-51, 0-9 for 52-61, then
      `+` and `/`. */
  function EncodeSextet(d: sextet): char {
    if d < 26 then ('A' as int + d) as char
    else if d < 52 then ('a' as int + (d - 26)) as char
    else if d < 62 then ('0' as int + (d - 52)) as char
    else if d == 62 then '+'
    else '/'
  }

  /** The value of an alphabet character; `None` for every other character,
      the pad included. */
  function DecodeChar(c: char): (r: Option<sextet>)
    ensures r.Some? ==> EncodeSextet(r.value) == c
  {
    if 'A' <= c <= 'Z' then Some(c as int - 'A' as int)
    else if 'a' <= c <= 'z' then Some(c as int - 'a' as int + 26)
    else if '0' <= c <= '9' then Some(c as int - '0' as int + 52)
    else if c == '+' then Some(62)
    else if c == '/' then Some(63)
    else None
  }

  lemma SextetRoundTrip(d: sextet)
    ensures DecodeChar(EncodeSextet(d)) == Some(d)
  {
  }

  /** Three bytes as four characters: the 24 bits read as four 6-bit
      groups, most significant first. */
  function EncodeBlock(b0: byte, b1: byte, b2: byte): (r: string)
    ensures |r| == 4
  {
    [EncodeSextet(b0 as int / 4), EncodeSextet((b0 as int % 4) * 16 + b1 as int / 16),
     EncodeSextet((b1 as int % 16) * 4 + b2 as int / 64), EncodeSextet(b2 as int % 64)]
  }

  /** Whole 3-byte groups as blocks; a final group of one or two bytes is
      filled with zero bits and completed with two or one pad characters. */
  function Encode(bs: seq<byte>): (r: string)
    ensures |r| == 4 * ((|bs| + 2) / 3)
    ensures forall k :: 0 <= k < |r| ==> r[k] == Pad || DecodeChar(r[k]).Some?
    decreases |bs|
  {
    if |bs| == 0 then ""
    else if |bs| == 1 then EncodeBlock(bs[0], 0, 0)[..2] + [Pad, Pad]
    else if |bs| == 2 then EncodeBlock(bs[0], bs[1], 0)[..3] + [Pad]
    else
      SextetsOfBlock(bs[0], bs[1], bs[2]);
      EncodeBlock(bs[0], bs[1], bs[2]) + Encode(bs[3..])
  }

  lemma SextetsOfBlock(b0: byte, b1: byte, b2: byte)
    ensures forall k :: 0 <= k < 4 ==> DecodeChar(EncodeBlock(b0, b1, b2)[k]).Some?
  {
    SextetRoundTrip(b0 as int / 4);
    SextetRoundTrip((b0 as int % 4) * 16 + b1 as int / 16);
    SextetRoundTrip((b1 as int % 16) * 4 + b2 as int / 64);
    SextetRoundTrip(b2 as int % 64);
  }

  /** Four 6-bit groups as the three bytes they spell. */
  function DecodeBlock(d0: sextet, d1: sextet, d2: sextet, d3: sextet): seq<byte> {
    [(d0 * 4 + d1 / 16) as byte, ((d1 % 16) * 16 + d2 / 4) as byte, ((d2 % 4) * 64 + d3) as byte]
  }

  /** One block of four characters. Only the last block may end in padding;
      the bits a padded block leaves over are dropped, as `atob` drops them. */
  function DecodeQuad(q: string, last: bool): (r: Option<seq<byte>>)
    requires |q| == 4
    ensures r.Some? ==> 1 <= |r.value| <= 3 && (!last ==> |r.value| == 3)
  {
    var d0, d1, d2, d3 := DecodeChar(q[0]), DecodeChar(q[1]), DecodeChar(q[2]), DecodeChar(q[3]);
    if d0.None? || d1.None? then None
    else if d2.Some? && d3.Some? then Some(DecodeBlock(d0.value, d1.value, d2.value, d3.value))
    else if last && d2.Some? && q[3] == Pad then Some(DecodeBlock(d0.value, d1.value, d2.value, 0)[..2])
    else if last && q[2] == Pad && q[3] == Pad then Some(DecodeBlock(d0.value, d1.value, 0, 0)[..1])
    else None
  }

  /** Strict decoding: whole blocks of four characters, alphabet characters
      only, padding only at the very end. */
  function Decode(s: string): (r: Option<seq<byte>>)
    ensures r.Some? ==> |s| % 4 == 0
    decreases |s|
  {
    if |s| == 0 then Some([])
    else if |s| < 4 then None
    else
      match DecodeQuad(s[..4], |s| == 4)
      case None => None
      case Some(head) =>
        match Decode(s[4..])
        case None => None
        case Some(rest) => Some(head + rest)
  }

  lemma Split16(a: int, t: int)
    requires 0 <= t < 16
    ensures (16 * a + t) / 16 == a && (16 * a + t) % 16 == t
  {
  }

  lemma Split4(a: int, t: int)
    requires 0 <= t < 4
    ensures (4 * a + t) / 4 == a && (4 * a + t) % 4 == t
  {
  }

  /** Decoding the four groups of a block gives its three bytes back. */
  lemma BlockRoundTrip(b0: byte, b1: byte, b2: byte)
    ensures var q := EncodeBlock(b0, b1, b2);
      DecodeQuad(q, false) == Some([b0, b1, b2]) && DecodeQuad(q, true) == Some([b0, b1, b2])
  {
    var d0, d1 := b0 as int / 4, (b0 as int % 4) * 16 + b1 as int / 16;
    var d2, d3 := (b1 as int % 16) * 4 + b2 as int / 64, b2 as int % 64;
    SextetRoundTrip(d0);
    SextetRoundTrip(d1);
    SextetRoundTrip(d2);
    SextetRoundTrip(d3);
    Split16(b0 as int % 4, b1 as int / 16);
    Split4(b1 as int % 16, b2 as int / 64);
    assert DecodeBlock(d0, d1, d2, d3) == [b0, b1, b2];
  }

  /** Decoding reads one block and then the rest. */
  lemma DecodeCons(s: string, q: string, rest: string, head: seq<byte>, tail: seq<byte>)
    requires s == q + rest && |q| == 4
    requires DecodeQuad(q, |rest| == 0) == Some(head) && Decode(rest) == Some(tail)
    ensures Decode(s) == Some(head + tail)
  {
    assert s[..4] == q && s[4..] == rest;
  }

  /** A final group of one byte: two characters and two pads. */
  lemma DecodeLastOne(b0: byte)
    ensures Decode(Encode([b0])) == Some([b0])
  {
    var d0, d1 := b0 as int / 4, (b0 as int % 4) * 16;
    Split16(b0 as int % 4, 0);
    SextetRoundTrip(d0);
    SextetRoundTrip(d1);
    var q := Encode([b0]);
    assert q == [EncodeSextet(d0), EncodeSextet(d1), Pad, Pad];
    assert DecodeChar(q[0]) == Some(d0);
    assert DecodeChar(q[1]) == Some(d1);
    assert DecodeChar(q[2]).None?;
    assert d0 * 4 + d1 / 16 == b0 as int;
    assert DecodeBlock(d0, d1, 0, 0)[..1] == [b0];
    assert DecodeQuad(q, true) == Some([b0]);
    assert q[..4] == q && q[4..] == "";
    assert Decode(q[4..]) == Some([]);
    assert [b0] + [] == [b0];
  }

  /** A final group of two bytes: three characters and one pad. */
  lemma DecodeLastTwo(b0: byte, b1: byte)
    ensures Decode(Encode([b0, b1])) == Some([b0, b1])
  {
    var d0, d1, d2 := b0 as int / 4, (b0 as int % 4) * 16 + b1 as int / 16, (b1 as int % 16) * 4;
    Split16(b0 as int % 4, b1 as int / 16);
    Split4(b1 as int % 16, 0);
    SextetRoundTrip(d0);
    SextetRoundTrip(d1);
    SextetRoundTrip(d2);
    var q := Encode([b0, b1]);
    assert q == [EncodeSextet(d0), EncodeSextet(d1), EncodeSextet(d2), Pad];
    assert DecodeChar(q[0]) == Some(d0);
    assert DecodeChar(q[1]) == Some(d1);
    assert DecodeChar(q[2]) == Some(d2);
    assert DecodeChar(q[3]).None?;
    assert d0 * 4 + d1 / 16 == b0 as int;
    assert (d1 % 16) * 16 + d2 / 4 == b1 as int;
    assert DecodeBlock(d0, d1, d2, 0)[..2] == [b0, b1];
    assert DecodeQuad(q, true) == Some([b0, b1]);
    assert q[..4] == q && q[4..] == "";
    assert Decode(q[4..]) == Some([]);
    assert [b0, b1] + [] == [b0, b1];
  }

  /** A whole 3-byte group followed by more bytes. */
  lemma DecodeStep(bs: seq<byte>)
    requires |bs| >= 3 && Decode(Encode(bs[3..])) == Some(bs[3..])
    ensures Decode(Encode(bs)) == Some(bs)
  {
    var q, rest := EncodeBlock(bs[0], bs[1], bs[2]), Encode(bs[3..]);
    var head := [bs[0], bs[1], bs[2]];
    assert Encode(bs) == q + rest;
    BlockRoundTrip(bs[0], bs[1], bs[2]);
    assert DecodeQuad(q, |rest| == 0) == Some(head);
    DecodeCons(Encode(bs), q, rest, head, bs[3..]);
    FirstThree(bs);
  }

  lemma FirstThree(bs: seq<byte>)
    requires |bs| >= 3
    ensures [bs[0], bs[1], bs[2]] + bs[3..] == bs
  {
  }

  /** `Decode` undoes `Encode`. */
  lemma {:induction false} EncodeDecode(bs: seq<byte>)
    ensures Decode(Encode(bs)) == Some(bs)
    decreases |bs|
  {
    if |bs| == 0 {
    } else if |bs| == 1 {
      assert bs == [bs[0]];
      DecodeLastOne(bs[0]);
    } else if |bs| == 2 {
      assert bs == [bs[0], bs[1]];
      DecodeLastTwo(bs[0], bs[1]);
    } else {
      EncodeDecode(bs[3..]);
      DecodeStep(bs);
    }
  }

  /** An encoding holds alphabet characters and padding only, so never a comma. */
  lemma NoCommaInEncoding(bs: seq<byte>)
    ensures ',' !in Encode(bs)
  {
  }

  // ---------------------------------------------------------------------------
  // Binary strings: btoa and atob

  /** The string whose character `k` has code `bs[k]`, as
      `String.fromCharCode` builds it. */
  function BinaryString(bs: seq<byte>): (r: string)
    ensures |r| == |bs| && forall k :: 0 <= k < |bs| ==> r[k] as int == bs[k] as int
  {
    seq(|bs|, k requires 0 <= k < |bs| => (bs[k] as int) as char)
  }

  /** Every character of `s` has a code below 256. */
  predicate IsBinary(s: string) {
    forall k :: 0 <= k < |s| ==> s[k] as int < 256
  }

  function BytesOf(s: string): (bs: seq<byte>)
    requires IsBinary(s)
    ensures |bs| == |s| && forall k :: 0 <= k < |s| ==> bs[k] as int == s[k] as int
  {
    seq(|s|, k requires 0 <= k < |s| => s[k] as int as byte)
  }

  /** `btoa`: throws (`None`) on a character above 255. */
  function Btoa(s: string): (r: Option<string>)
    ensures r.Some? <==> IsBinary(s)
  {
    if IsBinary(s) then Some(Encode(BytesOf(s))) else None
  }

  /** `atob`: throws (`None`) on text that is not a padded encoding. */
  function Atob(s: string): (r: Option<string>)
    ensures r.Some? <==> Decode(s).Some?
    ensures r.Some? ==> r.value == BinaryString(Decode(s).value)
  {
    match Decode(s)
    case None => None
    case Some(bs) => Some(BinaryString(bs))
  }

  lemma BtoaOfBinaryString(bs: seq<byte>)
    ensures Btoa(BinaryString(bs)) == Some(Encode(bs))
  {
    assert BytesOf(BinaryString(bs)) == bs;
  }

  /** `atob(btoa(s)) == s` for every binary string. */
  lemma AtobBtoa(s: string)
    requires IsBinary(s)
    ensures Atob(Btoa(s).value) == Some(s)
  {
    EncodeDecode(BytesOf(s));
    assert BinaryString(BytesOf(s)) == s;
  }
}
