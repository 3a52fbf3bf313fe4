/** Base16, base64 (RFC 4648 sections 4, 5 and 8) and UTF-8 as the WeChat media
    key code uses them through the Python standard library. */
module Codec {
  import opened Wrappers
  import Text

  type byte = x: int | 0 <= x < 256

  // ---- Base16 --------------------------------------------------------------

  function HexDigit(n: int, upper: bool): char
    requires 0 <= n < 16
  {
    if n < 10 then ('0' as int + n) as char
    else if upper then ('A' as int + n - 10) as char
    else ('a' as int + n - 10) as char
  }

  /** The value of a hexadecimal digit, or -1. */
  function HexValue(c: char): (v: int)
    ensures -1 <= v < 16
  {
    if '0' <= c <= '9' then c as int - '0' as int
    else if 'a' <= c <= 'f' then c as int - 'a' as int + 10
    else if 'A' <= c <= 'F' then c as int - 'A' as int + 10
    else -1
  }

  predicate IsHexDigit(c: char) {
    HexValue(c) >= 0
  }

  /** `data.hex()`, in either letter case. */
  function Hex(data: seq<byte>, upper: bool): (text: string)
    ensures |text| == 2 * |data|
    ensures forall c :: c in text ==> IsHexDigit(c)
  {
    if data == [] then ""
    else [HexDigit(data[0] / 16, upper), HexDigit(data[0] % 16, upper)] + Hex(data[1..], upper)
  }

  /** `bytes.fromhex`: pairs of digits with ASCII whitespace between pairs. */
  function FromHex(text: string): (data: Option<seq<byte>>)
    ensures data.Some? ==> 2 * |data.value| <= |text|
  {
    if text == "" then Some([])
    else if Text.IsAsciiSpace(text[0]) then FromHex(text[1..])
    else if |text| >= 2 && IsHexDigit(text[0]) && IsHexDigit(text[1]) then
      var rest := FromHex(text[2..]);
      if rest.None? then None else Some([16 * HexValue(text[0]) + HexValue(text[1])] + rest.value)
    else None
  }

  lemma {:induction false} FromHexOfHex(data: seq<byte>, upper: bool)
    ensures FromHex(Hex(data, upper)) == Some(data)
  {
    if data != [] {
      FromHexOfHex(data[1..], upper);
      HexRoundTrip(data[0] / 16, upper);
      HexRoundTrip(data[0] % 16, upper);
      assert Hex(data, upper)[2..] == Hex(data[1..], upper);
      assert [data[0]] + data[1..] == data;
    }
  }

  lemma HexRoundTrip(n: int, upper: bool)
    requires 0 <= n < 16
    ensures HexValue(HexDigit(n, upper)) == n && !Text.IsAsciiSpace(HexDigit(n, upper))
  {
  }

  // ---- Base64 --------------------------------------------------------------

  function B64Char(v: int, url: bool): char
    requires 0 <= v < 64
  {
    if v < 26 then ('A' as int + v) as char
    else if v < 52 then ('a' as int + v - 26) as char
    else if v < 62 then ('0' as int + v - 52) as char
    else if v == 62 then (if url then '-' else '+')
    else (if url then '_' else '/')
  }

  /** The value of a character of the standard alphabet, or -1. */
  function B64Value(c: char): (v: int)
    ensures -1 <= v < 64
  {
    if 'A' <= c <= 'Z' then c as int - 'A' as int
    else if 'a' <= c <= 'z' then c as int - 'a' as int + 26
    else if '0' <= c <= '9' then c as int - '0' as int + 52
    else if c == '+' then 62
    else if c == '/' then 63
    else -1
  }

  /** The digits of one group of at most three bytes. */
  function Group(data: seq<byte>, url: bool): string
    requires 1 <= |data| <= 3
  {
    var b1 := if |data| > 1 then data[1] else 0;
    var b2 := if |data| > 2 then data[2] else 0;
    var digits := [B64Char(data[0] / 4, url),
                   B64Char(data[0] % 4 * 16 + b1 / 16, url),
                   B64Char(b1 % 16 * 4 + b2 / 64, url),
                   B64Char(b2 % 64, url)];
    digits[..|data| + 1]
  }

  function Pads(n: nat): (s: string)
    ensures |s| == n && forall c :: c in s ==> c == '='
  {
    seq(n, _ => '=')
  }

  /** Base64 with the standard or URL-safe alphabet, with or without padding. */
  function Base64(data: seq<byte>, url: bool, pad: bool): string {
    if data == [] then ""
    else if |data| < 3 then Group(data, url) + (if pad then Pads(3 - |data|) else "")
    else Group(data[..3], url) + Base64(data[3..], url, pad)
  }

  /** State of the decoder: position in the quad, left-over bits, pads seen in
      this quad, whether padding has started, and the output so far. */
  datatype Decoder = Decoder(quad: nat, left: nat, pads: nat, started: bool, out: seq<byte>) {
    ghost predicate Valid() {
      && quad < 4
      && (quad == 0 ==> left == 0) && (quad == 1 ==> left < 64) && (quad == 2 ==> left < 16) && (quad == 3 ==> left < 4)
    }

    function Feed(v: int): (d: Decoder)
      requires Valid() && 0 <= v < 64
      ensures d.Valid()
    {
      if quad == 0 then Decoder(1, v, 0, started, out)
      else if quad == 1 then Decoder(2, v % 16, 0, started, out + [left * 4 + v / 16])
      else if quad == 2 then Decoder(3, v % 4, 0, started, out + [left * 16 + v / 4])
      else Decoder(0, 0, 0, started, out + [left * 64 + v])
    }
  }

  const Fresh := Decoder(0, 0, 0, false, [])

  /** The base64 reader. Strict mode refuses characters outside the alphabet,
      misplaced padding and data after padding; otherwise they are skipped or
      end the input. */
  function Read(s: string, strict: bool, d: Decoder): Option<seq<byte>>
    requires d.Valid()
    decreases |s|
  {
    if s == "" then (if d.quad == 0 then Some(d.out) else None)
    else if s[0] == '=' then
      if strict && d.quad == 0 then None
      else if d.quad >= 2 && d.quad + d.pads + 1 >= 4 then
        (if strict && |s| > 1 then None else Some(d.out))
      else Read(s[1..], strict, d.(started := true, pads := if d.quad >= 2 then d.pads + 1 else d.pads))
    else if B64Value(s[0]) < 0 then
      (if strict then None else Read(s[1..], strict, d))
    else if strict && d.started then None
    else Read(s[1..], strict, d.Feed(B64Value(s[0])))
  }

  predicate IsAscii(s: string) {
    forall i :: 0 <= i < |s| ==> s[i] as int < 128
  }

  /** `base64.b64decode(s, validate=True)` */
  function DecodeStandard(s: string): Option<seq<byte>> {
    if IsAscii(s) then Read(s, true, Fresh) else None
  }

  function Translate(s: string): (r: string)
    ensures |r| == |s|
  {
    seq(|s|, i requires 0 <= i < |s| => if s[i] == '-' then '+' else if s[i] == '_' then '/' else s[i])
  }

  /** `base64.urlsafe_b64decode(s)` */
  function DecodeUrlSafe(s: string): Option<seq<byte>> {
    if IsAscii(s) then Read(Translate(s), false, Fresh) else None
  }

  lemma B64RoundTrip(v: int, url: bool)
    requires 0 <= v < 64
    ensures B64Value(B64Char(v, false)) == v
    ensures B64Char(v, url) == B64Char(v, false) || (url && B64Value(B64Char(v, url)) < 0)
    ensures B64Char(v, url) != '=' && B64Char(v, url) as int < 128
  {
  }

  lemma ReadDigit(v: int, rest: string, strict: bool, d: Decoder)
    requires 0 <= v < 64 && d.Valid() && !d.started
    ensures Read([B64Char(v, false)] + rest, strict, d) == Read(rest, strict, d.Feed(v))
  {
    B64RoundTrip(v, false);
    assert ([B64Char(v, false)] + rest)[1..] == rest;
  }

  /** Feeding the four digits of a group emits its three bytes. */
  lemma FeedGroup(data: seq<byte>, out: seq<byte>)
    requires |data| == 3
    ensures Decoder(0, 0, 0, false, out).Feed(data[0] / 4).Feed(data[0] % 4 * 16 + data[1] / 16)
              .Feed(data[1] % 16 * 4 + data[2] / 64).Feed(data[2] % 64) == Decoder(0, 0, 0, false, out + data)
  {
    assert out + data == out + [data[0]] + [data[1]] + [data[2]];
  }

  lemma ReadGroup(data: seq<byte>, rest: string, strict: bool, out: seq<byte>)
    requires |data| == 3
    ensures Read(Group(data, false) + rest, strict, Decoder(0, 0, 0, false, out))
            == Read(rest, strict, Decoder(0, 0, 0, false, out + data))
  {
    var v0, v1, v2, v3 := data[0] / 4, data[0] % 4 * 16 + data[1] / 16, data[1] % 16 * 4 + data[2] / 64, data[2] % 64;
    var c0, c1, c2, c3 := B64Char(v0, false), B64Char(v1, false), B64Char(v2, false), B64Char(v3, false);
    assert Group(data, false) + rest == [c0] + ([c1] + ([c2] + ([c3] + rest)));
    var d0 := Decoder(0, 0, 0, false, out);
    ReadDigit(v0, [c1] + ([c2] + ([c3] + rest)), strict, d0);
    ReadDigit(v1, [c2] + ([c3] + rest), strict, d0.Feed(v0));
    ReadDigit(v2, [c3] + rest, strict, d0.Feed(v0).Feed(v1));
    ReadDigit(v3, rest, strict, d0.Feed(v0).Feed(v1).Feed(v2));
    FeedGroup(data, out);
  }

  /** Reading the padded digits of a last group of one byte. */
  lemma ReadOne(b: byte, strict: bool, out: seq<byte>)
    ensures Read(Group([b], false) + Pads(2), strict, Decoder(0, 0, 0, false, out)) == Some(out + [b])
  {
    var d0 := Decoder(0, 0, 0, false, out);
    var v0, v1 := b / 4, b % 4 * 16;
    assert Group([b], false) + Pads(2) == [B64Char(v0, false)] + ([B64Char(v1, false)] + ['=', '=']);
    ReadDigit(v0, [B64Char(v1, false)] + ['=', '='], strict, d0);
    ReadDigit(v1, ['=', '='], strict, d0.Feed(v0));
    assert ['=', '='][1..] == ['='];
  }

  lemma FeedTwo(a: byte, b: byte, out: seq<byte>)
    ensures Decoder(0, 0, 0, false, out).Feed(a / 4).Feed(a % 4 * 16 + b / 16).Feed(b % 16 * 4)
            == Decoder(3, 0, 0, false, out + [a, b])
  {
    assert out + [a, b] == out + [a] + [b];
  }

  /** Reading the padded digits of a last group of two bytes. */
  lemma ReadTwo(a: byte, b: byte, strict: bool, out: seq<byte>)
    ensures Read(Group([a, b], false) + Pads(1), strict, Decoder(0, 0, 0, false, out)) == Some(out + [a, b])
  {
    var v0, v1, v2 := a / 4, a % 4 * 16 + b / 16, b % 16 * 4;
    assert Group([a, b], false) + Pads(1) == [B64Char(v0, false)] + ([B64Char(v1, false)] + ([B64Char(v2, false)] + ['=']));
    ReadThree(v0, v1, v2, strict, Decoder(0, 0, 0, false, out));
    FeedTwo(a, b, out);
  }

  lemma ReadThree(v0: int, v1: int, v2: int, strict: bool, d: Decoder)
    requires 0 <= v0 < 64 && 0 <= v1 < 64 && 0 <= v2 < 64 && d.quad == d.left == d.pads == 0 && !d.started
    ensures Read([B64Char(v0, false)] + ([B64Char(v1, false)] + ([B64Char(v2, false)] + ['='])), strict, d)
            == Some(d.Feed(v0).Feed(v1).Feed(v2).out)
  {
    var c1, c2 := B64Char(v1, false), B64Char(v2, false);
    ReadDigit(v0, [c1] + ([c2] + ['=']), strict, d);
    ReadDigit(v1, [c2] + ['='], strict, d.Feed(v0));
    ReadDigit(v2, ['='], strict, d.Feed(v0).Feed(v1));
  }

  /** Decoding undoes padded standard encoding, strict or not. */
  lemma {:induction false} ReadBase64(data: seq<byte>, strict: bool, out: seq<byte>)
    ensures Read(Base64(data, false, true), strict, Decoder(0, 0, 0, false, out)) == Some(out + data)
    decreases |data|
  {
    if |data| == 0 {
      assert out + data == out;
    } else if |data| == 1 {
      ReadOne(data[0], strict, out);
      assert data == [data[0]];
    } else if |data| == 2 {
      ReadTwo(data[0], data[1], strict, out);
      assert data == [data[0], data[1]];
    } else {
      ReadGroup(data[..3], Base64(data[3..], false, true), strict, out);
      ReadBase64(data[3..], strict, out + data[..3]);
      assert out + data[..3] + data[3..] == out + data;
    }
  }

  /** A character of the chosen alphabet and the standard one it stands for. */
  predicate Stands(u: char, c: char) {
    || (u == c && c != '-' && c != '_')
    || (u == '-' && c == '+')
    || (u == '_' && c == '/')
  }

  predicate Printable(c: char) {
    32 < c as int < 128
  }

  lemma GroupStands(data: seq<byte>, url: bool)
    requires 1 <= |data| <= 3
    ensures |Group(data, url)| == |data| + 1
    ensures forall i :: 0 <= i <= |data| ==>
              Stands(Group(data, url)[i], Group(data, false)[i]) && Printable(Group(data, url)[i]) && Group(data, url)[i] != '='
  {
  }

  /** The two alphabets differ only in the two stand-in characters. */
  lemma {:induction false} Base64Stands(data: seq<byte>, url: bool, pad: bool)
    ensures |Base64(data, url, pad)| == |Base64(data, false, pad)|
    ensures forall i :: 0 <= i < |Base64(data, url, pad)| ==>
              Stands(Base64(data, url, pad)[i], Base64(data, false, pad)[i]) && Printable(Base64(data, url, pad)[i])
    decreases |data|
  {
    if 0 < |data| < 3 {
      GroupStands(data, url);
    } else if |data| >= 3 {
      GroupStands(data[..3], url);
      Base64Stands(data[3..], url, pad);
    }
  }

  lemma TranslateStands(u: string, s: string)
    requires |u| == |s| && forall i :: 0 <= i < |u| ==> Stands(u[i], s[i])
    ensures Translate(u) == s
  {
  }

  /** In strict mode a stand-in character either is the standard one or is refused. */
  lemma {:induction false} StrictStands(u: string, s: string, d: Decoder)
    requires d.Valid() && |u| == |s| && forall i :: 0 <= i < |u| ==> Stands(u[i], s[i])
    ensures Read(u, true, d).None? || Read(u, true, d) == Read(s, true, d)
    decreases |u|
  {
    if u != "" && u[0] == s[0] {
      forall d': Decoder | d'.Valid()
        ensures Read(u[1..], true, d').None? || Read(u[1..], true, d') == Read(s[1..], true, d')
      {
        StrictStands(u[1..], s[1..], d');
      }
    }
  }

  /** What the two decoders make of padded base64 text in either alphabet. */
  lemma DecodersOfBase64(data: seq<byte>, url: bool)
    ensures var text := Base64(data, url, true);
            && (DecodeStandard(text).None? || DecodeStandard(text) == Some(data))
            && DecodeUrlSafe(text) == Some(data)
  {
    var text, std := Base64(data, url, true), Base64(data, false, true);
    Base64Stands(data, url, true);
    TranslateStands(text, std);
    StrictStands(text, std, Fresh);
    ReadBase64(data, true, []);
    ReadBase64(data, false, []);
    assert [] + data == data;
  }

  /** How much padding completes a text of length `n`: `-n % 4`. */
  function Missing(n: nat): nat {
    (4 - n % 4) % 4
  }

  function Completed(text: string): string {
    text + Pads(Missing(|text|))
  }

  lemma CompletedAfterGroup(group: string, rest: string)
    requires |group| == 4
    ensures Completed(group + rest) == group + Completed(rest)
  {
    assert Missing(|group + rest|) == Missing(|rest|);
  }

  lemma CompletedShort(data: seq<byte>, url: bool, pad: bool)
    requires 1 <= |data| <= 2
    ensures Completed(Base64(data, url, pad)) == Base64(data, url, true)
  {
    GroupStands(data, url);
    var text := Base64(data, url, pad);
    if pad {
      assert |text| == 4;
      assert text + Pads(0) == text;
    } else {
      assert text == Group(data, url);
      assert |text| == |data| + 1;
    }
  }

  /** Completing the padding turns unpadded text into padded text and leaves padded text alone. */
  lemma {:induction false} CompletingPads(data: seq<byte>, url: bool, pad: bool)
    ensures Completed(Base64(data, url, pad)) == Base64(data, url, true)
    decreases |data|
  {
    if |data| == 0 {
      assert Completed("") == "";
    } else if |data| < 3 {
      CompletedShort(data, url, pad);
    } else {
      GroupStands(data[..3], url);
      CompletedAfterGroup(Group(data[..3], url), Base64(data[3..], url, pad));
      CompletingPads(data[3..], url, pad);
    }
  }

  // ---- How many bytes base64 text yields -----------------------------------

  /** How many characters of the alphabet a text holds. */
  function DataCount(s: string): nat {
    if s == "" then 0 else (if B64Value(s[0]) >= 0 then 1 else 0) + DataCount(s[1..])
  }

  /** Bytes emitted by the first `n` digits. */
  function Emitted(n: nat): nat {
    3 * (n / 4) + (if n % 4 == 0 then 0 else n % 4 - 1)
  }

  lemma {:induction false} ReadPads(n: nat, strict: bool, d: Decoder)
    requires d.Valid()
    ensures Read(Pads(n), strict, d).Some? ==> Read(Pads(n), strict, d).value == d.out
    decreases n
  {
    if n > 0 {
      assert Pads(n)[1..] == Pads(n - 1);
      ReadPads(n - 1, strict, d.(started := true, pads := if d.quad >= 2 then d.pads + 1 else d.pads));
    }
  }

  /** Feeding a digit moves the count by one digit. */
  lemma FeedEmits(d: Decoder, v: int, k: nat)
    requires d.Valid() && 0 <= v < 64
    ensures |d.Feed(v).out| + Emitted(d.Feed(v).quad + k) + Emitted(d.quad)
            == |d.out| + Emitted(d.quad + 1 + k) + Emitted(d.Feed(v).quad)
    ensures d.Feed(v).started == d.started
  {
    if d.quad == 3 {
      assert (4 + k) / 4 == 1 + k / 4 && (4 + k) % 4 == k % 4;
    }
  }

  /** Text without '=' followed by padding yields bytes by its digit count alone. */
  lemma {:induction false} ReadLength(s: string, n: nat, strict: bool, d: Decoder)
    requires d.Valid() && '=' !in s && !d.started
    ensures var r := Read(s + Pads(n), strict, d);
            r.Some? ==> |r.value| + Emitted(d.quad) == |d.out| + Emitted(d.quad + DataCount(s))
    decreases |s|
  {
    if s == "" {
      assert s + Pads(n) == Pads(n);
      ReadPads(n, strict, d);
    } else {
      assert (s + Pads(n))[0] == s[0];
      assert (s + Pads(n))[1..] == s[1..] + Pads(n);
      var v := B64Value(s[0]);
      if v < 0 {
        ReadLength(s[1..], n, strict, d);
      } else {
        FeedEmits(d, v, DataCount(s[1..]));
        ReadLength(s[1..], n, strict, d.Feed(v));
      }
    }
  }

  lemma HexIsB64(c: char)
    requires IsHexDigit(c)
    ensures B64Value(c) >= 0 && Printable(c) && c != '=' && c != '-' && c != '_'
  {
  }

  /** Text that `FromHex` accepts has two base64 digits per byte, and otherwise only whitespace. */
  lemma {:induction false} FromHexShape(text: string)
    requires FromHex(text).Some?
    ensures DataCount(text) == 2 * |FromHex(text).value|
    ensures forall c :: c in text ==> IsHexDigit(c) || Text.IsAsciiSpace(c)
    decreases |text|
  {
    if text != "" {
      if Text.IsAsciiSpace(text[0]) {
        FromHexShape(text[1..]);
      } else {
        FromHexShape(text[2..]);
        HexIsB64(text[0]);
        HexIsB64(text[1]);
        assert text[1..][1..] == text[2..] && text[1..][0] == text[1];
        assert forall c :: c in text ==> c == text[0] || c == text[1] || c in text[2..];
      }
    }
  }

  // ---- UTF-8 ---------------------------------------------------------------

  predicate IsContinuation(b: byte) {
    0x80 <= b < 0xC0
  }

  predicate IsScalar(n: int) {
    0 <= n < 0xD800 || 0xE000 <= n < 0x11_0000
  }

  /** The six payload bits of a continuation byte. */
  function Bits(b: byte): int {
    b as int - 0x80
  }

  /** The scalar value at the front of `data` and its length, if well formed. */
  function FrontScalar(data: seq<byte>): (r: Option<(int, nat)>)
    requires data != []
    ensures r.Some? ==> IsScalar(r.value.0) && 1 <= r.value.1 <= |data|
  {
    var b: int := data[0];
    if b < 0x80 then Some((b, 1))
    else if 0xC2 <= b < 0xE0 && |data| >= 2 && IsContinuation(data[1]) then
      Some(((b - 0xC0) * 64 + Bits(data[1]), 2))
    else if 0xE0 <= b < 0xF0 && |data| >= 3 && IsContinuation(data[1]) && IsContinuation(data[2]) then
      var n := (b - 0xE0) * 4096 + Bits(data[1]) * 64 + Bits(data[2]);
      if n >= 0x800 && IsScalar(n) then Some((n, 3)) else None
    else if 0xF0 <= b < 0xF5 && |data| >= 4 && IsContinuation(data[1]) && IsContinuation(data[2]) && IsContinuation(data[3]) then
      var n := (b - 0xF0) * 262144 + Bits(data[1]) * 4096 + Bits(data[2]) * 64 + Bits(data[3]);
      if n >= 0x1_0000 && IsScalar(n) then Some((n, 4)) else None
    else None
  }

  /** `data.decode("utf-8")` */
  function DecodeUtf8(data: seq<byte>): (text: Option<string>)
    ensures text.Some? ==> |text.value| <= |data|
    decreases |data|
  {
    if data == [] then Some("")
    else
      var front := FrontScalar(data);
      if front.None? then None
      else
        var rest := DecodeUtf8(data[front.value.1..]);
        if rest.None? then None else Some([front.value.0 as char] + rest.value)
  }

  /** The bytes of ASCII text. */
  function AsciiBytes(text: string): (data: seq<byte>)
    requires IsAscii(text)
    ensures |data| == |text|
  {
    if text == "" then [] else [text[0] as int] + AsciiBytes(text[1..])
  }

  lemma {:induction false} DecodeAscii(text: string)
    requires IsAscii(text)
    ensures DecodeUtf8(AsciiBytes(text)) == Some(text)
    decreases |text|
  {
    if text != "" {
      assert AsciiBytes(text)[1..] == AsciiBytes(text[1..]);
      DecodeAscii(text[1..]);
      assert [text[0]] + text[1..] == text;
    }
  }

  // ---- Known texts -------------------------------------------------------------------

  lemma GroupIs(b0: byte, b1: byte, b2: byte, url: bool, pad: bool)
    ensures Base64([b0, b1, b2], url, pad) == Group([b0, b1, b2], url)
  {
    assert [b0, b1, b2][..3] == [b0, b1, b2] && [b0, b1, b2][3..] == [];
    assert Group([b0, b1, b2], url) + "" == Group([b0, b1, b2], url);
  }

  /** The first test vectors of section 10 of RFC 4648 ("f", "fo", "foo"). */
  lemma KnownBase64(url: bool)
    ensures Base64([102], url, true) == "Zg==" && Base64([102, 111], url, true) == "Zm8="
    ensures Base64([102, 111, 111], url, true) == "Zm9v"
  {
    KnownOne(url);
    KnownTwo(url);
    KnownThree(url);
    ShortIs([102], url);
    ShortIs([102, 111], url);
    assert Pads(2) == "==" && Pads(1) == "=";
  }

  lemma ShortIs(data: seq<byte>, url: bool)
    requires 0 < |data| < 3
    ensures Base64(data, url, true) == Group(data, url) + Pads(3 - |data|)
  {
  }

  lemma KnownThree(url: bool)
    ensures Base64([102, 111, 111], url, true) == "Zm9v"
  {
    GroupIs(102, 111, 111, url, true);
  }

  lemma KnownOne(url: bool)
    ensures Group([102], url) == "Zg"
  {
  }

  lemma KnownTwo(url: bool)
    ensures Group([102, 111], url) == "Zm8"
  {
  }

  /** The two digits in which the alphabets differ. */
  lemma KnownAlphabets(url: bool)
    ensures Base64([251, 255, 191], url, true) == if url then "-_-_" else "+/+/"
  {
    GroupIs(251, 255, 191, url, true);
  }

  lemma HexOne(b: byte, upper: bool)
    ensures Hex([b], upper) == [HexDigit(b / 16, upper), HexDigit(b % 16, upper)]
  {
    assert Hex([], upper) == "";
  }

  /** ... and of its base16 ("f" and "o"). */
  lemma KnownHex()
    ensures Hex([102], false) == Hex([102], true) == "66"
    ensures Hex([111], false) == "6f" && Hex([111], true) == "6F"
  {
    HexOne(102, false);
    HexOne(102, true);
    HexOne(111, false);
    HexOne(111, true);
  }
}
