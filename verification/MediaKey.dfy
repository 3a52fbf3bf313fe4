/** The keys of WeChat media. */
module MediaKey {
  import opened Wrappers
  import opened Codec
  import Text

  // Reading and writing the AES-128 keys of WeChat media
  // (backend/app/channels/wechat.py). A key may arrive as raw bytes, as hex text,
  // as base64 of the bytes or as base64 of the hex text.

  const KEY_BYTES: nat := 16

  type Bytes = seq<byte>

  predicate IsKey(data: Bytes) {
    |data| == KEY_BYTES
  }

  /** `_encode_outbound_media_aes_key` */
  function EncodeOutbound(key: Bytes): string {
    Base64(HexBytes(key, false), false, true)
  }

  lemma HexIsAscii(data: Bytes, upper: bool)
    ensures IsAscii(Hex(data, upper))
  {
    var text := Hex(data, upper);
    forall i | 0 <= i < |text|
      ensures text[i] as int < 128
    {
      assert text[i] in text;
      HexIsB64(text[i]);
    }
  }

  /** The hex text of `data`, as bytes. */
  function HexBytes(data: Bytes, upper: bool): Bytes {
    HexIsAscii(data, upper);
    AsciiBytes(Hex(data, upper))
  }

  predicate IsDouble(c: char) { c == '"' }
  predicate IsSingle(c: char) { c == '\'' }

  /** A decoded value is a key itself or the (possibly quoted) hex text of one. */
  function Normalize(decoded: Bytes): Option<Bytes> {
    if IsKey(decoded) then Some(decoded)
    else
      var utf8 := DecodeUtf8(decoded);
      if utf8.None? then None
      else
        var text := Text.StripBy(Text.StripBy(Text.Strip(utf8.value), IsDouble), IsSingle);
        if text == "" then None
        else
          var key := FromHex(text);
          if key.Some? && IsKey(key.value) then key else None
  }

  function NormalizeDecoded(decoded: Option<Bytes>): Option<Bytes> {
    if decoded.None? then None else Normalize(decoded.value)
  }

  /** `_decode_base64_aes_key` */
  function DecodeBase64Key(value: string): Option<Bytes> {
    var candidate := Text.Strip(value);
    if candidate == "" then None
    else
      var padded := Completed(candidate);
      var first := NormalizeDecoded(DecodeStandard(padded));
      if first.Some? then first else NormalizeDecoded(DecodeUrlSafe(padded))
  }

  function DecodeHexKey(raw: string): Option<Bytes> {
    var key := FromHex(raw);
    if key.Some? && IsKey(key.value) then key else None
  }

  datatype Value = Raw(data: Bytes) | Str(text: string) | Other

  /** `_parse_aes_key_candidate` */
  function Parse(value: Value, preferHex: bool): Option<Bytes> {
    match value
    case Raw(data) => if IsKey(data) then Some(data) else None
    case Other => None
    case Str(text) =>
      var raw := Text.Strip(text);
      if raw == "" then None
      else
        var hex, b64 := DecodeHexKey(raw), DecodeBase64Key(raw);
        if preferHex then (if hex.Some? then hex else b64) else (if b64.Some? then b64 else hex)
  }

  // ---- The two parser orders agree on every input ----------------------------

  lemma StripShortens(s: string, drop: char -> bool)
    ensures |Text.StripBy(s, drop)| <= |s|
  {
  }

  /** 24 bytes are neither a key nor the hex text of one. */
  lemma TwentyFourBytesAreNoKey(decoded: Bytes)
    requires |decoded| == 24
    ensures Normalize(decoded).None?
  {
    var utf8 := DecodeUtf8(decoded);
    if utf8.Some? {
      var a := Text.Strip(utf8.value);
      var b := Text.StripBy(a, IsDouble);
      StripShortens(utf8.value, Text.IsSpace);
      StripShortens(a, IsDouble);
      StripShortens(b, IsSingle);
    }
  }

  lemma TranslateHexish(s: string)
    requires forall c :: c in s ==> c != '-' && c != '_'
    ensures Translate(s) == s
  {
    forall i | 0 <= i < |s|
      ensures Translate(s)[i] == s[i]
    {
      assert s[i] in s;
    }
  }

  /** Text that reads as the hex of a key never reads as base64 of one: its 32
      digits decode to 24 bytes. */
  lemma HexTextIsNoBase64Key(raw: string)
    requires DecodeHexKey(raw).Some?
    ensures DecodeBase64Key(raw).None?
  {
    var candidate := Text.Strip(raw);
    var n := Missing(|candidate|);
    StripKeepsHex(raw);
    FromHexShape(candidate);
    forall c | c in candidate
      ensures c != '=' && c != '-' && c != '_'
    {
      if IsHexDigit(c) {
        HexIsB64(c);
      }
    }
    ReadLength(candidate, n, true, Fresh);
    ReadLength(candidate, n, false, Fresh);
    TranslateHexish(candidate + Pads(n));
    var strict, lenient := DecodeStandard(Completed(candidate)), DecodeUrlSafe(Completed(candidate));
    if strict.Some? {
      TwentyFourBytesAreNoKey(strict.value);
    }
    if lenient.Some? {
      TwentyFourBytesAreNoKey(lenient.value);
    }
  }

  /** Stripping text that `FromHex` accepts does not change what it reads. */
  lemma {:induction false} StripKeepsHex(raw: string)
    requires FromHex(raw).Some?
    ensures FromHex(Text.Strip(raw)) == FromHex(raw)
  {
    FromHexShape(raw);
    StripLeftKeepsHex(raw);
    var left := Text.StripLeft(raw, Text.IsSpace);
    StripRightKeepsHex(left);
  }

  lemma {:induction false} StripLeftKeepsHex(raw: string)
    requires FromHex(raw).Some?
    ensures FromHex(Text.StripLeft(raw, Text.IsSpace)) == FromHex(raw)
    decreases |raw|
  {
    if raw != "" && Text.IsSpace(raw[0]) {
      StripLeftKeepsHex(raw[1..]);
    }
  }

  /** Whitespace in such text is ASCII whitespace. */
  lemma HexTextSpace(raw: string, c: char)
    requires FromHex(raw).Some? && c in raw && Text.IsSpace(c)
    ensures Text.IsAsciiSpace(c)
  {
    FromHexShape(raw);
  }

  lemma {:induction false} StripRightKeepsHex(raw: string)
    requires FromHex(raw).Some?
    ensures FromHex(Text.StripRight(raw, Text.IsSpace)) == FromHex(raw)
    decreases |raw|
  {
    if raw != "" && Text.IsSpace(raw[|raw| - 1]) {
      var rest, last := raw[..|raw| - 1], raw[|raw| - 1];
      assert rest + [last] == raw;
      HexTextSpace(raw, last);
      TrailingSpace(rest, last);
      StripRightKeepsHex(rest);
      assert Text.StripRight(raw, Text.IsSpace) == Text.StripRight(rest, Text.IsSpace);
    } else {
      assert Text.StripRight(raw, Text.IsSpace) == raw;
    }
  }

  lemma {:induction false} TrailingSpace(text: string, c: char)
    requires Text.IsAsciiSpace(c) && FromHex(text + [c]).Some?
    ensures FromHex(text) == FromHex(text + [c])
    decreases |text|
  {
    var all := text + [c];
    if text != "" {
      if Text.IsAsciiSpace(text[0]) {
        assert all[1..] == text[1..] + [c];
        TrailingSpace(text[1..], c);
      } else if |text| > 1 {
        assert all[2..] == text[2..] + [c];
        TrailingSpace(text[2..], c);
      }
    } else {
      assert all[1..] == "";
    }
  }

  /** The order in which the two parsers are tried never matters. */
  lemma OrderIsIrrelevant(value: Value)
    ensures Parse(value, true) == Parse(value, false)
  {
    if value.Str? {
      var raw := Text.Strip(value.text);
      if DecodeHexKey(raw).Some? {
        HexTextIsNoBase64Key(raw);
      }
    }
  }

  // ---- Every accepted form of a key reads back as the key --------------------

  datatype Form =
    | HexText(upper: bool)
    | OfBytes(url: bool, pad: bool)
    | OfHex(upper: bool, url: bool, pad: bool)
    | OfQuoted(upper: bool, double: bool, url: bool, pad: bool)

  /** The hex text of `key` in quotes. */
  function Quoted(key: Bytes, upper: bool, double: bool): string {
    var quote := if double then "\"" else "'";
    quote + Hex(key, upper) + quote
  }

  lemma QuotedIsAscii(key: Bytes, upper: bool, double: bool)
    ensures IsAscii(Quoted(key, upper, double))
  {
    HexIsAscii(key, upper);
  }

  /** ... as bytes. */
  function QuotedBytes(key: Bytes, upper: bool, double: bool): Bytes {
    QuotedIsAscii(key, upper, double);
    AsciiBytes(Quoted(key, upper, double))
  }

  function Written(form: Form, key: Bytes): string {
    match form
    case HexText(upper) => Hex(key, upper)
    case OfBytes(url, pad) => Base64(key, url, pad)
    case OfHex(upper, url, pad) => Base64(HexBytes(key, upper), url, pad)
    case OfQuoted(upper, double, url, pad) => Base64(QuotedBytes(key, upper, double), url, pad)
  }

  predicate Plain(c: char) {
    !Text.IsSpace(c) && !IsDouble(c) && !IsSingle(c)
  }

  lemma HexIsTrimmed(key: Bytes, upper: bool)
    requires IsKey(key)
    ensures Plain(Hex(key, upper)[0]) && Plain(Hex(key, upper)[2 * KEY_BYTES - 1])
  {
    var text := Hex(key, upper);
    assert text[0] in text && text[2 * KEY_BYTES - 1] in text;
  }

  lemma NormalizeHexBytes(key: Bytes, upper: bool)
    requires IsKey(key)
    ensures Normalize(HexBytes(key, upper)) == Some(key)
  {
    var text := Hex(key, upper);
    HexIsAscii(key, upper);
    DecodeAscii(text);
    HexIsTrimmed(key, upper);
    Text.StripIsIdentity(text, Text.IsSpace);
    Text.StripIsIdentity(text, IsDouble);
    Text.StripIsIdentity(text, IsSingle);
    FromHexOfHex(key, upper);
  }

  lemma StripQuotes(text: string, quote: string, drop: char -> bool)
    requires |quote| == 1 && drop(quote[0]) && text != "" && !drop(text[0]) && !drop(text[|text| - 1])
    ensures Text.StripBy(quote + text + quote, drop) == text
  {
    assert quote + text + quote == quote + (text + quote);
    Text.StripLeftOver(quote, text + quote, drop);
    Text.StripRightOver(text, quote, drop);
  }

  lemma NormalizeQuotedBytes(key: Bytes, upper: bool, double: bool)
    requires IsKey(key)
    ensures Normalize(QuotedBytes(key, upper, double)) == Some(key)
  {
    var (text, hex) := (Quoted(key, upper, double), Hex(key, upper));
    QuotedIsAscii(key, upper, double);
    DecodeAscii(text);
    HexIsTrimmed(key, upper);
    Text.StripIsIdentity(text, Text.IsSpace);
    if double {
      StripQuotes(hex, "\"", IsDouble);
      Text.StripIsIdentity(hex, IsSingle);
    } else {
      Text.StripIsIdentity(text, IsDouble);
      StripQuotes(hex, "'", IsSingle);
    }
    FromHexOfHex(key, upper);
  }

  lemma Base64IsTrimmed(data: Bytes, url: bool, pad: bool)
    requires data != []
    ensures Base64(data, url, pad) != "" && Text.Trimmed(Base64(data, url, pad))
  {
    Base64Stands(data, url, pad);
    var text := Base64(data, url, pad);
    GroupStands(if |data| < 3 then data else data[..3], url);
    assert Printable(text[0]) && Printable(text[|text| - 1]);
  }

  /** Base64 in any alphabet and padding of something that normalizes to a key gives the key. */
  lemma DecodeBase64Text(data: Bytes, url: bool, pad: bool)
    requires data != [] && Normalize(data).Some?
    ensures DecodeBase64Key(Base64(data, url, pad)) == Normalize(data)
  {
    Base64IsTrimmed(data, url, pad);
    Text.StripIsIdentity(Base64(data, url, pad), Text.IsSpace);
    CompletingPads(data, url, pad);
    DecodersOfBase64(data, url);
  }

  lemma WrittenIsTrimmed(form: Form, key: Bytes)
    requires IsKey(key)
    ensures Written(form, key) != "" && Text.Trimmed(Written(form, key))
  {
    match form
    case HexText(upper) => HexIsTrimmed(key, upper);
    case OfBytes(url, pad) => Base64IsTrimmed(key, url, pad);
    case OfHex(upper, url, pad) => Base64IsTrimmed(HexBytes(key, upper), url, pad);
    case OfQuoted(upper, double, url, pad) => Base64IsTrimmed(QuotedBytes(key, upper, double), url, pad);
  }

  /** A key written in any form, with any whitespace around it, is read back
      exactly, whichever parser is tried first. */
  lemma ParseReadsEveryForm(form: Form, key: Bytes, before: string, after: string, preferHex: bool)
    requires IsKey(key)
    requires forall c :: c in before ==> Text.IsSpace(c)
    requires forall c :: c in after ==> Text.IsSpace(c)
    ensures Parse(Str(before + Written(form, key) + after), preferHex) == Some(key)
  {
    var raw := Written(form, key);
    var value := Str(before + raw + after);
    WrittenIsTrimmed(form, key);
    Text.StripAround(before, raw, after);
    OrderIsIrrelevant(value);
    match form
    case HexText(upper) =>
      FromHexOfHex(key, upper);
      assert Parse(value, true) == Some(key);
    case OfBytes(url, pad) =>
      DecodeBase64Text(key, url, pad);
      assert Parse(value, false) == Some(key);
    case OfHex(upper, url, pad) =>
      NormalizeHexBytes(key, upper);
      DecodeBase64Text(HexBytes(key, upper), url, pad);
      assert Parse(value, false) == Some(key);
    case OfQuoted(upper, double, url, pad) =>
      NormalizeQuotedBytes(key, upper, double);
      DecodeBase64Text(QuotedBytes(key, upper, double), url, pad);
      assert Parse(value, false) == Some(key);
  }

  /** Bytes are a key as they are, when there are sixteen of them. */
  lemma RawKeyIff(data: Bytes, preferHex: bool)
    ensures Parse(Raw(data), preferHex) == if |data| == 16 then Some(data) else None
  {
  }

  /** In particular the channel reads back the keys it writes. */
  lemma OutboundKeyRoundTrips(key: Bytes, preferHex: bool)
    requires IsKey(key)
    ensures Parse(Str(EncodeOutbound(key)), preferHex) == Some(key)
  {
    ParseReadsEveryForm(OfHex(false, false, true), key, "", "", preferHex);
    assert "" + EncodeOutbound(key) + "" == EncodeOutbound(key);
  }

  // ---- Looking for a key in a media payload ---------------------------------

  /** A payload field: a value or a nested mapping. */
  datatype Field = Scalar(value: Value) | Mapping(fields: map<string, Field>)

  const HEX_NAMES := ["aeskey", "aes_key_hex"]
  const BASE64_NAMES := ["aes_key", "aesKey", "encrypt_key", "encryptKey"]

  function Candidate(fields: map<string, Field>, name: string, preferHex: bool): Option<Bytes> {
    if name in fields && fields[name].Scalar? then Parse(fields[name].value, preferHex) else None
  }

  function FirstOf(fields: map<string, Field>, names: seq<string>, preferHex: bool): Option<Bytes> {
    if names == [] then None
    else
      var key := Candidate(fields, names[0], preferHex);
      if key.Some? then key else FirstOf(fields, names[1..], preferHex)
  }

  /** `_resolve_media_aes_key` for one payload. */
  function Resolve(payload: Field): Option<Bytes>
    decreases payload
  {
    if payload.Scalar? then None
    else
      var hex := FirstOf(payload.fields, HEX_NAMES, true);
      var b64 := FirstOf(payload.fields, BASE64_NAMES, false);
      if hex.Some? then hex
      else if b64.Some? then b64
      else if "media" in payload.fields then Resolve(payload.fields["media"])
      else None
  }

  /** ... and for the payloads of a message, first hit wins. */
  function ResolveAll(payloads: seq<Field>): Option<Bytes> {
    if payloads == [] then None
    else
      var key := Resolve(payloads[0]);
      if key.Some? then key else ResolveAll(payloads[1..])
  }

  // ---- Which key is found, in general ------------------------------------------

  /** The values of the named fields, in the order of the names. */
  function Named(fields: map<string, Field>, names: seq<string>): seq<Value> {
    if names == [] then []
    else (if names[0] in fields && fields[names[0]].Scalar? then [fields[names[0]].value] else []) + Named(fields, names[1..])
  }

  /** The key-bearing values of a payload, in order of precedence: hex fields,
      base64 fields, then those of a nested `media`. */
  function Bearing(payload: Field): seq<Value>
    decreases payload
  {
    if payload.Scalar? then []
    else
      Named(payload.fields, HEX_NAMES) + Named(payload.fields, BASE64_NAMES)
      + if "media" in payload.fields then Bearing(payload.fields["media"]) else []
  }

  function AllBearing(payloads: seq<Field>): seq<Value> {
    if payloads == [] then [] else Bearing(payloads[0]) + AllBearing(payloads[1..])
  }

  /** The first value that reads as a key. */
  function FirstKey(values: seq<Value>): Option<Bytes> {
    if values == [] then None
    else
      var key := Parse(values[0], true);
      if key.Some? then key else FirstKey(values[1..])
  }

  lemma {:induction false} FirstKeyConcat(a: seq<Value>, b: seq<Value>)
    ensures FirstKey(a + b) == if FirstKey(a).Some? then FirstKey(a) else FirstKey(b)
  {
    if a == [] {
      assert a + b == b;
    } else {
      assert (a + b)[0] == a[0] && (a + b)[1..] == a[1..] + b;
      FirstKeyConcat(a[1..], b);
    }
  }

  lemma {:induction false} FirstOfIsFirstKey(fields: map<string, Field>, names: seq<string>, preferHex: bool)
    ensures FirstOf(fields, names, preferHex) == FirstKey(Named(fields, names))
  {
    if names != [] {
      FirstOfIsFirstKey(fields, names[1..], preferHex);
      if names[0] in fields && fields[names[0]].Scalar? {
        var value := fields[names[0]].value;
        OrderIsIrrelevant(value);
        assert ([value] + Named(fields, names[1..]))[1..] == Named(fields, names[1..]);
      } else {
        assert [] + Named(fields, names[1..]) == Named(fields, names[1..]);
      }
    }
  }

  lemma {:induction false} ResolveIsFirstKey(payload: Field)
    ensures Resolve(payload) == FirstKey(Bearing(payload))
    decreases payload
  {
    if payload.Mapping? {
      var hex, b64 := Named(payload.fields, HEX_NAMES), Named(payload.fields, BASE64_NAMES);
      var nested := if "media" in payload.fields then Bearing(payload.fields["media"]) else [];
      FirstOfIsFirstKey(payload.fields, HEX_NAMES, true);
      FirstOfIsFirstKey(payload.fields, BASE64_NAMES, false);
      FirstKeyConcat(hex + b64, nested);
      FirstKeyConcat(hex, b64);
      if "media" in payload.fields {
        ResolveIsFirstKey(payload.fields["media"]);
      }
    }
  }

  lemma {:induction false} ResolveAllIsFirstKey(payloads: seq<Field>)
    ensures ResolveAll(payloads) == FirstKey(AllBearing(payloads))
  {
    if payloads != [] {
      ResolveIsFirstKey(payloads[0]);
      ResolveAllIsFirstKey(payloads[1..]);
      FirstKeyConcat(Bearing(payloads[0]), AllBearing(payloads[1..]));
    }
  }

  /** The value at `i` is the first that reads as a key, and reads as `key`. */
  ghost predicate ReadsFirst(values: seq<Value>, i: nat, key: Bytes) {
    i < |values| && Parse(values[i], true) == Some(key) && forall j :: 0 <= j < i ==> Parse(values[j], true).None?
  }

  lemma {:induction false} FirstKeyIff(values: seq<Value>, key: Bytes)
    ensures FirstKey(values) == Some(key) <==> exists i: nat :: ReadsFirst(values, i, key)
  {
    if values != [] {
      var rest := values[1..];
      FirstKeyIff(rest, key);
      if Parse(values[0], true) == Some(key) {
        assert ReadsFirst(values, 0, key);
      } else if Parse(values[0], true).None? {
        if i: nat :| ReadsFirst(rest, i, key) {
          assert values[i + 1] == rest[i];
          assert ReadsFirst(values, i + 1, key);
        }
        if i: nat :| ReadsFirst(values, i, key) {
          assert rest[i - 1] == values[i];
          assert ReadsFirst(rest, i - 1, key);
        }
      }
    }
  }

  /** Fields may contradict each other: the key found is that of the first value,
      in the fixed order of precedence over all payloads, that reads as a key
      under either parser order. */
  lemma ResolveFindsTheFirstKey(payloads: seq<Field>, key: Bytes)
    ensures ResolveAll(payloads) == Some(key) <==> exists i: nat :: ReadsFirst(AllBearing(payloads), i, key)
  {
    ResolveAllIsFirstKey(payloads);
    FirstKeyIff(AllBearing(payloads), key);
  }

  // ---- The field names ---------------------------------------------------------

  predicate NamesAKey(name: string) {
    name == "aeskey" || name == "aes_key_hex" || name == "aes_key" || name == "aesKey" || name == "encrypt_key" || name == "encryptKey"
  }

  lemma NamedStep(fields: map<string, Field>, names: seq<string>)
    requires names != []
    ensures Named(fields, names)
            == (if names[0] in fields && fields[names[0]].Scalar? then [fields[names[0]].value] else []) + Named(fields, names[1..])
  {
  }

  /** The value of a field that is not nested. */
  function Under(fields: map<string, Field>, name: string): seq<Value> {
    if name in fields && fields[name].Scalar? then [fields[name].value] else []
  }

  lemma NamedTwo(fields: map<string, Field>, a: string, b: string)
    ensures Named(fields, [a, b]) == Under(fields, a) + Under(fields, b)
  {
    assert [a, b][1..] == [b] && [b][1..] == [];
    NamedStep(fields, [a, b]);
    NamedStep(fields, [b]);
    assert Under(fields, b) + [] == Under(fields, b);
  }

  lemma NamedFour(fields: map<string, Field>, a: string, b: string, c: string, d: string)
    ensures Named(fields, [a, b, c, d]) == Under(fields, a) + Under(fields, b) + (Under(fields, c) + Under(fields, d))
  {
    assert [a, b, c, d][1..] == [b, c, d] && [b, c, d][1..] == [c, d];
    NamedStep(fields, [a, b, c, d]);
    NamedStep(fields, [b, c, d]);
    NamedTwo(fields, c, d);
    var u, v, rest := Under(fields, a), Under(fields, b), Under(fields, c) + Under(fields, d);
    assert u + (v + rest) == u + v + rest;
  }

  /** The order in which a payload is looked through: the hex fields, the base64
      fields, then those of a nested `media`. */
  lemma BearingIs(fields: map<string, Field>)
    ensures Bearing(Mapping(fields))
            == (Under(fields, "aeskey") + Under(fields, "aes_key_hex"))
               + (Under(fields, "aes_key") + Under(fields, "aesKey") + (Under(fields, "encrypt_key") + Under(fields, "encryptKey")))
               + if "media" in fields then Bearing(fields["media"]) else []
  {
    NamedTwo(fields, "aeskey", "aes_key_hex");
    NamedFour(fields, "aes_key", "aesKey", "encrypt_key", "encryptKey");
  }

  lemma NamedOnly(name: string, value: Value)
    ensures Bearing(Mapping(map[name := Scalar(value)])) == if NamesAKey(name) then [value] else []
  {
    BearingIs(map[name := Scalar(value)]);
  }

  /** The fields are looked through in that order, then those of a nested
      `media`; the first value that reads as a key is the key. */
  lemma ResolveLooksInOrder(fields: map<string, Field>)
    ensures Resolve(Mapping(fields))
            == FirstKey((Under(fields, "aeskey") + Under(fields, "aes_key_hex"))
                        + (Under(fields, "aes_key") + Under(fields, "aesKey") + (Under(fields, "encrypt_key") + Under(fields, "encryptKey")))
                        + if "media" in fields then Bearing(fields["media"]) else [])
  {
    ResolveIsFirstKey(Mapping(fields));
    BearingIs(fields);
  }

  /** A payload whose single field holds a written key, in any form, resolves to
      that key exactly under the six names the adapter looks at. */
  lemma SingleFieldIff(name: string, form: Form, key: Bytes)
    requires IsKey(key)
    ensures Resolve(Mapping(map[name := Scalar(Str(Written(form, key)))])) == if NamesAKey(name) then Some(key) else None
  {
    var value := Str(Written(form, key));
    ParseReadsEveryForm(form, key, "", "", true);
    assert "" + Written(form, key) + "" == Written(form, key);
    NamedOnly(name, value);
    ResolveIsFirstKey(Mapping(map[name := Scalar(value)]));
  }

  /** ... or one level down, under "media". */
  lemma NestedFieldIff(name: string, form: Form, key: Bytes)
    requires IsKey(key)
    ensures Resolve(Mapping(map["media" := Mapping(map[name := Scalar(Str(Written(form, key)))])]))
            == if NamesAKey(name) then Some(key) else None
  {
    var inner := Mapping(map[name := Scalar(Str(Written(form, key)))]);
    SingleFieldIff(name, form, key);
    var fields := map["media" := inner];
    NothingUnder(fields, HEX_NAMES, true);
    NothingUnder(fields, BASE64_NAMES, false);
  }

  lemma {:induction false} NothingUnder(fields: map<string, Field>, names: seq<string>, preferHex: bool)
    requires forall name :: name in names ==> name !in fields || fields[name].Mapping?
    ensures FirstOf(fields, names, preferHex) == None
  {
    if names != [] {
      NothingUnder(fields, names[1..], preferHex);
    }
  }

  // ---- Padding of the encrypted content (RFC 5652 section 6.3) -----------------

  function Padding(n: nat): (p: Bytes)
    ensures |p| == 16 - n % 16
  {
    seq(16 - n % 16, _ => 16 - n % 16)
  }

  function Pad(content: Bytes): Bytes {
    content + Padding(|content|)
  }

  function Unpad(padded: Bytes): Option<Bytes> {
    if padded == [] || |padded| % 16 != 0 then None
    else
      var n := padded[|padded| - 1];
      if 1 <= n <= 16 && padded[|padded| - n..] == seq(n, _ => n) then Some(padded[..|padded| - n]) else None
  }

  /** `_encrypted_size_for_aes_128_ecb` */
  function EncryptedSize(n: nat): nat {
    (n / 16 + 1) * 16
  }

  /** The announced size is the size after padding, and unpadding undoes it. */
  lemma PaddingRoundTrips(content: Bytes)
    ensures |Pad(content)| == EncryptedSize(|content|)
    ensures Unpad(Pad(content)) == Some(content)
  {
    var n := 16 - |content| % 16;
    var padded := Pad(content);
    assert padded[|padded| - 1] == n;
    assert padded[|padded| - n..] == seq(n, _ => n);
    assert padded[..|padded| - n] == content;
  }
}
