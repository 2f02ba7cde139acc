/**
  The AES key of a WeChat media message, which arrives as bytes, as hex, as base64 or as base64 of hex, and is told
  apart by trying (_encode_outbound_media_aes_key, _decode_base64_aes_key, _parse_aes_key_candidate and
  _resolve_media_aes_key, backend/app/channels/wechat.py; base64 after sections 4 and 5 of RFC 4648, hex after its
  section 8).

  The library decoders are modelled with what they tolerate in CPython 3.12: bytes.fromhex skips ASCII white space
  between bytes, and base64 outside strict mode skips every character it does not know. Any error they raise is None;
  the callers catch all.
 */
module AesKey {
  import opened Common

  type Byte = b: int | 0 <= b < 256

  type Sextet = x: int | 0 <= x < 64

  const KEY_SIZE: nat := 16

  // ---- Text ----------------------------------------------------------------------------

  // White space to bytes.fromhex.
  predicate Space(c: char) {
    c == ' ' || '\t' <= c <= '\r'
  }

  // White space to str.strip.
  predicate Blank(c: char) {
    || Space(c) || '\U{1C}' <= c <= '\U{1F}' || c == '\U{85}' || c == '\U{A0}' || c == '\U{1680}'
    || '\U{2000}' <= c <= '\U{200A}' || c == '\U{2028}' || c == '\U{2029}' || c == '\U{202F}' || c == '\U{205F}'
    || c == '\U{3000}'
  }

  predicate Quote(c: char) {
    c == '"'
  }

  predicate Apostrophe(c: char) {
    c == '\''
  }

  function StripLeft(s: string, drop: char -> bool): (r: string)
    ensures |r| <= |s|
  {
    if s != "" && drop(s[0]) then StripLeft(s[1..], drop) else s
  }

  function StripRight(s: string, drop: char -> bool): (r: string)
    ensures |r| <= |s|
  {
    if s != "" && drop(s[|s| - 1]) then StripRight(s[..|s| - 1], drop) else s
  }

  function Strip(s: string, drop: char -> bool): (r: string)
    ensures |r| <= |s|
  {
    StripRight(StripLeft(s, drop), drop)
  }

  // ---- Hex -----------------------------------------------------------------------------

  // 16 for a character that is no hex digit.
  function HexDigit(c: char): (d: nat)
    ensures d <= 16
  {
    if '0' <= c <= '9' then (c - '0') as nat
    else if 'a' <= c <= 'f' then (c - 'a') as nat + 10
    else if 'A' <= c <= 'F' then (c - 'A') as nat + 10
    else 16
  }

  // bytes.fromhex
  function FromHex(s: string): Option<seq<Byte>> {
    if s == "" then Some([])
    else if Space(s[0]) then FromHex(s[1..])
    else if |s| < 2 || HexDigit(s[0]) == 16 || HexDigit(s[1]) == 16 then None
    else
      match FromHex(s[2..])
      case None => None
      case Some(rest) => Some([16 * HexDigit(s[0]) + HexDigit(s[1])] + rest)
  }

  // ---- Base64 --------------------------------------------------------------------------

  function Symbol(x: Sextet): char {
    if x < 26 then 'A' + x as char
    else if x < 52 then 'a' + (x - 26) as char
    else if x < 62 then '0' + (x - 52) as char
    else if x == 62 then '+'
    else '/'
  }

  // 64 for a character outside the alphabet.
  function Value64(c: char): (x: nat)
    ensures x <= 64
  {
    if 'A' <= c <= 'Z' then (c - 'A') as nat
    else if 'a' <= c <= 'z' then (c - 'a') as nat + 26
    else if '0' <= c <= '9' then (c - '0') as nat + 52
    else if c == '+' then 62
    else if c == '/' then 63
    else 64
  }

  // The byte completed by the sextet at position pos of its group; left is the sextet before it.
  function Completed(pos: nat, left: Sextet, x: Sextet): Byte
    requires 1 <= pos <= 3
  {
    if pos == 1 then left * 4 + x / 16 else if pos == 2 then left % 16 * 16 + x / 4 else left % 4 * 64 + x
  }

  // binascii.a2b_base64 from the middle: pos sextets of the group read, pads equal signs counted, padding seen or not.
  function Decode(s: string, strict: bool, pos: nat, left: Sextet, pads: nat, padded: bool,
                  out: seq<Byte>): Option<seq<Byte>>
    requires pos < 4
    decreases |s|
  {
    if s == "" then (if pos == 0 then Some(out) else None)
    else if s[0] == '=' then
      if pos >= 2 && pos + pads + 1 >= 4 then (if strict && |s| > 1 then None else Some(out))
      else Decode(s[1..], strict, pos, left, if pos >= 2 then pads + 1 else pads, true, out)
    else if Value64(s[0]) == 64 then
      if strict then None else Decode(s[1..], strict, pos, left, pads, padded, out)
    else if strict && padded then None
    else
      var x := Value64(s[0]);
      Decode(s[1..], strict, (pos + 1) % 4, x, 0, padded, if pos == 0 then out else out + [Completed(pos, left, x)])
  }

  predicate Ascii(s: string) {
    forall i :: 0 <= i < |s| ==> s[i] < '\U{80}'
  }

  // base64.b64decode, strict being its validate
  function B64Decode(s: string, strict: bool): Option<seq<Byte>> {
    if !Ascii(s) || (strict && s != "" && s[0] == '=') then None else Decode(s, strict, 0, 0, 0, false, [])
  }

  function FromUrlChar(c: char): char {
    if c == '-' then '+' else if c == '_' then '/' else c
  }

  function FromUrl(s: string): string {
    seq(|s|, i requires 0 <= i < |s| => FromUrlChar(s[i]))
  }

  // base64.urlsafe_b64decode
  function UrlDecode(s: string): Option<seq<Byte>> {
    B64Decode(FromUrl(s), false)
  }

  // ---- UTF-8 ---------------------------------------------------------------------------

  predicate Continues(b: Byte) {
    0x80 <= b < 0xC0
  }

  function Prepend(c: char, rest: Option<string>): Option<string> {
    if rest.Some? then Some([c] + rest.value) else None
  }

  // The character of a continuation byte appended to the bits read so far.
  function More(bits: int, b: int): int {
    bits * 64 + (b - 0x80)
  }

  // bytes.decode("utf-8")
  function Utf8(b: seq<Byte>): Option<string> {
    if b == [] then Some("")
    else if b[0] < 0x80 then Prepend(b[0] as char, Utf8(b[1..]))
    else if 0xC2 <= b[0] < 0xE0 && |b| >= 2 && Continues(b[1]) then
      Prepend(More(b[0] - 0xC0, b[1]) as char, Utf8(b[2..]))
    else if 0xE0 <= b[0] < 0xF0 && |b| >= 3 && Continues(b[1]) && Continues(b[2])
            && (b[0] == 0xE0 ==> b[1] >= 0xA0) && (b[0] == 0xED ==> b[1] < 0xA0) then
      Prepend(More(More(b[0] - 0xE0, b[1]), b[2]) as char, Utf8(b[3..]))
    else if 0xF0 <= b[0] < 0xF5 && |b| >= 4 && Continues(b[1]) && Continues(b[2]) && Continues(b[3])
            && (b[0] == 0xF0 ==> b[1] >= 0x90) && (b[0] == 0xF4 ==> b[1] < 0x90) then
      Prepend(More(More(More(b[0] - 0xF0, b[1]), b[2]), b[3]) as char, Utf8(b[4..]))
    else None
  }

  // ---- The parsers ---------------------------------------------------------------------

  function KeyOf(decoded: Option<seq<Byte>>): Option<seq<Byte>> {
    if decoded.Some? && |decoded.value| == KEY_SIZE then decoded else None
  }

  // _normalize_decoded
  function Normalize(decoded: seq<Byte>): (key: Option<seq<Byte>>)
    ensures key.Some? ==> |key.value| == KEY_SIZE
  {
    if |decoded| == KEY_SIZE then Some(decoded)
    else
      match Utf8(decoded)
      case None => None
      case Some(text) =>
        var hex := Strip(Strip(Strip(text, Blank), Quote), Apostrophe);
        if hex == "" then None else KeyOf(FromHex(hex))
  }

  function Pads(n: nat): string {
    if n == 0 then "" else Pads(n - 1) + "="
  }

  function Padding(length: nat): string {
    Pads((4 - length % 4) % 4)
  }

  // _decode_base64_aes_key
  function Base64Key(value: string): (key: Option<seq<Byte>>)
    ensures key.Some? ==> |key.value| == KEY_SIZE
  {
    var candidate := Strip(value, Blank);
    if candidate == "" then None
    else
      var padded := candidate + Padding(|candidate|);
      var strict := B64Decode(padded, true);
      if strict.Some? && Normalize(strict.value).Some? then Normalize(strict.value)
      else
        var url := UrlDecode(padded);
        if url.Some? then Normalize(url.value) else None
  }

  datatype Value = Text(text: string) | Raw(bytes: seq<Byte>) | Other

  // _parse_aes_key_candidate
  function ParseKey(value: Value, preferHex: bool): (key: Option<seq<Byte>>)
    ensures key.Some? ==> |key.value| == KEY_SIZE
  {
    match value
    case Raw(bytes) => KeyOf(Some(bytes))
    case Other => None
    case Text(text) =>
      var raw := Strip(text, Blank);
      var hex, base64 := KeyOf(FromHex(raw)), Base64Key(raw);
      if raw == "" then None
      else if preferHex then (if hex.Some? then hex else base64)
      else if base64.Some? then base64
      else hex
  }

  // ---- The encodings -------------------------------------------------------------------

  function Group(a: Byte, b: Byte, c: Byte): string {
    [Symbol(a / 4), Symbol(a % 4 * 16 + b / 16), Symbol(b % 16 * 4 + c / 64), Symbol(c % 64)]
  }

  // base64 without its padding; Group fills the missing bytes of the last group with zeros, as RFC 4648 asks.
  function Unpadded(b: seq<Byte>): string {
    if b == [] then ""
    else if |b| == 1 then Group(b[0], 0, 0)[..2]
    else if |b| == 2 then Group(b[0], b[1], 0)[..3]
    else Group(b[0], b[1], b[2]) + Unpadded(b[3..])
  }

  // base64.b64encode
  function B64Encode(b: seq<Byte>): string {
    Unpadded(b) + Padding(|Unpadded(b)|)
  }

  function ToUrlChar(c: char): char {
    if c == '+' then '-' else if c == '/' then '_' else c
  }

  // The URL-safe form of a base64 text
  function ToUrl(s: string): string {
    seq(|s|, i requires 0 <= i < |s| => ToUrlChar(s[i]))
  }

  // The hex digit for d, of either case.
  predicate IsDigit(c: char, d: nat)
    requires d < 16
  {
    c == "0123456789abcdef"[d] || c == "0123456789ABCDEF"[d]
  }

  lemma IsDigitIff(c: char, d: nat)
    requires d < 16
    ensures IsDigit(c, d) <==> HexDigit(c) == d
  {
  }

  // The text writes these bytes in hex, in either case.
  predicate IsHex(text: string, b: seq<Byte>) {
    |text| == 2 * |b| &&
    forall i :: 0 <= i < |b| ==> IsDigit(text[2 * i], b[i] / 16) && IsDigit(text[2 * i + 1], b[i] % 16)
  }

  lemma IsHexAt(text: string, b: seq<Byte>, i: nat)
    requires IsHex(text, b) && i < |b|
    ensures HexDigit(text[2 * i]) == b[i] / 16 && HexDigit(text[2 * i + 1]) == b[i] % 16
  {
    IsDigitIff(text[2 * i], b[i] / 16);
    IsDigitIff(text[2 * i + 1], b[i] % 16);
    hide IsDigit, HexDigit;
  }

  predicate IsAscii(b: seq<Byte>, text: string) {
    |b| == |text| && forall i :: 0 <= i < |b| ==> b[i] < 0x80 && text[i] as int == b[i]
  }

  function LowerHex(d: nat): char
    requires d < 16
  {
    if d < 10 then '0' + d as char else 'a' + (d - 10) as char
  }

  // bytes.hex
  function HexText(b: seq<Byte>): string {
    if b == [] then "" else [LowerHex(b[0] / 16), LowerHex(b[0] % 16)] + HexText(b[1..])
  }

  // str.encode("utf-8"), of ASCII text
  function Encoded(text: string): seq<Byte>
    requires Ascii(text)
  {
    seq(|text|, i requires 0 <= i < |text| => text[i] as Byte)
  }

  lemma LowerIsDigit(d: nat)
    requires d < 16
    ensures IsDigit(LowerHex(d), d) && LowerHex(d) < '\U{80}'
  {
  }

  lemma {:induction false} HexTextIs(b: seq<Byte>)
    ensures IsHex(HexText(b), b) && Ascii(HexText(b))
  {
    if b != [] {
      HexTextIs(b[1..]);
      LowerIsDigit(b[0] / 16);
      LowerIsDigit(b[0] % 16);
      HexFront(LowerHex(b[0] / 16), LowerHex(b[0] % 16), HexText(b[1..]), b);
    }
  }

  lemma HexFront(hi: char, lo: char, rest: string, b: seq<Byte>)
    requires b != [] && IsHex(rest, b[1..]) && IsDigit(hi, b[0] / 16) && IsDigit(lo, b[0] % 16)
    ensures IsHex([hi, lo] + rest, b)
  {
    hide IsDigit;
    var text := [hi, lo] + rest;
    forall i | 0 <= i < |b|
      ensures IsDigit(text[2 * i], b[i] / 16) && IsDigit(text[2 * i + 1], b[i] % 16)
    {
      if i > 0 {
        assert text[2 * i] == rest[2 * (i - 1)] && text[2 * i + 1] == rest[2 * (i - 1) + 1] && b[i] == b[1..][i - 1];
      }
    }
  }

  // _encode_outbound_media_aes_key
  function EncodeOutbound(key: seq<Byte>): string {
    HexTextIs(key);
    B64Encode(Encoded(HexText(key)))
  }

  // The text is base64 of these bytes: standard or URL-safe, padded or not.
  predicate IsBase64(text: string, b: seq<Byte>) {
    text == B64Encode(b) || text == Unpadded(b) || text == ToUrl(B64Encode(b)) || text == ToUrl(Unpadded(b))
  }

  // ---- Hex: what it accepts ------------------------------------------------------------

  // How many characters of the base64 alphabet s holds.
  function Count64(s: string): nat {
    if s == "" then 0 else (if Value64(s[0]) < 64 then 1 else 0) + Count64(s[1..])
  }

  predicate HexOrSpace(s: string) {
    forall i :: 0 <= i < |s| ==> HexDigit(s[i]) < 16 || Space(s[i])
  }

  lemma FromHexNothing()
    ensures FromHex("") == Some([]) && Count64("") == 0
  {
  }

  lemma FromHexSpace(s: string)
    requires s != "" && Space(s[0])
    ensures FromHex(s) == FromHex(s[1..]) && Count64(s) == Count64(s[1..])
  {
  }

  lemma FromHexDigits(s: string)
    requires s != "" && !Space(s[0]) && FromHex(s).Some?
    ensures |s| >= 2 && HexDigit(s[0]) < 16 && HexDigit(s[1]) < 16 && !Space(s[1]) && Count64(s) == 2 + Count64(s[2..])
    ensures FromHex(s[2..]).Some? && |FromHex(s).value| == 1 + |FromHex(s[2..]).value|
  {
    assert s[1..][0] == s[1] && s[1..][1..] == s[2..];
  }

  lemma {:induction false} FromHexShape(s: string)
    requires FromHex(s).Some?
    ensures HexOrSpace(s) && Count64(s) == 2 * |FromHex(s).value| <= |s|
    ensures (forall i :: 0 <= i < |s| ==> !Space(s[i])) ==> |s| == 2 * |FromHex(s).value|
    decreases |s|
  {
    hide FromHex, Count64, HexDigit, Space;
    if s == "" {
      FromHexNothing();
    } else if Space(s[0]) {
      FromHexSpace(s);
      FromHexShape(s[1..]);
      assert forall i :: 1 <= i < |s| ==> s[i] == s[1..][i - 1];
    } else {
      FromHexDigits(s);
      FromHexShape(s[2..]);
      assert forall i :: 2 <= i < |s| ==> s[i] == s[2..][i - 2];
    }
  }

  lemma {:induction false} HexReads(text: string, b: seq<Byte>)
    requires IsHex(text, b)
    ensures FromHex(text) == Some(b)
    decreases |b|
  {
    hide FromHex, IsHex, HexDigit;
    HexLength(text, b);
    if b == [] {
      FromHexNothing();
    } else {
      HexTail(text, b);
      HexReads(text[2..], b[1..]);
      FromHexStep(text);
      assert [b[0]] + b[1..] == b;
    }
  }

  lemma HexLength(text: string, b: seq<Byte>)
    requires IsHex(text, b)
    ensures |text| == 2 * |b|
  {
  }

  lemma FromHexStep(s: string)
    requires |s| >= 2 && !Space(s[0]) && HexDigit(s[0]) < 16 && HexDigit(s[1]) < 16 && FromHex(s[2..]).Some?
    ensures FromHex(s) == Some([16 * HexDigit(s[0]) + HexDigit(s[1])] + FromHex(s[2..]).value)
  {
  }

  // Hex with ASCII white space between bytes, before and after.
  predicate SpacedHex(text: string, b: seq<Byte>) {
    if text == "" then b == []
    else if text[0] in " \t\n\r\U{0B}\U{0C}" then SpacedHex(text[1..], b)
    else
      && |text| >= 2 && b != [] && IsDigit(text[0], b[0] / 16) && IsDigit(text[1], b[0] % 16)
      && SpacedHex(text[2..], b[1..])
  }

  // Nothing else is read as hex.
  lemma {:induction false} HexReadsIff(text: string, b: seq<Byte>)
    ensures FromHex(text) == Some(b) <==> SpacedHex(text, b)
    decreases |text|
  {
    hide IsDigit;
    if |text| >= 2 && b != [] {
      IsDigitIff(text[0], b[0] / 16);
      IsDigitIff(text[1], b[0] % 16);
    }
    hide HexDigit;
    if text == "" {
    } else if Space(text[0]) {
      HexReadsIff(text[1..], b);
    } else if |text| >= 2 && HexDigit(text[0]) < 16 && HexDigit(text[1]) < 16 {
      HexReadsIff(text[2..], if b == [] then [] else b[1..]);
      if b != [] && FromHex(text[2..]).Some? {
        assert [b[0]] + b[1..] == b;
        var rest := FromHex(text[2..]).value;
        assert ([16 * HexDigit(text[0]) + HexDigit(text[1])] + rest)[1..] == rest;
        DigitsOf(HexDigit(text[0]), HexDigit(text[1]));
      }
    }
  }

  lemma DigitsOf(hi: nat, lo: nat)
    requires hi < 16 && lo < 16
    ensures (16 * hi + lo) / 16 == hi && (16 * hi + lo) % 16 == lo
  {
  }

  lemma HexTail(text: string, b: seq<Byte>)
    requires IsHex(text, b) && b != []
    ensures IsHex(text[2..], b[1..]) && !Space(text[0])
    ensures HexDigit(text[0]) == b[0] / 16 && HexDigit(text[1]) == b[0] % 16
  {
    IsHexAt(text, b, 0);
    hide IsDigit;
    var tail := text[2..];
    forall i | 0 <= i < |b| - 1
      ensures IsDigit(tail[2 * i], b[1..][i] / 16) && IsDigit(tail[2 * i + 1], b[1..][i] % 16)
    {
      assert tail[2 * i] == text[2 * (i + 1)] && tail[2 * i + 1] == text[2 * (i + 1) + 1];
    }
  }

  // ---- Base64: round trip --------------------------------------------------------------

  lemma SymbolReads(x: Sextet)
    ensures Value64(Symbol(x)) == x && Symbol(x) != '=' && !Blank(Symbol(x)) && Symbol(x) < '\U{80}'
    ensures Symbol(x) != '-' && Symbol(x) != '_'
  {
  }

  // Reading one character of the alphabet.
  lemma DecodeStep(c: char, rest: string, strict: bool, pos: nat, left: Sextet, pads: nat, out: seq<Byte>)
    requires pos < 4 && Value64(c) < 64 && c != '='
    ensures Decode([c] + rest, strict, pos, left, pads, false, out) ==
            Decode(rest, strict, (pos + 1) % 4, Value64(c), 0, false,
                   if pos == 0 then out else out + [Completed(pos, left, Value64(c))])
  {
  }

  lemma GroupReads(a: Byte, b: Byte, c: Byte)
    ensures Completed(1, a / 4, a % 4 * 16 + b / 16) == a
    ensures Completed(2, a % 4 * 16 + b / 16, b % 16 * 4 + c / 64) == b
    ensures Completed(3, b % 16 * 4 + c / 64, c % 64) == c
  {
  }

  lemma DecodeGroup(a: Byte, b: Byte, c: Byte, rest: string, strict: bool, left: Sextet, pads: nat, out: seq<Byte>)
    ensures Decode(Group(a, b, c) + rest, strict, 0, left, pads, false, out) ==
            Decode(rest, strict, 0, c % 64, 0, false, out + [a, b, c])
  {
    var w, x, y, z := a / 4, a % 4 * 16 + b / 16, b % 16 * 4 + c / 64, c % 64;
    SymbolReads(w);
    SymbolReads(x);
    SymbolReads(y);
    SymbolReads(z);
    GroupReads(a, b, c);
    hide Decode, Symbol, Completed, Value64;
    var r3 := [Symbol(z)] + rest;
    var r2 := [Symbol(y)] + r3;
    var r1 := [Symbol(x)] + r2;
    assert Group(a, b, c) + rest == [Symbol(w)] + r1;
    DecodeStep(Symbol(w), r1, strict, 0, left, pads, out);
    DecodeStep(Symbol(x), r2, strict, 1, w, 0, out);
    DecodeStep(Symbol(y), r3, strict, 2, x, 0, out + [a]);
    DecodeStep(Symbol(z), rest, strict, 3, y, 0, out + [a] + [b]);
    assert out + [a] + [b] + [c] == out + [a, b, c];
  }

  // Characters of the base64 alphabet only.
  predicate Data64(s: string) {
    forall i :: 0 <= i < |s| ==> Value64(s[i]) < 64
  }

  lemma {:induction false} UnpaddedIs(b: seq<Byte>)
    ensures Data64(Unpadded(b))
    ensures |Unpadded(b)| == 4 * (|b| / 3) + (if |b| % 3 == 0 then 0 else |b| % 3 + 1)
  {
    if |b| >= 3 {
      UnpaddedIs(b[3..]);
      GroupIs(b[0], b[1], b[2]);
    } else if |b| == 2 {
      GroupIs(b[0], b[1], 0);
    } else if |b| == 1 {
      GroupIs(b[0], 0, 0);
    }
  }

  lemma GroupIs(a: Byte, b: Byte, c: Byte)
    ensures Data64(Group(a, b, c))
  {
    SymbolReads(a / 4);
    SymbolReads(a % 4 * 16 + b / 16);
    SymbolReads(b % 16 * 4 + c / 64);
    SymbolReads(c % 64);
  }

  lemma PaddingIs(n: nat)
    ensures Padding(n) == if n % 4 == 0 then "" else if n % 4 == 1 then "===" else if n % 4 == 2 then "==" else "="
  {
    assert Pads(1) == "=" && Pads(2) == "==" && Pads(3) == "===";
  }

  lemma DecodePadded(strict: bool, left: Sextet, out: seq<Byte>)
    ensures Decode("=", strict, 3, left, 0, false, out) == Decode("==", strict, 2, left, 0, false, out) == Some(out)
  {
    assert "=="[1..] == "=";
  }

  lemma DecodeOne(a: Byte, strict: bool, left: Sextet, out: seq<Byte>)
    ensures Decode(Group(a, 0, 0)[..2] + "==", strict, 0, left, 0, false, out) == Some(out + [a])
  {
    hide Decode, Symbol, Completed, Value64;
    var w, x := a / 4, a % 4 * 16;
    SymbolReads(w);
    SymbolReads(x);
    GroupReads(a, 0, 0);
    assert Group(a, 0, 0)[..2] + "==" == [Symbol(w)] + ([Symbol(x)] + "==");
    DecodePadded(strict, x, out + [a]);
    DecodeStep(Symbol(w), [Symbol(x)] + "==", strict, 0, left, 0, out);
    DecodeStep(Symbol(x), "==", strict, 1, w, 0, out);
  }

  lemma DecodeTwo(a: Byte, b: Byte, strict: bool, left: Sextet, out: seq<Byte>)
    ensures Decode(Group(a, b, 0)[..3] + "=", strict, 0, left, 0, false, out) == Some(out + [a, b])
  {
    hide Decode, Symbol, Completed, Value64;
    var w, x, y := a / 4, a % 4 * 16 + b / 16, b % 16 * 4;
    SymbolReads(w);
    SymbolReads(x);
    SymbolReads(y);
    GroupReads(a, b, 0);
    assert Group(a, b, 0)[..3] + "=" == [Symbol(w)] + ([Symbol(x)] + ([Symbol(y)] + "="));
    DecodePadded(strict, y, out + [a] + [b]);
    DecodeStep(Symbol(w), [Symbol(x)] + ([Symbol(y)] + "="), strict, 0, left, 0, out);
    DecodeStep(Symbol(x), [Symbol(y)] + "=", strict, 1, w, 0, out);
    DecodeStep(Symbol(y), "=", strict, 2, x, 0, out + [a]);
    assert out + [a] + [b] == out + [a, b];
  }

  lemma {:induction false} DecodesBack(b: seq<Byte>, strict: bool, left: Sextet, out: seq<Byte>)
    ensures Decode(B64Encode(b), strict, 0, left, 0, false, out) == Some(out + b)
    decreases |b|
  {
    hide Group, Padding, Data64, Decode;
    UnpaddedIs(b);
    PaddingIs(|Unpadded(b)|);
    if b == [] {
      DecodeNothing(strict, left, out);
      assert out + b == out;
    } else if |b| == 1 {
      DecodeOne(b[0], strict, left, out);
      assert [b[0]] == b;
    } else if |b| == 2 {
      DecodeTwo(b[0], b[1], strict, left, out);
      assert [b[0], b[1]] == b;
    } else {
      EncodeGroup(b);
      hide Unpadded;
      DecodeGroup(b[0], b[1], b[2], B64Encode(b[3..]), strict, left, 0, out);
      DecodesBack(b[3..], strict, b[2] % 64, out + [b[0], b[1], b[2]]);
      assert out + [b[0], b[1], b[2]] + b[3..] == out + b;
    }
  }

  lemma DecodeNothing(strict: bool, left: Sextet, out: seq<Byte>)
    ensures Decode("", strict, 0, left, 0, false, out) == Some(out)
  {
  }

  lemma EncodeGroup(b: seq<Byte>)
    requires |b| >= 3
    ensures B64Encode(b) == Group(b[0], b[1], b[2]) + B64Encode(b[3..])
  {
    hide Unpadded, Padding, Group;
    UnpaddedGroup(b);
    var group, rest := Group(b[0], b[1], b[2]), Unpadded(b[3..]);
    PaddingSame(|rest|);
    assert (group + rest) + Padding(|rest|) == group + (rest + Padding(|rest|));
  }

  lemma UnpaddedGroup(b: seq<Byte>)
    requires |b| >= 3
    ensures Unpadded(b) == Group(b[0], b[1], b[2]) + Unpadded(b[3..]) && |Group(b[0], b[1], b[2])| == 4
  {
  }

  lemma PaddingSame(n: nat)
    ensures Padding(4 + n) == Padding(n)
  {
  }

  // ---- Base64: recognising a text ------------------------------------------------------

  predicate IsPadded(s: string, data: string) {
    data <= s && forall i :: |data| <= i < |s| ==> s[i] == '='
  }

  lemma B64EncodeShape(b: seq<Byte>)
    ensures IsPadded(B64Encode(b), Unpadded(b)) && Data64(Unpadded(b)) && |B64Encode(b)| % 4 == 0
    ensures b != [] ==> |Unpadded(b)| > 0
  {
    hide Data64, Unpadded;
    UnpaddedIs(b);
    PaddingIs(|Unpadded(b)|);
    hide Padding;
  }

  lemma UrlThereAndBack(s: string)
    requires forall i :: 0 <= i < |s| ==> s[i] != '-' && s[i] != '_'
    ensures FromUrl(s) == s && FromUrl(ToUrl(s)) == s
  {
  }

  lemma B64EncodeIs(b: seq<Byte>)
    ensures IsPadded(B64Encode(b), Unpadded(b)) && Data64(Unpadded(b)) && |B64Encode(b)| % 4 == 0
    ensures Ascii(B64Encode(b)) && FromUrl(B64Encode(b)) == B64Encode(b) && FromUrl(ToUrl(B64Encode(b))) == B64Encode(b)
    ensures b != [] ==> |Unpadded(b)| > 0
  {
    hide Data64, B64Encode, Unpadded, FromUrl, ToUrl;
    B64EncodeShape(b);
    var s, data := B64Encode(b), Unpadded(b);
    forall i | 0 <= i < |s| ensures s[i] != '-' && s[i] != '_' && s[i] < '\U{80}' {
      if i < |data| {
        DataAt(data, i);
        assert s[i] == data[i];
      }
    }
    UrlThereAndBack(s);
  }

  lemma DataAt(s: string, i: nat)
    requires Data64(s) && i < |s|
    ensures Value64(s[i]) < 64 && s[i] != '=' && s[i] != '-' && s[i] != '_' && !Blank(s[i]) && s[i] < '\U{80}'
  {
  }

  lemma B64DecodesBack(b: seq<Byte>, strict: bool)
    ensures B64Decode(B64Encode(b), strict) == Some(b)
  {
    hide Decode, Data64;
    B64EncodeIs(b);
    DecodesBack(b, strict, 0, []);
    if b != [] {
      DataAt(Unpadded(b), 0);
    }
    assert [] + b == b;
    hide Unpadded, Padding;
  }

  // In strict mode a character outside the alphabet, before any padding, is an error.
  lemma {:induction false} StrictRejects(s: string, k: nat, pos: nat, left: Sextet, out: seq<Byte>)
    requires pos < 4 && k < |s| && s[k] != '=' && Value64(s[k]) == 64 && forall i :: 0 <= i < k ==> s[i] != '='
    ensures Decode(s, true, pos, left, 0, false, out) == None
    decreases k
  {
    if k > 0 && Value64(s[0]) < 64 {
      var x := Value64(s[0]);
      StrictRejects(s[1..], k - 1, (pos + 1) % 4, x, if pos == 0 then out else out + [Completed(pos, left, x)]);
    }
  }

  // URL-safe text is either the standard text or refused by the strict decoder.
  lemma UrlTextStrict(b: seq<Byte>)
    ensures ToUrl(B64Encode(b)) == B64Encode(b) || B64Decode(ToUrl(B64Encode(b)), true) == None
  {
    hide Decode, Data64, Unpadded, Padding;
    B64EncodeIs(b);
    var s, data := B64Encode(b), Unpadded(b);
    var url := ToUrl(s);
    if url != s {
      var k: nat :| k < |s| && url[k] != s[k];
      forall i: nat | i < k ensures url[i] != '=' {
        DataAt(data, i);
      }
      StrictRejects(url, k, 0, 0, []);
    }
  }

  // What the strict decoder accepts, the lenient one reads alike, so trying it first changes nothing.
  lemma {:induction false} LenientAgrees(s: string, pos: nat, left: Sextet, pads: nat, padded: bool, out: seq<Byte>)
    requires pos < 4 && Decode(s, true, pos, left, pads, padded, out).Some?
    ensures Decode(s, false, pos, left, pads, padded, out) == Decode(s, true, pos, left, pads, padded, out)
    ensures '-' !in s && '_' !in s
    decreases |s|
  {
    if s == "" {
    } else if s[0] == '=' {
      if pos >= 2 && pos + pads + 1 >= 4 {
      } else {
        LenientAgrees(s[1..], pos, left, if pos >= 2 then pads + 1 else pads, true, out);
      }
    } else {
      var x := Value64(s[0]);
      LenientAgrees(s[1..], (pos + 1) % 4, x, 0, padded, if pos == 0 then out else out + [Completed(pos, left, x)]);
    }
  }

  lemma StrictAddsNothing(s: string)
    ensures B64Decode(s, true).Some? ==> UrlDecode(s) == B64Decode(s, true)
  {
    hide Decode;
    if B64Decode(s, true).Some? {
      LenientAgrees(s, 0, 0, 0, false, []);
      UrlThereAndBack(s);
    }
  }

  // After the padding the strict decoder accepts nothing and the lenient one reads nothing.
  lemma {:induction false} AfterPadding(b: seq<Byte>, more: string, strict: bool, left: Sextet, out: seq<Byte>)
    requires |b| % 3 != 0 && more != ""
    ensures Decode(B64Encode(b) + more, strict, 0, left, 0, false, out) == if strict then None else Some(out + b)
    decreases |b|
  {
    hide *;
    if |b| > 3 {
      EncodeGroup(b);
      var rest := B64Encode(b[3..]) + more;
      assert B64Encode(b) + more == Group(b[0], b[1], b[2]) + rest;
      DecodeGroup(b[0], b[1], b[2], rest, strict, left, 0, out);
      AfterPadding(b[3..], more, strict, b[2] % 64, out + [b[0], b[1], b[2]]);
      assert out + [b[0], b[1], b[2]] + b[3..] == out + b;
    } else if |b| == 1 {
      AfterOne(b[0], more, strict, left, out);
      assert b == [b[0]];
    } else {
      AfterTwo(b[0], b[1], more, strict, left, out);
      assert b == [b[0], b[1]];
    }
  }

  lemma AfterOne(a: Byte, more: string, strict: bool, left: Sextet, out: seq<Byte>)
    requires more != ""
    ensures Decode(B64Encode([a]) + more, strict, 0, left, 0, false, out) == if strict then None else Some(out + [a])
  {
    hide Decode, Symbol, Completed, Value64;
    var w, x := a / 4, a % 4 * 16;
    SymbolReads(w);
    SymbolReads(x);
    GroupReads(a, 0, 0);
    PaddingIs(2);
    assert B64Encode([a]) == [Symbol(w), Symbol(x)] + "==";
    assert B64Encode([a]) + more == [Symbol(w)] + ([Symbol(x)] + ("==" + more));
    DecodeStep(Symbol(w), [Symbol(x)] + ("==" + more), strict, 0, left, 0, out);
    DecodeStep(Symbol(x), "==" + more, strict, 1, w, 0, out);
    MorePadded(more, strict, x, out + [a]);
  }

  lemma MorePadded(more: string, strict: bool, left: Sextet, out: seq<Byte>)
    requires more != ""
    ensures Decode("=" + more, strict, 3, left, 0, false, out) == if strict then None else Some(out)
    ensures Decode("==" + more, strict, 2, left, 0, false, out) == if strict then None else Some(out)
  {
    assert ("==" + more)[1..] == "=" + more;
  }

  lemma AfterTwo(a: Byte, b: Byte, more: string, strict: bool, left: Sextet, out: seq<Byte>)
    requires more != ""
    ensures Decode(B64Encode([a, b]) + more, strict, 0, left, 0, false, out) ==
            if strict then None else Some(out + [a, b])
  {
    hide Decode, Symbol, Completed, Value64;
    var w, x, y := a / 4, a % 4 * 16 + b / 16, b % 16 * 4;
    SymbolReads(w);
    SymbolReads(x);
    SymbolReads(y);
    GroupReads(a, b, 0);
    PaddingIs(3);
    assert B64Encode([a, b]) == [Symbol(w), Symbol(x), Symbol(y)] + "=";
    assert B64Encode([a, b]) + more == [Symbol(w)] + ([Symbol(x)] + ([Symbol(y)] + ("=" + more)));
    DecodeStep(Symbol(w), [Symbol(x)] + ([Symbol(y)] + ("=" + more)), strict, 0, left, 0, out);
    DecodeStep(Symbol(x), [Symbol(y)] + ("=" + more), strict, 1, w, 0, out);
    DecodeStep(Symbol(y), "=" + more, strict, 2, x, 0, out + [a]);
    MorePadded(more, strict, y, out + [a] + [b]);
    assert out + [a] + [b] == out + [a, b];
  }

  lemma StripKept(s: string, drop: char -> bool)
    requires s != "" ==> !drop(s[0]) && !drop(s[|s| - 1])
    ensures Strip(s, drop) == s
  {
  }

  // Every form of base64 ends up as one of two padded texts.
  lemma PaddedForms(text: string, b: seq<Byte>)
    requires IsBase64(text, b) && b != []
    ensures text != "" && Strip(text, Blank) == text
    ensures text + Padding(|text|) == B64Encode(b) || text + Padding(|text|) == ToUrl(B64Encode(b))
  {
    hide Data64, Unpadded, B64Encode, Padding, Strip, Blank, ToUrl, IsPadded;
    FormPadded(text, b);
    forall i: nat | i < |text| ensures !Blank(text[i]) {
      FormNotBlank(text, b, i);
    }
    StripKept(text, Blank);
  }

  lemma FormPadded(text: string, b: seq<Byte>)
    requires IsBase64(text, b) && b != []
    ensures text != ""
    ensures text + Padding(|text|) == B64Encode(b) || text + Padding(|text|) == ToUrl(B64Encode(b))
  {
    hide Data64, Unpadded, FromUrl;
    B64EncodeIs(b);
    PaddingIs(|B64Encode(b)|);
    var data := Unpadded(b);
    assert |ToUrl(data)| == |data| && |ToUrl(B64Encode(b))| == |B64Encode(b)|;
    if text == B64Encode(b) || text == ToUrl(B64Encode(b)) {
      assert text + "" == text;
    } else {
      PaddingIs(|data|);
      assert ToUrl(B64Encode(b)) == ToUrl(data) + Padding(|data|);
    }
  }

  lemma FormNotBlank(text: string, b: seq<Byte>, i: nat)
    requires IsBase64(text, b) && i < |text|
    ensures !Blank(text[i])
  {
    hide Data64, Unpadded, B64Encode, FromUrl;
    B64EncodeIs(b);
    if i < |Unpadded(b)| {
      DataAt(Unpadded(b), i);
    }
  }

  // base64 of bytes that hold a key, raw or in hex, is read as that key.
  lemma Base64Reads(text: string, b: seq<Byte>, key: seq<Byte>)
    requires IsBase64(text, b) && b != [] && Normalize(b) == Some(key)
    ensures Base64Key(text) == Some(key) && Strip(text, Blank) == text != ""
  {
    hide Normalize, B64Decode, B64Encode, Padding, Strip, IsBase64;
    PaddedForms(text, b);
    B64DecodesBack(b, true);
    B64DecodesBack(b, false);
    B64EncodeIs(b);
    UrlTextStrict(b);
  }

  // UTF-8 by its definition, section 3 of RFC 3629.
  function Utf8Of(c: char): seq<Byte> {
    var n := c as int;
    if n < 0x80 then [n]
    else if n < 0x800 then [0xC0 + n / 64, 0x80 + n % 64]
    else if n < 0x10000 then [0xE0 + n / 4096, 0x80 + n / 64 % 64, 0x80 + n % 64]
    else [0xF0 + n / 262144, 0x80 + n / 4096 % 64, 0x80 + n / 64 % 64, 0x80 + n % 64]
  }

  function Utf8Text(text: string): seq<Byte> {
    if text == "" then [] else Utf8Of(text[0]) + Utf8Text(text[1..])
  }

  lemma OneByte(b: seq<Byte>)
    requires b != [] && b[0] < 0x80
    ensures Utf8(b) == Prepend(b[0] as char, Utf8(b[1..]))
  {
  }

  lemma TwoBytes(b: seq<Byte>, n: int)
    requires |b| >= 2 && 0x80 <= n < 0x800 && b[0] == 0xC0 + n / 64 && b[1] == 0x80 + n % 64
    ensures Utf8(b) == Prepend(n as char, Utf8(b[2..]))
  {
  }

  lemma ThreeBytes(b: seq<Byte>, n: int)
    requires |b| >= 3 && (0x800 <= n < 0xD800 || 0xE000 <= n < 0x10000)
    requires b[0] == 0xE0 + n / 4096 && b[1] == 0x80 + n / 64 % 64 && b[2] == 0x80 + n % 64
    ensures Utf8(b) == Prepend(n as char, Utf8(b[3..]))
  {
    hide Utf8Of;
    MoreOf(n);
    MoreOf(n / 64);
    Sixes(n);
  }

  lemma FourBytes(b: seq<Byte>, n: int)
    requires |b| >= 4 && 0x10000 <= n < 0x110000
    requires b[0] == 0xF0 + n / 262144 && b[1] == 0x80 + n / 4096 % 64
    requires b[2] == 0x80 + n / 64 % 64 && b[3] == 0x80 + n % 64
    ensures Utf8(b) == Prepend(n as char, Utf8(b[4..]))
  {
    hide Utf8Of;
    MoreOf(n);
    MoreOf(n / 64);
    MoreOf(n / 4096);
    Sixes(n);
    hide More;
  }

  lemma MoreOf(n: int)
    ensures More(n / 64, 0x80 + n % 64) == n
  {
  }

  lemma Sixes(n: int)
    ensures n / 64 / 64 == n / 4096 && n / 4096 / 64 == n / 262144
  {
  }

  lemma Utf8Prepends(c: char, rest: seq<Byte>)
    ensures Utf8(Utf8Of(c) + rest) == Prepend(c, Utf8(rest))
  {
    hide Utf8;
    var n := c as int;
    var b := Utf8Of(c) + rest;
    assert b[|Utf8Of(c)|..] == rest;
    if n < 0x80 {
      OneByte(b);
    } else if n < 0x800 {
      TwoBytes(b, n);
    } else if n < 0x10000 {
      ThreeBytes(b, n);
    } else {
      FourBytes(b, n);
    }
  }

  // The character decoded first is the one whose encoding comes first.
  lemma Utf8First(b: seq<Byte>) returns (c: char)
    requires b != [] && Utf8(b).Some?
    ensures |Utf8Of(c)| <= |b| && b[..|Utf8Of(c)|] == Utf8Of(c)
  {
    if b[0] < 0x80 {
      c := b[0] as char;
      assert b[..1] == [b[0]];
    } else if b[0] < 0xE0 {
      c := FirstOfTwo(b[0], b[1]);
      assert b[..2] == [b[0], b[1]];
    } else if b[0] < 0xF0 {
      c := FirstOfThree(b[0], b[1], b[2]);
      assert b[..3] == [b[0], b[1], b[2]];
    } else {
      c := FirstOfFour(b[0], b[1], b[2], b[3]);
      assert b[..4] == [b[0], b[1], b[2], b[3]];
    }
  }

  lemma FirstOfTwo(p: Byte, q: Byte) returns (c: char)
    requires 0xC2 <= p < 0xE0 && Continues(q)
    ensures Utf8Of(c) == [p, q]
  {
    c := More(p - 0xC0, q) as char;
  }

  lemma FirstOfThree(p: Byte, q: Byte, r: Byte) returns (c: char)
    requires 0xE0 <= p < 0xF0 && Continues(q) && Continues(r) && (p == 0xE0 ==> q >= 0xA0) && (p == 0xED ==> q < 0xA0)
    ensures Utf8Of(c) == [p, q, r]
  {
    var n := More(More(p - 0xE0, q), r);
    assert n / 64 == More(p - 0xE0, q) && n % 64 == r - 0x80 && n / 4096 == p - 0xE0;
    c := n as char;
  }

  lemma FirstOfFour(p: Byte, q: Byte, r: Byte, t: Byte) returns (c: char)
    requires 0xF0 <= p < 0xF5 && Continues(q) && Continues(r) && Continues(t)
    requires (p == 0xF0 ==> q >= 0x90) && (p == 0xF4 ==> q < 0x90)
    ensures Utf8Of(c) == [p, q, r, t]
  {
    var n := More(More(More(p - 0xF0, q), r), t);
    assert n / 64 == More(More(p - 0xF0, q), r) && n % 64 == t - 0x80;
    assert n / 4096 == More(p - 0xF0, q) && n / 262144 == p - 0xF0;
    c := n as char;
  }

  lemma Utf8Steps(c: char, text: string)
    ensures |Utf8Of(c)| > 0 && Utf8([]) == Some("") && Utf8Text("") == []
    ensures Utf8Text([c] + text) == Utf8Of(c) + Utf8Text(text)
  {
    hide Utf8Of;
    assert ([c] + text)[1..] == text;
    assert |Utf8Of(c)| > 0 by {
      SomeBytes(c);
    }
  }

  lemma SomeBytes(c: char)
    ensures |Utf8Of(c)| > 0
  {
  }

  lemma {:induction false} Utf8Encodes(text: string)
    ensures Utf8(Utf8Text(text)) == Some(text)
  {
    hide Utf8, Utf8Of, Utf8Text;
    Utf8Steps(if text == "" then ' ' else text[0], if text == "" then "" else text[1..]);
    if text != "" {
      Utf8Encodes(text[1..]);
      Utf8Prepends(text[0], Utf8Text(text[1..]));
      assert [text[0]] + text[1..] == text;
    }
  }

  lemma {:induction false} Utf8Unique(b: seq<Byte>)
    requires Utf8(b).Some?
    ensures Utf8Text(Utf8(b).value) == b
    decreases |b|
  {
    hide Utf8, Utf8Of, Utf8Text;
    if b == [] {
      Utf8Steps(' ', "");
    } else {
      var c := Utf8First(b);
      var rest := b[|Utf8Of(c)|..];
      assert b == Utf8Of(c) + rest;
      Utf8Prepends(c, rest);
      Utf8Steps(c, "");
      Utf8Unique(rest);
      Utf8Steps(c, Utf8(rest).value);
    }
  }

  // Bytes are decoded to a text exactly when they are its encoding.
  lemma Utf8DecodesIff(b: seq<Byte>, text: string)
    ensures Utf8(b) == Some(text) <==> b == Utf8Text(text)
  {
    hide Utf8, Utf8Text;
    Utf8Encodes(text);
    if Utf8(b) == Some(text) {
      Utf8Unique(b);
    }
  }

  lemma {:induction false} Utf8Ascii(b: seq<Byte>, text: string)
    requires IsAscii(b, text)
    ensures Utf8(b) == Some(text)
  {
    if b != [] {
      Utf8Ascii(b[1..], text[1..]);
      assert b[0] as char == text[0];
      assert [text[0]] + text[1..] == text;
    } else {
      assert text == "";
    }
  }

  lemma HexChar(c: char)
    requires HexDigit(c) < 16
    ensures !Blank(c) && c != '"' && c != '\'' && c < '\U{80}' && c != '='
  {
  }

  lemma HexChars(text: string, b: seq<Byte>, i: nat)
    requires IsHex(text, b) && i < |text|
    ensures HexDigit(text[i]) < 16
  {
    var k := i / 2;
    IsHexAt(text, b, k);
    hide IsDigit, HexDigit;
    assert i == 2 * k || i == 2 * k + 1;
  }

  // A key in hex is left alone by every strip.
  lemma HexKept(text: string, b: seq<Byte>, drop: char -> bool)
    requires IsHex(text, b) && forall c :: HexDigit(c) < 16 ==> !drop(c)
    ensures Strip(text, drop) == text
  {
    hide IsHex, HexDigit;
    if text != "" {
      HexChars(text, b, 0);
      HexChars(text, b, |text| - 1);
    }
    StripKept(text, drop);
  }

  // Strips drop what surrounds a text.
  lemma {:induction false} StripLeftOf(l: string, t: string, drop: char -> bool)
    requires forall c :: c in l ==> drop(c)
    ensures StripLeft(l + t, drop) == StripLeft(t, drop)
  {
    if l == "" {
      assert l + t == t;
    } else {
      assert l[0] in l && (l + t)[1..] == l[1..] + t;
      StripLeftOf(l[1..], t, drop);
    }
  }

  lemma {:induction false} StripRightOf(t: string, r: string, drop: char -> bool)
    requires forall c :: c in r ==> drop(c)
    ensures StripRight(t + r, drop) == StripRight(t, drop)
  {
    if r == "" {
      assert t + r == t;
    } else {
      var front := r[..|r| - 1];
      assert r[|r| - 1] in r && (t + r)[..|t + r| - 1] == t + front;
      StripRightOf(t, front, drop);
    }
  }

  lemma {:induction false} StripLeftWith(t: string, r: string, drop: char -> bool)
    ensures StripLeft(t, drop) != "" ==> StripLeft(t + r, drop) == StripLeft(t, drop) + r
    ensures StripLeft(t, drop) == "" ==> StripLeft(t + r, drop) == StripLeft(r, drop)
  {
    if t == "" {
      assert t + r == r;
    } else if drop(t[0]) {
      assert (t + r)[1..] == t[1..] + r;
      StripLeftWith(t[1..], r, drop);
    }
  }

  lemma {:induction false} AllDropped(r: string, drop: char -> bool)
    requires forall c :: c in r ==> drop(c)
    ensures StripLeft(r, drop) == ""
  {
    if r != "" {
      assert r[0] in r;
      AllDropped(r[1..], drop);
    }
  }

  lemma StripAround(l: string, t: string, r: string, drop: char -> bool)
    requires forall c :: c in l || c in r ==> drop(c)
    ensures Strip(l + t + r, drop) == Strip(t, drop)
  {
    assert l + t + r == l + (t + r);
    StripLeftOf(l, t + r, drop);
    StripLeftWith(t, r, drop);
    if StripLeft(t, drop) == "" {
      AllDropped(r, drop);
    } else {
      StripRightOf(StripLeft(t, drop), r, drop);
    }
  }

  predicate Only(text: string, chars: string) {
    forall c :: c in text ==> c in chars
  }

  // White space, double quotes and single quotes before a text, and single quotes, double quotes and white space after.
  datatype Wrapping = Wrapping(before: string, open: string, opening: string, closing: string, close: string,
                               after: string)
  {
    function Around(inner: string): string {
      before + (open + (opening + inner + closing) + close) + after
    }

    predicate Valid() {
      && Only(before, " \t\n\r") && Only(after, " \t\n\r") && Only(open, "\"") && Only(close, "\"")
      && Only(opening, "'") && Only(closing, "'")
    }
  }

  // The text in single quotes inside double quotes inside white space, each any number of times.
  ghost predicate Quoted(text: string, inner: string) {
    exists w: Wrapping :: w.Valid() && text == w.Around(inner)
  }

  lemma WhiteStripped(a: string, t: string, b: string)
    requires Only(a, " \t\n\r") && Only(b, " \t\n\r")
    ensures Strip(a + t + b, Blank) == Strip(t, Blank)
  {
    hide Strip;
    StripAround(a, t, b, Blank);
  }

  lemma QuotesStripped(a: string, t: string, b: string)
    ensures Only(a, "\"") && Only(b, "\"") ==> Strip(a + t + b, Quote) == Strip(t, Quote)
    ensures Only(a, "'") && Only(b, "'") ==> Strip(a + t + b, Apostrophe) == Strip(t, Apostrophe)
  {
    hide Strip;
    if Only(a, "\"") && Only(b, "\"") {
      StripAround(a, t, b, Quote);
    }
    if Only(a, "'") && Only(b, "'") {
      StripAround(a, t, b, Apostrophe);
    }
  }

  lemma HexUnquoted(text: string, hex: string, key: seq<Byte>)
    requires Quoted(text, hex) && IsHex(hex, key) && hex != ""
    ensures Strip(Strip(Strip(text, Blank), Quote), Apostrophe) == hex && |text| >= |hex|
  {
    hide IsHex, Strip, Only;
    var w: Wrapping :| w.Valid() && text == w.Around(hex);
    Unwrapped(w, hex, key);
  }

  lemma Unwrapped(w: Wrapping, hex: string, key: seq<Byte>)
    requires w.Valid() && IsHex(hex, key) && hex != ""
    ensures Strip(Strip(Strip(w.Around(hex), Blank), Quote), Apostrophe) == hex
  {
    hide IsHex, Strip, Only;
    var single := w.opening + hex + w.closing;
    WhiteStripped(w.before, w.open + single + w.close, w.after);
    DoubleKept(w.open, single, w.close, w.opening, hex, w.closing, key);
    QuotesStripped(w.open, single, w.close);
    SingleKept(single, w.opening, hex, w.closing, key);
    QuotesStripped(w.opening, hex, w.closing);
    HexUnquotable(hex, key);
  }

  lemma HexUnquotable(hex: string, key: seq<Byte>)
    requires IsHex(hex, key)
    ensures Strip(hex, Apostrophe) == hex
  {
    forall c | HexDigit(c) < 16 ensures c != '\'' {
      HexChar(c);
    }
    hide HexDigit, Strip, IsHex;
    HexKept(hex, key, Apostrophe);
  }

  lemma HexEnds(hex: string, key: seq<Byte>)
    requires IsHex(hex, key) && hex != ""
    ensures !Blank(hex[0]) && hex[0] != '"' && !Blank(hex[|hex| - 1]) && hex[|hex| - 1] != '"'
  {
    hide IsHex, HexDigit, Blank;
    HexChars(hex, key, 0);
    HexChars(hex, key, |hex| - 1);
    HexChar(hex[0]);
    HexChar(hex[|hex| - 1]);
  }

  // No strip reaches past quotes it does not drop.
  lemma SingleKept(single: string, c: string, hex: string, d: string, key: seq<Byte>)
    requires IsHex(hex, key) && hex != "" && single == c + hex + d && Only(c, "'") && Only(d, "'")
    ensures Strip(single, Quote) == single
    ensures !Blank(single[0]) && !Blank(single[|single| - 1])
  {
    HexEnds(hex, key);
    hide IsHex, Strip;
    assert c != "" ==> c[0] in c;
    assert d != "" ==> d[|d| - 1] in d;
    assert single[0] == if c != "" then c[0] else hex[0];
    assert single[|single| - 1] == if d != "" then d[|d| - 1] else hex[|hex| - 1];
    StripKept(single, Quote);
  }

  lemma DoubleKept(b: string, single: string, e: string, c: string, hex: string, d: string, key: seq<Byte>)
    requires IsHex(hex, key) && hex != "" && single == c + hex + d
    requires Only(b, "\"") && Only(e, "\"") && Only(c, "'") && Only(d, "'")
    ensures Strip(b + single + e, Blank) == b + single + e
  {
    hide IsHex, Strip;
    SingleKept(single, c, hex, d, key);
    var double := b + single + e;
    assert b != "" ==> b[0] in b;
    assert e != "" ==> e[|e| - 1] in e;
    assert double[0] == if b != "" then b[0] else single[0];
    assert double[|double| - 1] == if e != "" then e[|e| - 1] else single[|single| - 1];
    StripKept(double, Blank);
  }

  // White space and quotes around it do not matter to a hex text in base64.
  lemma NormalizeHex(d: seq<Byte>, text: string, hex: string, key: seq<Byte>)
    requires IsAscii(d, text) && Quoted(text, hex) && IsHex(hex, key) && |key| == KEY_SIZE
    ensures Normalize(d) == Some(key)
  {
    hide IsHex, Quoted, HexDigit, Blank, FromHex, Strip;
    HexLength(hex, key);
    Utf8Ascii(d, text);
    HexUnquoted(text, hex, key);
    HexReads(hex, key);
  }

  // ---- A hex text is never base64 of a key ---------------------------------------------

  // The decoder's state after text without padding, unknown characters skipped.
  datatype State = State(pos: nat, left: Sextet, out: seq<Byte>)

  function Read(st: State, x: Sextet): (next: State)
    requires st.pos < 4
    ensures next.pos < 4
  {
    State((st.pos + 1) % 4, x, if st.pos == 0 then st.out else st.out + [Completed(st.pos, st.left, x)])
  }

  function Run(s: string, st: State): (end: State)
    requires st.pos < 4
    ensures end.pos < 4
  {
    if s == "" then st else if Value64(s[0]) == 64 then Run(s[1..], st) else Run(s[1..], Read(st, Value64(s[0])))
  }

  // Bits read, in units of two: a group of pos sextets has completed pos - 1 bytes.
  function Bits(st: State): int {
    4 * (|st.out| - (if st.pos == 0 then 0 else st.pos - 1)) + 3 * st.pos
  }

  lemma ReadBits(st: State, x: Sextet)
    requires st.pos < 4
    ensures Bits(Read(st, x)) == Bits(st) + 3
  {
  }

  lemma {:induction false} RunBits(s: string, st: State)
    requires st.pos < 4
    ensures Bits(Run(s, st)) == Bits(st) + 3 * Count64(s)
  {
    hide Bits, Read, Value64;
    if s != "" {
      if Value64(s[0]) == 64 {
        RunBits(s[1..], st);
      } else {
        ReadBits(st, Value64(s[0]));
        RunBits(s[1..], Read(st, Value64(s[0])));
      }
    }
  }

  lemma {:induction false} DecodeRuns(s: string, rest: string, strict: bool, st: State)
    requires st.pos < 4 && '=' !in s
    ensures var end := Run(s, st);
            var d := Decode(s + rest, strict, st.pos, st.left, 0, false, st.out);
            d == Decode(rest, strict, end.pos, end.left, 0, false, end.out) || (strict && d == None)
  {
    if s == "" {
      assert s + rest == rest;
    } else {
      assert (s + rest)[0] == s[0] && (s + rest)[1..] == s[1..] + rest;
      if Value64(s[0]) == 64 {
        DecodeRuns(s[1..], rest, strict, st);
      } else {
        var x := Value64(s[0]);
        DecodeRuns(s[1..], rest, strict, Read(st, x));
      }
    }
  }

  // Padding after complete groups is ignored.
  lemma {:induction false} DecodePads(n: nat, strict: bool, left: Sextet, padded: bool, out: seq<Byte>)
    ensures Decode(Pads(n), strict, 0, left, 0, padded, out) == Some(out)
  {
    if n > 0 {
      PadsShift(n - 1);
      assert Pads(n)[0] == '=' && Pads(n)[1..] == Pads(n - 1);
      DecodePads(n - 1, strict, left, true, out);
    }
  }

  lemma {:induction false} PadsShift(n: nat)
    ensures Pads(n) + "=" == "=" + Pads(n)
  {
    if n > 0 {
      PadsShift(n - 1);
      assert "=" + Pads(n) == ("=" + Pads(n - 1)) + "=";
    }
  }

  lemma {:induction false} Utf8Shrinks(b: seq<Byte>)
    ensures Utf8(b).Some? ==> |Utf8(b).value| <= |b|
  {
    if b != [] {
      if b[0] < 0x80 {
        Utf8Shrinks(b[1..]);
      } else if |b| >= 2 && b[0] < 0xE0 {
        Utf8Shrinks(b[2..]);
      } else if |b| >= 3 && b[0] < 0xF0 {
        Utf8Shrinks(b[3..]);
      } else if |b| >= 4 {
        Utf8Shrinks(b[4..]);
      }
    }
  }

  // Between 17 and 31 bytes hold no key: not raw, and too few for hex.
  lemma NoKeyWithin(d: seq<Byte>)
    requires KEY_SIZE < |d| < 2 * KEY_SIZE
    ensures Normalize(d) == None
  {
    hide Utf8, FromHex, Strip;
    Utf8Shrinks(d);
    if Utf8(d).Some? {
      var hex := Strip(Strip(Strip(Utf8(d).value, Blank), Quote), Apostrophe);
      if FromHex(hex).Some? {
        FromHexShape(hex);
      }
    }
  }

  lemma BlankIsNoData(c: char)
    requires Blank(c)
    ensures Value64(c) == 64
  {
  }

  lemma {:induction false} CountAppend(s: string, c: char)
    ensures Count64(s + [c]) == Count64(s) + (if Value64(c) < 64 then 1 else 0)
  {
    if s == "" {
      assert s + [c] == [c] && [c][1..] == "";
    } else {
      assert (s + [c])[0] == s[0] && (s + [c])[1..] == s[1..] + [c];
      CountAppend(s[1..], c);
    }
  }

  lemma {:induction false} StripLeftCounts(s: string)
    ensures Count64(StripLeft(s, Blank)) == Count64(s)
    ensures HexOrSpace(s) ==> HexOrSpace(StripLeft(s, Blank))
  {
    hide Value64, Blank;
    if s != "" && Blank(s[0]) {
      BlankIsNoData(s[0]);
      StripLeftCounts(s[1..]);
      assert forall i :: 0 <= i < |s| - 1 ==> s[1..][i] == s[i + 1];
    }
  }

  lemma {:induction false} StripRightCounts(s: string)
    ensures Count64(StripRight(s, Blank)) == Count64(s)
    ensures HexOrSpace(s) ==> HexOrSpace(StripRight(s, Blank))
  {
    hide Value64, Blank;
    if s != "" && Blank(s[|s| - 1]) {
      var front := s[..|s| - 1];
      BlankIsNoData(s[|s| - 1]);
      CountAppend(front, s[|s| - 1]);
      assert front + [s[|s| - 1]] == s;
      StripRightCounts(front);
    }
  }

  // 192 bits are eight whole groups.
  lemma WholeGroups(st: State)
    requires st.pos < 4 && Bits(st) == 96
    ensures st.pos == 0 && |st.out| == 24
  {
  }

  // 32 characters of the alphabet and no padding decode to 24 bytes, or to nothing.
  lemma Decodes24(s: string, n: nat, strict: bool)
    requires '=' !in s && Count64(s) == 2 * KEY_SIZE
    ensures var d := Decode(s + Pads(n), strict, 0, 0, 0, false, []);
            d == None || |d.value| == 24
  {
    hide Decode, Run, Count64;
    var start := State(0, 0, []);
    DecodeRuns(s, Pads(n), strict, start);
    RunBits(s, start);
    var end := Run(s, start);
    WholeGroups(end);
    DecodePads(n, strict, end.left, false, end.out);
  }

  // The hex parser and the base64 parser never both find a key in the same text.
  lemma HexExcludesBase64(raw: string)
    requires KeyOf(FromHex(raw)).Some?
    ensures Base64Key(raw) == None
  {
    hide FromHex, Decode, Count64, HexOrSpace, Normalize, StripLeft, StripRight;
    FromHexShape(raw);
    StripLeftCounts(raw);
    StripRightCounts(StripLeft(raw, Blank));
    var candidate := Strip(raw, Blank);
    PlainHex(candidate);
    var n := (4 - |candidate| % 4) % 4;
    var padded := candidate + Pads(n);
    FromUrlPads(candidate, n);
    Decodes24(candidate, n, true);
    Decodes24(candidate, n, false);
    hide Pads, FromUrl, Ascii;
    forall strict: bool | B64Decode(padded, strict).Some? ensures Normalize(B64Decode(padded, strict).value) == None {
      assert |B64Decode(padded, strict).value| == 24;
      NoKeyWithin(B64Decode(padded, strict).value);
    }
  }

  lemma PlainHex(s: string)
    requires HexOrSpace(s)
    ensures '=' !in s && '-' !in s && '_' !in s
  {
  }

  lemma {:induction false} PadsAre(n: nat)
    ensures |Pads(n)| == n && forall i :: 0 <= i < n ==> Pads(n)[i] == '='
  {
    if n > 0 {
      PadsAre(n - 1);
    }
  }

  lemma FromUrlPads(s: string, n: nat)
    requires '-' !in s && '_' !in s
    ensures FromUrl(s + Pads(n)) == s + Pads(n)
  {
    PadsAre(n);
    hide Pads;
    var all := s + Pads(n);
    forall i | 0 <= i < |all| ensures all[i] != '-' && all[i] != '_' {
      if i < |s| {
        assert all[i] == s[i] && s[i] in s;
      }
    }
    UrlThereAndBack(all);
  }

  // Whatever the value, it makes no difference which parser is tried first.
  lemma OrderIrrelevant(value: Value)
    ensures ParseKey(value, true) == ParseKey(value, false)
  {
    hide FromHex, Base64Key, Strip;
    if value.Text? {
      var raw := Strip(value.text, Blank);
      if KeyOf(FromHex(raw)).Some? {
        HexExcludesBase64(raw);
      }
    }
  }

  // ---- What the parsers read, exactly --------------------------------------------------

  // White space to str.strip, character by character.
  lemma BlankIff(c: char)
    ensures Blank(c) <==>
      || c in "\t\n\U{0B}\U{0C}\r\U{1C}\U{1D}\U{1E}\U{1F} \U{85}\U{A0}\U{1680}\U{2028}\U{2029}\U{202F}\U{205F}\U{3000}"
      || c in "\U{2000}\U{2001}\U{2002}\U{2003}\U{2004}\U{2005}\U{2006}\U{2007}\U{2008}\U{2009}\U{200A}"
  {
  }

  lemma ValueIff(c: char, x: Sextet)
    ensures Value64(c) == x <==> c == Symbol(x)
  {
  }

  // r is text without what surrounds it of the characters to drop.
  ghost predicate Trimmed(text: string, r: string, drop: char -> bool) {
    && (exists a, b :: text == a + r + b && forall c :: c in a || c in b ==> drop(c))
    && (r != "" ==> !drop(r[0]) && !drop(r[|r| - 1]))
  }

  lemma {:induction false} LeftDropped(s: string, drop: char -> bool) returns (a: string)
    ensures s == a + StripLeft(s, drop) && forall c :: c in a ==> drop(c)
    ensures StripLeft(s, drop) != "" ==> !drop(StripLeft(s, drop)[0])
  {
    if s != "" && drop(s[0]) {
      var rest := LeftDropped(s[1..], drop);
      a := [s[0]] + rest;
      assert s == [s[0]] + s[1..];
    } else {
      a := "";
    }
  }

  lemma {:induction false} RightDropped(s: string, drop: char -> bool) returns (b: string)
    ensures s == StripRight(s, drop) + b && forall c :: c in b ==> drop(c)
    ensures StripRight(s, drop) != "" ==> !drop(StripRight(s, drop)[|StripRight(s, drop)| - 1])
  {
    if s != "" && drop(s[|s| - 1]) {
      var rest := RightDropped(s[..|s| - 1], drop);
      b := rest + [s[|s| - 1]];
      assert s == s[..|s| - 1] + [s[|s| - 1]];
    } else {
      b := "";
    }
  }

  lemma StripIff(text: string, r: string, drop: char -> bool)
    ensures Strip(text, drop) == r <==> Trimmed(text, r, drop)
  {
    hide StripLeft, StripRight;
    if Strip(text, drop) == r {
      var a := LeftDropped(text, drop);
      var left := StripLeft(text, drop);
      var b := RightDropped(left, drop);
      assert text == a + r + b && left == r + b;
      assert r != "" ==> r[0] == left[0];
    }
    if Trimmed(text, r, drop) {
      var a, b :| text == a + r + b && forall c :: c in a || c in b ==> drop(c);
      StripAround(a, r, b, drop);
      StripKept(r, drop);
    }
  }

  // The sextets a text spells, whatever else it holds.
  function Sextets(s: string): seq<Sextet> {
    if s == "" then []
    else
      var front, x := Sextets(s[..|s| - 1]), Value64(s[|s| - 1]);
      if x < 64 then front + [x] else front
  }

  // How many equal signs follow the last of them.
  function Trailing(s: string): nat {
    if s == "" || Value64(s[|s| - 1]) < 64 then 0
    else Trailing(s[..|s| - 1]) + (if s[|s| - 1] == '=' then 1 else 0)
  }

  // An equal sign that ends the data: the first after three sextets of a group, or the second after two.
  predicate Closes(s: string, e: int) {
    && 0 <= e < |s| && s[e] == '='
    && var n := |Sextets(s[..e])| % 4;
       n == 3 || (n == 2 && Trailing(s[..e]) > 0)
  }

  // The data ends before e: at the first sign that ends it, or with the text, after whole groups.
  predicate DataEnds(s: string, e: nat) {
    && e <= |s| && (forall k :: 0 <= k < e ==> !Closes(s, k))
    && (Closes(s, e) || (e == |s| && |Sextets(s)| % 4 == 0))
  }

  // The i-th group of eight bits.
  function ByteAt(v: seq<Sextet>, i: nat): Byte
    requires i < |v| * 3 / 4
  {
    var p: Sextet, q: Sextet := v[i / 3 * 4 + i % 3], v[i / 3 * 4 + i % 3 + 1];
    if i % 3 == 0 then p * 4 + q / 16 else if i % 3 == 1 then p % 16 * 16 + q / 4 else p % 4 * 64 + q
  }

  // The bytes are the bits of the sextets, eight by eight; what is left at the end is dropped.
  predicate Packs(v: seq<Sextet>, b: seq<Byte>) {
    |b| == |v| * 3 / 4 && forall i :: 0 <= i < |b| ==> b[i] == ByteAt(v, i)
  }

  predicate Reads64(s: string, b: seq<Byte>) {
    exists e :: 0 <= e <= |s| && DataEnds(s, e) && Packs(Sextets(s[..e]), b)
  }

  lemma {:induction false} RunMore(s: string, c: char, st: State)
    requires st.pos < 4
    ensures var end := Run(s, st);
            Run(s + [c], st) == if Value64(c) == 64 then end else Read(end, Value64(c))
  {
    hide Read, Value64;
    if s == "" {
      assert s + [c] == [c] && [c][1..] == "";
    } else {
      assert (s + [c])[0] == s[0] && (s + [c])[1..] == s[1..] + [c];
      RunMore(s[1..], c, if Value64(s[0]) == 64 then st else Read(st, Value64(s[0])));
    }
  }

  // What the decoder holds after the sextets v: their whole bytes, the last one, and where in its group it is.
  predicate Holds(v: seq<Sextet>, st: State) {
    && st.pos == |v| % 4 && (v != [] ==> st.left == v[|v| - 1])
    && |st.out| == |v| / 4 * 3 + (if st.pos == 0 then 0 else st.pos - 1)
    && forall i :: 0 <= i < |st.out| ==> st.out[i] == ByteAt(v, i)
  }

  // The byte that sextet n completes.
  lemma PlaceOf(n: nat)
    requires n % 4 != 0
    ensures var i := n / 4 * 3 + n % 4 - 1;
            i < (n + 1) * 3 / 4 && i / 3 * 4 + i % 3 == n - 1 && i % 3 == n % 4 - 1
  {
  }

  lemma SameBytes(v: seq<Sextet>, x: Sextet, i: nat)
    requires i < |v| * 3 / 4
    ensures i < |v + [x]| * 3 / 4 && ByteAt(v + [x], i) == ByteAt(v, i)
  {
  }

  lemma NewByte(v: seq<Sextet>, x: Sextet)
    requires |v| % 4 != 0
    ensures var i := |v| / 4 * 3 + |v| % 4 - 1;
            0 <= i < |v + [x]| * 3 / 4 && ByteAt(v + [x], i) == Completed(|v| % 4, v[|v| - 1], x)
  {
    PlaceOf(|v|);
  }

  lemma HoldsMore(v: seq<Sextet>, x: Sextet, st: State)
    requires Holds(v, st)
    ensures Holds(v + [x], Read(st, x))
  {
    hide ByteAt, Completed;
    var w, next := v + [x], Read(st, x);
    if st.pos != 0 {
      NewByte(v, x);
    }
    forall i: nat | i < |next.out| ensures next.out[i] == ByteAt(w, i) {
      if i < |st.out| {
        SameBytes(v, x, i);
      }
    }
  }

  lemma {:induction false} RunHolds(s: string)
    ensures Holds(Sextets(s), Run(s, State(0, 0, [])))
  {
    hide Holds, Run, Read, Value64;
    if s == "" {
      RunNothing();
    } else {
      var front, c := s[..|s| - 1], s[|s| - 1];
      assert s == front + [c];
      RunHolds(front);
      RunMore(front, c, State(0, 0, []));
      if Value64(c) < 64 {
        HoldsMore(Sextets(front), Value64(c), Run(front, State(0, 0, [])));
      }
    }
  }

  lemma RunNothing()
    ensures Holds(Sextets(""), Run("", State(0, 0, [])))
  {
  }

  lemma HeldPacks(v: seq<Sextet>, st: State, b: seq<Byte>)
    requires Holds(v, st) && |v| % 4 != 1
    ensures Packs(v, b) <==> b == st.out
  {
  }

  // What the lenient decoder makes of the rest of a text, having read its first k characters.
  function LenientAt(s: string, k: nat, padded: bool): Option<seq<Byte>>
    requires k <= |s|
  {
    var st := Run(s[..k], State(0, 0, []));
    Decode(s[k..], false, st.pos, st.left, if st.pos >= 2 then Trailing(s[..k]) else 0, padded, st.out)
  }

  lemma PositionIs(s: string)
    ensures Run(s, State(0, 0, [])).pos == |Sextets(s)| % 4
  {
    RunHolds(s);
    hide Run, Sextets, ByteAt;
  }

  lemma LenientStep(s: string, k: nat, padded: bool)
    requires k < |s| && !Closes(s, k)
    ensures LenientAt(s, k, padded) == LenientAt(s, k + 1, padded || s[k] == '=')
  {
    var c, front, next := s[k], s[..k], s[..k + 1];
    assert next == front + [c] && next[..|next| - 1] == front && next[|next| - 1] == c;
    assert s[k..][0] == c && s[k..][1..] == s[k + 1..];
    PositionIs(front);
    RunMore(front, c, State(0, 0, []));
    hide Run, Sextets;
  }

  lemma LenientClose(s: string, k: nat, padded: bool)
    requires k < |s| && Closes(s, k)
    ensures LenientAt(s, k, padded) == Some(Run(s[..k], State(0, 0, [])).out)
  {
    assert s[k..][0] == s[k];
    PositionIs(s[..k]);
    hide Run, Sextets;
  }

  lemma LenientEnd(s: string, padded: bool)
    ensures LenientAt(s, |s|, padded) ==
            if |Sextets(s)| % 4 == 0 then Some(Run(s, State(0, 0, [])).out) else None
  {
    assert s[..|s|] == s;
    PositionIs(s);
    hide Run, Sextets;
  }

  lemma ReadsTo(s: string, e: nat, b: seq<Byte>)
    requires e <= |s| && DataEnds(s, e)
    ensures Reads64(s, b) <==> b == Run(s[..e], State(0, 0, [])).out
  {
    RunHolds(s[..e]);
    assert s[..|s|] == s;
    HeldPacks(Sextets(s[..e]), Run(s[..e], State(0, 0, [])), b);
    hide Run, Sextets, Packs, Holds, Trailing;
  }

  lemma {:induction false} LenientFrom(s: string, k: nat, padded: bool, b: seq<Byte>)
    requires k <= |s| && forall j :: 0 <= j < k ==> !Closes(s, j)
    ensures LenientAt(s, k, padded) == Some(b) <==> Reads64(s, b)
    decreases |s| - k
  {
    assert !Closes(s, |s|);
    hide LenientAt, Closes, Run, Sextets, Packs;
    if k == |s| {
      LenientEnd(s, padded);
      if |Sextets(s)| % 4 == 0 {
        assert DataEnds(s, k) && s[..k] == s;
        ReadsTo(s, k, b);
      }
    } else if Closes(s, k) {
      LenientClose(s, k, padded);
      ReadsTo(s, k, b);
    } else {
      LenientStep(s, k, padded);
      LenientFrom(s, k + 1, padded || s[k] == '=', b);
    }
  }

  // The lenient decoder reads the sextets up to the sign that ends them, and raises if a group is left incomplete.
  lemma LenientReadsIff(s: string, b: seq<Byte>)
    ensures B64Decode(s, false) == Some(b) <==> Ascii(s) && Reads64(s, b)
  {
    LenientFrom(s, 0, false, b);
    assert s[..0] == "" && s[0..] == s;
    hide Decode, Reads64;
  }

  // With - and _ read as + and /.
  predicate Translates(s: string, t: string) {
    |t| == |s| &&
    forall i :: 0 <= i < |s| ==> t[i] == if s[i] == '-' then '+' else if s[i] == '_' then '/' else s[i]
  }

  // The bytes are the key, or the UTF-8 of its hex, within white space, quotes and apostrophes.
  ghost predicate HoldKey(b: seq<Byte>, key: seq<Byte>) {
    if |b| == 16 then key == b
    else exists text, bare, unquoted, hex ::
           && b == Utf8Text(text) && Trimmed(text, bare, Blank) && Trimmed(bare, unquoted, Quote)
           && Trimmed(unquoted, hex, Apostrophe) && hex != "" && SpacedHex(hex, key)
  }

  // The text, filled up to whole groups, is base64, standard or URL-safe, of bytes that hold the key.
  ghost predicate HoldsKey64(raw: string, key: seq<Byte>) {
    exists padding, standard, b ::
      && Only(padding, "=") && |padding| < 4 && |raw + padding| % 4 == 0
      && Translates(raw + padding, standard) && Ascii(standard) && Reads64(standard, b) && HoldKey(b, key)
  }

  lemma NormalizeIff(b: seq<Byte>, key: seq<Byte>)
    ensures Normalize(b) == Some(key) <==> |key| == 16 && HoldKey(b, key)
  {
    hide Utf8, FromHex, Strip, SpacedHex, Trimmed;
    if |b| != 16 && Utf8(b).Some? {
      var text := Utf8(b).value;
      var bare := Strip(text, Blank);
      var unquoted := Strip(bare, Quote);
      var hex := Strip(unquoted, Apostrophe);
      Utf8DecodesIff(b, text);
      StripIff(text, bare, Blank);
      StripIff(bare, unquoted, Quote);
      StripIff(unquoted, hex, Apostrophe);
      HexReadsIff(hex, key);
    }
    if |b| != 16 && HoldKey(b, key) {
      var text, bare, unquoted, hex :|
        && b == Utf8Text(text) && Trimmed(text, bare, Blank) && Trimmed(bare, unquoted, Quote)
        && Trimmed(unquoted, hex, Apostrophe) && hex != "" && SpacedHex(hex, key);
      Utf8DecodesIff(b, text);
      StripIff(text, bare, Blank);
      StripIff(bare, unquoted, Quote);
      StripIff(unquoted, hex, Apostrophe);
      HexReadsIff(hex, key);
    }
  }

  lemma TranslatesIff(s: string, t: string)
    ensures Translates(s, t) <==> t == FromUrl(s)
  {
  }

  lemma PaddingIff(raw: string, padding: string)
    ensures Only(padding, "=") && |padding| < 4 && |raw + padding| % 4 == 0 <==> padding == Padding(|raw|)
  {
    PadsAre((4 - |raw| % 4) % 4);
    hide Pads;
    if Only(padding, "=") && |padding| < 4 && |raw + padding| % 4 == 0 {
      forall i | 0 <= i < |padding| ensures padding[i] == '=' {
        assert padding[i] in padding;
      }
    }
  }

  // Trying the strict decoder first changes nothing.
  lemma LenientDecides(value: string)
    ensures var candidate := Strip(value, Blank);
            var url := UrlDecode(candidate + Padding(|candidate|));
            Base64Key(value) == if candidate != "" && url.Some? then Normalize(url.value) else None
  {
    hide UrlDecode, Normalize, Padding, Strip;
    StrictAddsNothing(Strip(value, Blank) + Padding(|Strip(value, Blank)|));
  }

  lemma Base64KeyIff(raw: string, key: seq<Byte>)
    requires Strip(raw, Blank) == raw
    ensures Base64Key(raw) == Some(key) <==> |key| == 16 && raw != "" && HoldsKey64(raw, key)
  {
    hide Base64Key, HoldKey, Normalize, Padding, FromUrl, Translates, Reads64, Strip, Only, Ascii, B64Decode;
    LenientDecides(raw);
    PaddingIff(raw, Padding(|raw|));
    var padded := raw + Padding(|raw|);
    var standard := FromUrl(padded);
    TranslatesIff(padded, standard);
    if Base64Key(raw) == Some(key) {
      var b := UrlDecode(padded).value;
      LenientReadsIff(standard, b);
      NormalizeIff(b, key);
    }
    if |key| == 16 && raw != "" && HoldsKey64(raw, key) {
      var padding, standard', b :|
        && Only(padding, "=") && |padding| < 4 && |raw + padding| % 4 == 0
        && Translates(raw + padding, standard') && Ascii(standard') && Reads64(standard', b) && HoldKey(b, key);
      PaddingIff(raw, padding);
      TranslatesIff(padded, standard');
      LenientReadsIff(standard, b);
      NormalizeIff(b, key);
    }
  }

  // A text is a key exactly when, white space around it aside, it is the key's hex, with white space between bytes, or
  // base64, with anything unknown in between, of the key's bytes or of its hex.
  lemma ParseKeyIff(text: string, key: seq<Byte>, preferHex: bool)
    ensures ParseKey(Text(text), preferHex) == Some(key) <==>
            |key| == 16 && exists raw :: Trimmed(text, raw, Blank) && raw != "" &&
                                         (SpacedHex(raw, key) || HoldsKey64(raw, key))
  {
    hide FromHex, Base64Key, Strip, SpacedHex, HoldsKey64, Trimmed;
    var raw := Strip(text, Blank);
    StripIff(text, raw, Blank);
    forall other | Trimmed(text, other, Blank) ensures other == raw {
      StripIff(text, other, Blank);
    }
    TrimmedTwice(text);
    HexReadsIff(raw, key);
    Base64KeyIff(raw, key);
    if KeyOf(FromHex(raw)).Some? {
      HexExcludesBase64(raw);
    }
  }

  lemma TrimmedTwice(text: string)
    ensures Strip(Strip(text, Blank), Blank) == Strip(text, Blank)
  {
    hide Strip, Blank;
    var raw := Strip(text, Blank);
    StripIff(text, raw, Blank);
    StripKept(raw, Blank);
  }

  // ---- Every encoding of a key ---------------------------------------------------------

  // The text encodes the key: in hex of any case, in base64, or in base64 of its hex, quoted or not.
  ghost predicate EncodesBare(text: string, key: seq<Byte>) {
    || IsHex(text, key)
    || IsBase64(text, key)
    || exists d, quoted, hex :: IsHex(hex, key) && Quoted(quoted, hex) && IsAscii(d, quoted) && IsBase64(text, d)
  }

  // White space may surround it.
  ghost predicate Encodes(text: string, key: seq<Byte>) {
    exists a, bare, b ::
      text == a + bare + b && Only(a, " \t\n\r") && Only(b, " \t\n\r") && EncodesBare(bare, key)
  }

  lemma HexParses(text: string, key: seq<Byte>)
    requires IsHex(text, key) && |key| == KEY_SIZE
    ensures ParseKey(Text(text), true) == Some(key)
  {
    forall c | HexDigit(c) < 16 ensures !Blank(c) {
      HexChar(c);
    }
    hide HexDigit, Blank, FromHex, Strip, Base64Key;
    HexKept(text, key, Blank);
    HexReads(text, key);
  }

  lemma Base64Parses(text: string, b: seq<Byte>, key: seq<Byte>)
    requires IsBase64(text, b) && b != [] && Normalize(b) == Some(key)
    ensures ParseKey(Text(text), false) == Some(key)
  {
    hide IsBase64, Normalize, Base64Key, Strip, FromHex;
    Base64Reads(text, b, key);
  }

  lemma BareParses(key: seq<Byte>, text: string, preferHex: bool)
    requires |key| == KEY_SIZE && EncodesBare(text, key)
    ensures ParseKey(Text(text), preferHex) == Some(key)
  {
    hide IsHex, IsBase64, IsAscii, Quoted, ParseKey, Normalize;
    OrderIrrelevant(Text(text));
    if IsHex(text, key) {
      HexParses(text, key);
    } else if IsBase64(text, key) {
      RawNormal(key);
      Base64Parses(text, key, key);
    } else {
      var d, quoted, hex :| IsHex(hex, key) && Quoted(quoted, hex) && IsAscii(d, quoted) && IsBase64(text, d);
      NormalizeHex(d, quoted, hex, key);
      QuotedSize(d, quoted, hex, key);
      Base64Parses(text, d, key);
    }
  }

  lemma QuotedSize(d: seq<Byte>, quoted: string, hex: string, key: seq<Byte>)
    requires IsHex(hex, key) && Quoted(quoted, hex) && IsAscii(d, quoted) && |key| == KEY_SIZE
    ensures d != []
  {
    hide Only;
    HexLength(hex, key);
  }

  // Every encoding of a 16-byte key is read as that key, whichever parser is tried first.
  lemma EveryEncodingParses(key: seq<Byte>, text: string, preferHex: bool)
    requires |key| == KEY_SIZE && Encodes(text, key)
    ensures ParseKey(Text(text), preferHex) == Some(key)
  {
    hide EncodesBare;
    var a, bare, b :|
      text == a + bare + b && Only(a, " \t\n\r") && Only(b, " \t\n\r") && EncodesBare(bare, key);
    BareParses(key, bare, preferHex);
    WhiteStripped(a, bare, b);
  }

  // A text holding a character outside ASCII that is no white space is no key.
  lemma NonAsciiIsNoKey(text: string, i: nat, preferHex: bool)
    requires i < |text| && text[i] >= '\U{80}' && !Blank(text[i])
    ensures ParseKey(Text(text), preferHex) == None
  {
    hide Blank, FromHex, Decode, Normalize, Padding;
    KeptInside(text, i);
    var raw := Strip(text, Blank);
    var j: nat :| j < |raw| && raw[j] >= '\U{80}' && !Blank(raw[j]);
    if FromHex(raw).Some? {
      FromHexShape(raw);
    }
    KeptInside(raw, j);
    var candidate := Strip(raw, Blank);
    var k: nat :| k < |candidate| && candidate[k] >= '\U{80}' && !Blank(candidate[k]);
    var padded := candidate + Padding(|candidate|);
    assert padded[k] == candidate[k];
    assert FromUrl(padded)[k] == padded[k];
  }

  // A strip keeps what it need not drop.
  lemma KeptInside(text: string, i: nat)
    requires i < |text| && text[i] >= '\U{80}' && !Blank(text[i])
    ensures var kept := Strip(text, Blank);
            exists j: nat :: j < |kept| && kept[j] >= '\U{80}' && !Blank(kept[j])
  {
    hide Blank;
    var j := KeptLeft(text, i);
    var k := KeptRight(StripLeft(text, Blank), j);
    assert Strip(text, Blank)[k] == text[i];
  }

  lemma {:induction false} KeptLeft(text: string, i: nat) returns (j: nat)
    requires i < |text| && !Blank(text[i])
    ensures j < |StripLeft(text, Blank)| && StripLeft(text, Blank)[j] == text[i]
  {
    hide Blank;
    if Blank(text[0]) {
      j := KeptLeft(text[1..], i - 1);
    } else {
      j := i;
    }
  }

  lemma {:induction false} KeptRight(text: string, i: nat) returns (j: nat)
    requires i < |text| && !Blank(text[i])
    ensures j < |StripRight(text, Blank)| && StripRight(text, Blank)[j] == text[i]
  {
    hide Blank;
    if Blank(text[|text| - 1]) {
      j := KeptRight(text[..|text| - 1], i);
    } else {
      j := i;
    }
  }

  // Bytes are a key exactly when there are sixteen of them; other values are none.
  lemma BytesAreKeys(bytes: seq<Byte>, preferHex: bool)
    ensures ParseKey(Raw(bytes), preferHex) == (if |bytes| == 16 then Some(bytes) else None)
    ensures ParseKey(Other, preferHex) == None
  {
  }

  lemma RawNormal(key: seq<Byte>)
    requires |key| == KEY_SIZE
    ensures Normalize(key) == Some(key)
  {
  }

  // So no text encodes two keys.
  lemma NeverConfused(text: string, key: seq<Byte>, other: seq<Byte>)
    requires |key| == |other| == KEY_SIZE && Encodes(text, key) && Encodes(text, other)
    ensures key == other
  {
    EveryEncodingParses(key, text, true);
    EveryEncodingParses(other, text, true);
  }

  lemma NotQuoted(text: string)
    ensures Quoted(text, text)
  {
    var w := Wrapping("", "", "", "", "", "");
    assert w.Valid() && w.Around(text) == text;
  }

  lemma EncodedIs(text: string)
    requires Ascii(text)
    ensures IsAscii(Encoded(text), text)
  {
  }

  lemma OutboundIsBare(key: seq<Byte>)
    ensures EncodesBare(EncodeOutbound(key), key)
  {
    hide IsHex, Quoted, B64Encode, HexText, Ascii;
    HexTextIs(key);
    NotQuoted(HexText(key));
    EncodedIs(HexText(key));
    assert IsBase64(EncodeOutbound(key), Encoded(HexText(key)));
  }

  lemma OutboundEncodes(key: seq<Byte>)
    ensures Encodes(EncodeOutbound(key), key)
  {
    hide EncodesBare;
    OutboundIsBare(key);
    var text := EncodeOutbound(key);
    assert "" + text + "" == text && Only("", " \t\n\r");
  }

  // What is sent is read back.
  lemma OutboundParses(key: seq<Byte>, preferHex: bool)
    requires |key| == KEY_SIZE
    ensures ParseKey(Text(EncodeOutbound(key)), preferHex) == Some(key)
  {
    hide *;
    OutboundEncodes(key);
    EveryEncodingParses(key, EncodeOutbound(key), preferHex);
  }

  // ---- Finding the key in a payload ----------------------------------------------------

  // A payload's fields, and what it holds under "media".
  datatype Payload = Fields(fields: map<string, Value>, media: Payload) | NoMapping

  const HEX_FIELDS := ["aeskey", "aes_key_hex"]
  const BASE64_FIELDS := ["aes_key", "aesKey", "encrypt_key", "encryptKey"]

  function FieldKey(fields: map<string, Value>, names: seq<string>, preferHex: bool): Option<seq<Byte>> {
    if names == [] then None
    else
      var key := ParseKey(if names[0] in fields then fields[names[0]] else Other, preferHex);
      if key.Some? then key else FieldKey(fields, names[1..], preferHex)
  }

  // The payload, then what is nested under its "media".
  function PayloadKey(payload: Payload): Option<seq<Byte>> {
    match payload
    case NoMapping => None
    case Fields(fields, media) =>
      var hex, base64 := FieldKey(fields, HEX_FIELDS, true), FieldKey(fields, BASE64_FIELDS, false);
      if hex.Some? then hex else if base64.Some? then base64 else PayloadKey(media)
  }

  // What is nested depth levels deep under "media".
  function Nested(payload: Payload, depth: nat): Payload {
    if depth == 0 || payload.NoMapping? then payload else Nested(payload.media, depth - 1)
  }

  // The key held under this name, if its value can be parsed.
  function KeyAt(payload: Payload, name: string): Option<seq<Byte>> {
    if payload.Fields? && name in payload.fields then ParseKey(payload.fields[name], true) else None
  }

  // A name of the payload nested depth levels deep under the i-th one.
  datatype Place = Place(i: nat, depth: nat, name: nat)

  predicate Exists(place: Place, payloads: seq<Payload>, names: seq<string>) {
    place.i < |payloads| && place.name < |names|
  }

  function KeyAtPlace(place: Place, payloads: seq<Payload>, names: seq<string>): Option<seq<Byte>>
    requires Exists(place, payloads, names)
  {
    KeyAt(Nested(payloads[place.i], place.depth), names[place.name])
  }

  // Payload by payload, from the outside in, name by name.
  predicate Earlier(a: Place, b: Place) {
    a.i < b.i || (a.i == b.i && (a.depth < b.depth || (a.depth == b.depth && a.name < b.name)))
  }

  // key is held at the first place that holds any; None: no place holds one.
  ghost predicate FirstFound(payloads: seq<Payload>, names: seq<string>, key: Option<seq<Byte>>) {
    match key
    case None => forall p :: Exists(p, payloads, names) ==> KeyAtPlace(p, payloads, names) == None
    case Some(_) =>
      exists p :: Exists(p, payloads, names) && KeyAtPlace(p, payloads, names) == key &&
        forall q :: Exists(q, payloads, names) && Earlier(q, p) ==> KeyAtPlace(q, payloads, names) == None
  }

  // The values looked at, in the order they are looked at.
  function FieldValues(fields: map<string, Value>, names: seq<string>): seq<Value> {
    if names == [] then []
    else [if names[0] in fields then fields[names[0]] else Other] + FieldValues(fields, names[1..])
  }

  function PayloadValues(payload: Payload): seq<Value> {
    match payload
    case NoMapping => []
    case Fields(fields, media) =>
      FieldValues(fields, HEX_FIELDS) + FieldValues(fields, BASE64_FIELDS) + PayloadValues(media)
  }

  function Candidates(payloads: seq<Payload>): seq<Value> {
    if payloads == [] then [] else PayloadValues(payloads[0]) + Candidates(payloads[1..])
  }

  function FirstKey(values: seq<Value>): Option<seq<Byte>> {
    if values == [] then None
    else if ParseKey(values[0], true).Some? then ParseKey(values[0], true)
    else FirstKey(values[1..])
  }

  lemma {:induction false} FirstKeyConcat(a: seq<Value>, b: seq<Value>)
    ensures FirstKey(a + b) == if FirstKey(a).Some? then FirstKey(a) else FirstKey(b)
    decreases |a|
  {
    hide ParseKey;
    if a == [] {
      assert a + b == b;
    } else {
      assert (a + b)[1..] == a[1..] + b;
      FirstKeyConcat(a[1..], b);
    }
  }

  lemma {:induction false} FieldKeyIsFirst(fields: map<string, Value>, names: seq<string>, preferHex: bool)
    ensures FieldKey(fields, names, preferHex) == FirstKey(FieldValues(fields, names))
  {
    hide ParseKey;
    if names != [] {
      var value := if names[0] in fields then fields[names[0]] else Other;
      OrderIrrelevant(value);
      FieldKeyIsFirst(fields, names[1..], preferHex);
      assert FieldValues(fields, names)[1..] == FieldValues(fields, names[1..]);
    }
  }

  // Although fields are parsed with different preferences, the result is the first value that holds a key at all.
  lemma {:induction false} PayloadKeyIsFirst(payload: Payload)
    ensures PayloadKey(payload) == FirstKey(PayloadValues(payload))
    ensures FirstFound([payload], ["aeskey", "aes_key_hex", "aes_key", "aesKey", "encrypt_key", "encryptKey"],
                       PayloadKey(payload))
  {
    PayloadKeyIsFound(payload);
    hide ParseKey, FieldKey, FieldValues, FirstKey;
    match payload
    case NoMapping => NoKeyFirst();
    case Fields(fields, media) =>
      var hex, base64 := FieldValues(fields, HEX_FIELDS), FieldValues(fields, BASE64_FIELDS);
      FieldKeyIsFirst(fields, HEX_FIELDS, true);
      FieldKeyIsFirst(fields, BASE64_FIELDS, false);
      PayloadKeyIsFirst(media);
      FirstKeyConcat(hex, base64);
      FirstKeyConcat(hex + base64, PayloadValues(media));
  }

  lemma NoKeyFirst()
    ensures FirstKey([]) == None
  {
  }

  // ---- Which key is found --------------------------------------------------------------

  // The first of these names that holds a key.
  ghost predicate FirstName(payload: Payload, names: seq<string>, key: Option<seq<Byte>>) {
    match key
    case None => forall n :: 0 <= n < |names| ==> KeyAt(payload, names[n]) == None
    case Some(_) =>
      exists n :: 0 <= n < |names| && KeyAt(payload, names[n]) == key &&
        forall m :: 0 <= m < n ==> KeyAt(payload, names[m]) == None
  }

  lemma {:induction false} FieldsFirst(payload: Payload, names: seq<string>)
    requires payload.Fields?
    ensures FirstName(payload, names, FirstKey(FieldValues(payload.fields, names)))
  {
    hide ParseKey;
    if names != [] {
      var values := FieldValues(payload.fields, names);
      MissingHoldsNone();
      assert ParseKey(values[0], true) == KeyAt(payload, names[0]);
      assert values[1..] == FieldValues(payload.fields, names[1..]);
      FieldsFirst(payload, names[1..]);
      hide KeyAt;
      var key := FirstKey(values[1..]);
      assert forall n :: 0 < n < |names| ==> names[1..][n - 1] == names[n];
      if KeyAt(payload, names[0]) == None && key.Some? {
        var n :| 0 <= n < |names| - 1 && KeyAt(payload, names[1..][n]) == key &&
                 forall m :: 0 <= m < n ==> KeyAt(payload, names[1..][m]) == None;
        assert KeyAt(payload, names[n + 1]) == key;
        forall m | 0 <= m < n + 1 ensures KeyAt(payload, names[m]) == None {
          assert m > 0 ==> names[m] == names[1..][m - 1];
        }
      }
    }
  }

  lemma MissingHoldsNone()
    ensures ParseKey(Other, true) == None
  {
  }

  lemma {:induction false} FieldValuesConcat(fields: map<string, Value>, a: seq<string>, b: seq<string>)
    ensures FieldValues(fields, a + b) == FieldValues(fields, a) + FieldValues(fields, b)
  {
    if a == [] {
      assert a + b == b;
    } else {
      assert (a + b)[0] == a[0] && (a + b)[1..] == a[1..] + b;
      FieldValuesConcat(fields, a[1..], b);
    }
  }

  // The names of a payload come before those of what is nested in it.
  lemma FieldsThenMedia(payload: Payload, names: seq<string>, own: Option<seq<Byte>>, nested: Option<seq<Byte>>)
    requires payload.Fields? && FirstName(payload, names, own) && FirstFound([payload.media], names, nested)
    ensures FirstFound([payload], names, if own.Some? then own else nested)
  {
    hide KeyAt;
    var key := if own.Some? then own else nested;
    assert forall d: nat :: d > 0 ==> Nested(payload, d) == Nested(payload.media, d - 1);
    if own.Some? {
      var n :| 0 <= n < |names| && KeyAt(payload, names[n]) == key &&
               forall m :: 0 <= m < n ==> KeyAt(payload, names[m]) == None;
      assert KeyAtPlace(Place(0, 0, n), [payload], names) == key;
    } else {
      forall p | Exists(p, [payload], names) && p.depth > 0
        ensures KeyAtPlace(p, [payload], names) == KeyAtPlace(Outer(p), [payload.media], names)
      {
        assert Nested(payload, p.depth) == Nested(payload.media, p.depth - 1);
      }
      if key.Some? {
        var p :| Exists(p, [payload.media], names) && KeyAtPlace(p, [payload.media], names) == key &&
                 forall q :: Exists(q, [payload.media], names) && Earlier(q, p) ==>
                   KeyAtPlace(q, [payload.media], names) == None;
        var inner := Place(0, p.depth + 1, p.name);
        assert Outer(inner) == p;
        assert KeyAtPlace(inner, [payload], names) == key;
        forall q | Exists(q, [payload], names) && Earlier(q, inner) ensures KeyAtPlace(q, [payload], names) == None {
          if q.depth > 0 {
            assert Earlier(Outer(q), p);
          }
        }
      } else {
        forall q | Exists(q, [payload], names) ensures KeyAtPlace(q, [payload], names) == None {
          if q.depth > 0 {
            assert Exists(Outer(q), [payload.media], names);
          }
        }
      }
    }
  }

  function Outer(p: Place): Place
    requires p.depth > 0
  {
    p.(depth := p.depth - 1)
  }

  // A payload comes before the next ones.
  lemma PayloadThenRest(payloads: seq<Payload>, names: seq<string>, first: Option<seq<Byte>>, rest: Option<seq<Byte>>)
    requires payloads != [] && FirstFound([payloads[0]], names, first) && FirstFound(payloads[1..], names, rest)
    ensures FirstFound(payloads, names, if first.Some? then first else rest)
  {
    hide KeyAt, Nested;
    var key := if first.Some? then first else rest;
    forall p | Exists(p, payloads, names)
      ensures KeyAtPlace(p, payloads, names) ==
              if p.i == 0 then KeyAtPlace(p, [payloads[0]], names)
              else KeyAtPlace(p.(i := p.i - 1), payloads[1..], names)
    {
    }
    if first.Some? {
      var p :| Exists(p, [payloads[0]], names) && KeyAtPlace(p, [payloads[0]], names) == key &&
               forall q :: Exists(q, [payloads[0]], names) && Earlier(q, p) ==>
                 KeyAtPlace(q, [payloads[0]], names) == None;
      assert Exists(p, payloads, names) && KeyAtPlace(p, payloads, names) == key;
    } else if key.Some? {
      var p :| Exists(p, payloads[1..], names) && KeyAtPlace(p, payloads[1..], names) == key &&
               forall q :: Exists(q, payloads[1..], names) && Earlier(q, p) ==>
                 KeyAtPlace(q, payloads[1..], names) == None;
      var later := p.(i := p.i + 1);
      assert later.(i := later.i - 1) == p;
      assert Exists(later, payloads, names) && KeyAtPlace(later, payloads, names) == key;
      forall q | Exists(q, payloads, names) && Earlier(q, later) ensures KeyAtPlace(q, payloads, names) == None {
        if q.i == 0 {
          assert Exists(q, [payloads[0]], names);
        } else {
          assert Earlier(q.(i := q.i - 1), p) && Exists(q.(i := q.i - 1), payloads[1..], names);
        }
      }
    } else {
      forall q | Exists(q, payloads, names) ensures KeyAtPlace(q, payloads, names) == None {
        assert if q.i == 0 then Exists(q, [payloads[0]], names) else Exists(q.(i := q.i - 1), payloads[1..], names);
      }
    }
  }

  lemma {:induction false} PayloadKeyIsFound(payload: Payload)
    ensures FirstFound([payload], ["aeskey", "aes_key_hex", "aes_key", "aesKey", "encrypt_key", "encryptKey"],
                       FirstKey(PayloadValues(payload)))
  {
    var names := HEX_FIELDS + BASE64_FIELDS;
    assert names == ["aeskey", "aes_key_hex", "aes_key", "aesKey", "encrypt_key", "encryptKey"];
    if payload.NoMapping? {
      NoKeyInNothing(names);
      NoKeyFirst();
    } else {
      hide ParseKey, FirstFound, FirstName, FieldValues, FirstKey;
      FieldsFirst(payload, names);
      FieldValuesConcat(payload.fields, HEX_FIELDS, BASE64_FIELDS);
      PayloadKeyIsFound(payload.media);
      var own, nested := FieldValues(payload.fields, names), PayloadValues(payload.media);
      FirstKeyConcat(own, nested);
      FieldsThenMedia(payload, names, FirstKey(own), FirstKey(nested));
    }
  }

  lemma NoKeyInNothing(names: seq<string>)
    ensures FirstFound([NoMapping], names, None) && FirstFound([], names, None)
  {
  }

  lemma {:induction false} FirstKeyIsFound(payloads: seq<Payload>)
    ensures FirstFound(payloads, ["aeskey", "aes_key_hex", "aes_key", "aesKey", "encrypt_key", "encryptKey"],
                       FirstKey(Candidates(payloads)))
  {
    var names := HEX_FIELDS + BASE64_FIELDS;
    assert names == ["aeskey", "aes_key_hex", "aes_key", "aesKey", "encrypt_key", "encryptKey"];
    if payloads == [] {
      NoKeyInNothing(names);
      NoKeyFirst();
    } else {
      hide FirstFound, FirstKey, PayloadValues;
      PayloadKeyIsFound(payloads[0]);
      FirstKeyIsFound(payloads[1..]);
      FirstKeyConcat(PayloadValues(payloads[0]), Candidates(payloads[1..]));
      PayloadThenRest(payloads, names, FirstKey(PayloadValues(payloads[0])), FirstKey(Candidates(payloads[1..])));
    }
  }

  // _resolve_media_aes_key: the first key under one of the six names of a payload, or of what is nested under its
  // media.
  method ResolveMediaAesKey(payloads: seq<Payload>) returns (key: Option<seq<Byte>>)
    ensures FirstFound(payloads, ["aeskey", "aes_key_hex", "aes_key", "aesKey", "encrypt_key", "encryptKey"], key)
    ensures key == FirstKey(Candidates(payloads))
  {
    FirstKeyIsFound(payloads);
    for i := 0 to |payloads|
      invariant FirstKey(Candidates(payloads)) == FirstKey(Candidates(payloads[i..]))
    {
      var found := PayloadKey(payloads[i]);
      assert payloads[i..][1..] == payloads[i + 1..];
      PayloadKeyIsFirst(payloads[i]);
      FirstKeyConcat(PayloadValues(payloads[i]), Candidates(payloads[i + 1..]));
      if found.Some? {
        return found;
      }
    }
    return None;
  }
}
