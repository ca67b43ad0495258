/** Opaque pagination cursors: src/app/framework/pagination.py, over strict UTF-8 (RFC 3629) and the
    base64url alphabet of section 5 of RFC 4648 with its padding stripped (section 3.2). */
module Cursor {
  import opened Wrappers
  import opened Text

  type Byte = b: int | 0 <= b < 256

  // ------------------------------------------------------------------ UTF-8

  function EncodeChar(c: char): (r: seq<Byte>)
    ensures 1 <= |r| <= 4
  {
    var n := c as int;
    if n < 0x80 then [n]
    else if n < 0x800 then [0xC0 + n / 64, 0x80 + n % 64]
    else if n < 0x1_0000 then [0xE0 + n / 64 / 64, 0x80 + n / 64 % 64, 0x80 + n % 64]
    else [0xF0 + n / 64 / 64 / 64, 0x80 + n / 64 / 64 % 64, 0x80 + n / 64 % 64, 0x80 + n % 64]
  }

  /** `payload.encode("utf-8")`. */
  function EncodeUtf8(text: string): seq<Byte> {
    if text == "" then [] else EncodeChar(text[0]) + EncodeUtf8(text[1..])
  }

  predicate IsScalar(n: int) {
    0 <= n < 0xD800 || 0xE000 <= n < 0x11_0000
  }

  /** Six more bits. */
  function More(high: int, b: int): int {
    high * 64 + (b - 0x80)
  }

  predicate Trails(b: int) {
    0x80 <= b < 0xC0
  }

  function Scalar(n: int, least: int, size: nat): (r: Option<(char, nat)>)
    ensures r.Some? ==> r.value.1 == size && r.value.0 as int == n >= least
  {
    if n >= least && IsScalar(n) then Some((n as char, size)) else None
  }

  /** The first code point and the bytes it takes: no overlong form, no surrogate, nothing past the
      last code point. */
  function DecodeOne(bytes: seq<Byte>): (r: Option<(char, nat)>)
    requires bytes != []
    ensures r.Some? ==> 1 <= r.value.1 <= |bytes|
  {
    var b: int := bytes[0];
    if b < 0x80 then Scalar(b, 0, 1)
    else if b < 0xC0 || |bytes| < 2 || !Trails(bytes[1]) then None
    else if b < 0xE0 then Scalar(More(b - 0xC0, bytes[1]), 0x80, 2)
    else if |bytes| < 3 || !Trails(bytes[2]) then None
    else if b < 0xF0 then Scalar(More(More(b - 0xE0, bytes[1]), bytes[2]), 0x800, 3)
    else if |bytes| < 4 || !Trails(bytes[3]) || b >= 0xF8 then None
    else Scalar(More(More(More(b - 0xF0, bytes[1]), bytes[2]), bytes[3]), 0x1_0000, 4)
  }

  /** `raw.decode("utf-8")`. None where the source raises. */
  function DecodeUtf8(bytes: seq<Byte>): Option<string>
    decreases |bytes|
  {
    if bytes == [] then Some("")
    else
      match DecodeOne(bytes)
      case None => None
      case Some((c, n)) =>
        (match DecodeUtf8(bytes[n..])
         case None => None
         case Some(rest) => Some([c] + rest))
  }

  lemma DecodeOfEncodeChar(c: char, bytes: seq<Byte>)
    requires EncodeChar(c) <= bytes
    ensures DecodeOne(bytes) == Some((c, |EncodeChar(c)|))
  {
    var n := c as int;
    assert More(n / 64, 0x80 + n % 64) == n;
    assert More(n / 64 / 64, 0x80 + n / 64 % 64) == n / 64;
    assert More(n / 64 / 64 / 64, 0x80 + n / 64 / 64 % 64) == n / 64 / 64;
    assert forall i :: 0 <= i < |EncodeChar(c)| ==> bytes[i] == EncodeChar(c)[i];
  }

  lemma {:induction false} Utf8RoundTrip(text: string)
    ensures DecodeUtf8(EncodeUtf8(text)) == Some(text)
  {
    if text != "" {
      var first, rest := EncodeChar(text[0]), EncodeUtf8(text[1..]);
      DecodeOfEncodeChar(text[0], first + rest);
      assert (first + rest)[|first|..] == rest;
      Utf8RoundTrip(text[1..]);
      assert [text[0]] + text[1..] == text;
    }
  }

  lemma MoreIsExact(high: int, b: int)
    requires Trails(b)
    ensures More(high, b) / 64 == high && 0x80 + More(high, b) % 64 == b
  {
  }

  lemma EncodeOfDecodeOne(bytes: seq<Byte>)
    requires bytes != [] && DecodeOne(bytes).Some?
    ensures var (c, n) := DecodeOne(bytes).value; bytes[..n] == EncodeChar(c)
  {
    var (c, n) := DecodeOne(bytes).value;
    var b: int := bytes[0];
    if n == 2 {
      MoreIsExact(b - 0xC0, bytes[1]);
      assert bytes[..2] == [bytes[0], bytes[1]];
    } else if n == 3 {
      MoreIsExact(b - 0xE0, bytes[1]);
      MoreIsExact(More(b - 0xE0, bytes[1]), bytes[2]);
      assert bytes[..3] == [bytes[0], bytes[1], bytes[2]];
    } else if n == 4 {
      MoreIsExact(b - 0xF0, bytes[1]);
      MoreIsExact(More(b - 0xF0, bytes[1]), bytes[2]);
      MoreIsExact(More(More(b - 0xF0, bytes[1]), bytes[2]), bytes[3]);
      assert bytes[..4] == [bytes[0], bytes[1], bytes[2], bytes[3]];
    }
  }

  lemma CanonicalStep(bytes: seq<Byte>, c: char, n: nat, rest: string)
    requires bytes != [] && DecodeOne(bytes) == Some((c, n)) && EncodeUtf8(rest) == bytes[n..]
    ensures EncodeUtf8([c] + rest) == bytes
  {
    EncodeOfDecodeOne(bytes);
    assert ([c] + rest)[1..] == rest;
    assert bytes == bytes[..n] + bytes[n..];
  }

  /** The strict decoder accepts nothing but what the encoder makes. */
  lemma {:induction false} Utf8IsCanonical(bytes: seq<Byte>)
    requires DecodeUtf8(bytes).Some?
    ensures EncodeUtf8(DecodeUtf8(bytes).value) == bytes
    decreases |bytes|
  {
    if bytes != [] {
      var (c, n) := DecodeOne(bytes).value;
      Utf8IsCanonical(bytes[n..]);
      CanonicalStep(bytes, c, n, DecodeUtf8(bytes[n..]).value);
    }
  }

  // ------------------------------------------------------------------ base64url

  function Char64(d: nat): char
    requires d < 64
  {
    if d < 26 then ('A' as int + d) as char
    else if d < 52 then ('a' as int + d - 26) as char
    else if d < 62 then ('0' as int + d - 52) as char
    else if d == 62 then '-'
    else '_'
  }

  /** The value of a character; `+` and `/` pass too. */
  function Value64(c: char): (r: Option<nat>)
    ensures r.Some? ==> r.value < 64
  {
    if 'A' <= c <= 'Z' then Some(c as int - 'A' as int)
    else if 'a' <= c <= 'z' then Some(c as int - 'a' as int + 26)
    else if IsDigit(c) then Some(c as int - '0' as int + 52)
    else if c == '-' || c == '+' then Some(62)
    else if c == '_' || c == '/' then Some(63)
    else None
  }

  function GroupOfOne(a: Byte): (r: string)
    ensures |r| == 4
  {
    [Char64(a / 4), Char64(a % 4 * 16), '=', '=']
  }

  function GroupOfTwo(a: Byte, b: Byte): (r: string)
    ensures |r| == 4
  {
    [Char64(a / 4), Char64(a % 4 * 16 + b / 16), Char64(b % 16 * 4), '=']
  }

  function GroupOfThree(a: Byte, b: Byte, c: Byte): (r: string)
    ensures |r| == 4
  {
    [Char64(a / 4), Char64(a % 4 * 16 + b / 16), Char64(b % 16 * 4 + c / 64), Char64(c % 64)]
  }

  /** `base64.urlsafe_b64encode`. */
  function Encode64(bytes: seq<Byte>): string {
    if bytes == [] then ""
    else if |bytes| == 1 then GroupOfOne(bytes[0])
    else if |bytes| == 2 then GroupOfTwo(bytes[0], bytes[1])
    else GroupOfThree(bytes[0], bytes[1], bytes[2]) + Encode64(bytes[3..])
  }

  /** One group of four: three bytes, or fewer with padding. */
  function DecodeGroup(g: string): Option<seq<Byte>>
    requires |g| == 4
  {
    var x, y, z, w := Value64(g[0]), Value64(g[1]), Value64(g[2]), Value64(g[3]);
    if x.None? || y.None? then None
    else if g[2] == '=' && g[3] == '=' then Some([x.value * 4 + y.value / 16])
    else if z.None? then None
    else if g[3] == '=' then Some([x.value * 4 + y.value / 16, y.value % 16 * 16 + z.value / 4])
    else if w.None? then None
    else Some([x.value * 4 + y.value / 16, y.value % 16 * 16 + z.value / 4, z.value % 4 * 64 + w.value])
  }

  /** `base64.b64decode(text, altchars=b"-_", validate=True)`. None where the source raises. */
  function Decode64(text: string): Option<seq<Byte>> {
    if text == "" then Some([])
    else if |text| < 4 then None
    else Joined(DecodeGroup(text[..4]), text[4..] == "", Decode64(text[4..]))
  }

  /** Only the last group may be short. */
  function Joined(group: Option<seq<Byte>>, last: bool, rest: Option<seq<Byte>>): Option<seq<Byte>> {
    if group.None? || rest.None? || (|group.value| < 3 && !last) then None
    else Some(group.value + rest.value)
  }

  lemma Value64OfChar64(d: nat)
    requires d < 64
    ensures Value64(Char64(d)) == Some(d) && Char64(d) != '='
  {
  }

  lemma GroupRoundTrip(a: Byte, b: Byte, c: Byte)
    ensures DecodeGroup(GroupOfOne(a)) == Some([a])
    ensures DecodeGroup(GroupOfTwo(a, b)) == Some([a, b])
    ensures DecodeGroup(GroupOfThree(a, b, c)) == Some([a, b, c])
  {
    Value64OfChar64(a / 4);
    Value64OfChar64(a % 4 * 16);
    Value64OfChar64(a % 4 * 16 + b / 16);
    Value64OfChar64(b % 16 * 4);
    Value64OfChar64(b % 16 * 4 + c / 64);
    Value64OfChar64(c % 64);
  }

  lemma DecodeOfGroup(group: string, rest: string, head: seq<Byte>, tail: seq<Byte>)
    requires |group| == 4 && DecodeGroup(group) == Some(head) && Decode64(rest) == Some(tail)
    requires |head| == 3 || rest == ""
    ensures Decode64(group + rest) == Some(head + tail)
  {
    assert (group + rest)[..4] == group && (group + rest)[4..] == rest;
  }

  lemma {:induction false} Base64RoundTrip(bytes: seq<Byte>)
    ensures Decode64(Encode64(bytes)) == Some(bytes)
    decreases |bytes|
  {
    if |bytes| == 1 {
      GroupRoundTrip(bytes[0], 0, 0);
      DecodeOfGroup(GroupOfOne(bytes[0]), "", [bytes[0]], []);
      assert GroupOfOne(bytes[0]) + "" == GroupOfOne(bytes[0]);
      assert [bytes[0]] + [] == bytes;
    } else if |bytes| == 2 {
      GroupRoundTrip(bytes[0], bytes[1], 0);
      DecodeOfGroup(GroupOfTwo(bytes[0], bytes[1]), "", [bytes[0], bytes[1]], []);
      assert GroupOfTwo(bytes[0], bytes[1]) + "" == GroupOfTwo(bytes[0], bytes[1]);
      assert [bytes[0], bytes[1]] + [] == bytes;
    } else if |bytes| > 2 {
      GroupRoundTrip(bytes[0], bytes[1], bytes[2]);
      Base64RoundTrip(bytes[3..]);
      DecodeOfGroup(GroupOfThree(bytes[0], bytes[1], bytes[2]), Encode64(bytes[3..]),
                    [bytes[0], bytes[1], bytes[2]], bytes[3..]);
      assert [bytes[0], bytes[1], bytes[2]] + bytes[3..] == bytes;
    }
  }

  // ------------------------------------------------------------------ the envelope

  function StripPadding(text: string): string {
    if text != "" && text[|text| - 1] == '=' then StripPadding(text[..|text| - 1]) else text
  }

  function Padding(n: nat): string {
    seq((4 - n % 4) % 4, _ => '=')
  }

  /** `_encode`. */
  function Encode(payload: string): string {
    StripPadding(Encode64(EncodeUtf8(payload)))
  }

  /** `_decode`. None is the one rejection. */
  function Decode(cursor: string): Option<string> {
    match Decode64(cursor + Padding(|cursor|))
    case None => None
    case Some(bytes) => DecodeUtf8(bytes)
  }

  lemma StripsOne(text: string)
    requires text != "" && text[|text| - 1] != '='
    ensures StripPadding(text) == text
    ensures StripPadding(text + "=") == text
    ensures StripPadding(text + "==") == text
  {
    assert (text + "=")[..|text|] == text;
    assert (text + "==")[..|text| + 1] == text + "=";
  }

  /** The first group of four, and the rest. */
  lemma EncodedParts(bytes: seq<Byte>)
    requires bytes != []
    ensures var text := Encode64(bytes);
            && |text| >= 4
            && (|bytes| == 1 ==> text == text[..2] + "==" && text[1] != '=')
            && (|bytes| == 2 ==> text == text[..3] + "=" && text[2] != '=')
            && (|bytes| > 2 ==> text == text[..4] + Encode64(bytes[3..]) && text[3] != '=')
  {
    Value64OfChar64(bytes[0] % 4 * 16);
    if |bytes| > 1 {
      Value64OfChar64(bytes[1] % 16 * 4);
    }
    if |bytes| > 2 {
      Value64OfChar64(bytes[2] % 64);
    }
  }

  predicate WholeAgain(text: string) {
    && |text| % 4 == 0
    && StripPadding(text) + Padding(|StripPadding(text)|) == text
  }

  lemma WholeEnd(text: string, end: string)
    requires text != "" && text[|text| - 1] != '=' && (end == "=" || end == "==")
    requires (|text| + |end|) % 4 == 0
    ensures WholeAgain(text + end)
  {
    StripsOne(text);
    assert Padding(|text|) == end;
  }

  lemma WholeGroup(group: string, rest: string)
    requires |group| == 4 && group[3] != '=' && WholeAgain(rest)
    ensures WholeAgain(group + rest)
  {
    StripOfSum(group, rest);
    PaddingOfSum(StripPadding(rest));
    assert group + (StripPadding(rest) + Padding(|StripPadding(rest)|)) == group + rest;
  }

  /** Stripped and padded again, an encoded text is whole. */
  lemma {:induction false} EncodedShape(bytes: seq<Byte>)
    ensures WholeAgain(Encode64(bytes))
    decreases |bytes|
  {
    if bytes != [] {
      EncodedParts(bytes);
      var text := Encode64(bytes);
      if |bytes| == 1 {
        WholeEnd(text[..2], "==");
      } else if |bytes| == 2 {
        WholeEnd(text[..3], "=");
      } else {
        EncodedShape(bytes[3..]);
        WholeGroup(text[..4], Encode64(bytes[3..]));
      }
    }
  }

  lemma PaddingOfSum(text: string)
    ensures Padding(4 + |text|) == Padding(|text|)
  {
  }

  lemma {:induction false} StripOfSum(a: string, b: string)
    requires a != "" && a[|a| - 1] != '='
    ensures StripPadding(a + b) == a + StripPadding(b)
    decreases |b|
  {
    if b == "" {
      assert a + b == a;
    } else {
      assert (a + b)[..|a + b| - 1] == a + b[..|b| - 1];
      if b[|b| - 1] == '=' {
        StripOfSum(a, b[..|b| - 1]);
      }
    }
  }

  /** Every text survives the envelope. */
  lemma EnvelopeRoundTrip(payload: string)
    ensures Decode(Encode(payload)) == Some(payload)
  {
    EncodedShape(EncodeUtf8(payload));
    Base64RoundTrip(EncodeUtf8(payload));
    Utf8RoundTrip(payload);
  }

  /** One character outside the alphabet and the cursor is rejected, wherever it stands. */
  lemma {:induction false} ForeignIsRejected(text: string, i: nat)
    requires i < |text| && text[i] != '=' && Value64(text[i]) == None
    ensures Decode64(text) == None
  {
    if |text| >= 4 && i >= 4 {
      ForeignIsRejected(text[4..], i - 4);
    }
  }

  lemma MangledIsRejected(cursor: string, i: nat)
    requires i < |cursor| && cursor[i] != '=' && Value64(cursor[i]) == None
    ensures Decode(cursor) == None
  {
    ForeignIsRejected(cursor + Padding(|cursor|), i);
  }

  // ------------------------------------------------------------------ the two keysets

  predicate IsHex(c: char) {
    IsDigit(c) || 'a' <= c <= 'f' || 'A' <= c <= 'F'
  }

  /** `is_uuid_text`: the canonical 8-4-4-4-12 form. */
  predicate IsUuid(text: string) {
    |text| == 36
    && forall i :: 0 <= i < 36 ==> if i in {8, 13, 18, 23} then text[i] == '-' else IsHex(text[i])
  }

  function EncodeId(id: string): string {
    Encode(id)
  }

  function DecodeId(cursor: string): Option<string> {
    match Decode(cursor)
    case None => None
    case Some(raw) => if IsUuid(raw) then Some(raw) else None
  }

  /** `str(n)`. */
  function IntText(n: int): string {
    if n < 0 then "-" + NatText(-n) else NatText(n)
  }

  predicate DigitsOrUnderscores(text: string) {
    forall i :: 0 <= i < |text| ==> IsDigit(text[i]) || text[i] == '_'
  }

  /** Digits with single underscores between them. */
  predicate IsDigits(text: string) {
    && text != "" && IsDigit(text[0]) && IsDigit(text[|text| - 1])
    && DigitsOrUnderscores(text)
    && forall i :: 0 < i < |text| ==> text[i] != '_' || text[i - 1] != '_'
  }

  function DropUnderscores(text: string): (r: string)
    requires DigitsOrUnderscores(text)
    ensures AllDigits(r)
  {
    if text == "" then ""
    else (if text[0] == '_' then "" else [text[0]]) + DropUnderscores(text[1..])
  }

  function ReadUnsigned(digits: string): Option<int> {
    if IsDigits(digits) then Some(DigitsValue(DropUnderscores(digits))) else None
  }

  function Negated(n: Option<int>): Option<int> {
    match n
    case None => None
    case Some(value) => Some(-value)
  }

  /** `int(raw)`. None where the source raises. */
  function ReadInt(raw: string): Option<int> {
    var text := Strip(raw);
    if text == "" then None
    else if text[0] == '-' then Negated(ReadUnsigned(text[1..]))
    else if text[0] == '+' then ReadUnsigned(text[1..])
    else ReadUnsigned(text)
  }

  function EncodeSeq(last: int): string {
    Encode(IntText(last))
  }

  function Abs(n: int): nat { if n < 0 then -n else n }

  function DecodeSeq(cursor: string, maximum: Option<nat>): Option<int> {
    match Decode(cursor)
    case None => None
    case Some(raw) =>
      var value := ReadInt(raw);
      if value.None? || (maximum.Some? && Abs(value.value) > maximum.value) then None else value
  }

  /** A text comes back from an id cursor exactly when it is a canonical UUID. */
  lemma IdRoundTrip(id: string)
    ensures DecodeId(EncodeId(id)) == if IsUuid(id) then Some(id) else None
  {
    EnvelopeRoundTrip(id);
  }

  lemma {:induction false} NoUnderscores(digits: string)
    requires AllDigits(digits)
    ensures DropUnderscores(digits) == digits
  {
    if digits != "" {
      NoUnderscores(digits[1..]);
    }
  }

  lemma UnsignedRoundTrip(n: nat)
    ensures ReadUnsigned(NatText(n)) == Some(n)
  {
    NatTextRoundTrip(n);
    NoUnderscores(NatText(n));
  }

  lemma IntRoundTrip(n: int)
    ensures ReadInt(IntText(n)) == Some(n)
  {
    var digits := NatText(Abs(n));
    var text := IntText(n);
    UnsignedRoundTrip(Abs(n));
    assert IsDigit(digits[0]) && text[|text| - 1] == digits[|digits| - 1];
    StripOfBare(text);
    if n < 0 {
      assert text[1..] == digits;
    }
  }

  /** Every integer comes back from a seq cursor, unless the caller's bound is below it. */
  lemma SeqRoundTrip(n: int, maximum: Option<nat>)
    ensures DecodeSeq(EncodeSeq(n), maximum)
         == if maximum.Some? && Abs(n) > maximum.value then None else Some(n)
  {
    EnvelopeRoundTrip(IntText(n));
    IntRoundTrip(n);
  }

  /** A UUID is no integer: its ninth character is a hyphen. */
  lemma UuidIsNoInt(text: string)
    requires IsUuid(text)
    ensures ReadInt(text) == None
  {
    assert IsHex(text[0]) && IsHex(text[35]) && text[8] == '-';
    StripOfBare(text);
    assert !IsDigit(text[8]) && text[8] != '_';
  }

  /** No cursor is good for both keysets. */
  lemma KeysetsNeverMix(cursor: string, maximum: Option<nat>)
    ensures DecodeId(cursor) == None || DecodeSeq(cursor, maximum) == None
  {
    if DecodeId(cursor).Some? {
      UuidIsNoInt(Decode(cursor).value);
    }
  }
}
