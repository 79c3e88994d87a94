/**
 * Session identifiers: 128-bit UUIDs as 32 hexadecimal digits, their textual
 * form (section 4 of RFC 9562: 8-4-4-4-12 lower-case hex digits separated by
 * hyphens) and the parser that reads a session cookie back, which accepts the
 * simple (32 digits), hyphenated, braced and URN forms in either case.
 */
module Uuids {
  import opened Wrappers

  type Nibble = n: int | 0 <= n < 16

  type Uuid = digits: seq<Nibble> | |digits| == 32 witness seq(32, _ => 0)

  function HexDigit(n: Nibble): (c: char)
    ensures HexValue(c) == Some(n)
  {
    if n < 10 then ('0' as int + n) as char else ('a' as int + n - 10) as char
  }

  function HexValue(c: char): Option<Nibble>
  {
    if '0' <= c <= '9' then Some(c as int - '0' as int)
    else if 'a' <= c <= 'f' then Some(c as int - 'a' as int + 10)
    else if 'A' <= c <= 'F' then Some(c as int - 'A' as int + 10)
    else None
  }

  function HexText(digits: seq<Nibble>): (text: string)
    ensures |text| == |digits|
    ensures forall i :: 0 <= i < |digits| ==> text[i] == HexDigit(digits[i])
  {
    seq(|digits|, i requires 0 <= i < |digits| => HexDigit(digits[i]))
  }

  /** Reads a run of hex digits; any other character rejects the whole run. */
  function ParseHex(text: string): (digits: Option<seq<Nibble>>)
    ensures digits.Some? ==> |digits.value| == |text|
    ensures digits.Some? ==> forall i :: 0 <= i < |text| ==> HexValue(text[i]) == Some(digits.value[i])
    ensures digits.None? ==> exists i :: 0 <= i < |text| && HexValue(text[i]).None?
  {
    if forall i :: 0 <= i < |text| ==> HexValue(text[i]).Some?
    then Some(seq(|text|, i requires 0 <= i < |text| => HexValue(text[i]).value))
    else None
  }

  /** The hyphenated lower-case text of a UUID, as written into the session cookie. */
  function UuidText(id: Uuid): (text: string)
    ensures |text| == 36
  {
    HexText(id[..8]) + "-" + HexText(id[8..12]) + "-" + HexText(id[12..16]) + "-"
      + HexText(id[16..20]) + "-" + HexText(id[20..])
  }

  /** The 32 digit characters of a hyphenated text, hyphens left out. */
  function DigitsOfHyphenated(text: string): string
    requires |text| == 36
  {
    text[..8] + text[9..13] + text[14..18] + text[19..23] + text[24..]
  }

  function ParseHyphenated(text: string): Option<Uuid>
  {
    if |text| == 36 && text[8] == '-' && text[13] == '-' && text[18] == '-' && text[23] == '-'
    then ParseSimple(DigitsOfHyphenated(text))
    else None
  }

  function ParseSimple(text: string): Option<Uuid>
  {
    if |text| == 32 then
      match ParseHex(text)
      case Some(digits) => Some(digits)
      case None => None
    else None
  }

  /** Reads a UUID in any of the forms the uuid crate's parse_str accepts. */
  function ParseUuid(text: string): (id: Option<Uuid>)
    ensures id.Some? ==> |text| in {32, 36, 38, 45}
  {
    if |text| == 32 then ParseSimple(text)
    else if |text| == 36 then ParseHyphenated(text)
    else if |text| == 38 && text[0] == '{' && text[37] == '}' then ParseHyphenated(text[1..37])
    else if |text| == 45 && text[..9] == "urn:uuid:" then ParseHyphenated(text[9..])
    else None
  }

  lemma ParseHexText(digits: seq<Nibble>)
    ensures ParseHex(HexText(digits)) == Some(digits)
  {
    var text := HexText(digits);
    assert forall i :: 0 <= i < |text| ==> HexValue(text[i]) == Some(digits[i]);
    var parsed := ParseHex(text);
    assert parsed.value == digits;
  }

  /** Reading back the text of a UUID gives the same UUID. */
  lemma ParseUuidText(id: Uuid)
    ensures ParseUuid(UuidText(id)) == Some(id)
  {
    var text := UuidText(id);
    assert text[8] == '-' && text[13] == '-' && text[18] == '-' && text[23] == '-';
    var digits := DigitsOfHyphenated(text);
    assert text[..8] == HexText(id[..8]);
    assert text[9..13] == HexText(id[8..12]);
    assert text[14..18] == HexText(id[12..16]);
    assert text[19..23] == HexText(id[16..20]);
    assert text[24..] == HexText(id[20..]);
    assert id == id[..8] + id[8..12] + id[12..16] + id[16..20] + id[20..];
    HexTextAppend(id[..8], id[8..12]);
    HexTextAppend(id[..12], id[12..16]);
    HexTextAppend(id[..16], id[16..20]);
    HexTextAppend(id[..20], id[20..]);
    assert id[..8] + id[8..12] == id[..12];
    assert id[..12] + id[12..16] == id[..16];
    assert id[..16] + id[16..20] == id[..20];
    assert id[..20] + id[20..] == id;
    assert digits == HexText(id);
    ParseHexText(id);
  }

  lemma HexTextAppend(a: seq<Nibble>, b: seq<Nibble>)
    ensures HexText(a + b) == HexText(a) + HexText(b)
  {
  }

  /** Two UUIDs with the same text are the same UUID. */
  lemma UuidTextInjective(a: Uuid, b: Uuid)
    ensures UuidText(a) == UuidText(b) ==> a == b
  {
    ParseUuidText(a);
    ParseUuidText(b);
  }
}
