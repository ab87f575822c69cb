/**
 * Server ids are UUIDs. `Uuid::to_string` prints the hyphenated form of
 * section 3 of RFC 4122 (8-4-4-4-12 hexadecimal digits, lower case);
 * `Uuid::parse_str` accepts the simple form (32 digits), the hyphenated form,
 * the hyphenated form in braces and the `urn:uuid:` form, with digits of
 * either case. The uuid library itself is not part of this model; these are
 * the forms it documents.
 */
module Uuids {
  import opened Wrappers
  import Utf8

  type byte = Utf8.byte

  type Uuid = b: seq<byte> | |b| == 16 witness [0, 0, 0, 0, 0, 0, 0, 0, 0, 0, 0, 0, 0, 0, 0, 0]

  const HexDigits: string := "0123456789abcdef"

  /** The value of one hexadecimal digit, in either case. */
  function HexValue(c: char): (r: Option<int>)
    ensures r.Some? ==> 0 <= r.value < 16
  {
    if '0' <= c <= '9' then Some(c as int - '0' as int)
    else if 'a' <= c <= 'f' then Some(c as int - 'a' as int + 10)
    else if 'A' <= c <= 'F' then Some(c as int - 'A' as int + 10)
    else None
  }

  lemma HexValueOfDigit(n: int)
    requires 0 <= n < 16
    ensures HexValue(HexDigits[n]) == Some(n)
  {
  }

  /** Two lower-case digits per byte, high nibble first. */
  function Hex(bs: seq<byte>): (s: string)
    ensures |s| == 2 * |bs|
    ensures forall k :: 0 <= k < |s| ==> s[k] in HexDigits
  {
    if bs == [] then ""
    else [HexDigits[bs[0] / 16], HexDigits[bs[0] % 16]] + Hex(bs[1..])
  }

  lemma {:induction false} HexConcat(a: seq<byte>, b: seq<byte>)
    ensures Hex(a + b) == Hex(a) + Hex(b)
  {
    if a == [] {
      assert a + b == b;
    } else {
      assert (a + b)[0] == a[0];
      assert (a + b)[1..] == a[1..] + b;
      HexConcat(a[1..], b);
    }
  }

  /** Pairs of digits back to bytes. */
  function ParseHex(s: string): (r: Option<seq<byte>>)
    requires |s| % 2 == 0
    ensures r.Some? ==> 2 * |r.value| == |s|
  {
    if s == [] then Some([])
    else match (HexValue(s[0]), HexValue(s[1]), ParseHex(s[2..]))
      case (Some(hi), Some(lo), Some(rest)) => Some([hi * 16 + lo] + rest)
      case _ => None
  }

  lemma {:induction false} ParseHexOfHex(bs: seq<byte>)
    ensures ParseHex(Hex(bs)) == Some(bs)
  {
    if bs != [] {
      var s := Hex(bs);
      HexValueOfDigit(bs[0] / 16);
      HexValueOfDigit(bs[0] % 16);
      assert s[2..] == Hex(bs[1..]);
      ParseHexOfHex(bs[1..]);
      assert bs == [bs[0] / 16 * 16 + bs[0] % 16] + bs[1..];
    }
  }

  /** The hyphenated form: `xxxxxxxx-xxxx-xxxx-xxxx-xxxxxxxxxxxx`. */
  function ToString(u: Uuid): (s: string)
    ensures |s| == 36
  {
    Hex(u[0..4]) + "-" + Hex(u[4..6]) + "-" + Hex(u[6..8]) + "-" + Hex(u[8..10]) + "-" + Hex(u[10..16])
  }

  function ParseSimple(s: string): (r: Option<Uuid>)
    requires |s| == 32
  {
    match ParseHex(s)
    case Some(bs) => Some(bs)
    case None => None
  }

  function ParseHyphenated(s: string): (r: Option<Uuid>)
    requires |s| == 36
  {
    if s[8] == '-' && s[13] == '-' && s[18] == '-' && s[23] == '-' then
      ParseSimple(s[0..8] + s[9..13] + s[14..18] + s[19..23] + s[24..36])
    else None
  }

  /** `Uuid::parse_str`. */
  function Parse(s: string): (r: Option<Uuid>)
  {
    if |s| == 32 then ParseSimple(s)
    else if |s| == 36 then ParseHyphenated(s)
    else if |s| == 38 && s[0] == '{' && s[37] == '}' then ParseHyphenated(s[1..37])
    else if |s| == 45 && s[..9] == "urn:uuid:" then ParseHyphenated(s[9..])
    else None
  }

  /** Taking a hyphenated text apart at its four hyphens gives back the five groups. */
  lemma HyphenatedPieces(h0: string, h1: string, h2: string, h3: string, h4: string)
    requires |h0| == 8 && |h1| == 4 && |h2| == 4 && |h3| == 4 && |h4| == 12
    ensures var s := h0 + "-" + h1 + "-" + h2 + "-" + h3 + "-" + h4;
      && |s| == 36 && s[8] == '-' && s[13] == '-' && s[18] == '-' && s[23] == '-'
      && s[0..8] + s[9..13] + s[14..18] + s[19..23] + s[24..36] == h0 + h1 + h2 + h3 + h4
  {
    var s := h0 + "-" + h1 + "-" + h2 + "-" + h3 + "-" + h4;
    assert s[0..8] == h0;
    assert s[9..13] == h1;
    assert s[14..18] == h2;
    assert s[19..23] == h3;
    assert s[24..36] == h4;
  }

  /** The five groups of a printed id are the digits of the whole id. */
  lemma GroupsAreHex(u: Uuid)
    ensures Hex(u[0..4]) + Hex(u[4..6]) + Hex(u[6..8]) + Hex(u[8..10]) + Hex(u[10..16]) == Hex(u)
  {
    HexConcat(u[0..4], u[4..6]);
    assert u[0..4] + u[4..6] == u[0..6];
    HexConcat(u[0..6], u[6..8]);
    assert u[0..6] + u[6..8] == u[0..8];
    HexConcat(u[0..8], u[8..10]);
    assert u[0..8] + u[8..10] == u[0..10];
    HexConcat(u[0..10], u[10..16]);
    assert u[0..10] + u[10..16] == u;
  }

  /** A printed id parses back to the same id. */
  lemma ParseToString(u: Uuid)
    ensures Parse(ToString(u)) == Some(u)
  {
    HyphenatedPieces(Hex(u[0..4]), Hex(u[4..6]), Hex(u[6..8]), Hex(u[8..10]), Hex(u[10..16]));
    GroupsAreHex(u);
    ParseHexOfHex(u);
  }

  /** The printed form is hexadecimal digits and hyphens only: in particular it has no ':'. */
  lemma ToStringHasNoColon(u: Uuid)
    ensures ':' !in ToString(u)
  {
    var s := ToString(u);
    forall k | 0 <= k < |s| ensures s[k] != ':' {
      assert s[k] in HexDigits || s[k] == '-';
    }
  }
}
