/** encodeURIComponent and decodeURIComponent: UTF-8 octets written as in section 2.1 of RFC 3986. */
module PercentEncoding {
  import opened Wrappers

  type Octet = b: nat | b < 256

  function Hex(d: nat): char
    requires d < 16
  {
    if d < 10 then ('0' as int + d) as char else ('A' as int + d - 10) as char
  }

  /** Both cases are read, the upper one is written. */
  function HexValue(c: char): (d: Option<nat>)
    ensures d.Some? ==> d.value < 16
  {
    if '0' <= c <= '9' then Some(c as int - '0' as int)
    else if 'A' <= c <= 'F' then Some(c as int - 'A' as int + 10)
    else if 'a' <= c <= 'f' then Some(c as int - 'a' as int + 10)
    else None
  }

  /** The characters encodeURIComponent leaves as they are. */
  predicate Kept(c: char) {
    || 'A' <= c <= 'Z' || 'a' <= c <= 'z' || '0' <= c <= '9'
    || c in {'-', '_', '.', '!', '~', '*', '\'', '(', ')'}
  }

  function Escape(b: Octet): string { ['%', Hex(b / 16), Hex(b % 16)] }

  function EscapeAll(octets: seq<Octet>): (s: string)
    ensures |s| == 3 * |octets|
  {
    if octets == [] then "" else Escape(octets[0]) + EscapeAll(octets[1..])
  }

  /** The UTF-8 octets of a character. */
  function Utf8(c: char): (octets: seq<Octet>)
    ensures 1 <= |octets| <= 4
  {
    var u := c as int;
    if u < 0x80 then [u]
    else if u < 0x800 then [0xc0 + u / 64, 0x80 + u % 64]
    else if u < 0x10000 then [0xe0 + u / 4096, 0x80 + u / 64 % 64, 0x80 + u % 64]
    else [0xf0 + u / 262144, 0x80 + u / 4096 % 64, 0x80 + u / 64 % 64, 0x80 + u % 64]
  }

  function EncodeChar(c: char): (s: string)
    ensures s != ""
  {
    if Kept(c) then [c] else EscapeAll(Utf8(c))
  }

  function Encode(s: string): string {
    if s == "" then "" else EncodeChar(s[0]) + Encode(s[1..])
  }

  // ---------------------------------------------------------------- decoding

  function OctetAt(s: string, i: nat): Option<Octet> {
    if i + 2 >= |s| || s[i] != '%' || HexValue(s[i + 1]).None? || HexValue(s[i + 2]).None? then None
    else Some(16 * HexValue(s[i + 1]).value + HexValue(s[i + 2]).value)
  }

  /** The value of `n` continuation octets from place i on, after what came before them. */
  function Continued(s: string, i: nat, n: nat, value: nat): Option<nat>
    decreases n
  {
    if n == 0 then Some(value)
    else
      match OctetAt(s, i)
      case None => None
      case Some(b) => if 0x80 <= b < 0xc0 then Continued(s, i + 3, n - 1, 64 * value + (b - 0x80)) else None
  }

  predicate IsScalar(u: nat) { u < 0xd800 || 0xe000 <= u < 0x110000 }

  /** A character of that many octets, unless it is overlong, a surrogate or out of range. */
  function Character(u: Option<nat>, least: nat, length: nat): (r: Option<(char, nat)>)
    ensures r.Some? ==> r.value.1 == length
  {
    if u.Some? && least <= u.value && IsScalar(u.value) then Some((u.value as char, length)) else None
  }

  /** The first character and how much text it took; none where decodeURIComponent raises URIError. */
  function DecodeFirst(s: string): (r: Option<(char, nat)>)
    requires s != ""
    ensures r.Some? ==> r.value.1 > 0
  {
    if s[0] != '%' then Some((s[0], 1))
    else
      match OctetAt(s, 0)
      case None => None
      case Some(b) =>
        if b < 0x80 then Character(Some(b), 0, 3)
        else if b < 0xc0 then None
        else if b < 0xe0 then Character(Continued(s, 3, 1, b - 0xc0), 0x80, 6)
        else if b < 0xf0 then Character(Continued(s, 3, 2, b - 0xe0), 0x800, 9)
        else if b < 0xf8 then Character(Continued(s, 3, 3, b - 0xf0), 0x10000, 12)
        else None
  }

  function Decode(s: string): Option<string>
    decreases |s|
  {
    if s == "" then Some("")
    else
      match DecodeFirst(s)
      case None => None
      case Some((c, taken)) =>
        if taken > |s| then None
        else
          match Decode(s[taken..])
          case None => None
          case Some(rest) => Some([c] + rest)
  }

  // ---------------------------------------------------------------- the round trip

  lemma HexRoundTrip(d: nat)
    requires d < 16
    ensures HexValue(Hex(d)) == Some(d)
  {
  }

  lemma EscapeIsRead(s: string, i: nat, b: Octet)
    requires i + 2 < |s| && s[i..i + 3] == Escape(b)
    ensures OctetAt(s, i) == Some(b)
  {
    assert s[i] == s[i..i + 3][0] && s[i + 1] == s[i..i + 3][1] && s[i + 2] == s[i..i + 3][2];
    HexRoundTrip(b / 16);
    HexRoundTrip(b % 16);
  }

  /** Octet k of an escaped list stands at place 3k. */
  lemma {:induction false} EscapedOctet(octets: seq<Octet>, rest: string, k: nat)
    requires k < |octets|
    ensures OctetAt(EscapeAll(octets) + rest, 3 * k) == Some(octets[k])
  {
    EscapedAt(octets, k);
    var s := EscapeAll(octets) + rest;
    assert s[3 * k..3 * k + 3] == EscapeAll(octets)[3 * k..3 * k + 3];
    EscapeIsRead(s, 3 * k, octets[k]);
  }

  lemma {:induction false} EscapedAt(octets: seq<Octet>, k: nat)
    requires k < |octets|
    ensures EscapeAll(octets)[3 * k..3 * k + 3] == Escape(octets[k])
  {
    if k > 0 {
      EscapedAt(octets[1..], k - 1);
      assert EscapeAll(octets)[3 * k..3 * k + 3] == EscapeAll(octets[1..])[3 * (k - 1)..3 * (k - 1) + 3];
    }
  }

  lemma TwoOctets(u: nat)
    requires 0x80 <= u < 0x800
    ensures 0xc0 <= 0xc0 + u / 64 < 0xe0 && 64 * (u / 64) + u % 64 == u
  {
  }

  lemma ThreeOctets(u: nat)
    requires 0x800 <= u < 0x10000
    ensures 0xe0 + u / 4096 < 0xf0 && 64 * (64 * (u / 4096) + u / 64 % 64) + u % 64 == u
  {
    assert u / 4096 == u / 64 / 64;
  }

  lemma FourOctets(u: nat)
    requires 0x10000 <= u < 0x110000
    ensures 0xf0 + u / 262144 < 0xf8
    ensures 64 * (64 * (64 * (u / 262144) + u / 4096 % 64) + u / 64 % 64) + u % 64 == u
  {
    assert u / 4096 == u / 64 / 64 && u / 262144 == u / 4096 / 64;
  }

  lemma CharIsScalar(c: char)
    ensures IsScalar(c as int)
  {
  }

  /** An encoded character is read back, whatever follows it. */
  lemma FirstIsReadBack(c: char, rest: string)
    ensures DecodeFirst(EncodeChar(c) + rest) == Some((c, |EncodeChar(c)|))
  {
    if !Kept(c) {
      var octets := Utf8(c);
      var s := EscapeAll(octets) + rest;
      CharIsScalar(c);
      forall k | 0 <= k < |octets|
        ensures OctetAt(s, 3 * k) == Some(octets[k])
      {
        EscapedOctet(octets, rest, k);
      }
      assert s[0] == '%' by { assert Escape(octets[0])[0] == '%'; }
      EscapedIsReadBack(c, s);
    } else {
      assert c != '%';
    }
  }

  lemma EscapedIsReadBack(c: char, s: string)
    requires s != "" && s[0] == '%'
    requires forall k :: 0 <= k < |Utf8(c)| ==> OctetAt(s, 3 * k) == Some(Utf8(c)[k])
    ensures DecodeFirst(s) == Some((c, 3 * |Utf8(c)|))
  {
    var u: nat, octets := c as int, Utf8(c);
    assert OctetAt(s, 3 * 0) == Some(octets[0]);
    if |octets| > 1 { assert OctetAt(s, 3 * 1) == Some(octets[1]); }
    if |octets| > 2 { assert OctetAt(s, 3 * 2) == Some(octets[2]); }
    if |octets| > 3 { assert OctetAt(s, 3 * 3) == Some(octets[3]); }
    CharIsScalar(c);
    if u < 0x80 {
    } else if u < 0x800 {
      TwoAreRead(s, u);
    } else if u < 0x10000 {
      ThreeAreRead(s, u);
    } else {
      FourAreRead(s, u);
    }
  }

  lemma TwoAreRead(s: string, u: nat)
    requires 0x80 <= u < 0x800 && OctetAt(s, 3) == Some(0x80 + u % 64)
    ensures Continued(s, 3, 1, u / 64) == Some(u) && u / 64 < 0x20
  {
    TwoOctets(u);
    assert Continued(s, 3, 1, u / 64) == Continued(s, 6, 0, u);
  }

  lemma ThreeAreRead(s: string, u: nat)
    requires 0x800 <= u < 0x10000 && OctetAt(s, 3) == Some(0x80 + u / 64 % 64) && OctetAt(s, 6) == Some(0x80 + u % 64)
    ensures Continued(s, 3, 2, u / 4096) == Some(u) && u / 4096 < 0x10
  {
    ThreeOctets(u);
    var two := 64 * (u / 4096) + u / 64 % 64;
    assert Continued(s, 3, 2, u / 4096) == Continued(s, 6, 1, two);
    assert Continued(s, 6, 1, two) == Continued(s, 9, 0, u);
  }

  lemma FourAreRead(s: string, u: nat)
    requires 0x10000 <= u < 0x110000 && OctetAt(s, 3) == Some(0x80 + u / 4096 % 64)
    requires OctetAt(s, 6) == Some(0x80 + u / 64 % 64) && OctetAt(s, 9) == Some(0x80 + u % 64)
    ensures Continued(s, 3, 3, u / 262144) == Some(u) && u / 262144 < 8
  {
    FourOctets(u);
    var two := 64 * (u / 262144) + u / 4096 % 64;
    var three := 64 * two + u / 64 % 64;
    assert Continued(s, 3, 3, u / 262144) == Continued(s, 6, 2, two);
    assert Continued(s, 6, 2, two) == Continued(s, 9, 1, three);
    assert Continued(s, 9, 1, three) == Continued(s, 12, 0, u);
  }

  /** Decoding undoes encoding, for every text. */
  lemma {:induction false} DecodeEncode(s: string)
    ensures Decode(Encode(s)) == Some(s)
  {
    if s != "" {
      var first, rest := EncodeChar(s[0]), Encode(s[1..]);
      DecodeEncode(s[1..]);
      FirstIsReadBack(s[0], rest);
      DecodeCons(first + rest, s[0], |first|);
      assert (first + rest)[|first|..] == rest;
      assert s == [s[0]] + s[1..];
    }
  }

  lemma DecodeCons(s: string, c: char, taken: nat)
    requires s != "" && DecodeFirst(s) == Some((c, taken)) && taken <= |s| && Decode(s[taken..]).Some?
    ensures Decode(s) == Some([c] + Decode(s[taken..]).value)
  {
  }

  /** What encodeURIComponent writes: kept characters and escapes with upper-case digits. */
  predicate Written(s: string) {
    forall i :: 0 <= i < |s| ==> Kept(s[i]) || s[i] == '%'
  }

  lemma {:induction false} EscapeAllIsWritten(octets: seq<Octet>)
    ensures Written(EscapeAll(octets))
  {
    if octets != [] {
      EscapeAllIsWritten(octets[1..]);
      assert Kept(Hex(octets[0] / 16)) && Kept(Hex(octets[0] % 16));
    }
  }

  /** Encoding leaves nothing that separates parts of a path, and loses no text. */
  lemma {:induction false} EncodeIsWritten(s: string)
    ensures Written(Encode(s)) && '/' !in Encode(s) && '#' !in Encode(s)
    ensures Encode(s) == "" <==> s == ""
  {
    if s != "" {
      EncodeIsWritten(s[1..]);
      EscapeAllIsWritten(Utf8(s[0]));
    }
  }
}
