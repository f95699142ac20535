/** The string operations of JavaScript that several modules use, and decimal numerals. */
module Text {
  import opened Wrappers

  /** The characters `\s`, `trim` and `trimEnd` treat as white space. */
  predicate IsSpace(c: char) {
    var code := c as int;
    || 0x09 <= code <= 0x0d || code == 0x20 || code == 0xa0 || code == 0x1680
    || 0x2000 <= code <= 0x200a || code == 0x2028 || code == 0x2029 || code == 0x202f
    || code == 0x205f || code == 0x3000 || code == 0xfeff
  }

  function TrimStart(s: string): string {
    if s != "" && IsSpace(s[0]) then TrimStart(s[1..]) else s
  }

  function TrimEnd(s: string): string {
    if s != "" && IsSpace(s[|s| - 1]) then TrimEnd(s[..|s| - 1]) else s
  }

  function Trim(s: string): string { TrimEnd(TrimStart(s)) }

  lemma NothingToTrim(s: string)
    requires s != "" && !IsSpace(s[0]) && !IsSpace(s[|s| - 1])
    ensures Trim(s) == s
  {
  }

  lemma {:induction false} TrimStartSpaceless(s: string)
    ensures TrimStart(s) == "" || !IsSpace(TrimStart(s)[0])
  {
    if s != "" && IsSpace(s[0]) { TrimStartSpaceless(s[1..]); }
  }

  lemma {:induction false} TrimEndSpaceless(s: string)
    ensures TrimEnd(s) == "" || (!IsSpace(TrimEnd(s)[|TrimEnd(s)| - 1]) && TrimEnd(s)[0] == s[0])
  {
    if s != "" && IsSpace(s[|s| - 1]) { TrimEndSpaceless(s[..|s| - 1]); }
  }

  /** A trimmed text has nothing left to trim. */
  lemma TrimTwice(s: string)
    ensures Trim(Trim(s)) == Trim(s)
  {
    TrimStartSpaceless(s);
    TrimEndSpaceless(TrimStart(s));
  }

  /** toLowerCase on the Latin letters; all other characters stay as they are. */
  function Lower(s: string): string {
    seq(|s|, i requires 0 <= i < |s| => if 'A' <= s[i] <= 'Z' then (s[i] as int + 32) as char else s[i])
  }

  /** indexOf of a character, or the length of the text. */
  function IndexOf(s: string, c: char): (at: nat)
    ensures at <= |s| && c !in s[..at] && (at < |s| ==> s[at] == c)
  {
    if s == "" || s[0] == c then 0 else 1 + IndexOf(s[1..], c)
  }

  /** split on a single character. */
  function Split(s: string, c: char): (parts: seq<string>)
    ensures |parts| > 0
    decreases |s|
  {
    var at := IndexOf(s, c);
    if at == |s| then [s] else [s[..at]] + Split(s[at + 1..], c)
  }

  lemma SplitHead(s: string, c: char)
    requires IndexOf(s, c) < |s|
    ensures Split(s, c) == [s[..IndexOf(s, c)]] + Split(s[IndexOf(s, c) + 1..], c)
  {
  }

  /** Splitting at the first separator. */
  lemma SplitAt(a: string, c: char, rest: string)
    requires c !in a
    ensures Split(a + [c] + rest, c) == [a] + Split(rest, c)
    ensures Split(a, c) == [a]
  {
    var s := a + [c] + rest;
    var at := IndexOf(s, c);
    assert s[|a|] == c;
    assert at == |a|;
    assert s[..at] == a && s[at + 1..] == rest;
  }

  /** Array.prototype.join with a single character. */
  function Join(parts: seq<string>, c: char): string
    requires |parts| > 0
  {
    if |parts| == 1 then parts[0] else parts[0] + [c] + Join(parts[1..], c)
  }

  lemma JoinCons(a: string, rest: seq<string>, c: char)
    requires |rest| > 0
    ensures Join([a] + rest, c) == a + [c] + Join(rest, c)
  {
    assert ([a] + rest)[1..] == rest;
  }

  lemma {:induction false} SplitJoin(parts: seq<string>, c: char)
    requires |parts| > 0
    requires forall i :: 0 <= i < |parts| ==> c !in parts[i]
    ensures Split(Join(parts, c), c) == parts
  {
    var a, rest := parts[0], parts[1..];
    assert parts == [a] + rest;
    if |parts| == 1 {
      SplitAt(a, c, "");
    } else {
      SplitJoin(rest, c);
      JoinCons(a, rest, c);
      SplitAt(a, c, Join(rest, c));
    }
  }

  lemma {:induction false} JoinSplit(s: string, c: char)
    ensures Join(Split(s, c), c) == s
    decreases |s|
  {
    var at := IndexOf(s, c);
    if at < |s| {
      var a, tail := s[..at], s[at + 1..];
      JoinSplit(tail, c);
      JoinCons(a, Split(tail, c), c);
      assert s == a + [c] + tail;
    }
  }

  /** No piece holds the separator, and the pieces hold nothing that was not in the text. */
  lemma {:induction false} SplitPieces(s: string, c: char)
    ensures forall i :: 0 <= i < |Split(s, c)| ==> c !in Split(s, c)[i] && forall d :: d in Split(s, c)[i] ==> d in s
    decreases |s|
  {
    var at := IndexOf(s, c);
    if at < |s| {
      var rest := Split(s[at + 1..], c);
      SplitPieces(s[at + 1..], c);
      forall i | 0 <= i < |Split(s, c)|
        ensures c !in Split(s, c)[i] && forall d :: d in Split(s, c)[i] ==> d in s
      {
        if i > 0 { assert Split(s, c)[i] == rest[i - 1]; }
      }
    }
  }

  /** The length of the longest prefix two lists share. */
  function Common<T(==)>(a: seq<T>, b: seq<T>): (k: nat)
    ensures k <= |a| && k <= |b| && a[..k] == b[..k]
    ensures k < |a| && k < |b| ==> a[k] != b[k]
  {
    if a == [] || b == [] || a[0] != b[0] then 0
    else
      var k := Common(a[1..], b[1..]);
      assert a[..k + 1] == [a[0]] + a[1..][..k] && b[..k + 1] == [b[0]] + b[1..][..k];
      k + 1
  }

  // ---------------------------------------------------------------- numerals

  predicate IsDigit(c: char) { '0' <= c <= '9' }

  /** One or more decimal digits and nothing else. */
  predicate IsNumeral(s: string) {
    s != "" && forall i :: 0 <= i < |s| ==> IsDigit(s[i])
  }

  /** Number of a numeral. */
  function Number(s: string): nat
    requires forall i :: 0 <= i < |s| ==> IsDigit(s[i])
  {
    if s == "" then 0 else 10 * Number(s[..|s| - 1]) + DigitValue(s[|s| - 1])
  }

  function DigitValue(c: char): nat
    requires IsDigit(c)
  {
    c as int - '0' as int
  }

  function Digit(d: nat): char
    requires d < 10
  {
    ('0' as int + d) as char
  }

  /** How JavaScript writes a number that is a safe integer. */
  function Decimal(n: nat): (s: string)
    ensures IsNumeral(s)
  {
    if n < 10 then [Digit(n)] else Decimal(n / 10) + [Digit(n % 10)]
  }

  predicate LeadingZero(s: string) { |s| > 1 && s[0] == '0' }

  lemma {:induction false} NumberOfDecimal(n: nat)
    ensures Number(Decimal(n)) == n && !LeadingZero(Decimal(n))
    ensures n > 0 ==> Decimal(n)[0] != '0'
  {
    if n >= 10 {
      NumberOfDecimal(n / 10);
      assert Decimal(n)[..|Decimal(n)| - 1] == Decimal(n / 10);
    }
  }

  lemma {:induction false} DecimalOfNumber(s: string)
    requires IsNumeral(s) && !LeadingZero(s)
    ensures Decimal(Number(s)) == s
    ensures s[0] != '0' ==> Number(s) > 0
  {
    var init := s[..|s| - 1];
    assert s == init + [s[|s| - 1]];
    if init == "" {
      assert Number(init) == 0;
    } else {
      assert init[0] == s[0];
      DecimalOfNumber(init);
      assert Number(s) / 10 == Number(init) && Number(s) % 10 == DigitValue(s[|s| - 1]);
    }
  }

  /** Numerals without leading zeros are equal when their numbers are. */
  lemma NumberIsInjective(a: string, b: string)
    requires IsNumeral(a) && IsNumeral(b) && !LeadingZero(a) && !LeadingZero(b) && Number(a) == Number(b)
    ensures a == b
  {
    DecimalOfNumber(a);
    DecimalOfNumber(b);
  }
}
