/** Release versions and tags: scripts/release-versions.ts. */
module ReleaseVersions {
  import opened Wrappers
  import opened Text

  datatype Semver = Semver(major: nat, minor: nat, patch: nat, prerelease: seq<string>)

  datatype Bump = Patch | Minor | Major

  datatype VersionError = Missing | NotSemver | NotGreater

  const TAG_PREFIX := "app-v"

  // ---------------------------------------------------------------- the accepted texts

  predicate IdentifierChar(c: char) {
    IsDigit(c) || 'A' <= c <= 'Z' || 'a' <= c <= 'z' || c == '-'
  }

  predicate IsIdentifier(s: string) {
    forall i :: 0 <= i < |s| ==> IdentifierChar(s[i])
  }

  /** Where the first hyphen or plus sign stands, or the length of the text. */
  function CoreEnd(s: string): (end: nat)
    ensures end <= |s|
  {
    var hyphen, plus := IndexOf(s, '-'), IndexOf(s, '+');
    if hyphen < plus then hyphen else plus
  }

  predicate IsCore(core: string) {
    var parts := Split(core, '.');
    |parts| == 3 && IsNumeral(parts[0]) && IsNumeral(parts[1]) && IsNumeral(parts[2])
  }

  /** Nothing, or a hyphen or plus sign followed by identifier characters and dots. */
  predicate IsSuffix(t: string) {
    t == ""
    || (|t| > 1 && (t[0] == '-' || t[0] == '+') && forall i :: 1 <= i < |t| ==> IdentifierChar(t[i]) || t[i] == '.')
  }

  /** Three dotted numerals and at most one suffix: what the release scripts call a version. */
  predicate IsVersion(s: string) {
    IsCore(s[..CoreEnd(s)]) && IsSuffix(s[CoreEnd(s)..])
  }

  function Dotted(a: string, b: string, c: string): string { a + ['.'] + (b + ['.'] + c) }

  predicate Plain(s: string) {
    forall i :: 0 <= i < |s| ==> s[i] != '-' && s[i] != '+'
  }

  predicate Dotless(s: string) { '.' !in s }

  lemma DottedPieces(a: string, b: string, c: string)
    requires Dotless(a) && Dotless(b) && Dotless(c)
    ensures Split(Dotted(a, b, c), '.') == [a, b, c]
  {
    SplitAt(a, '.', b + ['.'] + c);
    SplitAt(b, '.', c);
    SplitAt(c, '.', "");
    assert [a] + ([b] + [c]) == [a, b, c];
  }

  lemma PiecesDotted(s: string)
    requires |Split(s, '.')| == 3
    ensures s == Dotted(Split(s, '.')[0], Split(s, '.')[1], Split(s, '.')[2])
  {
    JoinSplit(s, '.');
    JoinThree(Split(s, '.'));
  }

  lemma JoinThree(parts: seq<string>)
    requires |parts| == 3
    ensures Join(parts, '.') == Dotted(parts[0], parts[1], parts[2])
  {
    var last := [parts[2]];
    JoinCons(parts[1], last, '.');
    JoinCons(parts[0], [parts[1]] + last, '.');
    assert parts == [parts[0]] + ([parts[1]] + last);
  }

  /** A core is made of digits and dots. */
  lemma CoreIsPlain(a: string, b: string, c: string)
    requires IsNumeral(a) && IsNumeral(b) && IsNumeral(c)
    ensures Plain(Dotted(a, b, c)) && IsCore(Dotted(a, b, c))
    ensures Split(Dotted(a, b, c), '.') == [a, b, c]
  {
    NumeralIsDotless(a);
    NumeralIsDotless(b);
    NumeralIsDotless(c);
    DottedPieces(a, b, c);
    DottedIsPlain(a, b, c);
  }

  lemma NumeralIsDotless(a: string)
    requires IsNumeral(a)
    ensures Dotless(a) && Plain(a)
  {
  }

  lemma DottedIsPlain(a: string, b: string, c: string)
    requires Plain(a) && Plain(b) && Plain(c)
    ensures Plain(Dotted(a, b, c))
  {
  }

  /** The suffix starts at the first hyphen or plus sign. */
  lemma SuffixStarts(core: string, t: string)
    requires Plain(core) && IsSuffix(t)
    ensures CoreEnd(core + t) == |core|
    ensures (core + t)[..|core|] == core && (core + t)[|core|..] == t
  {
    var s := core + t;
    var hyphen, plus := IndexOf(s, '-'), IndexOf(s, '+');
    assert forall i :: 0 <= i < |core| ==> s[i] == core[i];
    assert hyphen >= |core| && plus >= |core|;
    if t != "" {
      assert s[|core|] == t[0];
      assert t[0] == '-' ==> hyphen == |core|;
      assert t[0] == '+' ==> plus == |core|;
    }
  }

  lemma CoreOf(a: string, b: string, c: string, t: string)
    requires IsNumeral(a) && IsNumeral(b) && IsNumeral(c) && IsSuffix(t)
    ensures IsVersion(Dotted(a, b, c) + t) && CoreEnd(Dotted(a, b, c) + t) == |Dotted(a, b, c)|
  {
    CoreIsPlain(a, b, c);
    SuffixStarts(Dotted(a, b, c), t);
  }

  /** The scanner accepts exactly the texts of the pattern. */
  lemma AcceptedText(s: string)
    ensures IsVersion(s) <==> exists a, b, c, t ::
      IsNumeral(a) && IsNumeral(b) && IsNumeral(c) && IsSuffix(t) && s == Dotted(a, b, c) + t
  {
    if IsVersion(s) {
      PiecesDotted(s[..CoreEnd(s)]);
      assert s == s[..CoreEnd(s)] + s[CoreEnd(s)..];
    }
    forall a, b, c, t | IsNumeral(a) && IsNumeral(b) && IsNumeral(c) && IsSuffix(t) && s == Dotted(a, b, c) + t
      ensures IsVersion(s)
    {
      CoreOf(a, b, c, t);
    }
  }

  // ---------------------------------------------------------------- parsing and printing

  function RequireVersion(version: Option<string>): Result<string, VersionError> {
    if !HasText(version) then Err(Missing)
    else if !IsVersion(version.value) then Err(NotSemver)
    else Ok(version.value)
  }

  /** The text without build metadata. */
  function Clean(version: string): string { Split(version, '+')[0] }

  function PrereleaseText(clean: string): string {
    var hyphen := IndexOf(clean, '-');
    if hyphen < |clean| then clean[hyphen + 1..] else ""
  }

  predicate AreIdentifiers(ids: seq<string>) {
    forall i :: 0 <= i < |ids| ==> IsIdentifier(ids[i]) && Dotless(ids[i])
  }

  /** parseSemver on a text that requireVersion accepts; its numbers are still exact, and ReleaseOrder rounds them. */
  function Parsed(version: string): (v: Semver)
    requires IsVersion(version)
    ensures AreIdentifiers(v.prerelease)
  {
    PiecesOf(version);
    var clean := Clean(version);
    var parts := Split(clean[..IndexOf(clean, '-')], '.');
    var text := PrereleaseText(clean);
    IdentifiersOf(text);
    Semver(Number(parts[0]), Number(parts[1]), Number(parts[2]), if text != "" then Split(text, '.') else [])
  }

  function ParseSemver(version: string): Result<Semver, VersionError> {
    match RequireVersion(Some(version))
    case Err(e) => Err(e)
    case Ok(text) => Ok(Parsed(text))
  }

  predicate IsPrereleaseText(t: string) {
    forall i :: 0 <= i < |t| ==> IdentifierChar(t[i]) || t[i] == '.'
  }

  lemma IdentifiersOf(t: string)
    requires IsPrereleaseText(t)
    ensures AreIdentifiers(Split(t, '.'))
  {
    SplitPieces(t, '.');
    var ids := Split(t, '.');
    forall i | 0 <= i < |ids|
      ensures IsIdentifier(ids[i]) && Dotless(ids[i])
    {
      forall j | 0 <= j < |ids[i]|
        ensures IdentifierChar(ids[i][j])
      {
        assert ids[i][j] in t && ids[i][j] != '.';
      }
    }
  }

  /** The pieces parseSemver cuts an accepted text into. */
  lemma PiecesOf(version: string)
    requires IsVersion(version)
    ensures var clean := Clean(version);
            && clean[..IndexOf(clean, '-')] == version[..CoreEnd(version)]
            && IsPrereleaseText(PrereleaseText(clean))
    ensures CoreEnd(version) == |version| || version[CoreEnd(version)] == '+' ==> PrereleaseText(Clean(version)) == ""
    ensures CoreEnd(version) < |version| && version[CoreEnd(version)] == '-'
            ==> PrereleaseText(Clean(version)) == version[CoreEnd(version) + 1..]
    ensures CoreEnd(version) < |version| && version[CoreEnd(version)] == '-' ==> '+' !in version
  {
    var end := CoreEnd(version);
    var plus := IndexOf(version, '+');
    var clean := Clean(version);
    assert clean == version[..plus];
    if end < |version| && version[end] == '-' {
      assert forall i :: end < i < |version| ==> version[i] == version[end..][i - end];
      assert plus == |version|;
      var rest := clean[end + 1..];
      assert forall i :: 0 <= i < |rest| ==> rest[i] == version[end..][i + 1];
    } else {
      assert plus == end;
    }
  }

  /** A version as the SemVer grammar writes it. */
  function Print(v: Semver): string {
    Dotted(Decimal(v.major), Decimal(v.minor), Decimal(v.patch)) + Tail(v.prerelease)
  }

  function Tail(ids: seq<string>): string {
    if ids == [] then "" else ['-'] + Join(ids, '.')
  }

  predicate Printable(v: Semver) {
    AreIdentifiers(v.prerelease) && v.prerelease != [""]
  }

  lemma {:induction false} JoinedIdentifiers(ids: seq<string>)
    requires |ids| > 0 && AreIdentifiers(ids)
    ensures IsPrereleaseText(Join(ids, '.'))
    ensures ids != [""] ==> Join(ids, '.') != ""
  {
    if |ids| > 1 { JoinedIdentifiers(ids[1..]); } else { assert ids == [ids[0]]; }
  }

  lemma TailIsSuffix(ids: seq<string>)
    requires AreIdentifiers(ids) && ids != [""]
    ensures IsSuffix(Tail(ids))
    ensures ids != [] ==> Tail(ids)[0] == '-' && Tail(ids)[1..] != "" && Split(Tail(ids)[1..], '.') == ids
  {
    if ids != [] {
      JoinedIdentifiers(ids);
      assert Tail(ids)[1..] == Join(ids, '.');
      SplitJoin(ids, '.');
    }
  }

  /** The pieces of a core with a prerelease after it, or without one. */
  lemma CleanOf(core: string, t: string)
    requires Plain(core) && IsSuffix(t) && (t != "" ==> t[0] == '-')
    ensures Clean(core + t) == core + t && IndexOf(core + t, '-') == |core|
    ensures PrereleaseText(core + t) == if t != "" then t[1..] else ""
  {
    var s := core + t;
    SuffixStarts(core, t);
    assert forall i :: 0 <= i < |s| ==> s[i] == if i < |core| then core[i] else t[i - |core|];
    assert '+' !in s;
    SplitAt(s, '+', "");
    if t != "" {
      assert s[|core|] == '-';
      assert s[|core| + 1..] == t[1..];
    }
  }

  /** What is read from a text put together from its pieces. */
  lemma ParsedPieces(a: string, b: string, c: string, ids: seq<string>)
    requires IsNumeral(a) && IsNumeral(b) && IsNumeral(c)
    requires AreIdentifiers(ids) && ids != [""]
    ensures IsVersion(Dotted(a, b, c) + Tail(ids))
    ensures Parsed(Dotted(a, b, c) + Tail(ids)) == Semver(Number(a), Number(b), Number(c), ids)
  {
    var core, t := Dotted(a, b, c), Tail(ids);
    TailIsSuffix(ids);
    CoreOf(a, b, c, t);
    CoreIsPlain(a, b, c);
    CleanOf(core, t);
    assert (core + t)[..|core|] == core;
    ParsedIs(core + t, core, if t == "" then "" else t[1..]);
  }

  lemma ParsedIs(version: string, core: string, text: string)
    requires IsVersion(version) && Clean(version)[..IndexOf(Clean(version), '-')] == core
    requires PrereleaseText(Clean(version)) == text
    ensures IsCore(core)
    ensures var parts := Split(core, '.');
            Parsed(version) == Semver(Number(parts[0]), Number(parts[1]), Number(parts[2]),
                                      if text != "" then Split(text, '.') else [])
  {
    PiecesOf(version);
  }

  /** Every version whose identifiers SemVer can write is read back from its text. */
  lemma ParsePrint(v: Semver)
    requires Printable(v)
    ensures ParseSemver(Print(v)) == Ok(v)
  {
    NumberOfDecimal(v.major);
    NumberOfDecimal(v.minor);
    NumberOfDecimal(v.patch);
    ParsedPieces(Decimal(v.major), Decimal(v.minor), Decimal(v.patch), v.prerelease);
  }

  predicate CoreWithoutZeros(s: string) {
    forall i :: 0 <= i < |Split(s[..CoreEnd(s)], '.')| ==> !LeadingZero(Split(s[..CoreEnd(s)], '.')[i])
  }

  /** A text without build metadata and leading zeros is printed back from what was read. */
  lemma PrintParse(s: string)
    requires IsVersion(s) && '+' !in s && CoreWithoutZeros(s)
    ensures Print(Parsed(s)) == s
  {
    ParsedCore(s);
    PrintedCore(s[..CoreEnd(s)]);
    PrintedTail(s);
    assert s == s[..CoreEnd(s)] + s[CoreEnd(s)..];
  }

  lemma ParsedCore(s: string)
    requires IsVersion(s)
    ensures var v, parts := Parsed(s), Split(s[..CoreEnd(s)], '.');
            v.major == Number(parts[0]) && v.minor == Number(parts[1]) && v.patch == Number(parts[2])
  {
    PiecesOf(s);
  }

  lemma PrintedCore(core: string)
    requires IsCore(core) && forall i :: 0 <= i < |Split(core, '.')| ==> !LeadingZero(Split(core, '.')[i])
    ensures var parts := Split(core, '.');
            Dotted(Decimal(Number(parts[0])), Decimal(Number(parts[1])), Decimal(Number(parts[2]))) == core
  {
    var parts := Split(core, '.');
    PiecesDotted(core);
    DecimalOfNumber(parts[0]);
    DecimalOfNumber(parts[1]);
    DecimalOfNumber(parts[2]);
  }

  lemma ParsedTail(s: string)
    requires IsVersion(s) && '+' !in s
    ensures CoreEnd(s) < |s| ==> s[CoreEnd(s)] == '-' && CoreEnd(s) + 1 < |s|
    ensures Parsed(s).prerelease == if CoreEnd(s) < |s| then Split(s[CoreEnd(s) + 1..], '.') else []
  {
    PiecesOf(s);
    var end := CoreEnd(s);
    if end < |s| {
      assert s[end] in s;
      assert s[end..][0] == s[end];
    }
  }

  lemma PrintedTail(s: string)
    requires IsVersion(s) && '+' !in s
    ensures Tail(Parsed(s).prerelease) == s[CoreEnd(s)..]
  {
    var end, ids := CoreEnd(s), Parsed(s).prerelease;
    ParsedTail(s);
    if end < |s| { TailOfSplit(s, end, ids); }
  }

  lemma TailOfSplit(s: string, at: nat, ids: seq<string>)
    requires at < |s| && s[at] == '-' && ids == Split(s[at + 1..], '.')
    ensures Tail(ids) == s[at..]
  {
    JoinSplit(s[at + 1..], '.');
    assert s[at..] == ['-'] + s[at + 1..];
  }

  // ---------------------------------------------------------------- build metadata

  /** Build metadata takes nothing from a version and adds nothing to it (section 10 of SemVer 2.0.0). */
  lemma BuildIsIgnored(version: string, build: string)
    requires '+' !in version && IsVersion(version + ['+'] + build)
    ensures IsVersion(version) && '-' !in version
    ensures Parsed(version + ['+'] + build) == Parsed(version)
  {
    var s := version + ['+'] + build;
    BuildEnds(version, build);
    assert version[..|version|] == version && version[|version|..] == "";
    SplitAt(version, '+', build);
    ParsedIs(s, version, "");
    ParsedIs(version, version, "");
  }

  /** The suffix of a version with build metadata starts at the plus sign. */
  lemma BuildEnds(version: string, build: string)
    requires '+' !in version && IsVersion(version + ['+'] + build)
    ensures CoreEnd(version + ['+'] + build) == |version| == CoreEnd(version)
    ensures (version + ['+'] + build)[..|version|] == version && '-' !in version
  {
    var s := version + ['+'] + build;
    var end := CoreEnd(s);
    assert s[|version|] == '+';
    assert end <= |version|;
    assert forall i :: 0 <= i < |version| ==> s[i] == version[i];
  }

  /** The pattern takes one suffix only: build metadata is accepted exactly on a version without prerelease. */
  lemma BuildNeedsPlainCore(version: string, build: string)
    requires IsVersion(version) && '+' !in version && build != "" && IsPrereleaseText(build)
    ensures IsVersion(version + ['+'] + build) <==> '-' !in version
  {
    if IsVersion(version + ['+'] + build) { BuildEnds(version, build); }
    if '-' !in version {
      var t := ['+'] + build;
      assert version[..CoreEnd(version)] == version;
      assert IsSuffix(t);
      SuffixStarts(version, t);
      assert version + t == version + ['+'] + build;
    }
  }
}
