/** The next version and the latest release tag: scripts/release-versions.ts. */
module ReleaseTags {
  import opened Wrappers
  import opened Text
  import opened ReleaseVersions
  import opened ReleaseOrder

  // ---------------------------------------------------------------- the next version

  function ComputeNext(h: Host, latest: string, bump: Bump): Result<string, VersionError> {
    match ParseSemver(latest)
    case Err(e) => Err(e)
    case Ok(v) => Ok(NextText(h, v, bump))
  }

  /** The number `n` reads as, plus one, as the engine adds. */
  function Next(h: Host, n: nat): nat { h.round(h.round(n) + 1) }

  function NextText(h: Host, v: Semver, bump: Bump): string {
    match bump
    case Major => Dotted(h.show(Next(h, v.major)), "0", "0")
    case Minor => Dotted(h.show(h.round(v.major)), h.show(Next(h, v.minor)), "0")
    case Patch => Dotted(h.show(h.round(v.major)), h.show(h.round(v.minor)), h.show(Next(h, v.patch)))
  }

  /** assertVersionGreaterThanLatestTag: the error it throws, if any. */
  function AssertGreater(h: Host, version: string, latest: Option<string>): Option<VersionError> {
    match RequireVersion(Some(version))
    case Err(e) => Some(e)
    case Ok(_) =>
      if !HasText(latest) then None
      else
        match RequireVersion(latest)
        case Err(e) => Some(e)
        case Ok(text) => if Compare(h, version, text) > 0 then None else Some(NotGreater)
  }

  /** The next version as the engine holds it. */
  function Bumped(h: Host, v: Semver, bump: Bump): Semver {
    match bump
    case Major => Semver(Next(h, v.major), 0, 0, [])
    case Minor => Semver(h.round(v.major), Next(h, v.minor), 0, [])
    case Patch => Semver(h.round(v.major), h.round(v.minor), Next(h, v.patch), [])
  }

  /** All its numbers are written in digits alone. */
  predicate PlainCore(v: Semver) { v.major < PLAIN_BELOW && v.minor < PLAIN_BELOW && v.patch < PLAIN_BELOW }

  /** The engine can tell the bumped number from the one before. */
  predicate Grows(h: Host, v: Semver, bump: Bump) {
    match bump
    case Major => Next(h, v.major) != h.round(v.major)
    case Minor => Next(h, v.minor) != h.round(v.minor)
    case Patch => Next(h, v.patch) != h.round(v.patch)
  }

  /** A prerelease whose lower numbers are zero comes before the release of its own core. */
  predicate Finishes(v: Semver, bump: Bump) {
    && v.prerelease != []
    && (bump != Patch ==> v.patch == 0)
    && (bump == Major ==> v.minor == 0)
  }

  lemma VersionHasText(version: string)
    requires IsVersion(version)
    ensures version != ""
  {
    assert Split("", '.') == [""];
  }

  /** Three numerals are read as the numbers they hold. */
  lemma CoreRead(a: string, b: string, c: string)
    requires IsNumeral(a) && IsNumeral(b) && IsNumeral(c)
    ensures IsVersion(Dotted(a, b, c)) && Parsed(Dotted(a, b, c)) == Semver(Number(a), Number(b), Number(c), [])
  {
    ParsedPieces(a, b, c, []);
    assert Dotted(a, b, c) + Tail([]) == Dotted(a, b, c);
  }

  lemma CoreChars(version: string, i: nat)
    requires IsVersion(version) && i < CoreEnd(version)
    ensures IsDigit(version[i]) || version[i] == '.'
  {
    var core := version[..CoreEnd(version)];
    var parts := Split(core, '.');
    PiecesDotted(core);
    DottedChars(parts[0], parts[1], parts[2], i);
    assert version[i] == core[i];
  }

  lemma DottedChars(a: string, b: string, c: string, i: nat)
    requires IsNumeral(a) && IsNumeral(b) && IsNumeral(c) && i < |Dotted(a, b, c)|
    ensures IsDigit(Dotted(a, b, c)[i]) || Dotted(a, b, c)[i] == '.'
  {
  }

  /** A text that cannot stand in a core makes a version of nothing it follows a plain text in. */
  lemma SpoiledIsNoVersion(before: string, s: string, after: string)
    requires Plain(before) && Unversioned(s)
    ensures !IsVersion(before + s + after)
  {
    var t := before + s + after;
    var i :| 0 <= i < |s| && Spoils(s, i);
    var at := |before| + i;
    assert t[at] == s[i];
    forall j | 0 <= j <= at
      ensures t[j] != '-' && t[j] != '+'
    {
      if j < |before| { assert t[j] == before[j]; } else { assert t[j] == s[..i + 1][j - |before|]; }
    }
    EndsAfter(t, at);
    if IsVersion(t) { CoreChars(t, at); }
  }

  lemma EndsAfter(t: string, at: nat)
    requires at < |t| && forall j :: 0 <= j <= at ==> t[j] != '-' && t[j] != '+'
    ensures CoreEnd(t) > at
  {
    var hyphen, plus := IndexOf(t, '-'), IndexOf(t, '+');
  }

  lemma NumeralIsPlain(a: string)
    requires IsNumeral(a)
    ensures Plain(a + ['.'])
  {
  }

  /** The text is how the engine writes the number. */
  ghost predicate Shows(h: Host, text: string, n: nat) {
    if n < PLAIN_BELOW then IsNumeral(text) && h.round(Number(text)) == n else Unversioned(text)
  }

  lemma NextShows(h: Host, n: nat)
    requires Doubles(h)
    ensures Shows(h, h.show(h.round(n)), h.round(n)) && Shows(h, h.show(Next(h, n)), Next(h, n)) && Shows(h, "0", 0)
  {
    assert h.round(h.round(n)) == h.round(n) && h.round(Next(h, n)) == Next(h, n);
    assert Written(h, h.round(n)) && Written(h, Next(h, n));
    assert Number("0") == 0 && h.round(0) == 0;
  }

  /** Dotted texts of numbers: a version exactly if all are written in digits, and then it is held as those numbers. */
  lemma ShownCore(h: Host, a: string, b: string, c: string, held: Semver)
    requires Shows(h, a, held.major) && Shows(h, b, held.minor) && Shows(h, c, held.patch) && held.prerelease == []
    ensures IsVersion(Dotted(a, b, c)) <==> PlainCore(held)
    ensures IsVersion(Dotted(a, b, c)) ==> Rounded(h, Parsed(Dotted(a, b, c))) == held
  {
    if held.major >= PLAIN_BELOW {
      SpoiledMajor(a, b, c);
    } else if held.minor >= PLAIN_BELOW {
      SpoiledMinor(a, b, c);
    } else if held.patch >= PLAIN_BELOW {
      SpoiledPatch(a, b, c);
    } else {
      CoreRead(a, b, c);
    }
  }

  lemma SpoiledMajor(a: string, b: string, c: string)
    requires Unversioned(a)
    ensures !IsVersion(Dotted(a, b, c))
  {
    var rest := ['.'] + (b + ['.'] + c);
    SpoiledIsNoVersion("", a, rest);
    assert "" + a + rest == Dotted(a, b, c);
  }

  lemma SpoiledMinor(a: string, b: string, c: string)
    requires IsNumeral(a) && Unversioned(b)
    ensures !IsVersion(Dotted(a, b, c))
  {
    var before, rest := a + ['.'], ['.'] + c;
    NumeralIsPlain(a);
    SpoiledIsNoVersion(before, b, rest);
    assert before + b + rest == Dotted(a, b, c);
  }

  lemma SpoiledPatch(a: string, b: string, c: string)
    requires IsNumeral(a) && IsNumeral(b) && Unversioned(c)
    ensures !IsVersion(Dotted(a, b, c))
  {
    var before := a + ['.'] + (b + ['.']);
    NumeralIsPlain(a);
    NumeralIsPlain(b);
    SpoiledIsNoVersion(before, c, "");
    assert before + c + "" == Dotted(a, b, c);
  }

  /** The next version is a version exactly if its numbers are written in digits, and then it is held as the bumped
      number, the higher ones unchanged, zeros below and no prerelease. */
  lemma NextParses(h: Host, latest: string, bump: Bump)
    requires Doubles(h) && IsVersion(latest)
    ensures ComputeNext(h, latest, bump).Ok?
    ensures var next, held := ComputeNext(h, latest, bump).value, Bumped(h, Parsed(latest), bump);
            && (IsVersion(next) <==> PlainCore(held))
            && (IsVersion(next) ==> Rounded(h, Parsed(next)) == held && Parsed(next).prerelease == [])
  {
    VersionHasText(latest);
    var v := Parsed(latest);
    assert ParseSemver(latest) == Ok(v);
    NextShows(h, v.major);
    NextShows(h, v.minor);
    NextShows(h, v.patch);
    match bump
    case Major => ShownCore(h, h.show(Next(h, v.major)), "0", "0", Bumped(h, v, bump));
    case Minor => ShownCore(h, h.show(h.round(v.major)), h.show(Next(h, v.minor)), "0", Bumped(h, v, bump));
    case Patch => ShownCore(h, h.show(h.round(v.major)), h.show(h.round(v.minor)), h.show(Next(h, v.patch)), Bumped(h, v, bump));
  }

  /** Comparing goes by what the engine holds. */
  lemma ComparesHeld(h: Host, a: Semver, b: Semver)
    requires Doubles(h)
    ensures CompareParsed(h, a, b) == CompareParsed(h, Rounded(h, a), Rounded(h, b))
  {
    assert forall n: nat {:trigger h.round(h.round(n))} :: h.round(h.round(n)) == h.round(n);
    assert h.round(h.round(a.major)) == h.round(a.major) && h.round(h.round(b.major)) == h.round(b.major);
    assert h.round(h.round(a.minor)) == h.round(a.minor) && h.round(h.round(b.minor)) == h.round(b.minor);
    assert h.round(h.round(a.patch)) == h.round(a.patch) && h.round(h.round(b.patch)) == h.round(b.patch);
  }

  lemma NextIsNotLess(h: Host, n: nat)
    requires Doubles(h)
    ensures h.round(n) <= Next(h, n)
    ensures h.round(h.round(n)) == h.round(n) && h.round(Next(h, n)) == Next(h, n)
    ensures n > 0 <==> h.round(n) > 0
  {
    assert h.round(h.round(n)) <= h.round(h.round(n) + 1);
    assert h.round(0) == 0 && h.round(1) == 1;
    if n > 0 { assert h.round(1) <= h.round(n); }
  }

  /** A bumped version comes after the one before exactly if the bumped number is told apart, or the one before is
      a prerelease of the very version the bump arrives at. */
  lemma BumpedIsAfter(h: Host, v: Semver, bump: Bump)
    requires Doubles(h)
    ensures CompareParsed(h, Bumped(h, v, bump), v) > 0 <==> Grows(h, v, bump) || Finishes(v, bump)
  {
    NextIsNotLess(h, v.major);
    NextIsNotLess(h, v.minor);
    NextIsNotLess(h, v.patch);
    assert h.round(0) == 0;
  }

  /** The release guard accepts the next version exactly if its numbers are written in digits alone and it comes
      after the latest: the bumped number grew, or the latest was a prerelease of it. */
  lemma NextIsGreater(h: Host, latest: string, bump: Bump)
    requires Doubles(h) && IsVersion(latest)
    ensures ComputeNext(h, latest, bump).Ok?
    ensures AssertGreater(h, ComputeNext(h, latest, bump).value, Some(latest)) == None
       <==> PlainCore(Bumped(h, Parsed(latest), bump)) && (Grows(h, Parsed(latest), bump) || Finishes(Parsed(latest), bump))
  {
    NextParses(h, latest, bump);
    var next, v := ComputeNext(h, latest, bump).value, Parsed(latest);
    if IsVersion(next) {
      ComparesHeld(h, Parsed(next), v);
      ComparesHeld(h, Bumped(h, v, bump), v);
      HeldTwice(h, v, bump);
      BumpedIsAfter(h, v, bump);
      VersionHasText(next);
    }
    GuardCompares(h, next, latest);
  }

  lemma HeldTwice(h: Host, v: Semver, bump: Bump)
    requires Doubles(h)
    ensures Rounded(h, Bumped(h, v, bump)) == Bumped(h, v, bump)
  {
    NextIsNotLess(h, v.major);
    NextIsNotLess(h, v.minor);
    NextIsNotLess(h, v.patch);
    assert h.round(0) == 0;
  }

  lemma GuardCompares(h: Host, version: string, latest: string)
    requires IsVersion(latest)
    ensures AssertGreater(h, version, Some(latest)) == None <==> IsVersion(version) && Compare(h, version, latest) > 0
  {
    VersionHasText(latest);
    if IsVersion(version) { VersionHasText(version); }
  }

  lemma SmallBumpGrows(h: Host, v: Semver, bump: Bump)
    requires Doubles(h) && v.major + 1 < EXACT_BELOW && v.minor + 1 < EXACT_BELOW && v.patch + 1 < EXACT_BELOW
    ensures PlainCore(Bumped(h, v, bump)) && Grows(h, v, bump)
  {
    SmallNext(h, v.major);
    SmallNext(h, v.minor);
    SmallNext(h, v.patch);
  }

  lemma SmallNext(h: Host, n: nat)
    requires Doubles(h) && n + 1 < EXACT_BELOW
    ensures h.round(n) == n && Next(h, n) == n + 1 < PLAIN_BELOW
  {
  }

  /** Below two to the power of 53 a bump is always accepted. */
  lemma SmallNextIsGreater(h: Host, latest: string, bump: Bump)
    requires Doubles(h) && IsVersion(latest)
    requires var v := Parsed(latest);
             v.major + 1 < EXACT_BELOW && v.minor + 1 < EXACT_BELOW && v.patch + 1 < EXACT_BELOW
    ensures AssertGreater(h, ComputeNext(h, latest, bump).value, Some(latest)) == None
    ensures var next := ComputeNext(h, latest, bump).value; IsVersion(next) && Parsed(next).prerelease == []
  {
    SmallBumpGrows(h, Parsed(latest), bump);
    NextIsGreater(h, latest, bump);
    NextParses(h, latest, bump);
  }

  /** From there on it can fail: a number that absorbs its successor leaves the patch of a release where it was. */
  lemma AbsorbedPatchIsRefused(h: Host, latest: string)
    requires Doubles(h) && IsVersion(latest) && Parsed(latest).prerelease == []
    requires Next(h, Parsed(latest).patch) == h.round(Parsed(latest).patch)
    ensures ComputeNext(h, latest, Patch).Ok?
    ensures AssertGreater(h, ComputeNext(h, latest, Patch).value, Some(latest)) != None
  {
    NextIsGreater(h, latest, Patch);
  }

  // ---------------------------------------------------------------- release tags

  /** What follows the last slash, or the whole text. */
  function LastPart(s: string): string {
    if s == "" || s[|s| - 1] == '/' then "" else LastPart(s[..|s| - 1]) + [s[|s| - 1]]
  }

  function LastPiece(s: string): string { Split(s, '/')[|Split(s, '/')| - 1] }

  lemma LastPieceSkips(s: string, at: nat)
    requires at == IndexOf(s, '/') < |s|
    ensures LastPiece(s) == LastPiece(s[at + 1..])
  {
    SplitHead(s, '/');
    LastOfMore(s[..at], Split(s[at + 1..], '/'));
  }

  lemma LastOfMore(first: string, rest: seq<string>)
    requires rest != []
    ensures ([first] + rest)[|[first] + rest| - 1] == rest[|rest| - 1]
  {
  }

  /** It is the last piece of the split. */
  lemma {:induction false} LastPartIsLast(s: string)
    ensures LastPart(s) == LastPiece(s)
    decreases |s|
  {
    var at := IndexOf(s, '/');
    if at < |s| {
      var front, tail := s[..at + 1], s[at + 1..];
      LastPieceSkips(s, at);
      LastPartIsLast(tail);
      LastPartAfter(front, tail);
      assert s == front + tail;
    } else {
      assert s[..at] == s;
      WholeIsLastPart(s);
    }
  }

  lemma WholeIsLastPart(s: string)
    requires '/' !in s
    ensures LastPart(s) == s && LastPiece(s) == s
  {
    LastPartOf("", s);
    assert "" + s == s;
    SplitAt(s, '/', "");
  }

  lemma {:induction false} LastPartAfter(front: string, tail: string)
    requires front != "" && front[|front| - 1] == '/'
    ensures LastPart(front + tail) == LastPart(tail)
    decreases |tail|
  {
    if tail == "" {
      assert front + tail == front;
    } else {
      var init := tail[..|tail| - 1];
      LastPartAfter(front, init);
      assert (front + tail)[..|front + tail| - 1] == front + init;
    }
  }

  /** The ref without the mark git puts after the object an annotated tag peels to. */
  function WithoutPeel(s: string): string {
    if |s| >= 3 && s[|s| - 3..] == "^{}" then s[..|s| - 3] else s
  }

  function TagVersionFromRef(ref: string): Option<string> {
    var name := LastPart(WithoutPeel(Trim(ref)));
    if !(TAG_PREFIX <= name) then None
    else
      var version := name[|TAG_PREFIX|..];
      if IsVersion(version) then Some(version) else None
  }

  /** dir is a path up to and including a slash, or nothing. */
  predicate IsDir(dir: string) { dir == "" || dir[|dir| - 1] == '/' }

  lemma {:induction false} LastPartOf(dir: string, name: string)
    requires IsDir(dir) && forall i :: 0 <= i < |name| ==> name[i] != '/'
    ensures LastPart(dir + name) == name
    decreases |name|
  {
    var s := dir + name;
    if name == "" {
      assert s == dir;
    } else {
      var init := name[..|name| - 1];
      LastPartOf(dir, init);
      LastOfPair(dir, name);
      assert name == init + [name[|name| - 1]];
    }
  }

  lemma LastOfPair(dir: string, name: string)
    requires name != ""
    ensures var s := dir + name; s[..|s| - 1] == dir + name[..|name| - 1] && s[|s| - 1] == name[|name| - 1]
  {
  }

  lemma {:induction false} LastPartSplits(s: string) returns (dir: string)
    ensures IsDir(dir) && s == dir + LastPart(s) && '/' !in LastPart(s)
  {
    dir := s;
    if s != "" && s[|s| - 1] != '/' {
      var init := s[..|s| - 1];
      dir := LastPartSplits(init);
      assert s == init + [s[|s| - 1]];
    }
  }

  predicate VersionChar(c: char) { IdentifierChar(c) || c == '.' || c == '+' }

  predicate VersionText(s: string) { forall i :: 0 <= i < |s| ==> VersionChar(s[i]) }

  lemma VersionTexts(a: string, b: string)
    requires VersionText(a) && VersionText(b)
    ensures VersionText(a + b)
  {
  }

  lemma CoreIsVersionText(a: string, b: string, c: string)
    requires IsNumeral(a) && IsNumeral(b) && IsNumeral(c)
    ensures VersionText(Dotted(a, b, c))
  {
  }

  lemma SuffixIsVersionText(t: string)
    requires IsSuffix(t)
    ensures VersionText(t)
  {
  }

  /** No version holds a slash, white space or the peel mark. */
  lemma VersionChars(version: string)
    requires IsVersion(version)
    ensures VersionText(version)
  {
    var core, suffix := version[..CoreEnd(version)], version[CoreEnd(version)..];
    var parts := Split(core, '.');
    PiecesDotted(core);
    CoreIsVersionText(parts[0], parts[1], parts[2]);
    SuffixIsVersionText(suffix);
    VersionTexts(core, suffix);
    assert version == core + suffix;
  }

  /** A path names a release when its last part is the prefix and a version. */
  predicate NamesRelease(path: string, version: string) {
    IsVersion(version) && LastPart(path) == TAG_PREFIX + version
  }

  lemma RecognisedName(ref: string, version: string)
    ensures TagVersionFromRef(ref) == Some(version) <==> NamesRelease(WithoutPeel(Trim(ref)), version)
  {
    var name := LastPart(WithoutPeel(Trim(ref)));
    if TAG_PREFIX <= name { assert name == TAG_PREFIX + name[|TAG_PREFIX|..]; }
    assert (TAG_PREFIX + version)[|TAG_PREFIX|..] == version;
  }

  lemma VersionInDir(dir: string, version: string)
    requires IsVersion(version) && IsDir(dir)
    ensures NamesRelease(dir + (TAG_PREFIX + version), version)
  {
    VersionChars(version);
    var name := TAG_PREFIX + version;
    assert forall i :: 0 <= i < |name| ==> name[i] == if i < |TAG_PREFIX| then TAG_PREFIX[i] else version[i - |TAG_PREFIX|];
    LastPartOf(dir, name);
  }

  /** A ref names a release exactly when its last part is the prefix and a version. */
  lemma RecognisedRef(ref: string, version: string)
    ensures TagVersionFromRef(ref) == Some(version)
       <==> IsVersion(version) && exists dir :: IsDir(dir) && WithoutPeel(Trim(ref)) == dir + (TAG_PREFIX + version)
  {
    var path := WithoutPeel(Trim(ref));
    RecognisedName(ref, version);
    var dir := LastPartSplits(path);
    forall d | IsVersion(version) && IsDir(d) && path == d + (TAG_PREFIX + version)
      ensures NamesRelease(path, version)
    {
      VersionInDir(d, version);
    }
  }

  /** The last word of a line: what follows the last white space once the line is trimmed. */
  function LastWord(s: string): string {
    if s == "" || IsSpace(s[|s| - 1]) then "" else LastWord(s[..|s| - 1]) + [s[|s| - 1]]
  }

  function LineVersion(line: string): Option<string> { TagVersionFromRef(LastWord(Trim(line))) }

  /** The tag versions in the lines of `git ls-remote`, in order. A carriage return before the line feed is trimmed. */
  function TagVersions(lines: seq<string>): (versions: seq<string>)
    ensures forall i :: 0 <= i < |versions| ==> IsVersion(versions[i])
  {
    if lines == [] then []
    else
      var init, last := lines[..|lines| - 1], LineVersion(lines[|lines| - 1]);
      TagVersions(init) + if HasText(last) then [last.value] else []
  }

  /** The reduce over the tag versions. */
  function Latest(h: Host, versions: seq<string>): (latest: Option<string>)
    requires forall i :: 0 <= i < |versions| ==> IsVersion(versions[i])
    ensures latest.Some? ==> IsVersion(latest.value)
  {
    if versions == [] then None
    else
      var init, version := versions[..|versions| - 1], versions[|versions| - 1];
      var latest := Latest(h, init);
      if latest.None? || Compare(h, version, latest.value) > 0 then Some(version) else latest
  }

  function LatestTagVersion(h: Host, refs: string): Option<string> {
    Latest(h, TagVersions(Split(refs, '\n')))
  }

  predicate NoneAfter(h: Host, versions: seq<string>, latest: string)
    requires IsVersion(latest) && forall i :: 0 <= i < |versions| ==> IsVersion(versions[i])
  {
    forall i :: 0 <= i < |versions| ==> Compare(h, versions[i], latest) <= 0
  }

  lemma LaterWins(h: Host, versions: seq<string>, before: string, version: string)
    requires Orders(h) && IsVersion(before) && IsVersion(version)
    requires forall i :: 0 <= i < |versions| ==> IsVersion(versions[i])
    requires NoneAfter(h, versions, before) && Compare(h, version, before) > 0
    ensures NoneAfter(h, versions, version)
  {
    Antisymmetric(h, Parsed(version), Parsed(before));
    forall i | 0 <= i < |versions|
      ensures Compare(h, versions[i], version) <= 0
    {
      Chain(h, Parsed(versions[i]), Parsed(before), Parsed(version));
    }
  }

  lemma NoneAfterLast(h: Host, versions: seq<string>, latest: string)
    requires versions != [] && IsVersion(latest) && forall i :: 0 <= i < |versions| ==> IsVersion(versions[i])
    requires NoneAfter(h, versions[..|versions| - 1], latest)
    requires Compare(h, versions[|versions| - 1], latest) <= 0
    ensures NoneAfter(h, versions, latest)
  {
    forall i | 0 <= i < |versions|
      ensures Compare(h, versions[i], latest) <= 0
    {
      if i < |versions| - 1 { assert versions[i] == versions[..|versions| - 1][i]; }
    }
  }

  lemma {:induction false} LatestIsOneOf(h: Host, versions: seq<string>)
    requires forall i :: 0 <= i < |versions| ==> IsVersion(versions[i])
    ensures Latest(h, versions).None? <==> versions == []
    ensures Latest(h, versions).Some? ==> Latest(h, versions).value in versions
  {
    if versions != [] {
      LatestIsOneOf(h, versions[..|versions| - 1]);
    }
  }

  /** No version of the list comes after the one the reduce keeps. */
  lemma {:induction false} LatestIsMaximum(h: Host, versions: seq<string>)
    requires Orders(h) && forall i :: 0 <= i < |versions| ==> IsVersion(versions[i])
    ensures Latest(h, versions).Some? ==> NoneAfter(h, versions, Latest(h, versions).value)
  {
    if versions != [] {
      var init, version := versions[..|versions| - 1], versions[|versions| - 1];
      LatestIsMaximum(h, init);
      var before, latest := Latest(h, init), Latest(h, versions).value;
      LatestIsOneOf(h, versions);
      SelfTie(h, version);
      if before.Some? && latest == version && Compare(h, version, before.value) > 0 {
        LaterWins(h, init, before.value, version);
      }
      NoneAfterLast(h, versions, latest);
    }
  }

  lemma SelfTie(h: Host, version: string)
    requires IsVersion(version)
    ensures Compare(h, version, version) == 0
  {
    var ids := Parsed(version).prerelease;
    CommonIs(ids, ids, |ids|);
  }

  predicate Spaceless(s: string) { s != "" && forall i :: 0 <= i < |s| ==> !IsSpace(s[i]) }

  lemma {:induction false} LastWordOf(before: string, word: string)
    requires before == "" || IsSpace(before[|before| - 1])
    requires forall i :: 0 <= i < |word| ==> !IsSpace(word[i])
    ensures LastWord(before + word) == word
    decreases |word|
  {
    var s := before + word;
    if word == "" {
      assert s == before;
    } else {
      var shorter := word[..|word| - 1];
      LastWordOf(before, shorter);
      assert s[..|s| - 1] == before + shorter;
      assert word == shorter + [word[|word| - 1]];
    }
  }

  function RefLine(commit: string, version: string, peeled: bool): string {
    commit + ['\t'] + RefName(version, peeled)
  }

  const TAGS_DIR := "refs/tags/"

  const PEEL := "^{}"

  function RefName(version: string, peeled: bool): string {
    TAGS_DIR + (TAG_PREFIX + version) + if peeled then PEEL else ""
  }

  lemma RefNameIsSpaceless(version: string, peeled: bool)
    requires IsVersion(version)
    ensures Spaceless(RefName(version, peeled))
    ensures WithoutPeel(RefName(version, peeled)) == TAGS_DIR + (TAG_PREFIX + version)
  {
    VersionHasText(version);
    VersionIsSpaceless(version);
    var path := TAGS_DIR + (TAG_PREFIX + version);
    SpacelessConcat(TAG_PREFIX, version);
    SpacelessConcat(TAGS_DIR, TAG_PREFIX + version);
    assert path[|path| - 1] == version[|version| - 1];
    if peeled {
      SpacelessConcat(path, PEEL);
      PeelIsCut(path);
    } else {
      assert RefName(version, peeled) == path;
    }
  }

  lemma VersionIsSpaceless(version: string)
    requires IsVersion(version)
    ensures Spaceless(version) && version[|version| - 1] != '}'
  {
    VersionHasText(version);
    VersionChars(version);
  }

  lemma SpacelessConcat(a: string, b: string)
    requires Spaceless(a) && Spaceless(b)
    ensures Spaceless(a + b)
  {
  }

  lemma PeelIsCut(path: string)
    ensures WithoutPeel(path + PEEL) == path
  {
    assert (path + PEEL)[|path|..] == PEEL && (path + PEEL)[..|path|] == path;
  }

  lemma LastWordOfLine(commit: string, name: string)
    requires Spaceless(commit) && Spaceless(name)
    ensures LastWord(Trim(commit + ['\t'] + name)) == name && Trim(name) == name
  {
    var before := commit + ['\t'];
    var line := before + name;
    assert line[0] == commit[0] && line[|line| - 1] == name[|name| - 1];
    NothingToTrim(line);
    assert before[|before| - 1] == '\t';
    LastWordOf(before, name);
    NothingToTrim(name);
  }

  /** Such a line is the commit, a tab and the ref, which carries a marker if it is peeled. */
  lemma RefLineText(commit: string, version: string, peeled: bool)
    ensures RefLine(commit, version, peeled) == commit + "\trefs/tags/app-v" + version + if peeled then "^{}" else ""
  {
    Regrouped(commit, TAG_PREFIX, version, if peeled then PEEL else "");
  }

  lemma Regrouped(commit: string, prefix: string, version: string, rest: string)
    ensures commit + ['\t'] + (TAGS_DIR + (prefix + version) + rest) == commit + ("\t" + TAGS_DIR + prefix) + version + rest
  {
  }

  /** A line that lists a release tag, peeled or not, yields that release's version. */
  lemma ListedTag(commit: string, version: string, peeled: bool)
    requires IsVersion(version) && Spaceless(commit)
    ensures LineVersion(RefLine(commit, version, peeled)) == Some(version)
  {
    var name := RefName(version, peeled);
    RefNameIsSpaceless(version, peeled);
    LastWordOfLine(commit, name);
    VersionInDir(TAGS_DIR, version);
    RecognisedName(name, version);
  }

  ghost predicate Lists(lines: seq<string>, version: string) {
    exists line :: line in lines && LineVersion(line) == Some(version)
  }

  lemma ListsLast(init: seq<string>, last: string, version: string)
    ensures Lists(init + [last], version) <==> Lists(init, version) || LineVersion(last) == Some(version)
  {
    assert forall line :: line in init + [last] <==> line in init || line == last;
  }

  lemma LineVersionHasText(line: string)
    ensures LineVersion(line) != Some("")
  {
    if LineVersion(line) == Some("") { VersionHasText(""); }
  }

  lemma {:induction false} TagVersionsOf(lines: seq<string>, version: string)
    ensures version in TagVersions(lines) <==> Lists(lines, version)
  {
    if lines != [] {
      var init, last := lines[..|lines| - 1], lines[|lines| - 1];
      TagVersionsOf(init, version);
      assert lines == init + [last];
      ListsLast(init, last, version);
      LineVersionHasText(last);
    }
  }

  /** What the listing's latest release is: none of its release tags comes after it, and it is one of them. */
  lemma LatestOfListing(h: Host, refs: string, version: string)
    requires Orders(h)
    requires Lists(Split(refs, '\n'), version)
    ensures LatestTagVersion(h, refs).Some?
    ensures Compare(h, version, LatestTagVersion(h, refs).value) <= 0
    ensures Lists(Split(refs, '\n'), LatestTagVersion(h, refs).value)
  {
    var lines := Split(refs, '\n');
    var versions := TagVersions(lines);
    TagVersionsOf(lines, version);
    LatestIsOneOf(h, versions);
    LatestIsMaximum(h, versions);
    TagVersionsOf(lines, Latest(h, versions).value);
  }
}
