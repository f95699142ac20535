/** Version precedence and the choice of the next and the latest release: scripts/release-versions.ts. */
module ReleaseOrder {
  import opened Wrappers
  import opened Text
  import opened ReleaseVersions

  // ---------------------------------------------------------------- what the engine decides

  /** What a JavaScript engine makes of texts and numbers: `localeCompare`, the number a numeral reads as, and
      how it writes a number. A number too large to hold is one that no further digit changes. */
  datatype Host = Host(collate: (string, string) -> int, round: nat -> nat, show: nat -> string)

  /** Whole numbers below this one are held exactly. */
  const EXACT_BELOW: nat := 0x20_0000_0000_0000

  /** Whole numbers below this one are written in digits alone, larger ones with an exponent. */
  const PLAIN_BELOW: nat := 1_000_000_000_000_000_000_000

  /** A text that cannot stand in the core of a version. */
  ghost predicate Unversioned(s: string) {
    exists i :: 0 <= i < |s| && Spoils(s, i)
  }

  /** The i-th character is neither digit, dot, hyphen nor plus sign, and no hyphen or plus sign comes before it. */
  predicate Spoils(s: string, i: nat)
    requires i < |s|
  {
    !IsDigit(s[i]) && s[i] != '.' && Plain(s[..i + 1])
  }

  /** Double-precision numbers: rounding keeps the order, is exact where it can be, and what is written reads back. */
  ghost predicate Doubles(h: Host) {
    && (forall a: nat, b: nat :: a <= b ==> h.round(a) <= h.round(b))
    && (forall a: nat :: a < EXACT_BELOW ==> h.round(a) == a)
    && (forall a: nat {:trigger h.round(h.round(a))} :: h.round(h.round(a)) == h.round(a))
    && (forall a: nat {:trigger h.show(a)} :: h.round(a) == a ==> Written(h, a))
  }

  ghost predicate Written(h: Host, a: nat) {
    if a < PLAIN_BELOW then IsNumeral(h.show(a)) && h.round(Number(h.show(a))) == a
    else Unversioned(h.show(a))
  }

  // ---------------------------------------------------------------- the comparison

  function CompareNumber(left: int, right: int): int {
    if left == right then 0 else if left > right then 1 else -1
  }

  /** How two different identifiers compare. */
  function IdOrder(h: Host, a: string, b: string): int {
    if IsNumeral(a) && IsNumeral(b) then CompareNumber(h.round(Number(a)), h.round(Number(b)))
    else if IsNumeral(a) then -1
    else if IsNumeral(b) then 1
    else if h.collate(a, b) > 0 then 1 else -1
  }

  /** How two non-empty prerelease lists compare: the first pair of different texts decides. */
  function Lex(h: Host, l: seq<string>, r: seq<string>): int {
    var k := Common(l, r);
    if k < |l| && k < |r| then IdOrder(h, l[k], r[k]) else CompareNumber(|l|, |r|)
  }

  function ComparePrerelease(h: Host, l: seq<string>, r: seq<string>): int {
    if l == [] && r == [] then 0
    else if l == [] then 1
    else if r == [] then -1
    else Lex(h, l, r)
  }

  /** The loop of comparePrerelease. */
  method ComparePrereleaseLists(h: Host, left: seq<string>, right: seq<string>) returns (order: int)
    ensures order == ComparePrerelease(h, left, right)
  {
    if |left| == 0 && |right| == 0 { return 0; }
    if |left| == 0 { return 1; }
    if |right| == 0 { return -1; }
    var maxLength := if |left| > |right| then |left| else |right|;
    var index := 0;
    while index < maxLength
      invariant index <= maxLength && index <= |left| && index <= |right|
      invariant left[..index] == right[..index]
    {
      CommonIs(left, right, index);
      if index >= |left| { return -1; }
      if index >= |right| { return 1; }
      var a, b := left[index], right[index];
      if a != b {
        if IsNumeral(a) && IsNumeral(b) { return CompareNumber(h.round(Number(a)), h.round(Number(b))); }
        if IsNumeral(a) { return -1; }
        if IsNumeral(b) { return 1; }
        return if h.collate(a, b) > 0 then 1 else -1;
      }
      index := index + 1;
    }
    CommonIs(left, right, index);
    return 0;
  }

  lemma SamePrefix<T>(a: seq<T>, b: seq<T>, k: nat)
    requires k <= |a| && k <= |b| && a[..k] == b[..k]
    ensures forall i :: 0 <= i < k ==> a[i] == b[i]
  {
    assert forall i :: 0 <= i < k ==> a[i] == a[..k][i] && b[i] == b[..k][i];
  }

  /** The shared prefix ends at the first difference. */
  lemma CommonIs<T>(a: seq<T>, b: seq<T>, k: nat)
    requires k <= |a| && k <= |b| && a[..k] == b[..k]
    ensures Common(a, b) >= k
    ensures k < |a| && k < |b| && a[k] != b[k] ==> Common(a, b) == k
    ensures k == |a| || k == |b| ==> Common(a, b) == k
  {
    var c := Common(a, b);
    SamePrefix(a, b, k);
    SamePrefix(a, b, c);
  }

  function CompareCore(h: Host, a: Semver, b: Semver): int {
    if h.round(a.major) != h.round(b.major) then CompareNumber(h.round(a.major), h.round(b.major))
    else if h.round(a.minor) != h.round(b.minor) then CompareNumber(h.round(a.minor), h.round(b.minor))
    else CompareNumber(h.round(a.patch), h.round(b.patch))
  }

  function CompareParsed(h: Host, a: Semver, b: Semver): int {
    if CompareCore(h, a, b) != 0 then CompareCore(h, a, b)
    else ComparePrerelease(h, a.prerelease, b.prerelease)
  }

  /** compareSemverVersions on accepted texts; on others parseSemver raises its error. */
  function Compare(h: Host, left: string, right: string): int
    requires IsVersion(left) && IsVersion(right)
  {
    CompareParsed(h, Parsed(left), Parsed(right))
  }

  /** compareSemverVersions: the order, or the error of the first text that is no version. */
  function CompareVersions(h: Host, left: string, right: string): (r: Result<int, VersionError>)
    ensures r.Ok? <==> IsVersion(left) && IsVersion(right)
    ensures r.Ok? ==> r.value == Compare(h, left, right)
    ensures r.Err? && r.error == Missing ==> left == "" || right == ""
  {
    assert Split("", '.') == [""];
    match ParseSemver(left)
    case Err(e) => Err(e)
    case Ok(a) =>
      match ParseSemver(right)
      case Err(e) => Err(e)
      case Ok(b) => Ok(CompareParsed(h, a, b))
  }

  // ---------------------------------------------------------------- precedence after SemVer 2.0.0, section 11

  /** Lexical order by character code. */
  ghost predicate AsciiLess(a: string, b: string) {
    exists k: nat :: AsciiLessAt(a, b, k)
  }

  ghost predicate AsciiLessAt(a: string, b: string, k: nat) {
    && k <= |a| && k <= |b| && a[..k] == b[..k]
    && k < |b| && (k < |a| ==> a[k] < b[k])
  }

  ghost predicate IdPrecedes(a: string, b: string) {
    if IsNumeral(a) && IsNumeral(b) then Number(a) < Number(b)
    else if IsNumeral(a) || IsNumeral(b) then IsNumeral(a)
    else AsciiLess(a, b)
  }

  predicate SameId(a: string, b: string) {
    a == b || (IsNumeral(a) && IsNumeral(b) && Number(a) == Number(b))
  }

  ghost predicate ListPrecedesAt(l: seq<string>, r: seq<string>, k: nat) {
    && k <= |l| && k < |r|
    && (forall i :: 0 <= i < k ==> SameId(l[i], r[i]))
    && (k < |l| ==> IdPrecedes(l[k], r[k]))
  }

  ghost predicate ListPrecedes(l: seq<string>, r: seq<string>) {
    exists k: nat :: ListPrecedesAt(l, r, k)
  }

  ghost predicate PrereleasePrecedes(l: seq<string>, r: seq<string>) {
    l != [] && (r == [] || ListPrecedes(l, r))
  }

  ghost predicate Precedes(a: Semver, b: Semver) {
    || a.major < b.major
    || (a.major == b.major && a.minor < b.minor)
    || (a.major == b.major && a.minor == b.minor && a.patch < b.patch)
    || (SameCore(a, b) && PrereleasePrecedes(a.prerelease, b.prerelease))
  }

  predicate SameCore(a: Semver, b: Semver) {
    a.major == b.major && a.minor == b.minor && a.patch == b.patch
  }

  /** The collation orders the two lists' identifiers as their characters' codes do. */
  ghost predicate CollatesAscii(h: Host, l: seq<string>, r: seq<string>) {
    forall i :: 0 <= i < |l| && i < |r| ==>
      (h.collate(l[i], r[i]) > 0 <==> AsciiLess(r[i], l[i]))
  }

  /** The first different texts are numerals that read as one number: 1 and 01, or two too large to tell apart. */
  predicate Masked(h: Host, l: seq<string>, r: seq<string>) {
    var k := Common(l, r);
    && k < |l| && k < |r|
    && IsNumeral(l[k]) && IsNumeral(r[k]) && h.round(Number(l[k])) == h.round(Number(r[k]))
  }

  /** Lists of one length whose identifiers have the same precedence throughout. */
  predicate AllSame(l: seq<string>, r: seq<string>) {
    |l| == |r| && forall i :: 0 <= i < |l| ==> SameId(l[i], r[i])
  }

  /** Stopping at such a pair leaves section 11 unless everything from it on has one precedence. */
  predicate StopsEarly(h: Host, a: Semver, b: Semver) {
    SameCore(a, b) && Masked(h, a.prerelease, b.prerelease) && !AllSame(a.prerelease, b.prerelease)
  }

  /** The first different texts are no numerals, and the collation orders them otherwise than their characters' codes. */
  ghost predicate Miscollates(h: Host, a: Semver, b: Semver) {
    var l, r := a.prerelease, b.prerelease;
    var k := Common(l, r);
    && SameCore(a, b) && k < |l| && k < |r| && !IsNumeral(l[k]) && !IsNumeral(r[k])
    && !((h.collate(l[k], r[k]) > 0) <==> AsciiLess(r[k], l[k]))
  }

  /** The first different core numbers read as one number, and what follows them is not ordered as they are. */
  predicate Blurs(h: Host, a: Semver, b: Semver) {
    if a.major != b.major then
      h.round(a.major) == h.round(b.major)
      && CompareParsed(h, a.(major := 0), b.(major := 0)) != CompareNumber(a.major, b.major)
    else if a.minor != b.minor then
      h.round(a.minor) == h.round(b.minor)
      && CompareParsed(h, a.(minor := 0), b.(minor := 0)) != CompareNumber(a.minor, b.minor)
    else
      a.patch != b.patch && h.round(a.patch) == h.round(b.patch)
      && ComparePrerelease(h, a.prerelease, b.prerelease) != CompareNumber(a.patch, b.patch)
  }

  ghost predicate MeetsSection11(h: Host, a: Semver, b: Semver) {
    && (CompareParsed(h, a, b) < 0 <==> Precedes(a, b))
    && (CompareParsed(h, a, b) > 0 <==> Precedes(b, a))
  }

  lemma AsciiDecides(a: string, b: string)
    requires a != b
    ensures AsciiLess(a, b) != AsciiLess(b, a)
  {
    var k := Common(a, b);
    assert a == a[..|a|] && b == b[..|b|];
    assert AsciiLessAt(a, b, k) || AsciiLessAt(b, a, k);
    if i: nat, j: nat :| AsciiLessAt(a, b, i) && AsciiLessAt(b, a, j) {
      AsciiAt(a, b, i);
      AsciiAt(b, a, j);
      CommonIs(b, a, k);
    }
  }

  lemma AsciiAt(a: string, b: string, k: nat)
    requires AsciiLessAt(a, b, k)
    ensures Common(a, b) == k
  {
    CommonIs(a, b, k);
  }

  lemma AsciiIrreflexive(a: string)
    ensures !AsciiLess(a, a)
  {
  }

  lemma IdPrecedesDecides(a: string, b: string)
    ensures SameId(a, b) ==> !IdPrecedes(a, b) && !IdPrecedes(b, a)
    ensures !SameId(a, b) ==> IdPrecedes(a, b) != IdPrecedes(b, a)
  {
    if a != b && !IsNumeral(a) && !IsNumeral(b) { AsciiDecides(a, b); }
    if a == b { AsciiIrreflexive(a); }
  }

  /** The first pair that does not have one precedence decides. */
  lemma ListDecidedAt(l: seq<string>, r: seq<string>, k: nat)
    requires k <= |l| && k <= |r| && forall i :: 0 <= i < k ==> SameId(l[i], r[i])
    requires k == |l| || k == |r| || !SameId(l[k], r[k])
    ensures ListPrecedes(l, r) <==> ListPrecedesAt(l, r, k)
  {
    if j: nat :| ListPrecedesAt(l, r, j) {
      if j < k { IdPrecedesDecides(l[j], r[j]); }
      assert j == k;
    }
  }

  /** The pair at the first different texts decides as section 11 does, if it is neither masked nor miscollated. */
  lemma ListMeetsSection11(h: Host, l: seq<string>, r: seq<string>)
    requires Doubles(h) && !Masked(h, l, r)
    ensures var k := Common(l, r);
            (k < |l| && k < |r| && !IsNumeral(l[k]) && !IsNumeral(r[k]) ==> (h.collate(l[k], r[k]) > 0 <==> AsciiLess(r[k], l[k])))
            <==> (Lex(h, l, r) < 0 <==> ListPrecedes(l, r)) && (Lex(h, l, r) > 0 <==> ListPrecedes(r, l))
  {
    var k := Common(l, r);
    assert forall i :: 0 <= i < k ==> l[..k][i] == r[..k][i];
    if k < |l| && k < |r| {
      UnmaskedDiffer(h, l[k], r[k]);
      IdPrecedesDecides(l[k], r[k]);
      if !IsNumeral(l[k]) && !IsNumeral(r[k]) { AsciiDecides(l[k], r[k]); }
    }
    ListDecidedAt(l, r, k);
    ListDecidedAt(r, l, k);
  }

  /** Numerals that read as different numbers are ordered as their exact numbers. */
  lemma UnmaskedDiffer(h: Host, a: string, b: string)
    requires Doubles(h) && a != b && !(IsNumeral(a) && IsNumeral(b) && h.round(Number(a)) == h.round(Number(b)))
    ensures !SameId(a, b)
    ensures IsNumeral(a) && IsNumeral(b) ==> CompareNumber(h.round(Number(a)), h.round(Number(b))) == CompareNumber(Number(a), Number(b))
  {
  }

  /** Whatever is not the same throughout, section 11 orders. */
  lemma {:induction false} SectionOrders(l: seq<string>, r: seq<string>, k: nat)
    requires k <= |l| && k <= |r| && forall i :: 0 <= i < k ==> SameId(l[i], r[i])
    ensures AllSame(l, r) <==> !ListPrecedes(l, r) && !ListPrecedes(r, l)
    decreases |l| - k
  {
    if k < |l| && k < |r| && SameId(l[k], r[k]) {
      SectionOrders(l, r, k + 1);
    } else {
      ListDecidedAt(l, r, k);
      ListDecidedAt(r, l, k);
      if k < |l| && k < |r| { IdPrecedesDecides(l[k], r[k]); }
    }
  }

  /** Versions with one core. */
  lemma SameCoreMeets(h: Host, a: Semver, b: Semver)
    requires Doubles(h) && SameCore(a, b)
    ensures MeetsSection11(h, a, b) <==> !StopsEarly(h, a, b) && !Miscollates(h, a, b)
  {
    var l, r := a.prerelease, b.prerelease;
    if l != [] && r != [] {
      if Masked(h, l, r) {
        SectionOrders(l, r, 0);
        assert Lex(h, l, r) == 0;
      } else {
        ListMeetsSection11(h, l, r);
      }
    }
  }

  lemma RoundedOrder(h: Host, a: nat, b: nat)
    requires Doubles(h) && h.round(a) != h.round(b)
    ensures CompareNumber(h.round(a), h.round(b)) == CompareNumber(a, b)
  {
  }

  /** Versions with different cores. */
  lemma OtherCoreMeets(h: Host, a: Semver, b: Semver)
    requires Doubles(h) && !SameCore(a, b)
    ensures MeetsSection11(h, a, b) <==> !Blurs(h, a, b)
  {
    if h.round(a.major) != h.round(b.major) { RoundedOrder(h, a.major, b.major); }
    if h.round(a.minor) != h.round(b.minor) { RoundedOrder(h, a.minor, b.minor); }
    if h.round(a.patch) != h.round(b.patch) { RoundedOrder(h, a.patch, b.patch); }
  }

  /** The code compares as section 11 does exactly when it does not stop at two spellings or roundings of one
      number with a later difference, does not collate the deciding texts against their characters' codes, and
      does not go on past core numbers too large to tell apart. */
  lemma ComparesAsSection11(h: Host, a: Semver, b: Semver)
    requires Doubles(h)
    ensures MeetsSection11(h, a, b) <==> !StopsEarly(h, a, b) && !Miscollates(h, a, b) && !Blurs(h, a, b)
  {
    if SameCore(a, b) { SameCoreMeets(h, a, b); } else { OtherCoreMeets(h, a, b); }
  }

  /** On texts whose first difference a locale collates by letter, such as alpha before Beta, the code leaves section
      11 exactly if the collation and the codes disagree. */
  lemma CollationDecides(h: Host, a: Semver, b: Semver, k: nat)
    requires Doubles(h) && SameCore(a, b) && k < |a.prerelease| && k < |b.prerelease|
    requires a.prerelease[..k] == b.prerelease[..k] && a.prerelease[k] != b.prerelease[k]
    requires !IsNumeral(a.prerelease[k]) && !IsNumeral(b.prerelease[k])
    ensures MeetsSection11(h, a, b)
       <==> (h.collate(a.prerelease[k], b.prerelease[k]) > 0 <==> AsciiLess(b.prerelease[k], a.prerelease[k]))
  {
    CommonIs(a.prerelease, b.prerelease, k);
    ComparesAsSection11(h, a, b);
  }

  lemma BetaBeforeAlpha()
    ensures AsciiLess("Beta", "alpha") && !AsciiLess("alpha", "Beta")
  {
    assert AsciiLessAt("Beta", "alpha", 0);
    AsciiDecides("alpha", "Beta");
  }

  /** So 1.0.0-alpha and 1.0.0-Beta are compared against section 11 exactly by the collations that put alpha first. */
  lemma MixedCaseLeavesSection11(h: Host)
    requires Doubles(h)
    ensures MeetsSection11(h, Semver(1, 0, 0, ["alpha"]), Semver(1, 0, 0, ["Beta"])) <==> h.collate("alpha", "Beta") > 0
  {
    var a, b := Semver(1, 0, 0, ["alpha"]), Semver(1, 0, 0, ["Beta"]);
    assert "alpha"[0] == 'a' && "Beta"[0] == 'B';
    BetaBeforeAlpha();
    CollationDecides(h, a, b, 0);
  }

  predicate NoLeadingZeros(ids: seq<string>) {
    forall i :: 0 <= i < |ids| ==> !(IsNumeral(ids[i]) && LeadingZero(ids[i]))
  }

  /** The engine holds every numeric identifier exactly. */
  predicate Held(h: Host, ids: seq<string>) {
    forall i :: 0 <= i < |ids| && IsNumeral(ids[i]) ==> h.round(Number(ids[i])) == Number(ids[i])
  }

  /** Numeric identifiers as section 9 of SemVer 2.0.0 wants them, and small enough to be held exactly. */
  predicate Clear(h: Host, ids: seq<string>) { NoLeadingZeros(ids) && Held(h, ids) }

  predicate HeldCore(h: Host, v: Semver) {
    h.round(v.major) == v.major && h.round(v.minor) == v.minor && h.round(v.patch) == v.patch
  }

  /** Such versions are compared as section 11 does wherever the collation goes by character code. */
  lemma WellFormedMeetsSection11(h: Host, left: string, right: string)
    requires Doubles(h) && IsVersion(left) && IsVersion(right)
    requires Clear(h, Parsed(left).prerelease) && Clear(h, Parsed(right).prerelease)
    requires HeldCore(h, Parsed(left)) && HeldCore(h, Parsed(right))
    requires CollatesAscii(h, Parsed(left).prerelease, Parsed(right).prerelease)
    ensures Compare(h, left, right) < 0 <==> Precedes(Parsed(left), Parsed(right))
    ensures Compare(h, left, right) > 0 <==> Precedes(Parsed(right), Parsed(left))
  {
    var a, b := Parsed(left), Parsed(right);
    NeverMasked(h, a.prerelease, b.prerelease);
    ComparesAsSection11(h, a, b);
  }

  lemma NeverMasked(h: Host, l: seq<string>, r: seq<string>)
    requires Clear(h, l) && Clear(h, r)
    ensures !Masked(h, l, r)
  {
    var k := Common(l, r);
    if Masked(h, l, r) { NumberIsInjective(l[k], r[k]); }
  }

  /** Build metadata has no part in the comparison (section 10). */
  lemma BuildIsNotCompared(h: Host, left: string, right: string, build: string)
    requires '+' !in left && IsVersion(left + ['+'] + build) && IsVersion(right)
    ensures IsVersion(left)
    ensures Compare(h, left + ['+'] + build, right) == Compare(h, left, right)
    ensures Compare(h, right, left + ['+'] + build) == Compare(h, right, left)
  {
    BuildIsIgnored(left, build);
  }

  // ---------------------------------------------------------------- the order it makes

  /** The collation is a strict order on the identifiers of versions. */
  ghost predicate Orders(h: Host) {
    && (forall a, b :: IsIdentifier(a) && IsIdentifier(b) && a != b ==> (h.collate(a, b) > 0) != (h.collate(b, a) > 0))
    && (forall a, b, c :: Descending(h, a, b, c) ==> a != c && h.collate(a, c) > 0)
  }

  predicate Descending(h: Host, a: string, b: string, c: string) {
    && IsIdentifier(a) && IsIdentifier(b) && IsIdentifier(c)
    && h.collate(a, b) > 0 && h.collate(b, c) > 0
  }

  lemma Antisymmetric(h: Host, a: Semver, b: Semver)
    requires Orders(h) && AreIdentifiers(a.prerelease) && AreIdentifiers(b.prerelease)
    ensures CompareParsed(h, b, a) == -CompareParsed(h, a, b)
  {
    var l, r := a.prerelease, b.prerelease;
    var k := Common(l, r);
    CommonIs(r, l, k);
  }

  lemma IdChain(h: Host, a: string, b: string, c: string)
    requires Orders(h) && IsIdentifier(a) && IsIdentifier(b) && IsIdentifier(c)
    requires a != b && b != c && IdOrder(h, a, b) <= 0 && IdOrder(h, b, c) < 0
    ensures a != c && IdOrder(h, a, c) < 0
  {
    if !IsNumeral(a) && !IsNumeral(b) && !IsNumeral(c) { assert Descending(h, c, b, a); }
  }

  lemma LexChain(h: Host, a: seq<string>, b: seq<string>, c: seq<string>)
    requires Orders(h) && AreIdentifiers(a) && AreIdentifiers(b) && AreIdentifiers(c)
    requires Lex(h, a, b) <= 0 && Lex(h, b, c) < 0
    ensures Lex(h, a, c) <= 0
    ensures Lex(h, a, b) < 0 || !Masked(h, a, b) ==> Lex(h, a, c) < 0
  {
    var i, j := Common(a, b), Common(b, c);
    var k := if i < j then i else j;
    assert a[..k] == a[..i][..k] && b[..k] == b[..i][..k] && b[..k] == b[..j][..k] && c[..k] == c[..j][..k];
    if i < j && i < |b| { assert b[i] == b[..j][i] && c[i] == c[..j][i]; }
    if j < i { assert a[j] == a[..i][j] && b[j] == b[..i][j]; }
    CommonIs(a, c, k);
    if i == j && k < |a| && k < |b| && k < |c| { IdChain(h, a[k], b[k], c[k]); }
  }

  /** Not after one version and that before another: not after the other, leading zeros or not. */
  lemma Chain(h: Host, a: Semver, b: Semver, c: Semver)
    requires Orders(h) && AreIdentifiers(a.prerelease) && AreIdentifiers(b.prerelease) && AreIdentifiers(c.prerelease)
    requires CompareParsed(h, a, b) <= 0 && CompareParsed(h, b, c) < 0
    ensures CompareParsed(h, a, c) <= 0
  {
    if a.prerelease != [] && b.prerelease != [] && c.prerelease != [] && CompareCore(h, a, b) == 0 && CompareCore(h, b, c) == 0 {
      LexChain(h, a.prerelease, b.prerelease, c.prerelease);
    }
  }

  /** A version as the engine holds it. */
  function Rounded(h: Host, v: Semver): Semver {
    v.(major := h.round(v.major), minor := h.round(v.minor), patch := h.round(v.patch))
  }

  lemma TiesAreEqual(h: Host, a: Semver, b: Semver)
    requires Clear(h, a.prerelease) && Clear(h, b.prerelease)
    ensures CompareParsed(h, a, b) == 0 <==> Rounded(h, a) == Rounded(h, b)
  {
    var l, r := a.prerelease, b.prerelease;
    NeverMasked(h, l, r);
    var k := Common(l, r);
    if k == |l| && k == |r| { assert l == l[..k] && r == r[..k]; }
    if l == r { CommonIs(l, r, |l|); }
  }

  /** On versions with clear identifiers the comparison is a total order of what the engine holds of them. */
  lemma TotalOrder(h: Host, left: string, middle: string, right: string)
    requires Orders(h) && IsVersion(left) && IsVersion(middle) && IsVersion(right)
    requires Clear(h, Parsed(left).prerelease) && Clear(h, Parsed(middle).prerelease) && Clear(h, Parsed(right).prerelease)
    ensures Compare(h, left, right) == 0 <==> Rounded(h, Parsed(left)) == Rounded(h, Parsed(right))
    ensures Compare(h, right, left) == -Compare(h, left, right)
    ensures Compare(h, left, middle) <= 0 && Compare(h, middle, right) <= 0 ==> Compare(h, left, right) <= 0
  {
    var a, b, c := Parsed(left), Parsed(middle), Parsed(right);
    TiesAreEqual(h, a, c);
    Antisymmetric(h, a, c);
    TiesAndChains(h, a, b, c);
  }

  lemma TiesAndChains(h: Host, a: Semver, b: Semver, c: Semver)
    requires Orders(h) && AreIdentifiers(a.prerelease) && AreIdentifiers(b.prerelease) && AreIdentifiers(c.prerelease)
    requires Clear(h, b.prerelease) && Clear(h, c.prerelease)
    ensures CompareParsed(h, a, b) <= 0 && CompareParsed(h, b, c) <= 0 ==> CompareParsed(h, a, c) <= 0
  {
    TiesAreEqual(h, b, c);
    if CompareParsed(h, a, b) <= 0 && CompareParsed(h, b, c) < 0 { Chain(h, a, b, c); }
  }

  /** With leading zeros ties are not transitive: 1.3 and 01.9 tie, 01.9 and 1.1 tie, yet 1.3 comes after 1.1. */
  lemma TiesAreNotTransitive(h: Host)
    requires Doubles(h)
    ensures var a, b, c := Semver(1, 0, 0, ["1", "3"]), Semver(1, 0, 0, ["01", "9"]), Semver(1, 0, 0, ["1", "1"]);
            && (forall v :: v in {a, b, c} ==> Printable(v))
            && CompareParsed(h, a, b) == 0 && CompareParsed(h, b, c) == 0 && CompareParsed(h, a, c) == 1
            && StopsEarly(h, a, b)
  {
    assert Number("1") == 1 && Number("3") == 3 && Number("9") == 9;
    assert "01"[..1] == "0" && Number("0") == 0 && Number("01") == 1;
    var a, b, c := ["1", "3"], ["01", "9"], ["1", "1"];
    CommonIs(a, b, 0);
    CommonIs(b, c, 0);
    CommonIs(a, c, 1);
  }
}
