/**
 Canonical release versions and the catalogues that point at them: their PEP 440 order, the successor
 check between catalogue generations, and the version a channel offers.
 */
module Releases {
  import opened Wrappers

  // ---- decimal numbers ----

  predicate IsDigit(c: char) {
    '0' <= c <= '9'
  }

  predicate AllDigits(s: string) {
    forall i :: 0 <= i < |s| ==> IsDigit(s[i])
  }

  function Digits(n: nat): (s: string)
    ensures s != [] && AllDigits(s)
  {
    (if n < 10 then [] else Digits(n / 10)) + [('0' as int + n % 10) as char]
  }

  function Value(s: string): nat
    requires AllDigits(s)
  {
    if s == [] then 0 else 10 * Value(s[..|s| - 1]) + (s[|s| - 1] as int - '0' as int)
  }

  lemma {:induction false} ValueOfDigits(n: nat)
    ensures Value(Digits(n)) == n
  {
    var s := Digits(n);
    if n < 10 {
      assert s[..|s| - 1] == [];
    } else {
      assert s[..|s| - 1] == Digits(n / 10);
      ValueOfDigits(n / 10);
    }
  }

  // ---- release_version ----

  /** PEP 440 puts development releases before the final release and post-releases after it. */
  datatype Suffix = Dev(n: nat) | Final | Post(n: nat) {
    function Rank(): int {
      match this
      case Dev(_) => -1
      case Final => 0
      case Post(_) => 1
    }

    function Number(): nat {
      if Final? then 0 else n
    }
  }

  datatype Version = Version(major: nat, minor: nat, micro: nat, suffix: Suffix) {
    predicate Below(other: Version) {
      || major < other.major
      || (major == other.major && minor < other.minor)
      || (major == other.major && minor == other.minor && micro < other.micro)
      || (major == other.major && minor == other.minor && micro == other.micro
          && (suffix.Rank() < other.suffix.Rank()
              || (suffix.Rank() == other.suffix.Rank() && suffix.Number() < other.suffix.Number())))
    }

    predicate IsDev() {
      suffix.Dev?
    }
  }

  /** How packaging prints a version of this shape. */
  function Canonical(v: Version): string {
    Digits(v.major) + "." + (Digits(v.minor) + "." + (Digits(v.micro) + SuffixText(v.suffix)))
  }

  function SuffixText(s: Suffix): string {
    match s
    case Dev(n) => ".dev" + Digits(n)
    case Final => ""
    case Post(n) => ".post" + Digits(n)
  }

  function DigitRun(s: string): (n: nat)
    ensures n <= |s| && AllDigits(s[..n])
  {
    if s != [] && IsDigit(s[0]) then
      assert s[..1 + DigitRun(s[1..])] == [s[0]] + s[1..][..DigitRun(s[1..])];
      1 + DigitRun(s[1..])
    else 0
  }

  function Number(s: string): Option<(nat, string)> {
    if DigitRun(s) == 0 then None else Some((Value(s[..DigitRun(s)]), s[DigitRun(s)..]))
  }

  function After(s: string, literal: string): Option<string> {
    if literal <= s then Some(s[|literal|..]) else None
  }

  function ParseSuffix(s: string): Option<Suffix> {
    if s == "" then Some(Final)
    else
      var dev, post := After(s, ".dev"), After(s, ".post");
      if dev.Some? && Number(dev.value).Some? && Number(dev.value).value.1 == "" then Some(Dev(Number(dev.value).value.0))
      else if post.Some? && Number(post.value).Some? && Number(post.value).value.1 == "" then
        Some(Post(Number(post.value).value.0))
      else None
  }

  /** A number and the dot behind it. */
  function Dotted(s: string): Option<(nat, string)> {
    match Number(s)
    case None => None
    case Some((n, rest)) => (match After(rest, ".") case None => None case Some(tail) => Some((n, tail)))
  }

  /** The pattern release_version matches, leading zeros and all. */
  function Parse(s: string): Option<Version> {
    match Dotted(s)
    case None => None
    case Some((major, rest)) =>
      match Dotted(rest)
      case None => None
      case Some((minor, rest2)) =>
        match Number(rest2)
        case None => None
        case Some((micro, tail)) =>
          match ParseSuffix(tail)
          case None => None
          case Some(suffix) => Some(Version(major, minor, micro, suffix))
  }

  function ReleaseVersion(s: string): Option<Version> {
    var v := Parse(s);
    if v.Some? && Canonical(v.value) == s then v else None
  }

  lemma {:induction false} RunStops(digits: string, rest: string)
    requires AllDigits(digits) && (rest == [] || !IsDigit(rest[0]))
    ensures DigitRun(digits + rest) == |digits|
  {
    if digits == [] {
      assert digits + rest == rest;
    } else {
      assert (digits + rest)[0] == digits[0] && (digits + rest)[1..] == digits[1..] + rest;
      RunStops(digits[1..], rest);
    }
  }

  lemma NumberReads(n: nat, rest: string)
    requires rest == [] || !IsDigit(rest[0])
    ensures Number(Digits(n) + rest) == Some((n, rest))
  {
    RunStops(Digits(n), rest);
    assert (Digits(n) + rest)[..|Digits(n)|] == Digits(n) && (Digits(n) + rest)[|Digits(n)|..] == rest;
    ValueOfDigits(n);
  }

  lemma DottedReads(n: nat, rest: string)
    ensures Dotted(Digits(n) + "." + rest) == Some((n, rest))
  {
    assert Digits(n) + "." + rest == Digits(n) + ("." + rest);
    NumberReads(n, "." + rest);
    assert ("." + rest)[1..] == rest;
  }

  lemma SuffixReads(s: Suffix)
    ensures ParseSuffix(SuffixText(s)) == Some(s)
  {
    match s
    case Final =>
    case Dev(n) =>
      NumberReads(n, "");
      assert Digits(n) + "" == Digits(n) && (".dev" + Digits(n))[4..] == Digits(n);
    case Post(n) =>
      NumberReads(n, "");
      assert Digits(n) + "" == Digits(n) && (".post" + Digits(n))[5..] == Digits(n);
      assert SuffixText(s)[1] == 'p';
  }

  /** Every version's canonical text is accepted and read back, and nothing else is accepted. */
  lemma ReleaseVersionIsExact(s: string, v: Version)
    ensures ReleaseVersion(s) == Some(v) <==> s == Canonical(v)
  {
    var tail := Digits(v.micro) + SuffixText(v.suffix);
    DottedReads(v.major, Digits(v.minor) + "." + tail);
    DottedReads(v.minor, tail);
    NumberReads(v.micro, SuffixText(v.suffix));
    SuffixReads(v.suffix);
    assert Canonical(v) == Digits(v.major) + "." + (Digits(v.minor) + "." + tail);
    assert Parse(Canonical(v)) == Some(v);
  }

  /** So versions may be compared by their texts, as the catalogue does. */
  lemma CanonicalIsInjective(v: Version, w: Version)
    ensures Canonical(v) == Canonical(w) <==> v == w
  {
    ReleaseVersionIsExact(Canonical(v), v);
    ReleaseVersionIsExact(Canonical(v), w);
  }

  // ---- catalogues ----

  /** Versions are compared as parsed; by CanonicalIsInjective equal texts and equal versions are the same. */
  datatype Pointer = Pointer(version: Version, commit: string, manifest: string)

  datatype Catalogue = Catalogue(generation: nat, stable: Option<Pointer>, preview: Option<Pointer>, withdrawn: map<Version, string>)

  /** What parsing a catalogue guarantees about its pointers. */
  predicate Valid(c: Catalogue) {
    && c.generation > 0
    && (c.stable.Some? ==> !c.stable.value.version.IsDev())
    && (c.preview.Some? ==> c.preview.value.version.IsDev())
  }

  /** One channel's pointer may stay or move to a newer version. */
  predicate Moves(before: Option<Pointer>, after: Option<Pointer>) {
    before.Some? ==>
      && after.Some?
      && !after.value.version.Below(before.value.version)
      && (after.value.version == before.value.version ==> after == before)
  }

  /** validate_successor accepts `after` over `before`. */
  predicate Succeeds(after: Catalogue, before: Catalogue) {
    && after.generation >= before.generation
    && (after.generation == before.generation ==> after == before)
    && before.withdrawn.Keys <= after.withdrawn.Keys
    && Moves(before.stable, after.stable) && Moves(before.preview, after.preview)
  }

  lemma VersionsAreOrdered(v: Version, w: Version)
    ensures v.Below(w) || w.Below(v) || v == w
    ensures !(v.Below(w) && w.Below(v)) && !v.Below(v)
  {
    if !v.Below(w) && !w.Below(v) {
      assert v.suffix.Rank() == w.suffix.Rank() && v.suffix.Number() == w.suffix.Number();
      assert v.suffix == w.suffix;
    }
  }

  lemma BelowIsTransitive(a: Version, b: Version, c: Version)
    requires a.Below(b) && b.Below(c)
    ensures a.Below(c)
  {
  }

  lemma NotBelowChains(a: Version, b: Version, c: Version)
    requires !b.Below(a) && !c.Below(b)
    ensures !c.Below(a) && (a == c ==> a == b)
  {
    VersionsAreOrdered(a, b);
    VersionsAreOrdered(b, c);
    VersionsAreOrdered(a, c);
    if a.Below(b) && b.Below(c) { BelowIsTransitive(a, b, c); }
  }

  lemma SuccessionIsReflexive(c: Catalogue)
    ensures Succeeds(c, c)
  {
    if c.stable.Some? { VersionsAreOrdered(c.stable.value.version, c.stable.value.version); }
    if c.preview.Some? { VersionsAreOrdered(c.preview.value.version, c.preview.value.version); }
  }

  lemma SuccessionIsAntisymmetric(a: Catalogue, b: Catalogue)
    requires Succeeds(a, b) && Succeeds(b, a)
    ensures a == b
  {
  }

  lemma MovesAreTransitive(a: Option<Pointer>, b: Option<Pointer>, c: Option<Pointer>)
    requires Moves(a, b) && Moves(b, c)
    ensures Moves(a, c)
  {
    if a.Some? { NotBelowChains(a.value.version, b.value.version, c.value.version); }
  }

  lemma SuccessionIsTransitive(a: Catalogue, b: Catalogue, c: Catalogue)
    requires Succeeds(b, a) && Succeeds(c, b)
    ensures Succeeds(c, a)
  {
    MovesAreTransitive(a.stable, b.stable, c.stable);
    MovesAreTransitive(a.preview, b.preview, c.preview);
  }

  // ---- what a channel offers ----

  datatype Channel = Stable | Preview

  predicate Eligible(c: Catalogue, p: Option<Pointer>) {
    p.Some? && p.value.version !in c.withdrawn
  }

  /** latest: the newest eligible candidate, the stable one where they tie. */
  function Latest(c: Catalogue, channel: Channel): Option<Pointer> {
    var stable := if Eligible(c, c.stable) then c.stable else None;
    var preview := if channel.Preview? && Eligible(c, c.preview) then c.preview else None;
    if stable.None? then preview
    else if preview.None? then stable
    else if stable.value.version.Below(preview.value.version) then preview else stable
  }

  /** A successor never offers what was withdrawn before. */
  lemma WithdrawnIsNeverOfferedAgain(before: Catalogue, after: Catalogue, channel: Channel, version: Version)
    requires Succeeds(after, before) && version in before.withdrawn
    ensures Latest(after, channel).Some? ==> Latest(after, channel).value.version != version
  {
  }

  /** The offer is an eligible candidate, and none of the channel's eligible candidates is newer. */
  lemma LatestIsNewest(c: Catalogue, channel: Channel, p: Option<Pointer>)
    requires Eligible(c, p) && (p == c.stable || (channel.Preview? && p == c.preview))
    ensures var offer := Latest(c, channel);
            && Eligible(c, offer) && (offer == c.stable || (channel.Preview? && offer == c.preview))
            && !offer.value.version.Below(p.value.version)
  {
    VersionsAreOrdered(p.value.version, p.value.version);
    VersionsAreOrdered(Latest(c, channel).value.version, p.value.version);
  }

  /** While a channel's candidates stay eligible, a later catalogue never offers an older version. */
  lemma OffersNeverRegress(before: Catalogue, after: Catalogue, channel: Channel)
    requires Succeeds(after, before) && Latest(before, channel).Some?
    requires Eligible(before, before.stable) ==> Eligible(after, after.stable)
    requires Eligible(before, before.preview) ==> Eligible(after, after.preview)
    ensures Latest(after, channel).Some?
    ensures !Latest(after, channel).value.version.Below(Latest(before, channel).value.version)
  {
    var offer := Latest(before, channel);
    var moved := if offer == before.stable then after.stable else after.preview;
    assert Eligible(before, offer) && Moves(offer, moved);
    LatestIsNewest(after, channel, moved);
    NotBelowChains(offer.value.version, moved.value.version, Latest(after, channel).value.version);
  }
}
