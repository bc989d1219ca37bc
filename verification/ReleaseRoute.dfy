/** Release tags and package versions: one shape, three grammars, an order. */
module ReleaseRoute {
  import opened Common
  import opened Sorting

  predicate IsDigit(c: char) {
    '0' <= c <= '9'
  }

  predicate AllDigits(s: string, digit: char -> bool) {
    forall i :: 0 <= i < |s| ==> digit(s[i])
  }

  datatype Stage = Alpha | Beta | Rc

  /** The stage as the identifier it is in a tag. */
  function StageName(s: Stage): string {
    match s
    case Alpha => "alpha"
    case Beta => "beta"
    case Rc => "rc"
  }

  function TagMark(s: Stage): string {
    "-" + StageName(s) + "."
  }

  function VersionMark(s: Stage): string {
    match s
    case Alpha => "a"
    case Beta => "b"
    case Rc => "rc"
  }

  /** How a release is written: the mark of each stage, what counts as a digit, whether numbers may start with zeros. */
  datatype Grammar = Grammar(mark: Stage -> string, digit: char -> bool, zeros: bool)

  const TAGS := Grammar(TagMark, IsDigit, false)

  const VERSIONS := Grammar(VersionMark, IsDigit, false)

  /** The display versions the evidence collector reads, under its engine's idea of a digit. */
  function Displays(digit: char -> bool): Grammar {
    Grammar(TagMark, digit, true)
  }

  predicate Number(s: string, g: Grammar) {
    s != [] && AllDigits(s, g.digit) && (g.zeros || s[0] != '0' || |s| == 1)
  }

  function Value(s: string): nat
    requires AllDigits(s, IsDigit)
  {
    if s == [] then 0 else 10 * Value(Init(s)) + (Last(s) as int - '0' as int)
  }

  /** A release, its numbers as they were written. */
  datatype Release = Release(major: string, minor: string, patch: string, pre: Option<(Stage, string)>)

  predicate Fits(r: Release, g: Grammar) {
    && Number(r.major, g) && Number(r.minor, g) && Number(r.patch, g)
    && (r.pre.Some? ==> Number(r.pre.value.1, g))
  }

  /** A release both closed grammars can write. */
  predicate ValidRelease(r: Release) {
    Fits(r, TAGS)
  }

  function Core(major: string, minor: string, patch: string): string {
    major + "." + minor + "." + patch
  }

  function Suffix(pre: Option<(Stage, string)>, g: Grammar): string {
    if pre.None? then "" else g.mark(pre.value.0) + pre.value.1
  }

  function Spell(r: Release, g: Grammar): string {
    Core(r.major, r.minor, r.patch) + Suffix(r.pre, g)
  }

  /** The display spelling: a tag without its leading letter. */
  function Display(r: Release): string {
    Spell(r, TAGS)
  }

  function Tag(r: Release): string {
    "v" + Display(r)
  }

  function Version(r: Release): string {
    Spell(r, VERSIONS)
  }

  // ------------------------------------------------------- parsing

  /** The longest leading run of digits, and the rest. */
  function Scan(s: string, digit: char -> bool): (r: (string, string))
    ensures r.0 + r.1 == s
  {
    if s == [] || !digit(s[0]) then ([], s)
    else
      var (digits, rest) := Scan(s[1..], digit);
      assert s == [s[0]] + (digits + rest);
      ([s[0]] + digits, rest)
  }

  lemma {:induction false} ScanDigits(digits: string, rest: string, digit: char -> bool)
    requires AllDigits(digits, digit) && (rest != [] ==> !digit(rest[0]))
    ensures Scan(digits + rest, digit) == (digits, rest)
  {
    if digits == [] {
      assert digits + rest == rest;
    } else {
      assert (digits + rest)[1..] == digits[1..] + rest;
      ScanDigits(digits[1..], rest, digit);
      assert digits == [digits[0]] + digits[1..];
    }
  }

  function After(prefix: string, s: string): (r: Option<string>)
    ensures r.Some? ==> prefix + r.value == s
  {
    if prefix <= s then Some(s[|prefix|..]) else None
  }

  lemma AfterPrefix(prefix: string, rest: string)
    ensures After(prefix, prefix + rest) == Some(rest)
  {
  }

  /** A number at the front of `s`, and the rest. */
  function ParseNumber(s: string, g: Grammar): (r: Option<(string, string)>)
    ensures r.Some? ==> Number(r.value.0, g) && r.value.0 + r.value.1 == s
  {
    var (digits, rest) := Scan(s, g.digit);
    if Number(digits, g) then Some((digits, rest)) else None
  }

  /** A number, a dot and more. */
  function ParseDotted(s: string, g: Grammar): (r: Option<(string, string)>)
    ensures r.Some? ==> Number(r.value.0, g) && r.value.0 + "." + r.value.1 == s
  {
    match ParseNumber(s, g)
    case None => None
    case Some((n, rest)) => if After(".", rest).Some? then Some((n, rest[1..])) else None
  }

  /** The three numbers at the front of `s`, and the rest. */
  function ParseCore(s: string, g: Grammar): (r: Option<(string, string, string, string)>)
    ensures r.Some? ==> Number(r.value.0, g) && Number(r.value.1, g) && Number(r.value.2, g)
    ensures r.Some? ==> s == Core(r.value.0, r.value.1, r.value.2) + r.value.3
  {
    match ParseDotted(s, g)
    case None => None
    case Some((major, s1)) =>
      match ParseDotted(s1, g)
      case None => None
      case Some((minor, s2)) =>
        match ParseNumber(s2, g)
        case None => None
        case Some((patch, rest)) => Some((major, minor, patch, rest))
  }

  /** Nothing, or a mark and a number up to the end. */
  function ParsePre(s: string, g: Grammar): (r: Option<Option<(Stage, string)>>)
    ensures r.Some? ==> s == Suffix(r.value, g) && (r.value.Some? ==> Number(r.value.value.1, g))
  {
    if s == "" then Some(None)
    else
      var stage := if g.mark(Alpha) <= s then Some(Alpha) else if g.mark(Beta) <= s then Some(Beta)
                   else if g.mark(Rc) <= s then Some(Rc) else None;
      if stage.Some? && Number(s[|g.mark(stage.value)|..], g)
      then Some(Some((stage.value, s[|g.mark(stage.value)|..]))) else None
  }

  /** Whatever parses is written again as it was. */
  function Parse(s: string, g: Grammar): (r: Option<Release>)
    ensures r.Some? ==> Fits(r.value, g) && Spell(r.value, g) == s
  {
    match ParseCore(s, g)
    case None => None
    case Some((major, minor, patch, rest)) =>
      match ParsePre(rest, g)
      case None => None
      case Some(pre) => Some(Release(major, minor, patch, pre))
  }

  /** Marks start outside the digits, none starts another, and the dot is no digit. */
  ghost predicate Clear(g: Grammar) {
    && !g.digit('.')
    && (forall s :: g.mark(s) != [] && !g.digit(g.mark(s)[0]))
    && forall s, t, rest: string :: s != t ==> !(g.mark(s) <= g.mark(t) + rest)
  }

  lemma MarksApart(s: Stage, t: Stage, rest: string)
    requires s != t
    ensures !(TagMark(s) <= TagMark(t) + rest) && !(VersionMark(s) <= VersionMark(t) + rest)
  {
    assert TagMark(s)[1] != (TagMark(t) + rest)[1];
    assert VersionMark(s)[0] != (VersionMark(t) + rest)[0];
  }

  lemma GrammarsClear(digit: char -> bool)
    requires !digit('.') && !digit('-')
    ensures Clear(TAGS) && Clear(VERSIONS) && Clear(Displays(digit))
  {
    forall s: Stage, t: Stage, rest: string | s != t
      ensures !(TagMark(s) <= TagMark(t) + rest) && !(VersionMark(s) <= VersionMark(t) + rest)
    {
      MarksApart(s, t, rest);
    }
  }

  lemma ParseNumberOf(n: string, rest: string, g: Grammar)
    requires Number(n, g) && (rest != [] ==> !g.digit(rest[0]))
    ensures ParseNumber(n + rest, g) == Some((n, rest))
  {
    ScanDigits(n, rest, g.digit);
  }

  lemma ParseDottedOf(n: string, rest: string, g: Grammar)
    requires Number(n, g) && !g.digit('.')
    ensures ParseDotted(n + "." + rest, g) == Some((n, rest))
  {
    ParseNumberOf(n, "." + rest, g);
    assert n + "." + rest == n + ("." + rest);
    AfterPrefix(".", rest);
  }

  lemma ParseCoreOf(major: string, minor: string, patch: string, rest: string, g: Grammar)
    requires Number(major, g) && Number(minor, g) && Number(patch, g) && !g.digit('.')
    requires rest != [] ==> !g.digit(rest[0])
    ensures ParseCore(Core(major, minor, patch) + rest, g) == Some((major, minor, patch, rest))
  {
    hide Number, ParseNumber;
    var s2 := patch + rest;
    var s1 := minor + "." + s2;
    assert Core(major, minor, patch) + rest == major + "." + s1;
    ParseDottedOf(major, s1, g);
    ParseDottedOf(minor, s2, g);
    ParseNumberOf(patch, rest, g);
  }

  lemma SuffixStart(pre: Option<(Stage, string)>, g: Grammar)
    requires Clear(g)
    ensures !g.digit('.') && (Suffix(pre, g) != [] ==> !g.digit(Suffix(pre, g)[0]))
  {
    if pre.Some? {
      assert Suffix(pre, g)[0] == g.mark(pre.value.0)[0];
    }
  }

  lemma ParsePreOf(pre: Option<(Stage, string)>, g: Grammar)
    requires Clear(g) && (pre.Some? ==> Number(pre.value.1, g))
    ensures ParsePre(Suffix(pre, g), g) == Some(pre)
  {
    hide Number;
    if pre.Some? {
      AfterPrefix(g.mark(pre.value.0), pre.value.1);
    }
  }

  /** Parsing reads back exactly the release that was spelled. */
  lemma ParseSpelled(r: Release, g: Grammar)
    requires Fits(r, g) && Clear(g)
    ensures Parse(Spell(r, g), g) == Some(r)
  {
    hide Clear, Core, Number, ParseCore, ParsePre, Suffix;
    SuffixStart(r.pre, g);
    ParseCoreOf(r.major, r.minor, r.patch, Suffix(r.pre, g), g);
    ParsePreOf(r.pre, g);
  }

  // ------------------------------------------------------- routes

  datatype Route = Route(tag: string, version: string, hardened: bool, prerelease: bool)

  type Triple = (nat, nat, nat)

  predicate TripleLt(a: Triple, b: Triple) {
    a.0 < b.0 || (a.0 == b.0 && (a.1 < b.1 || (a.1 == b.1 && a.2 < b.2)))
  }

  function Numbers(r: Release): Triple
    requires ValidRelease(r)
  {
    (Value(r.major), Value(r.minor), Value(r.patch))
  }

  function RouteOf(r: Release): Route
    requires ValidRelease(r)
  {
    var hardened := !TripleLt(Numbers(r), (2, 1, 0))
                    && !(Numbers(r) == (2, 1, 0) && r.pre.Some? && r.pre.value.0 == Alpha && Value(r.pre.value.1) < 3);
    Route(Tag(r), Version(r), hardened, r.pre.Some?)
  }

  function FromTag(tag: string): Option<Route> {
    match After("v", tag)
    case None => None
    case Some(rest) =>
      match Parse(rest, TAGS)
      case None => None
      case Some(r) => Some(RouteOf(r))
  }

  function FromVersion(version: string): Option<Route> {
    match Parse(version, VERSIONS)
    case None => None
    case Some(r) => FromTag(Tag(r))
  }

  /** Whatever is spelled as a tag is found under that tag, and under its version too. */
  lemma SpelledIsFound(r: Release)
    requires ValidRelease(r)
    ensures FromTag(Tag(r)) == Some(RouteOf(r))
    ensures FromVersion(Version(r)) == Some(RouteOf(r))
  {
    hide Parse, Spell, Clear, RouteOf;
    GrammarsClear(IsDigit);
    ParseSpelled(r, TAGS);
    ParseSpelled(r, VERSIONS);
    AfterPrefix("v", Display(r));
  }

  /** From a tag to its version and back is the identity, and so is the other way round. */
  lemma TagVersionInverse(name: string)
    ensures FromTag(name).Some? ==>
              FromTag(name).value.tag == name && FromVersion(FromTag(name).value.version) == FromTag(name)
    ensures FromVersion(name).Some? ==>
              FromVersion(name).value.version == name && FromTag(FromVersion(name).value.tag) == FromVersion(name)
  {
    if FromTag(name).Some? {
      var r := Parse(After("v", name).value, TAGS).value;
      assert name == Tag(r);
      SpelledIsFound(r);
    }
    if Parse(name, VERSIONS).Some? {
      var r := Parse(name, VERSIONS).value;
      assert name == Version(r);
      SpelledIsFound(r);
    }
  }

  // ------------------------------------------------------- tags and versions, letter by letter

  /** The tag `tag` is found, and leads to this version. */
  predicate Leads(tag: string, version: string, prerelease: bool) {
    var route := FromTag(tag);
    route.Some? && route.value.tag == tag && route.value.version == version && route.value.prerelease == prerelease
  }

  lemma SpelledLeads(r: Release)
    requires ValidRelease(r)
    ensures Leads(Tag(r), Version(r), r.pre.Some?)
  {
    SpelledIsFound(r);
  }

  /** The four kinds of tag, and the version each has. */
  lemma TagsByName(major: string, minor: string, patch: string, n: string)
    requires Number(major, TAGS) && Number(minor, TAGS) && Number(patch, TAGS) && Number(n, TAGS)
    ensures var core := major + "." + minor + "." + patch;
            && Leads("v" + core, core, false)
            && Leads("v" + core + "-alpha." + n, core + "a" + n, true)
            && Leads("v" + core + "-beta." + n, core + "b" + n, true)
            && Leads("v" + core + "-rc." + n, core + "rc" + n, true)
  {
    hide Leads, Number;
    var core := major + "." + minor + "." + patch;
    var final := Release(major, minor, patch, None);
    SpelledLeads(final);
    assert Tag(final) == "v" + core && Version(final) == core;
    forall s: Stage ensures Leads("v" + core + TagMark(s) + n, core + VersionMark(s) + n, true) {
      var r := Release(major, minor, patch, Some((s, n)));
      SpelledLeads(r);
      assert Tag(r) == "v" + core + TagMark(s) + n && Version(r) == core + VersionMark(s) + n;
    }
    assert TagMark(Alpha) == "-alpha." && VersionMark(Alpha) == "a";
    assert TagMark(Beta) == "-beta." && VersionMark(Beta) == "b";
    assert TagMark(Rc) == "-rc." && VersionMark(Rc) == "rc";
  }

  /** And there is no other kind. */
  lemma OnlyTheseTags(tag: string) returns (major: string, minor: string, patch: string, n: string)
    requires FromTag(tag).Some?
    ensures Number(major, TAGS) && Number(minor, TAGS) && Number(patch, TAGS) && Number(n, TAGS)
    ensures var head := "v" + (major + "." + minor + "." + patch);
            tag == head || tag == head + "-alpha." + n || tag == head + "-beta." + n || tag == head + "-rc." + n
  {
    hide Number, FromTag;
    var r := ReadTag(tag);
    major, minor, patch, n := r.major, r.minor, r.patch, r.major;
    var head := "v" + (major + "." + minor + "." + patch);
    if r.pre.None? {
      assert tag == head;
    } else {
      n := r.pre.value.1;
      assert tag == head + TagMark(r.pre.value.0) + n;
      assert TagMark(Alpha) == "-alpha." && TagMark(Beta) == "-beta." && TagMark(Rc) == "-rc.";
    }
  }

  lemma ReadTag(tag: string) returns (r: Release)
    requires FromTag(tag).Some?
    ensures ValidRelease(r) && tag == Tag(r)
  {
    r := Parse(After("v", tag).value, TAGS).value;
  }

  // ------------------------------------------------------- numbers

  /** A natural number in decimal. */
  function Decimal(n: nat): string {
    (if n < 10 then [] else Decimal(n / 10)) + [('0' as int + n % 10) as char]
  }

  /** The value of a printed number is that number. */
  lemma {:induction false} ValueOfDecimal(n: nat)
    ensures Number(Decimal(n), TAGS) && Value(Decimal(n)) == n
    ensures n > 0 ==> Decimal(n)[0] != '0'
  {
    var s := Decimal(n);
    if n >= 10 {
      ValueOfDecimal(n / 10);
      assert s[0] == Decimal(n / 10)[0];
    }
    assert Init(s) == if n < 10 then [] else Decimal(n / 10);
  }

  lemma DecimalStep(v: nat, c: char)
    requires IsDigit(c)
    ensures var d := c as int - '0' as int;
            && Decimal(d) == [c]
            && (v > 0 ==> Decimal(10 * v + d) == Decimal(v) + [c])
  {
    var d := c as int - '0' as int;
    assert (10 * v + d) / 10 == v && (10 * v + d) % 10 == d;
  }

  /** And a plain number is printed from its value. */
  lemma {:induction false} DecimalOfValue(s: string)
    requires Number(s, TAGS)
    ensures Decimal(Value(s)) == s
    ensures Value(s) == 0 ==> s == "0"
  {
    hide Decimal;
    var before := Init(s);
    DecimalStep(Value(before), Last(s));
    assert s == before + [Last(s)];
    if before != [] {
      DecimalOfValue(before);
    }
  }

  // ------------------------------------------------------- precedence

  /**
   * Precedence of section 11 of Semantic Versioning 2.0.0: numbers numerically; a release
   * above its prereleases; identifiers in ASCII order, numeric ones numerically.
   */
  ghost predicate Precedes(a: Release, b: Release)
    requires ValidRelease(a) && ValidRelease(b)
  {
    || TripleLt(Numbers(a), Numbers(b))
    || (Numbers(a) == Numbers(b) && a.pre.Some? &&
        (|| b.pre.None?
         || (a.pre.value.0 != b.pre.value.0 && StrLe(StageName(a.pre.value.0), StageName(b.pre.value.0)))
         || (a.pre.value.0 == b.pre.value.0 && Value(a.pre.value.1) < Value(b.pre.value.1))))
  }

  const FIRST_HARDENED := Release("2", "1", "0", Some((Alpha, "3")))

  /** Hardened means: not before v2.1.0-alpha.3 in the order of precedence. */
  lemma HardenedIsPrecedence(r: Release)
    requires ValidRelease(r)
    ensures ValidRelease(FIRST_HARDENED)
    ensures RouteOf(r).hardened <==> !Precedes(r, FIRST_HARDENED)
  {
  }

  // ------------------------------------------------------- the other normalisers

  /** Replacing every occurrence of `pattern`, left to right. */
  function Replace(s: string, pattern: string, replacement: string): string
    requires pattern != []
    decreases |s|
  {
    if s == [] then []
    else if pattern <= s then replacement + Replace(s[|pattern|..], pattern, replacement)
    else [s[0]] + Replace(s[1..], pattern, replacement)
  }

  function Normalise(s: string, stage: Stage): string {
    Replace(s, TagMark(stage), VersionMark(stage))
  }

  /** The build script's spelling of a display version. */
  function NormalizedVersion(display: string): string {
    Normalise(Normalise(Normalise(display, Alpha), Beta), Rc)
  }

  predicate Dashless(s: string) {
    forall i :: 0 <= i < |s| ==> s[i] != '-'
  }

  lemma {:induction false} NothingToReplace(a: string, rest: string, pattern: string, replacement: string)
    requires Dashless(a) && pattern != [] && pattern[0] == '-'
    ensures Replace(a + rest, pattern, replacement) == a + Replace(rest, pattern, replacement)
  {
    if a == [] {
      assert a + rest == rest;
    } else {
      assert (a + rest)[1..] == a[1..] + rest;
      NothingToReplace(a[1..], rest, pattern, replacement);
      assert a == [a[0]] + a[1..];
    }
  }

  lemma DashlessStays(a: string, pattern: string, replacement: string)
    requires Dashless(a) && pattern != [] && pattern[0] == '-'
    ensures Replace(a, pattern, replacement) == a
  {
    NothingToReplace(a, [], pattern, replacement);
    assert a + [] == a;
  }

  /** A mark is replaced where the pattern is that mark. */
  lemma OwnMark(core: string, mark: string, tail: string, replacement: string)
    requires Dashless(core) && Dashless(tail) && mark != [] && mark[0] == '-'
    ensures Replace(core + mark + tail, mark, replacement) == core + replacement + tail
  {
    assert core + mark + tail == core + (mark + tail);
    NothingToReplace(core, mark + tail, mark, replacement);
    assert (mark + tail)[|mark|..] == tail;
    DashlessStays(tail, mark, replacement);
    assert core + (replacement + tail) == core + replacement + tail;
  }

  /** And stays where the pattern is another. */
  lemma OtherMark(core: string, mark: string, tail: string, pattern: string, replacement: string)
    requires Dashless(core) && Dashless(tail) && mark != [] && Dashless(mark[1..])
    requires pattern != [] && pattern[0] == '-' && !(pattern <= mark + tail)
    ensures Replace(core + mark + tail, pattern, replacement) == core + mark + tail
  {
    assert core + mark + tail == core + (mark + tail);
    NothingToReplace(core, mark + tail, pattern, replacement);
    assert (mark + tail)[1..] == mark[1..] + tail;
    DashlessStays(mark[1..] + tail, pattern, replacement);
    assert [mark[0]] + (mark[1..] + tail) == mark + tail;
  }

  /** One of the three replacements, on a display version that still carries its mark. */
  lemma MarkReplaced(core: string, stage: Stage, n: string, pattern: Stage)
    requires Dashless(core) && Dashless(n)
    ensures Normalise(core + TagMark(stage) + n, pattern)
            == if stage == pattern then core + VersionMark(stage) + n else core + TagMark(stage) + n
  {
    hide Replace;
    if stage == pattern {
      OwnMark(core, TagMark(stage), n, VersionMark(stage));
    } else {
      MarksApart(pattern, stage, n);
      OtherMark(core, TagMark(stage), n, TagMark(pattern), VersionMark(pattern));
    }
  }

  /** And on a version that carries none. */
  lemma UnmarkedStays(v: string, pattern: Stage)
    requires Dashless(v)
    ensures Normalise(v, pattern) == v
  {
    DashlessStays(v, TagMark(pattern), VersionMark(pattern));
  }

  /** What the engine's `\d` may be: any class of digits that has neither the dot nor the dash. */
  ghost predicate DigitClass(digit: char -> bool) {
    (forall c :: IsDigit(c) ==> digit(c)) && !digit('.') && !digit('-')
  }

  lemma VersionDashless(r: Release, digit: char -> bool)
    requires DigitClass(digit) && Fits(r, Displays(digit))
    ensures Dashless(Core(r.major, r.minor, r.patch)) && Dashless(Version(r))
    ensures r.pre.Some? ==> Dashless(r.pre.value.1)
  {
  }

  lemma Marked(r: Release)
    requires r.pre.Some?
    ensures Display(r) == Core(r.major, r.minor, r.patch) + TagMark(r.pre.value.0) + r.pre.value.1
    ensures Version(r) == Core(r.major, r.minor, r.patch) + VersionMark(r.pre.value.0) + r.pre.value.1
  {
  }

  /** The build script's textual replacement gives the package version of every release. */
  lemma ReplacingGivesVersion(r: Release, digit: char -> bool)
    requires DigitClass(digit) && Fits(r, Displays(digit))
    ensures NormalizedVersion(Display(r)) == Version(r)
  {
    hide Normalise, DigitClass, Dashless, Core, Fits, TagMark, VersionMark;
    VersionDashless(r, digit);
    forall s: Stage ensures Normalise(Version(r), s) == Version(r) {
      UnmarkedStays(Version(r), s);
    }
    if r.pre.Some? {
      hide Display, Version;
      Marked(r);
      forall s: Stage
        ensures Normalise(Display(r), s) == if s == r.pre.value.0 then Version(r) else Display(r)
      {
        MarkReplaced(Core(r.major, r.minor, r.patch), r.pre.value.0, r.pre.value.1, s);
      }
    }
  }

  /** The evidence collector's reading of a display version. */
  function DisplayToPackageVersion(display: string, digit: char -> bool): Option<string> {
    match Parse(display, Displays(digit))
    case None => None
    case Some(r) => Some(Version(r))
  }

  /**
   * The three spellings of a package version. Where the collector reads one, the build script
   * spells the same; where the closed grammar reads one, the collector reads it too, and the
   * same; and the collector reads more only where a number is not in its plain form.
   */
  lemma NormalisersAgree(display: string, digit: char -> bool)
    requires DigitClass(digit)
    ensures var collected := DisplayToPackageVersion(display, digit);
            collected.Some? ==> NormalizedVersion(display) == collected.value
    ensures var route := FromTag("v" + display);
            route.Some? ==> DisplayToPackageVersion(display, digit) == Some(route.value.version)
    ensures FromTag("v" + display).Some? <==>
            var read := Parse(display, Displays(digit));
            read.Some? && ValidRelease(read.value)
  {
    hide NormalizedVersion, Core, RouteOf, Clear, Parse;
    AfterPrefix("v", display);
    var loose, strict := Parse(display, Displays(digit)), Parse(display, TAGS);
    if loose.Some? {
      ReplacingGivesVersion(loose.value, digit);
      if ValidRelease(loose.value) {
        SpelledIsFound(loose.value);
      }
    }
    if strict.Some? {
      GrammarsClear(digit);
      ParseSpelled(strict.value, Displays(digit));
      SpelledIsFound(strict.value);
      VersionOfRoute(strict.value);
    }
  }

  lemma VersionOfRoute(r: Release)
    requires ValidRelease(r)
    ensures RouteOf(r).version == Version(r)
  {
  }

  /** Both other normalisers, letter by letter. */
  lemma NormalisersByName(major: string, minor: string, patch: string, n: string, digit: char -> bool)
    requires DigitClass(digit)
    requires Number(major, Displays(digit)) && Number(minor, Displays(digit)) && Number(patch, Displays(digit))
    requires Number(n, Displays(digit))
    ensures var core := major + "." + minor + "." + patch;
            && Normalises(core, core, digit)
            && Normalises(core + "-alpha." + n, core + "a" + n, digit)
            && Normalises(core + "-beta." + n, core + "b" + n, digit)
            && Normalises(core + "-rc." + n, core + "rc" + n, digit)
  {
    hide Normalises, Number, DigitClass;
    var core := major + "." + minor + "." + patch;
    var final := Release(major, minor, patch, None);
    SpelledNormalises(final, digit);
    assert Display(final) == core && Version(final) == core;
    forall s: Stage ensures Normalises(core + TagMark(s) + n, core + VersionMark(s) + n, digit) {
      var r := Release(major, minor, patch, Some((s, n)));
      SpelledNormalises(r, digit);
      assert Display(r) == core + TagMark(s) + n && Version(r) == core + VersionMark(s) + n;
    }
    assert TagMark(Alpha) == "-alpha." && VersionMark(Alpha) == "a";
    assert TagMark(Beta) == "-beta." && VersionMark(Beta) == "b";
    assert TagMark(Rc) == "-rc." && VersionMark(Rc) == "rc";
  }

  predicate Normalises(display: string, version: string, digit: char -> bool) {
    NormalizedVersion(display) == version && DisplayToPackageVersion(display, digit) == Some(version)
  }

  lemma SpelledNormalises(r: Release, digit: char -> bool)
    requires DigitClass(digit) && Fits(r, Displays(digit))
    ensures Normalises(Display(r), Version(r), digit)
  {
    hide NormalizedVersion, Parse, Clear;
    ReplacingGivesVersion(r, digit);
    GrammarsClear(digit);
    ParseSpelled(r, Displays(digit));
  }
}
