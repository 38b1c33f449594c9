/** The Android app's version, counted from the name of the last published APK
    (`nextVersion`, `versionCode`, `apkName`, `apkVersion` and `releaseApk` in
    `scripts/ci/android-apk.ts`). */
module ApkVersions {
  import opened Results

  datatype Base = Base(major: nat, minor: nat)
  datatype Version = Version(major: nat, minor: nat, patch: nat)

  const PART := 1000
  const LIMIT := 2100000000

  /** What `parseBase` accepts. */
  predicate Accepted(b: Base) { 1 <= b.major <= 999 && b.minor < PART }

  predicate Fits(v: Version) { v.minor < PART && v.patch < PART }

  function VersionCode(v: Version): Result<nat> {
    if !Fits(v) then Error("minor and patch must stay under 1000")
    else Ok(v.major * PART * PART + v.minor * PART + v.patch)
  }

  predicate Newer(a: Version, b: Version) {
    a.major > b.major || (a.major == b.major && (a.minor > b.minor || (a.minor == b.minor && a.patch > b.patch)))
  }

  /** Codes order versions as their parts do. */
  lemma CodesOrder(a: Version, b: Version)
    requires Fits(a) && Fits(b)
    ensures VersionCode(a).value > VersionCode(b).value <==> Newer(a, b)
    ensures VersionCode(a) == VersionCode(b) <==> a == b
  {
  }

  // ---- Names

  function Digits(n: nat): string {
    if n < 10 then [Digit(n)] else Digits(n / 10) + [Digit(n % 10)]
  }

  function Digit(n: nat): char
    requires n < 10
  {
    '0' + n as char
  }

  predicate IsDigit(c: char) { '0' <= c <= '9' }

  function DigitValue(c: char): nat {
    if IsDigit(c) then c as nat - '0' as nat else 0
  }

  /** The number a run of digits spells. */
  function ValueOf(text: string): nat {
    if text == "" then 0 else ValueOf(text[..|text| - 1]) * 10 + DigitValue(text[|text| - 1])
  }

  /** A run of digits and what follows it. */
  datatype Run = Run(digits: string, rest: string)

  function DigitsOf(text: string): Run {
    if text != "" && IsDigit(text[0]) then
      var later := DigitsOf(text[1..]);
      Run([text[0]] + later.digits, later.rest)
    else Run("", text)
  }

  const PREFIX := "boite-android-"
  const SUFFIX := ".apk"

  function FormatVersion(v: Version): string {
    Digits(v.major) + (['.'] + (Digits(v.minor) + (['.'] + Digits(v.patch))))
  }

  function ApkName(v: Version): string { PREFIX + (FormatVersion(v) + SUFFIX) }

  predicate Part(run: Run) { run.digits != "" && run.rest != "" && run.rest[0] == '.' }

  /** The version after the prefix: three runs of digits with dots between, then the suffix. */
  function VersionIn(text: string): Option<Version> {
    var a := DigitsOf(text);
    if !Part(a) then None
    else
      var b := DigitsOf(a.rest[1..]);
      if !Part(b) then None
      else
        var c := DigitsOf(b.rest[1..]);
        if c.digits == "" || c.rest != SUFFIX then None
        else Some(Version(ValueOf(a.digits), ValueOf(b.digits), ValueOf(c.digits)))
  }

  /** The app version a file name carries; `None` for the older names. */
  function ApkVersion(name: string): Option<Version> {
    if PREFIX <= name then VersionIn(name[|PREFIX|..]) else None
  }

  lemma {:induction false} DigitsAreDigits(n: nat)
    ensures Digits(n) != "" && (forall c <- Digits(n) :: IsDigit(c))
    ensures ValueOf(Digits(n)) == n
  {
    if n < 10 {
      assert Digits(n)[..0] == "";
    } else {
      DigitsAreDigits(n / 10);
      var text := Digits(n);
      assert text[..|text| - 1] == Digits(n / 10);
    }
  }

  lemma {:induction false} RunEnds(digits: string, rest: string)
    requires (forall c <- digits :: IsDigit(c)) && rest != "" && !IsDigit(rest[0])
    ensures DigitsOf(digits + rest) == Run(digits, rest)
  {
    if digits == "" {
      assert digits + rest == rest;
    } else {
      assert forall c <- digits[1..] :: c in digits;
      assert digits[0] in digits;
      assert (digits + rest)[1..] == digits[1..] + rest;
      RunEnds(digits[1..], rest);
    }
  }

  lemma ReadNumber(n: nat, rest: string)
    requires rest != "" && !IsDigit(rest[0])
    ensures DigitsOf(Digits(n) + rest) == Run(Digits(n), rest) && Digits(n) != "" && ValueOf(Digits(n)) == n
  {
    DigitsAreDigits(n);
    RunEnds(Digits(n), rest);
  }

  /** A published name carries its version back. */
  lemma NameRoundTrip(v: Version)
    ensures ApkVersion(ApkName(v)) == Some(v)
  {
    var name := ApkName(v);
    var text := FormatVersion(v) + SUFFIX;
    assert PREFIX <= name && name[|PREFIX|..] == text;
    VersionReads(v, text);
  }

  lemma VersionReads(v: Version, text: string)
    requires text == FormatVersion(v) + SUFFIX
    ensures VersionIn(text) == Some(v)
  {
    var third := Digits(v.patch) + SUFFIX;
    var second := Digits(v.minor) + (['.'] + third);
    Grouped(v, text, second, third);
    PartsRead(v, text, second, third);
  }

  lemma PartsRead(v: Version, text: string, second: string, third: string)
    requires text == Digits(v.major) + (['.'] + second)
    requires second == Digits(v.minor) + (['.'] + third) && third == Digits(v.patch) + SUFFIX
    ensures VersionIn(text) == Some(v)
  {
    ReadNumber(v.major, ['.'] + second);
    ReadNumber(v.minor, ['.'] + third);
    ReadNumber(v.patch, SUFFIX);
    assert (['.'] + second)[1..] == second && (['.'] + third)[1..] == third;
  }

  lemma Grouped(v: Version, text: string, second: string, third: string)
    requires text == FormatVersion(v) + SUFFIX
    requires third == Digits(v.patch) + SUFFIX && second == Digits(v.minor) + (['.'] + third)
    ensures text == Digits(v.major) + (['.'] + second)
  {
  }

  // ---- The next version

  function NextVersion(base: Base, previous: Option<Version>): Result<Version> {
    var p := previous;
    if p.Some? && (p.value.major > base.major || (p.value.major == base.major && p.value.minor > base.minor)) then
      Error("VERSION is below the published version")
    else
      var next := Version(base.major, base.minor,
                          if p.Some? && p.value.major == base.major && p.value.minor == base.minor
                          then p.value.patch + 1 else 0);
      var code := VersionCode(next);
      if code.Error? then Error(code.message) else Ok(next)
  }

  datatype Request = Rebuild(base: Base) | Reuse
  datatype Apk = Apk(name: string, version: Option<Version>)

  /** What the release attaches: the previous APK under its own name, or a rebuild. */
  function ReleaseApk(request: Request, previous: Option<string>): Result<Apk> {
    match request
    case Reuse =>
      if previous.None? || previous.value == "" then Error("nothing to reuse without a previous APK")
      else Ok(Apk(previous.value, ApkVersion(previous.value)))
    case Rebuild(base) =>
      var version := NextVersion(base, if previous.None? || previous.value == "" then None
          else ApkVersion(previous.value));
      if version.Error? then Error(version.message) else Ok(Apk(ApkName(version.value), Some(version.value)))
  }

  // ---- Every run of releases

  /** The name published after the requests that were accepted, each starting from the one before. */
  function Published(start: Option<string>, requests: seq<Request>): Option<string> {
    if requests == [] then start
    else
      var previous := Published(start, requests[..|requests| - 1]);
      var apk := ReleaseApk(requests[|requests| - 1], previous);
      if apk.Ok? then Some(apk.value.name) else previous
  }

  /** The code of the APK the run starts from, when it has one. */
  function StartCodes(start: Option<string>): seq<nat> {
    if start.Some? && ApkVersion(start.value).Some? && VersionCode(ApkVersion(start.value).value).Ok?
    then [VersionCode(ApkVersion(start.value).value).value] else []
  }

  /** That code, and the codes of the rebuilds that were published. */
  function Codes(start: Option<string>, requests: seq<Request>): seq<nat> {
    if requests == [] then StartCodes(start)
    else
      var prior := requests[..|requests| - 1];
      var apk := ReleaseApk(requests[|requests| - 1], Published(start, prior));
      if requests[|requests| - 1].Rebuild? && apk.Ok? && VersionCode(apk.value.version.value).Ok?
      then Codes(start, prior) + [VersionCode(apk.value.version.value).value]
      else Codes(start, prior)
  }

  predicate AllAccepted(requests: seq<Request>) {
    forall r <- requests :: r.Rebuild? ==> Accepted(r.base)
  }

  predicate Rising(codes: seq<nat>) {
    forall i, j :: 0 <= i < j < |codes| ==> codes[i] < codes[j]
  }

  /** The published name carries the last code, once there is one. */
  ghost predicate Carries(name: Option<string>, codes: seq<nat>) {
    codes != [] ==>
      name.Some? && ApkVersion(name.value).Some? && Fits(ApkVersion(name.value).value)
      && VersionCode(ApkVersion(name.value).value).value == codes[|codes| - 1]
  }

  /** Over every run of rebuilds and reuses, with any edits of VERSION between them, the code of each rebuild
      is above all codes before it, and Android takes it. */
  lemma {:induction false} CodesRise(start: Option<string>, requests: seq<Request>)
    requires AllAccepted(requests) && forall code <- StartCodes(start) :: code < LIMIT
    ensures Rising(Codes(start, requests))
    ensures forall code <- Codes(start, requests) :: code < LIMIT
    ensures Carries(Published(start, requests), Codes(start, requests))
  {
    if requests != [] {
      var prior, last := requests[..|requests| - 1], requests[|requests| - 1];
      assert forall r <- prior :: r in requests;
      assert last in requests;
      CodesRise(start, prior);
      var previous, codes := Published(start, prior), Codes(start, prior);
      var apk := ReleaseApk(last, previous);
      if last.Rebuild? && apk.Ok? {
        RebuildRises(start, requests, last.base, apk.value.version.value);
      }
    }
  }

  lemma RebuildRises(start: Option<string>, requests: seq<Request>, base: Base, next: Version)
    requires requests != [] && requests[|requests| - 1] == Rebuild(base) && Accepted(base)
    requires var prior := requests[..|requests| - 1];
      && Rising(Codes(start, prior)) && (forall code <- Codes(start, prior) :: code < LIMIT)
      && Carries(Published(start, prior), Codes(start, prior))
      && ReleaseApk(Rebuild(base), Published(start, prior)) == Ok(Apk(ApkName(next), Some(next)))
    ensures Rising(Codes(start, requests))
    ensures forall code <- Codes(start, requests) :: code < LIMIT
    ensures Carries(Published(start, requests), Codes(start, requests))
  {
    var prior := requests[..|requests| - 1];
    var codes := Codes(start, prior);
    NewCode(base, Published(start, prior), codes, next);
    NewCarries(codes, next);
  }

  lemma NewCarries(codes: seq<nat>, next: Version)
    requires Fits(next)
    ensures Carries(Some(ApkName(next)), codes + [VersionCode(next).value])
  {
    NameRoundTrip(next);
  }

  /** An accepted rebuild has a version above the one it counts from. */
  lemma NewCode(base: Base, previous: Option<string>, codes: seq<nat>, next: Version)
    requires Accepted(base) && Rising(codes) && Carries(previous, codes)
    requires ReleaseApk(Rebuild(base), previous) == Ok(Apk(ApkName(next), Some(next)))
    ensures Fits(next) && VersionCode(next).value < LIMIT
    ensures Rising(codes + [VersionCode(next).value])
  {
    if codes != [] {
      assert previous.value != "";
      CodesOrder(next, ApkVersion(previous.value).value);
    }
  }
}
