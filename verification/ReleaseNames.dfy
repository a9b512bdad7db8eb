/** The names a release may have: scripts/generated_release.py, scripts/native_target.py and
    python/mariamem/_version.py. The readers of SHA256SUMS compare the asset names with these before they read. */
module ReleaseNames {
  import opened Checksums

  datatype Stage = Final | Alpha(serial: nat) | Beta(serial: nat) | Candidate(serial: nat)

  datatype Version = Version(major: nat, minor: nat, patch: nat, stage: Stage)

  function Decimal(n: nat): string {
    if n < 10 then [('0' as int + n) as char] else Decimal(n / 10) + [('0' as int + n % 10) as char]
  }

  function StageName(stage: Stage): string {
    match stage
    case Final => ""
    case Alpha(n) => "a" + Decimal(n)
    case Beta(n) => "b" + Decimal(n)
    case Candidate(n) => "rc" + Decimal(n)
  }

  function PythonVersion(v: Version): string {
    Decimal(v.major) + "." + Decimal(v.minor) + "." + Decimal(v.patch) + StageName(v.stage)
  }

  /** expected_names: the source archive, the provenance and the wheels of both platforms. */
  function ExpectedNames(version: string): set<string> {
    {
      "mariamem-" + version + "-corresponding-source.tar.gz",
      "mariamem-" + version + "-provenance.json",
      "mariamem-" + version + "-py3-none-macosx_15_0_arm64.whl",
      "mariamem-" + version + "-py3-none-linux_x86_64.whl"
    }
  }

  predicate NameChar(c: char) {
    'a' <= c <= 'z' || 'A' <= c <= 'Z' || '0' <= c <= '9' || c == '.' || c == '-' || c == '_'
  }

  predicate Clean(s: string) { forall i | 0 <= i < |s| :: NameChar(s[i]) }

  lemma {:induction false} DecimalIsClean(n: nat)
    ensures Clean(Decimal(n))
  {
    if n >= 10 { DecimalIsClean(n / 10); }
  }

  lemma VersionIsClean(v: Version)
    ensures Clean(PythonVersion(v))
  {
    DecimalIsClean(v.major);
    DecimalIsClean(v.minor);
    DecimalIsClean(v.patch);
    if !v.stage.Final? { DecimalIsClean(v.stage.serial); }
    assert Clean(StageName(v.stage));
  }

  lemma CleanIsPlain(s: string)
    requires Clean(s)
    ensures Plain(s) && forall i | 0 <= i < |s| :: s[i] != '/' && s[i] != '\\'
  {
    forall i | 0 <= i < |s|
      ensures s[i] != ' ' && !IsBreak(s[i]) && s[i] != '/' && s[i] != '\\'
    {
      assert NameChar(s[i]);
    }
  }

  lemma CleanJoin(a: string, b: string)
    requires Clean(a) && Clean(b)
    ensures Clean(a + b)
  {
  }

  lemma CleanEndings()
    ensures Clean("-corresponding-source.tar.gz") && Clean("-provenance.json")
    ensures Clean("-py3-none-macosx_15_0_arm64.whl") && Clean("-py3-none-linux_x86_64.whl")
  {
  }

  lemma NameIsClean(version: string, ending: string)
    requires Clean(version) && Clean(ending)
    ensures Clean("mariamem-" + version + ending)
  {
    CleanJoin("mariamem-", version);
    CleanJoin("mariamem-" + version, ending);
  }

  lemma ExpectedNameIsClean(v: Version, name: string)
    requires name in ExpectedNames(PythonVersion(v))
    ensures Clean(name) && name != []
  {
    var version := PythonVersion(v);
    VersionIsClean(v);
    CleanEndings();
    NameIsClean(version, "-corresponding-source.tar.gz");
    NameIsClean(version, "-provenance.json");
    NameIsClean(version, "-py3-none-macosx_15_0_arm64.whl");
    NameIsClean(version, "-py3-none-linux_x86_64.whl");
  }

  /** The guard on the names, for any version. */
  ghost predicate Guarded(assets: Assets, v: Version) {
    assets.Keys == ExpectedNames(PythonVersion(v)) && Hashed(assets)
  }

  /** Whatever gets past the guard is printed and read back unchanged, and the two readers accept the same lists of
      lines: their difference is out of reach. */
  lemma GuardedRoundTrip(assets: Assets, v: Version, text: string, names: seq<string>, lines: seq<string>)
    requires Guarded(assets, v) && PrintedAs(text, assets, names)
    ensures ReadyReads(SplitLines(text), assets) && PublishedReads(SplitLines(text), assets)
    ensures ReadyReads(lines, assets) <==> PublishedReads(lines, assets)
  {
    forall n | n in assets
      ensures Plain(n) && n != [] && forall i | 0 <= i < |n| :: n[i] != '/' && n[i] != '\\'
    {
      assert n in assets.Keys;
      ExpectedNameIsClean(v, n);
      CleanIsPlain(n);
    }
    RoundTripIff(text, assets, names);
    ReadersAgree(SplitLines(text), assets);
    ReadersAgree(lines, assets);
  }
}
