/** tfcommons/source_type.go: classifying a Terraform module source string the way Terraform
    chooses how to fetch it. Parsing a registry address and go-getter's detectors are
    parameters; the getter list and its order are the model's. */
module SourceType {
  import opened Wrappers
  import opened Strs

  /** `TerraformModSrcType`, in declaration (iota) order. */
  datatype ModSrcType = Unknown | Local | Registry | Git | HG | S3 | GCS | HTTP

  /** `String()`: HG has no case of its own and prints like Unknown. */
  function String(t: ModSrcType): (s: string)
    ensures |s| > 0
    ensures s == "unknown" <==> t == Unknown || t == HG
  {
    match t
    case Local => "local"
    case Registry => "registry"
    case Git => "git"
    case S3 => "s3"
    case GCS => "gcs"
    case HTTP => "http"
    case _ => "unknown"
  }

  /** `String()` tells every pair of types apart except HG and Unknown. */
  lemma StringOnlyConfusesHG(t: ModSrcType, u: ModSrcType)
    requires t != u
    ensures String(t) == String(u) <==> {t, u} == {HG, Unknown}
  {
  }

  /** `isLocalModuleSource`: after turning every `\` into `/`, the source starts with "./" or "../". */
  predicate IsLocalModuleSource(source: string) {
    var slashed := ReplaceAll(source, '\\', '/');
    "./" <= slashed || "../" <= slashed
  }

  predicate IsSlash(c: char) {
    c == '/' || c == '\\'
  }

  /** A source is local exactly when it is a dot or two dots followed by either kind of slash. */
  lemma LocalCharacterized(source: string)
    ensures IsLocalModuleSource(source) <==>
      (|source| >= 2 && source[0] == '.' && IsSlash(source[1]))
      || (|source| >= 3 && source[0] == '.' && source[1] == '.' && IsSlash(source[2]))
  {
    var slashed := ReplaceAll(source, '\\', '/');
    if |source| >= 2 {
      assert slashed[..2] == [slashed[0], slashed[1]];
    }
    if |source| >= 3 {
      assert slashed[..3] == [slashed[0], slashed[1], slashed[2]];
    }
  }

  /** ".", ".." and "..foo" are not local sources; ".\\x" is. */
  lemma DotsAreNotLocal()
    ensures !IsLocalModuleSource(".") && !IsLocalModuleSource("..") && !IsLocalModuleSource("..foo")
    ensures IsLocalModuleSource(".\\x")
  {
    LocalCharacterized(".");
    LocalCharacterized("..");
    LocalCharacterized("..foo");
    LocalCharacterized(".\\x");
  }

  /** go-getter's getters, S3 and GCS first, then go-getter's default list
      (git, hg, smb client, smb mount, http, file). */
  datatype Getter = S3Getter | GCSGetter | GitGetter | HgGetter | SmbClientGetter | SmbMountGetter | HttpGetter | FileGetter

  const AllGetters: seq<Getter> :=
    [S3Getter, GCSGetter, GitGetter, HgGetter, SmbClientGetter, SmbMountGetter, HttpGetter, FileGetter]

  /** The outcome of `getter.Detect(req, g)`. */
  datatype Detection = Detected | NotDetected | DetectError

  type Detect = (string, Getter) -> Detection

  /** The getter `g` is the first one, in order, that detects the source, every one before it
      having declined without error. */
  predicate WinsAt(gs: seq<Getter>, source: string, detect: Detect, i: int) {
    0 <= i < |gs| && detect(source, gs[i]) == Detected
    && forall j :: 0 <= j < i ==> detect(source, gs[j]) == NotDetected
  }

  /** The loop of `getGoGetterSourceType` over `gs`: a detection error ends the search with no getter. */
  function FirstDetected(gs: seq<Getter>, source: string, detect: Detect): (r: Option<Getter>)
    ensures r.Some? <==> exists i :: WinsAt(gs, source, detect, i)
    ensures r.Some? ==> exists i :: WinsAt(gs, source, detect, i) && gs[i] == r.value
    decreases |gs|
  {
    if |gs| == 0 then None
    else
      match detect(source, gs[0])
      case DetectError =>
        assert forall i :: WinsAt(gs, source, detect, i) ==> detect(source, gs[0]) != DetectError;
        None
      case Detected =>
        assert WinsAt(gs, source, detect, 0);
        Some(gs[0])
      case NotDetected =>
        var r := FirstDetected(gs[1..], source, detect);
        WinsShift(gs, source, detect);
        r
  }

  /** Past a first getter that declines, winning positions shift by one. */
  lemma WinsShift(gs: seq<Getter>, source: string, detect: Detect)
    requires |gs| > 0 && detect(source, gs[0]) == NotDetected
    ensures forall i :: WinsAt(gs, source, detect, i) <==> i > 0 && WinsAt(gs[1..], source, detect, i - 1)
    ensures (exists i :: WinsAt(gs, source, detect, i)) <==> (exists i :: WinsAt(gs[1..], source, detect, i))
    ensures forall i :: WinsAt(gs[1..], source, detect, i) ==> WinsAt(gs, source, detect, i + 1) && gs[i + 1] == gs[1..][i]
  {
    forall i ensures WinsAt(gs, source, detect, i) <==> i > 0 && WinsAt(gs[1..], source, detect, i - 1) {
      if i > 0 && i < |gs| {
        assert gs[i] == gs[1..][i - 1];
        assert (forall j :: 0 <= j < i ==> detect(source, gs[j]) == NotDetected)
           <==> (forall j :: 0 <= j < i - 1 ==> detect(source, gs[1..][j]) == NotDetected) by {
          if forall j :: 0 <= j < i - 1 ==> detect(source, gs[1..][j]) == NotDetected {
            forall j | 0 <= j < i ensures detect(source, gs[j]) == NotDetected {
              if j > 0 { assert gs[j] == gs[1..][j - 1]; }
            }
          }
          if forall j :: 0 <= j < i ==> detect(source, gs[j]) == NotDetected {
            forall j | 0 <= j < i - 1 ensures detect(source, gs[1..][j]) == NotDetected {
              assert gs[1..][j] == gs[j + 1];
            }
          }
        }
      }
    }
    if exists i :: WinsAt(gs[1..], source, detect, i) {
      var i :| WinsAt(gs[1..], source, detect, i);
      assert WinsAt(gs, source, detect, i + 1);
    }
  }

  /** `getGoGetterSourceType`. */
  function GetGoGetterSourceType(source: string, detect: Detect): (r: Option<Getter>)
    ensures r.Some? <==> exists i :: WinsAt(AllGetters, source, detect, i)
  {
    FirstDetected(AllGetters, source, detect)
  }

  /** The type switch of `GetTerraformModSrcType` on the detected getter. */
  function GetterType(g: Option<Getter>): ModSrcType {
    match g
    case Some(GitGetter) => Git
    case Some(HgGetter) => HG
    case Some(S3Getter) => S3
    case Some(GCSGetter) => GCS
    case Some(HttpGetter) => HTTP
    case Some(FileGetter) => Local
    case _ => Unknown
  }

  /** `GetTerraformModSrcType`: local prefix first, then the registry-address parser
      (`isRegistry`), then go-getter detection. */
  function GetTerraformModSrcType(source: string, isRegistry: string -> bool, detect: Detect): (t: ModSrcType)
    ensures IsLocalModuleSource(source) ==> t == Local
    ensures !IsLocalModuleSource(source) && isRegistry(source) ==> t == Registry
    ensures !IsLocalModuleSource(source) && !isRegistry(source) ==>
      t == GetterType(GetGoGetterSourceType(source, detect))
    ensures t == Registry ==> isRegistry(source)
  {
    if IsLocalModuleSource(source) then Local
    else if isRegistry(source) then Registry
    else GetterType(GetGoGetterSourceType(source, detect))
  }

  /** A local source is Local and a registry address is Registry whatever the detectors say. */
  lemma DetectorsConsultedLast(source: string, isRegistry: string -> bool, detect1: Detect, detect2: Detect)
    requires IsLocalModuleSource(source) || isRegistry(source)
    ensures GetTerraformModSrcType(source, isRegistry, detect1) == GetTerraformModSrcType(source, isRegistry, detect2)
  {
  }

  /** S3 is tried first: a source the S3 detector claims is S3 unless it is local or a registry address. */
  lemma S3DetectorFirst(source: string, isRegistry: string -> bool, detect: Detect)
    requires !IsLocalModuleSource(source) && !isRegistry(source)
    requires detect(source, S3Getter) == Detected
    ensures GetTerraformModSrcType(source, isRegistry, detect) == S3
  {
  }

  /** An error from a detector ends detection: a source whose GCS detection fails after S3
      declines is Unknown, even if a later detector would claim it. */
  lemma DetectErrorStopsSearch(source: string, isRegistry: string -> bool, detect: Detect)
    requires !IsLocalModuleSource(source) && !isRegistry(source)
    requires detect(source, S3Getter) == NotDetected && detect(source, GCSGetter) == DetectError
    ensures GetTerraformModSrcType(source, isRegistry, detect) == Unknown
  {
    assert AllGetters[1..][0] == GCSGetter;
  }

  /** The Unknown result covers both no getter and the smb getters. */
  lemma UnknownMeansNoKnownGetter(source: string, isRegistry: string -> bool, detect: Detect)
    requires !IsLocalModuleSource(source) && !isRegistry(source)
    ensures GetTerraformModSrcType(source, isRegistry, detect) == Unknown <==>
      NoKnownGetter(GetGoGetterSourceType(source, detect))
  {
    GetterTypeUnknown(GetGoGetterSourceType(source, detect));
  }

  /** No getter was found, or it is one of the smb getters, which have no type of their own. */
  predicate NoKnownGetter(g: Option<Getter>) {
    g.None? || g.value == SmbClientGetter || g.value == SmbMountGetter
  }

  lemma GetterTypeUnknown(g: Option<Getter>)
    ensures GetterType(g) == Unknown <==> NoKnownGetter(g)
  {
  }
}
