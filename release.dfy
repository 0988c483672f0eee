// The decision logic of the Go release downloader: platform and archive
// naming, token choice, release-asset selection, the nested-directory rule
// after extraction, the binary probe order and the readiness rule of the
// server wait. Downloads, extraction, `find`, `curl` and sleeping are not
// modelled; what they report is given as parameters.
module Release {
  import opened Text
  import opened GoPath
  import opened Json

  /** The release architecture name: every Go architecture is kept as it is. */
  function ReleaseArch(goarch: string): (r: string)
    ensures r == goarch
  {
    if goarch == "amd64" then "amd64"
    else if goarch == "arm64" then "arm64"
    else goarch
  }

  /** The release operating-system name: every Go OS name is kept as it is. */
  function ReleaseOS(goos: string): (r: string)
    ensures r == goos
  {
    if goos == "darwin" then "darwin"
    else if goos == "linux" then "linux"
    else if goos == "windows" then "windows"
    else goos
  }

  /** getPlatform: "<os>-<arch>". */
  function Platform(goos: string, goarch: string): string {
    ReleaseOS(goos) + "-" + ReleaseArch(goarch)
  }

  function ArchiveName(version: string, platform: string): string {
    "mlos-core_" + version + "_" + platform + ".tar.gz"
  }

  /** The archive is named after the version and the unchanged GOOS-GOARCH pair. */
  lemma ArchiveNameLayout(version: string, goos: string, goarch: string)
    ensures ArchiveName(version, Platform(goos, goarch)) == "mlos-core_" + version + "_" + goos + "-" + goarch + ".tar.gz"
    ensures HasPrefix(ArchiveName(version, Platform(goos, goarch)), "mlos-core_")
    ensures HasSuffix(ArchiveName(version, Platform(goos, goarch)), ".tar.gz")
  {
    var a := ArchiveName(version, Platform(goos, goarch));
    assert a == "mlos-core_" + (version + "_" + goos + "-" + goarch + ".tar.gz");
    assert a == ("mlos-core_" + version + "_" + goos + "-" + goarch) + ".tar.gz";
  }

  /** GITHUB_TOKEN when set and non-empty, else GH_TOKEN. */
  function ChooseToken(githubToken: string, ghToken: string): (r: string)
    ensures githubToken != "" ==> r == githubToken
    ensures githubToken == "" ==> r == ghToken
  {
    var t := githubToken;
    if t == "" then ghToken else t
  }

  /** One asset of a release as the API lists it. */
  datatype Asset = Asset(name: string, url: string)

  /** The URL of the first asset named exactly `assetName`, or "" when there is none. */
  function ExactURL(assets: seq<Asset>, assetName: string): string {
    if assets == [] then ""
    else if assets[0].name == assetName then assets[0].url
    else ExactURL(assets[1..], assetName)
  }

  /** The two one-replacement variants of the asset name. */
  function Variations(assetName: string): seq<string> {
    [ReplaceFirst(assetName, "_", "-"), ReplaceFirst(assetName, "-", "_")]
  }

  /** An asset matches a variant when it contains the variant or the name without ".tar.gz". */
  predicate VariantMatch(asset: Asset, variant: string, assetName: string) {
    Contains(asset.name, variant) || Contains(asset.name, TrimSuffix(assetName, ".tar.gz"))
  }

  /** The second pass: the first asset with a matching variant whose URL is not empty. */
  function VariantURL(assets: seq<Asset>, assetName: string): string {
    if assets == [] then ""
    else
      var vs := Variations(assetName);
      var u := if VariantMatch(assets[0], vs[0], assetName) then assets[0].url
               else if VariantMatch(assets[0], vs[1], assetName) then assets[0].url
               else "";
      if u != "" then u else VariantURL(assets[1..], assetName)
  }

  /** The URL downloadViaAPI settles on; "" means the asset was not found. */
  function SelectURL(assets: seq<Asset>, assetName: string): string {
    var exact := ExactURL(assets, assetName);
    if exact != "" then exact else VariantURL(assets, assetName)
  }

  /** The two selection loops with their breaks, as downloadViaAPI runs them. */
  method FindAssetURL(assets: seq<Asset>, assetName: string) returns (downloadURL: string)
    ensures downloadURL == SelectURL(assets, assetName)
  {
    downloadURL := "";
    var i := 0;
    while i < |assets|
      invariant 0 <= i <= |assets|
      invariant downloadURL == ""
      invariant ExactURL(assets, assetName) == ExactURL(assets[i..], assetName)
    {
      if assets[i].name == assetName {
        downloadURL := assets[i].url;
        break;
      }
      assert assets[i..][1..] == assets[i + 1..];
      i := i + 1;
    }
    if i == |assets| {
      assert ExactURL(assets[i..], assetName) == "";
    }
    if downloadURL == "" {
      var variations := [ReplaceFirst(assetName, "_", "-"), ReplaceFirst(assetName, "-", "_")];
      var j := 0;
      while j < |assets|
        invariant 0 <= j <= |assets|
        invariant downloadURL == ""
        invariant VariantURL(assets, assetName) == VariantURL(assets[j..], assetName)
      {
        var asset := assets[j];
        var k := 0;
        ghost var matched := false;
        ghost var v0, v1 := variations[0], variations[1];
        while k < |variations|
          invariant 0 <= k <= |variations|
          invariant !matched ==> downloadURL == "" && forall m :: 0 <= m < k ==> !VariantMatch(asset, variations[m], assetName)
          invariant matched ==> downloadURL == asset.url && (VariantMatch(asset, v0, assetName) || VariantMatch(asset, v1, assetName))
        {
          var variant := variations[k];
          if Contains(asset.name, variant) || Contains(asset.name, TrimSuffix(assetName, ".tar.gz")) {
            downloadURL := asset.url;
            matched := true;
            break;
          }
          k := k + 1;
        }
        assert variations == Variations(assetName);
        if downloadURL != "" {
          break;
        }
        assert assets[j..][1..] == assets[j + 1..];
        j := j + 1;
      }
    }
  }

  /** An asset the second pass accepts: it contains a variant or the name without ".tar.gz". */
  predicate Matches(asset: Asset, assetName: string) {
    VariantMatch(asset, Variations(assetName)[0], assetName) || VariantMatch(asset, Variations(assetName)[1], assetName)
  }

  /** An asset named exactly is also accepted by the second pass: it contains the name without ".tar.gz". */
  lemma ExactNameMatches(asset: Asset, assetName: string)
    requires asset.name == assetName
    ensures Matches(asset, assetName)
  {
    var t := TrimSuffix(assetName, ".tar.gz");
    assert OccursAt(asset.name, t, 0);
  }

  /**
   * Asset selection: the first asset named exactly, when it has a URL, wins
   * over any variant match; otherwise the first matching asset with a URL
   * wins; a non-empty result is the URL of a matching asset; and the result
   * is "" (the "not found in release" error) iff no matching asset has a URL.
   */
  lemma SelectURLProperties(assets: seq<Asset>, assetName: string)
    ensures (exists i :: 0 <= i < |assets| && assets[i].name == assetName && assets[i].url != "" &&
               forall j :: 0 <= j < i ==> assets[j].name != assetName) ==>
            SelectURL(assets, assetName) != "" && exists i :: 0 <= i < |assets| && assets[i].name == assetName && SelectURL(assets, assetName) == assets[i].url
    ensures SelectURL(assets, assetName) != "" ==>
      exists i :: 0 <= i < |assets| && assets[i].url == SelectURL(assets, assetName) && Matches(assets[i], assetName)
    ensures SelectURL(assets, assetName) == "" <==>
      forall i :: 0 <= i < |assets| ==> assets[i].url == "" || !Matches(assets[i], assetName)
    ensures ExactURL(assets, assetName) == "" ==>
      forall i :: 0 <= i < |assets| && assets[i].url != "" && Matches(assets[i], assetName) &&
                  (forall j :: 0 <= j < i ==> assets[j].url == "" || !Matches(assets[j], assetName)) ==>
        SelectURL(assets, assetName) == assets[i].url
  {
    ExactURLFirst(assets, assetName);
    VariantURLFirst(assets, assetName);
    SelectURLMatches(assets, assetName);
  }

  /** A non-empty selection is the URL of a matching asset. */
  lemma SelectURLMatches(assets: seq<Asset>, assetName: string)
    ensures SelectURL(assets, assetName) != "" ==>
      exists i :: 0 <= i < |assets| && assets[i].url == SelectURL(assets, assetName) && Matches(assets[i], assetName)
  {
    if ExactURL(assets, assetName) != "" {
      ExactURLMatches(assets, assetName);
    } else {
      VariantURLFirst(assets, assetName);
    }
  }

  /** A non-empty first pass is the URL of an asset the second pass would also accept. */
  lemma ExactURLMatches(assets: seq<Asset>, assetName: string)
    ensures ExactURL(assets, assetName) != "" ==>
      exists i :: 0 <= i < |assets| && assets[i].url == ExactURL(assets, assetName) && Matches(assets[i], assetName)
  {
    ExactURLFirst(assets, assetName);
    if ExactURL(assets, assetName) != "" {
      var i :| 0 <= i < |assets| && assets[i].name == assetName && ExactURL(assets, assetName) == assets[i].url;
      ExactNameMatches(assets[i], assetName);
    }
  }

  /**
   * The second pass yields the URL of the first matching asset that has one,
   * and "" exactly when no matching asset has a URL.
   */
  lemma {:induction false} VariantURLFirst(assets: seq<Asset>, assetName: string)
    ensures VariantURL(assets, assetName) == "" <==>
      forall i :: 0 <= i < |assets| ==> assets[i].url == "" || !Matches(assets[i], assetName)
    ensures forall i :: 0 <= i < |assets| && assets[i].url != "" && Matches(assets[i], assetName) &&
                        (forall j :: 0 <= j < i ==> assets[j].url == "" || !Matches(assets[j], assetName)) ==>
              VariantURL(assets, assetName) == assets[i].url
    ensures VariantURL(assets, assetName) != "" ==>
      exists i :: 0 <= i < |assets| && assets[i].url == VariantURL(assets, assetName) && Matches(assets[i], assetName)
  {
    if assets != [] {
      var rest := assets[1..];
      VariantURLFirst(rest, assetName);
      if VariantURL(assets, assetName) != "" && VariantURL(assets, assetName) != assets[0].url {
        var i :| 0 <= i < |rest| && rest[i].url == VariantURL(rest, assetName) && Matches(rest[i], assetName);
        assert assets[i + 1] == rest[i];
      }
      assert forall i :: 1 <= i < |assets| ==> assets[i] == rest[i - 1];
      forall i | 0 <= i < |assets| && assets[i].url != "" && Matches(assets[i], assetName) &&
                 (forall j :: 0 <= j < i ==> assets[j].url == "" || !Matches(assets[j], assetName))
        ensures VariantURL(assets, assetName) == assets[i].url
      {
        if i > 0 {
          assert forall j :: 0 <= j < i - 1 ==> rest[j] == assets[j + 1];
          assert rest[i - 1] == assets[i];
        }
      }
    }
  }

  lemma {:induction false} ExactURLFirst(assets: seq<Asset>, assetName: string)
    ensures ExactURL(assets, assetName) != "" ==> exists i :: 0 <= i < |assets| && assets[i].name == assetName && ExactURL(assets, assetName) == assets[i].url
    ensures forall i :: 0 <= i < |assets| && assets[i].name == assetName && (forall j :: 0 <= j < i ==> assets[j].name != assetName) ==>
              ExactURL(assets, assetName) == assets[i].url
  {
    if assets != [] {
      ExactURLFirst(assets[1..], assetName);
      if assets[0].name != assetName && ExactURL(assets, assetName) != "" {
        var i :| 0 <= i < |assets[1..]| && assets[1..][i].name == assetName && ExactURL(assets[1..], assetName) == assets[1..][i].url;
        assert assets[i + 1] == assets[1..][i];
      }
      forall i | 0 <= i < |assets| && assets[i].name == assetName && (forall j :: 0 <= j < i ==> assets[j].name != assetName)
        ensures ExactURL(assets, assetName) == assets[i].url
      {
        if i > 0 {
          assert assets[0].name != assetName;
          assert assets[1..][i - 1] == assets[i];
          assert forall j :: 0 <= j < i - 1 ==> assets[1..][j] == assets[j + 1];
        }
      }
    }
  }

  /** One directory entry as ReadDir lists it. */
  datatype Entry = Entry(name: string, isDir: bool)

  function DirCount(entries: seq<Entry>): nat {
    if entries == [] then 0
    else DirCount(entries[..|entries| - 1]) + (if entries[|entries| - 1].isDir then 1 else 0)
  }

  /** The name of the first directory entry, "" when there is none. */
  function FirstDirName(entries: seq<Entry>): string {
    if entries == [] then ""
    else if entries[0].isDir then entries[0].name
    else FirstDirName(entries[1..])
  }

  /** Where the core archive's files are: the only subdirectory when there is exactly one, else coreDir. */
  function ExtractDirOf(coreDir: string, entries: Option<seq<Entry>>): string {
    if entries.Some? && DirCount(entries.value) == 1 then Join([coreDir, FirstDirName(entries.value)])
    else coreDir
  }

  lemma {:induction false} DirCountFirst(entries: seq<Entry>, i: nat)
    requires i <= |entries|
    ensures DirCount(entries[..i]) == 0 ==> FirstDirName(entries) == FirstDirName(entries[i..])
  {
    if i > 0 {
      DirCountFirst(entries, i - 1);
      assert entries[..i][..i - 1] == entries[..i - 1];
      if DirCount(entries[..i]) == 0 {
        assert !entries[i - 1].isDir;
        assert entries[i - 1..][1..] == entries[i..];
      }
    }
  }

  /** The directory-counting loop of DownloadCore and StartCore; a failed ReadDir keeps coreDir. */
  method ExtractDir(coreDir: string, entries: Option<seq<Entry>>) returns (extractDir: string)
    ensures extractDir == ExtractDirOf(coreDir, entries)
  {
    extractDir := coreDir;
    if entries.Some? {
      var es := entries.value;
      var dirCount := 0;
      var nestedDir := "";
      var i := 0;
      while i < |es|
        invariant 0 <= i <= |es|
        invariant dirCount == DirCount(es[..i])
        invariant dirCount >= 1 ==> nestedDir == FirstDirName(es)
      {
        assert es[..i + 1][..i] == es[..i];
        if es[i].isDir {
          dirCount := dirCount + 1;
          if dirCount == 1 {
            DirCountFirst(es, i);
            nestedDir := es[i].name;
          }
        }
        i := i + 1;
      }
      assert es[..i] == es;
      if dirCount == 1 {
        extractDir := Join([coreDir, nestedDir]);
      }
    }
  }

  /** The extract directory moves into a subdirectory exactly when there is a single one. */
  lemma ExtractDirRule(coreDir: string, entries: Option<seq<Entry>>)
    ensures ExtractDirOf(coreDir, entries) != coreDir ==> entries.Some? && DirCount(entries.value) == 1
    ensures entries.None? || DirCount(entries.value) != 1 ==> ExtractDirOf(coreDir, entries) == coreDir
    ensures entries.Some? && DirCount(entries.value) == 1 ==>
      exists i :: 0 <= i < |entries.value| && entries.value[i].isDir &&
        ExtractDirOf(coreDir, entries) == Join([coreDir, entries.value[i].name])
  {
    if entries.Some? && DirCount(entries.value) == 1 {
      FirstDirWitness(entries.value);
    }
  }

  lemma {:induction false} FirstDirWitness(entries: seq<Entry>)
    requires DirCount(entries) >= 1
    ensures exists i :: 0 <= i < |entries| && entries[i].isDir && entries[i].name == FirstDirName(entries)
  {
    if !entries[0].isDir {
      DirCountTail(entries);
      FirstDirWitness(entries[1..]);
      var i :| 0 <= i < |entries[1..]| && entries[1..][i].isDir && entries[1..][i].name == FirstDirName(entries[1..]);
      assert entries[i + 1] == entries[1..][i];
    }
  }

  lemma {:induction false} DirCountTail(entries: seq<Entry>)
    requires entries != []
    ensures DirCount(entries) == (if entries[0].isDir then 1 else 0) + DirCount(entries[1..])
    decreases |entries|
  {
    var n := |entries| - 1;
    if n > 0 {
      DirCountTail(entries[..n]);
      assert entries[..n][1..] == entries[1..][..n - 1];
      assert entries[..n][0] == entries[0];
    } else {
      assert entries[..n] == [] && entries[1..] == [];
    }
  }

  /** The six usual binary locations, in probe order. */
  function CommonPaths(extractDir: string): seq<string> {
    [Join([extractDir, "mlos_core"]), Join([extractDir, "mlos-server"]),
     Join([extractDir, "bin", "mlos_core"]), Join([extractDir, "bin", "mlos-server"]),
     Join([extractDir, "build", "mlos-server"]), Join([extractDir, "build", "mlos_core"])]
  }

  /** The index of the first path that exists, or |paths| when none does. */
  function FirstExisting(paths: seq<string>, existing: set<string>): (i: nat)
    ensures i <= |paths|
    ensures forall j :: 0 <= j < i ==> paths[j] !in existing
    ensures i < |paths| ==> paths[i] in existing
  {
    if paths == [] then 0
    else if paths[0] in existing then 0
    else 1 + FirstExisting(paths[1..], existing)
  }

  /** The probe loop: the first path that exists, or "" when none does. */
  method FirstExistingPath(paths: seq<string>, existing: set<string>) returns (found: string)
    ensures var i := FirstExisting(paths, existing);
      found == if i < |paths| then paths[i] else ""
  {
    found := "";
    var i := 0;
    while i < |paths|
      invariant 0 <= i <= |paths|
      invariant forall j :: 0 <= j < i ==> paths[j] !in existing
      invariant found == ""
    {
      if paths[i] in existing {
        found := paths[i];
        FirstExistingIs(paths, existing, i);
        return;
      }
      i := i + 1;
    }
    FirstExistingIs(paths, existing, i);
  }

  /** The binary path DownloadCore settles on before its recursive search: the first existing common path. */
  method ProbeBinary(extractDir: string, existing: set<string>) returns (binaryPath: string)
    ensures var paths := CommonPaths(extractDir);
      var i := FirstExisting(paths, existing);
      binaryPath == if i < |paths| then paths[i] else ""
  {
    binaryPath := FirstExistingPath(CommonPaths(extractDir), existing);
  }

  lemma {:induction false} FirstExistingIs(paths: seq<string>, existing: set<string>, i: nat)
    requires i <= |paths|
    requires forall j :: 0 <= j < i ==> paths[j] !in existing
    requires i < |paths| ==> paths[i] in existing
    ensures FirstExisting(paths, existing) == i
  {
    if i > 0 {
      assert paths[0] !in existing;
      FirstExistingIs(paths[1..], existing, i - 1);
    }
  }

  /** A curl probe answers when it ran and printed a status code that is neither empty nor "000". */
  predicate Answered(output: Option<string>) {
    output.Some? && TrimSpace(output.value) != "" && TrimSpace(output.value) != "000"
  }

  /** One attempt of waitForServer: the health probe, then the root probe. */
  datatype Attempt = Attempt(health: Option<string>, root: Option<string>)

  const MaxRetries := 30

  /** waitForServer: ready at the first attempt where either probe answered, an error after 30 attempts. */
  method WaitForServer(attempts: seq<Attempt>) returns (ready: bool, tried: nat)
    requires |attempts| >= MaxRetries
    ensures ready <==> exists i :: 0 <= i < MaxRetries && (Answered(attempts[i].health) || Answered(attempts[i].root))
    ensures tried <= MaxRetries
    ensures ready ==> 1 <= tried && (Answered(attempts[tried - 1].health) || Answered(attempts[tried - 1].root))
    ensures forall i :: 0 <= i < tried - 1 ==> !Answered(attempts[i].health) && !Answered(attempts[i].root)
  {
    var i := 0;
    while i < MaxRetries
      invariant 0 <= i <= MaxRetries
      invariant forall j :: 0 <= j < i ==> !Answered(attempts[j].health) && !Answered(attempts[j].root)
    {
      if Answered(attempts[i].health) {
        return true, i + 1;
      }
      if Answered(attempts[i].root) {
        return true, i + 1;
      }
      i := i + 1;
    }
    return false, MaxRetries;
  }
}
