/**
 * The model downloader (download_models.py): where a HuggingFace file lands, when an existing
 * file is kept, the CivitAI download URL and Authorization header, and the per-file loop that
 * carries on past failures.
 *
 * The model directory is a map from path to file size. The network answers are parameters:
 * `fetch(f)` is the size of the file `hf_hub_download` writes for repository path `f` (below
 * the local directory, keeping the path's subdirectories), or None when it raises; a CivitAI
 * download is the size written, or None when it raises.
 */
module Downloader {
  import opened Wrappers
  import opened Text

  /** Files larger than 1 MiB count as already downloaded. */
  const SkipThreshold: nat := 1024 * 1024

  /** The file system as the downloader sees it: path to size in bytes. */
  type Files = map<string, nat>

  predicate AlreadyPresent(fs: Files, path: string) {
    path in fs && fs[path] > SkipThreshold
  }

  /** `os.path.join(MODELS_DIR, category)`. */
  function CategoryDir(modelsDir: string, category: string): string {
    JoinPath(modelsDir, category)
  }

  // ---------------------------------------------------------------------------
  // download_from_huggingface
  // ---------------------------------------------------------------------------

  /** What the loop reports for one repository file. */
  datatype HfReport = Kept(filename: string) | Fetched(filename: string) | FetchFailed(filename: string)

  /** Where a repository file is meant to end up: its basename directly below the category directory. */
  function HfTarget(targetDir: string, filename: string): string {
    JoinPath(targetDir, Basename(filename))
  }

  /** Where `hf_hub_download` writes a repository file: below the local directory, subdirectories kept. */
  function HfDownloaded(targetDir: string, filename: string): string {
    JoinPath(targetDir, filename)
  }

  /**
   * The files after one repository file that was not kept: the short file at `target` is
   * removed, a fetched file is written at `downloaded` and, when `moves`, renamed to `target`.
   */
  function Placed(fs: Files, target: string, downloaded: string, moves: bool, fetched: Option<nat>): (r: Files)
    ensures fetched.None? ==> r == fs - {target}
    ensures fetched.Some? && (moves || downloaded == target) ==> target in r && r[target] == fetched.value
    ensures fetched.Some? && moves && downloaded != target ==> downloaded !in r
    ensures forall p :: p != target && p != downloaded ==> (p in r <==> p in fs) && (p in r ==> r[p] == fs[p])
  {
    var cleared := fs - {target};
    match fetched
    case None => cleared
    case Some(size) =>
      var written := cleared[downloaded := size];
      if moves && downloaded != target then (written - {downloaded})[target := size] else written
  }

  /** One iteration of the loop over a repository's files. */
  function HfStep(targetDir: string, fs: Files, filename: string, fetch: string -> Option<nat>): (r: (Files, HfReport))
    ensures r.1.filename == filename
    ensures AlreadyPresent(fs, HfTarget(targetDir, filename)) ==> r.0 == fs && r.1.Kept?
    ensures !AlreadyPresent(fs, HfTarget(targetDir, filename)) ==> (r.1.Fetched? <==> fetch(filename).Some?)
    ensures !AlreadyPresent(fs, HfTarget(targetDir, filename)) ==> !r.1.Kept?
    ensures !AlreadyPresent(fs, HfTarget(targetDir, filename)) && fetch(filename).None? ==>
      r.0 == fs - {HfTarget(targetDir, filename)}
  {
    var target := HfTarget(targetDir, filename);
    if AlreadyPresent(fs, target) then (fs, Kept(filename))
    else
      var downloaded := HfDownloaded(targetDir, filename);
      var after := Placed(fs, target, downloaded, Dirname(downloaded) != targetDir, fetch(filename));
      (after, if fetch(filename).Some? then Fetched(filename) else FetchFailed(filename))
  }

  /** The loop over a repository's files, in order, each step seeing the files the earlier ones left. */
  function HfRun(targetDir: string, files: seq<string>, fs: Files, fetch: string -> Option<nat>): (r: (Files, seq<HfReport>))
    ensures |r.1| == |files|
    ensures forall i :: 0 <= i < |files| ==> r.1[i].filename == files[i]
  {
    if files == [] then (fs, [])
    else
      var before := HfRun(targetDir, files[..|files| - 1], fs, fetch);
      var step := HfStep(targetDir, before.0, files[|files| - 1], fetch);
      ReportsSnoc(before.1, step.1, files);
      (step.0, before.1 + [step.1])
  }

  /** Reports for all files but the last, then the last file's report, name every file in order. */
  lemma ReportsSnoc(before: seq<HfReport>, last: HfReport, files: seq<string>)
    requires |files| >= 1 && |before| == |files| - 1
    requires forall i :: 0 <= i < |files| - 1 ==> before[i].filename == files[..|files| - 1][i]
    requires last.filename == files[|files| - 1]
    ensures |before + [last]| == |files|
    ensures forall i :: 0 <= i < |files| ==> (before + [last])[i].filename == files[i]
  {
    forall i | 0 <= i < |files| ensures (before + [last])[i].filename == files[i] {
      if i < |files| - 1 {
        assert files[..|files| - 1][i] == files[i];
      }
    }
  }

  /**
   * A downloaded file ends up at its basename below the category directory whenever it was not
   * already present: moved there when written to a subdirectory, already there otherwise.
   */
  lemma FetchedFileAtTarget(targetDir: string, fs: Files, filename: string, fetch: string -> Option<nat>)
    requires !AlreadyPresent(fs, HfTarget(targetDir, filename)) && fetch(filename).Some?
    requires Dirname(HfDownloaded(targetDir, filename)) == targetDir ==> HfDownloaded(targetDir, filename) == HfTarget(targetDir, filename)
    ensures var after := HfStep(targetDir, fs, filename, fetch).0;
      HfTarget(targetDir, filename) in after && after[HfTarget(targetDir, filename)] == fetch(filename).value
  {
  }

  /** A plain file name lands directly below the category directory under its own name. */
  lemma FlatFilePlaced(targetDir: string, fs: Files, name: string, fetch: string -> Option<nat>)
    requires targetDir != "" && !EndsWith(targetDir, "/") && '/' !in name
    requires !AlreadyPresent(fs, JoinPath(targetDir, name)) && fetch(name).Some?
    ensures var after := HfStep(targetDir, fs, name, fetch).0;
      JoinPath(targetDir, name) in after && after[JoinPath(targetDir, name)] == fetch(name).value
  {
    BasenameOfJoin("", name);
    assert Basename(name) == name;
    FetchedFileAtTarget(targetDir, fs, name, fetch);
  }

  /**
   * A file in a repository subdirectory ("sub/name", where `sub` may itself be nested, as in
   * "split_files/vae") is flattened: it ends up at `name` below the category directory, and
   * nothing is left at the subdirectory path.
   */
  lemma NestedFileFlattened(targetDir: string, fs: Files, sub: string, name: string, fetch: string -> Option<nat>)
    requires targetDir != "" && !EndsWith(targetDir, "/")
    requires sub != "" && !StartsWith(sub, "/") && !EndsWith(sub, "/") && '/' !in name
    requires !AlreadyPresent(fs, JoinPath(targetDir, name)) && fetch(sub + "/" + name).Some?
    ensures var after := HfStep(targetDir, fs, sub + "/" + name, fetch).0;
      && JoinPath(targetDir, name) in after && after[JoinPath(targetDir, name)] == fetch(sub + "/" + name).value
      && JoinPath(targetDir, sub + "/" + name) !in after
  {
    NestedPaths(targetDir, sub, name);
    FetchedFileAtTarget(targetDir, fs, sub + "/" + name, fetch);
  }

  /** The paths involved in downloading "sub/name": target, write location and its directory. */
  lemma NestedPaths(targetDir: string, sub: string, name: string)
    requires targetDir != "" && !EndsWith(targetDir, "/")
    requires sub != "" && !StartsWith(sub, "/") && !EndsWith(sub, "/") && '/' !in name
    ensures HfTarget(targetDir, sub + "/" + name) == JoinPath(targetDir, name)
    ensures Dirname(HfDownloaded(targetDir, sub + "/" + name)) != targetDir
    ensures HfDownloaded(targetDir, sub + "/" + name) != JoinPath(targetDir, name)
  {
    var filename := sub + "/" + name;
    assert !StartsWith(name, "/") by {
      if |name| > 0 { assert name[0] in name; }
    }
    assert Basename(filename) == name by {
      assert JoinPath(sub, name) == filename;
      BasenameOfJoin(sub, name);
    }
    var subDir := targetDir + "/" + sub;
    assert !EndsWith(subDir, "/") by {
      assert subDir[|subDir| - 1] == sub[|sub| - 1];
    }
    var downloaded := HfDownloaded(targetDir, filename);
    assert downloaded == JoinPath(subDir, name) by {
      assert !StartsWith(filename, "/") by { assert filename[..1] == sub[..1]; }
      assert downloaded == targetDir + "/" + filename;
      assert JoinPath(subDir, name) == subDir + "/" + name;
    }
    DirnameOfJoin(subDir, name);
    assert |downloaded| > |JoinPath(targetDir, name)|;
  }

  /**
   * The body of the loop for one repository file: keep it when over 1 MiB, else remove the
   * short copy, download and move the result to the basename path when it landed elsewhere.
   */
  method DownloadOne(targetDir: string, fs: Files, filename: string, fetch: string -> Option<nat>)
    returns (after: Files, report: HfReport)
    ensures (after, report) == HfStep(targetDir, fs, filename, fetch)
  {
    after := fs;
    var basename := Basename(filename);
    var targetPath := JoinPath(targetDir, basename);
    assert targetPath == HfTarget(targetDir, filename);
    if targetPath in after {
      if after[targetPath] > SkipThreshold {
        return after, Kept(filename);
      }
      after := after - {targetPath};
    } else {
      assert after == after - {targetPath};
    }
    ghost var cleared := fs - {targetPath};
    assert after == cleared;
    var downloadedPath := JoinPath(targetDir, filename);
    ghost var moves := Dirname(downloadedPath) != targetDir;
    var fetched := fetch(filename);
    if fetched.None? {
      return after, FetchFailed(filename);
    }
    after := after[downloadedPath := fetched.value];
    if Dirname(downloadedPath) != targetDir {
      var finalPath := JoinPath(targetDir, basename);
      if downloadedPath != finalPath {
        after := (after - {downloadedPath})[finalPath := fetched.value];
      }
    }
    report := Fetched(filename);
  }

  lemma HfRunSnoc(targetDir: string, files: seq<string>, i: nat, fs: Files, fetch: string -> Option<nat>)
    requires 0 < i <= |files|
    ensures var before := HfRun(targetDir, files[..i - 1], fs, fetch);
      var step := HfStep(targetDir, before.0, files[i - 1], fetch);
      HfRun(targetDir, files[..i], fs, fetch) == (step.0, before.1 + [step.1])
  {
    assert files[..i][..i - 1] == files[..i - 1];
  }

  /** `download_from_huggingface`: one step per file; a skip or a failure moves on to the next file. */
  method DownloadFromHuggingface(targetDir: string, files: seq<string>, fs: Files, fetch: string -> Option<nat>)
    returns (after: Files, reports: seq<HfReport>)
    ensures (after, reports) == HfRun(targetDir, files, fs, fetch)
  {
    after, reports := fs, [];
    var i := 0;
    while i < |files|
      invariant 0 <= i <= |files|
      invariant (after, reports) == HfRun(targetDir, files[..i], fs, fetch)
    {
      var report;
      after, report := DownloadOne(targetDir, after, files[i], fetch);
      reports := reports + [report];
      i := i + 1;
      HfRunSnoc(targetDir, files, i, fs, fetch);
    }
    assert files[..i] == files;
  }

  // ---------------------------------------------------------------------------
  // download_from_civitai
  // ---------------------------------------------------------------------------

  const CivitaiDownloadBase: string := "https://civitai.com/api/download/models/"

  /** The id the download URL names: the version id when present and non-zero, else the model id. */
  function CivitaiId(modelId: int, versionId: Option<int>): int {
    if versionId.Some? && versionId.value != 0 then versionId.value else modelId
  }

  function CivitaiUrl(modelId: int, versionId: Option<int>): (url: string)
    ensures StartsWith(url, CivitaiDownloadBase)
  {
    CivitaiDownloadBase + IntToString(CivitaiId(modelId, versionId))
  }

  /** The URL names the version when there is a non-zero one, and the model otherwise. */
  lemma CivitaiUrlNames(modelId: int, versionId: Option<int>)
    ensures var url := CivitaiUrl(modelId, versionId);
      ParseInt(url[|CivitaiDownloadBase|..]) == Some(if versionId.Some? && versionId.value != 0 then versionId.value else modelId)
  {
    var url := CivitaiUrl(modelId, versionId);
    assert url[|CivitaiDownloadBase|..] == IntToString(CivitaiId(modelId, versionId));
    IntToStringRoundTrip(CivitaiId(modelId, versionId));
  }

  /** The request headers: an Authorization header exactly when there is an API key. */
  function AuthHeaders(apiKey: string): (headers: map<string, string>)
    ensures headers.Keys <= {"Authorization"}
    ensures "Authorization" in headers <==> apiKey != ""
    ensures "Authorization" in headers ==>
              (StartsWith(headers["Authorization"], "Bearer ") && headers["Authorization"][7..] == apiKey)
  {
    if apiKey != "" then map["Authorization" := "Bearer " + apiKey] else map[]
  }

  /** Whether a failed download prints the NSFW advice. */
  predicate NsfwHint(filename: string) {
    Contains(filename, "NSFW") || Contains(Lower(filename), "nsfw")
  }

  /** The upper-case test adds nothing: the advice is shown iff the lower-cased name contains "nsfw". */
  lemma NsfwHintIff(filename: string)
    ensures NsfwHint(filename) <==> Contains(Lower(filename), "nsfw")
  {
    if Contains(filename, "NSFW") {
      LowerContains(filename, "NSFW");
      assert Lower("NSFW") == "nsfw";
    }
  }

  lemma {:induction false} LowerContains(s: string, sub: string)
    requires Contains(s, sub)
    ensures Contains(Lower(s), Lower(sub))
    decreases |s|
  {
    if StartsWith(s, sub) {
      assert Lower(s)[..|sub|] == Lower(sub);
    } else {
      LowerContains(s[1..], sub);
      assert Lower(s)[1..] == Lower(s[1..]);
    }
  }

  datatype CivitaiOutcome = Present | Downloaded | DownloadFailed(nsfwHint: bool)

  /** A CivitAI download request: URL and headers. */
  datatype Request = Request(url: string, headers: map<string, string>)

  /**
   * `download_from_civitai`: keep a present file over 1 MiB; otherwise remove the short one,
   * request the URL with the headers and, when `download` answers a size, store that file.
   */
  method DownloadFromCivitai(modelsDir: string, category: string, modelId: int, versionId: Option<int>,
                             filename: string, apiKey: string, fs: Files, download: Option<nat>)
    returns (request: Option<Request>, after: Files, outcome: CivitaiOutcome)
    ensures var target := JoinPath(CategoryDir(modelsDir, category), filename);
      && (AlreadyPresent(fs, target) <==> outcome == Present)
      && (outcome == Present ==> request.None? && after == fs)
      && (outcome != Present ==> request == Some(Request(CivitaiUrl(modelId, versionId), AuthHeaders(apiKey))))
      && (outcome != Present ==> (outcome == Downloaded <==> download.Some?))
      && (outcome == Downloaded ==> after == fs[target := download.value])
      && (outcome.DownloadFailed? ==> after == fs - {target} && outcome.nsfwHint == NsfwHint(filename))
  {
    var targetDir := CategoryDir(modelsDir, category);
    var targetPath := JoinPath(targetDir, filename);
    after := fs;
    if targetPath in after {
      if after[targetPath] > SkipThreshold {
        return None, after, Present;
      } else {
        after := after - {targetPath};
      }
    }
    var url := if versionId.Some? && versionId.value != 0
      then CivitaiDownloadBase + IntToString(versionId.value)
      else CivitaiDownloadBase + IntToString(modelId);
    var headers: map<string, string> := map[];
    if apiKey != "" {
      headers := headers["Authorization" := "Bearer " + apiKey];
    }
    request := Some(Request(url, headers));
    match download
    case Some(size) =>
      after := after[targetPath := size];
      outcome := Downloaded;
    case None =>
      outcome := DownloadFailed(Contains(filename, "NSFW") || Contains(Lower(filename), "nsfw"));
  }
}
