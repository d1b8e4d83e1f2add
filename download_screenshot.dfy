/**
 * Downloading screenshots into local temporary files, and folding the
 * per-download results into the run's `screenshot_info` and `temp_files`.
 */
module ScreenshotDownload {
  import opened Wrappers
  import opened LocalFiles
  import opened StorageNames

  /** What `storage.download(path)` gives: bytes, some other value, or an exception. */
  datatype Fetch = Bytes | NotBytes | FetchRaises

  /** The storage bucket's answers by object path; a path it does not hold raises. */
  type Objects = map<string, Fetch>

  function FetchOf(objects: Objects, path: string): Fetch {
    if path in objects then objects[path] else FetchRaises
  }

  /** A download yields a local copy: bytes arrive and the local write completes. */
  predicate Saved(objects: Objects, unwritable: set<string>, t: ShotTask) {
    FetchOf(objects, t.fullPath) == Bytes && t.tempPath !in unwritable
  }

  /**
   * `download_screenshot`: returns `(temp_path, file_name)` when the bytes were
   * saved; otherwise None, after removing the local file on an exception. It
   * never raises, and a failing removal is swallowed.
   */
  method DownloadScreenshot(fs: LocalFs, objects: Objects, fullPath: string, tempPath: string, fileName: string)
    returns (r: Option<(string, string)>)
    modifies fs
    ensures r.Some? <==> FetchOf(objects, fullPath) == Bytes && tempPath !in fs.unwritable
    ensures r.Some? ==> r.value == (tempPath, fileName) && fs.files == old(fs.files) + {tempPath}
    ensures FetchOf(objects, fullPath) == NotBytes ==> fs.files == old(fs.files)
    ensures r.None? && FetchOf(objects, fullPath) != NotBytes ==>
      fs.files - {tempPath} == old(fs.files) - {tempPath} &&
      (tempPath in fs.files <==> tempPath in fs.stuck && (tempPath in old(fs.files) || FetchOf(objects, fullPath) == Bytes))
  {
    var fetched := FetchOf(objects, fullPath);
    if fetched == FetchRaises {
      var removed := fs.RemoveIfExists(tempPath);
      return None;
    }
    if fetched == NotBytes {
      return None;
    }
    var ok := fs.Write(tempPath);
    if !ok {
      var removed := fs.RemoveIfExists(tempPath);
      return None;
    }
    return Some((tempPath, fileName));
  }

  /** The result of one task, as `download_screenshot` reports it. */
  function Outcome(objects: Objects, unwritable: set<string>, t: ShotTask): Option<(string, string)> {
    if Saved(objects, unwritable, t) then Some((t.tempPath, t.name)) else None
  }

  /**
   * The gathered downloads of a run, one result per task in task order (the
   * model runs the bounded concurrent downloads one after the other).
   */
  method DownloadAll(fs: LocalFs, objects: Objects, tasks: seq<ShotTask>) returns (results: seq<Option<(string, string)>>)
    modifies fs
    ensures |results| == |tasks|
    ensures forall i :: 0 <= i < |tasks| ==> results[i] == Outcome(objects, fs.unwritable, tasks[i])
    ensures forall p :: p in fs.files && p !in old(fs.files) ==>
      p in fs.stuck || exists i :: 0 <= i < |tasks| && results[i] == Some((p, tasks[i].name))
  {
    results := [];
    var i := 0;
    while i < |tasks|
      invariant 0 <= i <= |tasks| && |results| == i
      invariant forall j :: 0 <= j < i ==> results[j] == Outcome(objects, fs.unwritable, tasks[j])
      invariant forall p :: p in fs.files && p !in old(fs.files) ==>
        p in fs.stuck || exists j :: 0 <= j < i && results[j] == Some((p, tasks[j].name))
    {
      var t := tasks[i];
      ghost var filesBefore, resultsBefore := fs.files, results;
      var r := DownloadScreenshot(fs, objects, t.fullPath, t.tempPath, t.name);
      results := results + [r];
      forall p | p in fs.files && p !in old(fs.files) && p !in fs.stuck
        ensures exists j :: 0 <= j < i + 1 && results[j] == Some((p, tasks[j].name))
      {
        if p == t.tempPath && r.Some? {
          assert results[i] == Some((p, tasks[i].name));
        } else {
          if r.None? && FetchOf(objects, t.fullPath) != NotBytes {
            assert p != t.tempPath;
            assert p in fs.files - {t.tempPath};
          }
          assert p in filesBefore;
          var j :| 0 <= j < i && resultsBefore[j] == Some((p, tasks[j].name));
          assert results[j] == resultsBefore[j];
        }
      }
      i := i + 1;
    }
  }

  /** The successful results, in order. */
  function Kept(results: seq<Option<(string, string)>>): seq<(string, string)> {
    if results == [] then []
    else Kept(results[..|results| - 1]) + (if results[|results| - 1].Some? then [results[|results| - 1].value] else [])
  }

  /** The local paths of the kept results. */
  function Paths(info: seq<(string, string)>): (r: seq<string>)
    ensures |r| == |info| && forall i :: 0 <= i < |info| ==> r[i] == info[i].0
  {
    seq(|info|, i requires 0 <= i < |info| => info[i].0)
  }

  /** A result is kept exactly when it is a success; failures leave no trace, and nothing is added. */
  lemma {:induction false} KeptSpec(results: seq<Option<(string, string)>>)
    ensures forall x :: x in Kept(results) <==> Some(x) in results
    ensures |Kept(results)| <= |results|
    ensures Kept(results) == [] <==> forall i :: 0 <= i < |results| ==> results[i].None?
  {
    if results != [] {
      var init := results[..|results| - 1];
      KeptSpec(init);
      assert results == init + [results[|results| - 1]];
      assert forall i :: 0 <= i < |init| ==> init[i] == results[i];
    }
  }

  /**
   * The fold after `asyncio.gather`: each successful result is appended to
   * `screenshot_info` and its path to `temp_files`, and counted.
   */
  method KeepDownloaded(results: seq<Option<(string, string)>>)
    returns (info: seq<(string, string)>, temps: seq<string>, successes: nat)
    ensures info == Kept(results)
    ensures temps == Paths(info)
    ensures successes == |info|
  {
    info, temps, successes := [], [], 0;
    var i := 0;
    while i < |results|
      invariant 0 <= i <= |results|
      invariant info == Kept(results[..i]) && temps == Paths(info) && successes == |info|
    {
      assert results[..i + 1][..i] == results[..i];
      var r := results[i];
      if r.Some? {
        var (tempPath, fileName) := r.value;
        info := info + [(tempPath, fileName)];
        temps := temps + [tempPath];
        successes := successes + 1;
      }
      i := i + 1;
    }
    assert results[..i] == results;
  }

  /** The screenshots a run ends up with: the saved tasks, in order. */
  function Downloaded(objects: Objects, unwritable: set<string>, tasks: seq<ShotTask>): seq<(string, string)> {
    if tasks == [] then []
    else
      Downloaded(objects, unwritable, tasks[..|tasks| - 1]) +
      (if Saved(objects, unwritable, tasks[|tasks| - 1]) then [(tasks[|tasks| - 1].tempPath, tasks[|tasks| - 1].name)] else [])
  }

  /** Folding the per-task results gives exactly the saved tasks. */
  lemma {:induction false} KeptOutcomes(objects: Objects, unwritable: set<string>, tasks: seq<ShotTask>, results: seq<Option<(string, string)>>)
    requires |results| == |tasks|
    requires forall i :: 0 <= i < |tasks| ==> results[i] == Outcome(objects, unwritable, tasks[i])
    ensures Kept(results) == Downloaded(objects, unwritable, tasks)
  {
    if tasks != [] {
      KeptOutcomes(objects, unwritable, tasks[..|tasks| - 1], results[..|results| - 1]);
    }
  }

  /** A screenshot is recorded exactly when its task was saved. */
  lemma {:induction false} DownloadedSpec(objects: Objects, unwritable: set<string>, tasks: seq<ShotTask>)
    ensures forall x :: x in Downloaded(objects, unwritable, tasks) <==>
      exists t :: t in tasks && Saved(objects, unwritable, t) && x == (t.tempPath, t.name)
    ensures Downloaded(objects, unwritable, tasks) == [] <==> forall t :: t in tasks ==> !Saved(objects, unwritable, t)
  {
    if tasks != [] {
      var init := tasks[..|tasks| - 1];
      DownloadedSpec(objects, unwritable, init);
      assert tasks == init + [tasks[|tasks| - 1]];
    }
  }
}
