/**
 * Which entries of the storage listings a run picks up, and the local names
 * it gives the files it downloads.
 */
module StorageNames {
  import opened Wrappers
  import opened PyText

  /** The marker object storage keeps in an otherwise empty folder. */
  const Placeholder := ".emptyFolderPlaceholder"

  /** A storage listing: the `name` of each entry, None when the entry has none. */
  type Listing = seq<Option<string>>

  function JsonDirectory(user: string, job: string): string {
    user + "/" + job + "/json"
  }

  function ScreenshotsDirectory(user: string, job: string): string {
    user + "/" + job + "/screenshots"
  }

  /** A name of a temporary file of the run: `temp_{user_id}_{job_id}_{name}`. */
  function TempPath(user: string, job: string, name: string): (r: string)
    ensures r != []
  {
    "temp_" + user + "_" + job + "_" + name
  }

  /** A listed name is downloaded as a screenshot: non-empty, an image suffix in any case, not the marker. */
  predicate IsScreenshotName(name: Option<string>) {
    name.Some? && name.value != [] && name.value != Placeholder &&
    (EndsWith(Lower(name.value), ".png") || EndsWith(Lower(name.value), ".jpg") || EndsWith(Lower(name.value), ".jpeg"))
  }

  /** A listed name is a candidate event file: non-empty, `.json` in any case, not the marker. */
  predicate IsJsonName(name: Option<string>) {
    name.Some? && name.value != [] && name.value != Placeholder && EndsWith(Lower(name.value), ".json")
  }

  /** `name.replace('/', '_').replace('\\', '_')`. */
  function LocalName(name: string): (r: string)
    ensures |r| == |name| && '/' !in r && '\\' !in r
    ensures forall k :: 0 <= k < |name| ==> r[k] == (if name[k] == '/' || name[k] == '\\' then '_' else name[k])
  {
    ReplaceChar(ReplaceChar(name, '/', '_'), '\\', '_')
  }

  /** One screenshot download: where it is stored, where it is saved locally, and its listed name. */
  datatype ShotTask = ShotTask(fullPath: string, tempPath: string, name: string)

  function ShotTaskFor(user: string, job: string, name: string): ShotTask {
    ShotTask(ScreenshotsDirectory(user, job) + "/" + name, TempPath(user, job, LocalName(name)), name)
  }

  /** The downloads a screenshot listing gives rise to, in listing order. */
  function ShotTasks(user: string, job: string, listing: Listing): seq<ShotTask> {
    if listing == [] then []
    else
      ShotTasks(user, job, listing[..|listing| - 1]) +
      (if IsScreenshotName(listing[|listing| - 1]) then [ShotTaskFor(user, job, listing[|listing| - 1].value)] else [])
  }

  /**
   * Exactly the screenshot names of the listing are downloaded, each from the
   * run's screenshot folder into a local file whose name holds no path separator.
   */
  lemma {:induction false} ShotTasksSpec(user: string, job: string, listing: Listing)
    ensures forall t :: t in ShotTasks(user, job, listing) ==> t == ShotTaskFor(user, job, t.name)
    ensures forall t :: t in ShotTasks(user, job, listing) ==> Some(t.name) in listing && IsScreenshotName(Some(t.name))
    ensures forall k :: 0 <= k < |listing| && IsScreenshotName(listing[k]) ==>
      ShotTaskFor(user, job, listing[k].value) in ShotTasks(user, job, listing)
    ensures |ShotTasks(user, job, listing)| <= |listing|
  {
    if listing != [] {
      var init, last := listing[..|listing| - 1], listing[|listing| - 1];
      ShotTasksSpec(user, job, init);
      var prev := ShotTasks(user, job, init);
      var extra := if IsScreenshotName(last) then [ShotTaskFor(user, job, last.value)] else [];
      assert ShotTasks(user, job, listing) == prev + extra;
      assert listing == init + [last];
      forall t: ShotTask | t in prev + extra
        ensures t == ShotTaskFor(user, job, t.name) && Some(t.name) in listing && IsScreenshotName(Some(t.name))
      {
        if t !in prev {
          assert t == ShotTaskFor(user, job, last.value) && Some(t.name) == last;
        }
      }
      forall k | 0 <= k < |listing| && IsScreenshotName(listing[k])
        ensures ShotTaskFor(user, job, listing[k].value) in prev + extra
      {
        if k < |init| {
          assert init[k] == listing[k];
        }
      }
    }
  }

  /** Every local screenshot name lies in the working directory. */
  lemma ShotTempPathsFlat(user: string, job: string, listing: Listing)
    ensures forall t :: t in ShotTasks(user, job, listing) ==>
      t.tempPath == TempPath(user, job, LocalName(t.name)) && '/' !in LocalName(t.name) && '\\' !in LocalName(t.name)
  {
    ShotTasksSpec(user, job, listing);
  }

  /** Different local names give different temporary paths. */
  lemma TempPathInjective(user: string, job: string, a: string, b: string)
    requires TempPath(user, job, a) == TempPath(user, job, b)
    ensures a == b
  {
    var pre := "temp_" + user + "_" + job + "_";
    assert TempPath(user, job, a) == pre + a && TempPath(user, job, b) == pre + b;
    assert a == (pre + a)[|pre|..] && b == (pre + b)[|pre|..];
  }

  /** Every image suffix ends in 'g', so no screenshot keeps a local name ending in 'f'. */
  lemma ScreenshotNameNotPdf(name: string)
    requires IsScreenshotName(Some(name))
    ensures LocalName(name) != "generated.pdf"
  {
    var low := Lower(name);
    var last := |name| - 1;
    assert low[last] == 'g' by {
      if EndsWith(low, ".png") {
        assert low[last] == low[|low| - 4..][3];
      } else if EndsWith(low, ".jpg") {
        assert low[last] == low[|low| - 4..][3];
      } else {
        assert low[last] == low[|low| - 5..][4];
      }
    }
    assert LocalName(name)[last] != 'f';
  }

  /** No screenshot is saved under the path the run gives its PDF. */
  lemma ScreenshotsAvoidPdfPath(user: string, job: string, listing: Listing)
    ensures forall t :: t in ShotTasks(user, job, listing) ==> t.tempPath != TempPath(user, job, "generated.pdf")
  {
    ShotTasksSpec(user, job, listing);
    forall t | t in ShotTasks(user, job, listing)
      ensures t.tempPath != TempPath(user, job, "generated.pdf")
    {
      ScreenshotNameNotPdf(t.name);
      if t.tempPath == TempPath(user, job, "generated.pdf") {
        TempPathInjective(user, job, LocalName(t.name), "generated.pdf");
      }
    }
  }

  /** The first candidate event file of a listing, None when there is none. */
  function FirstJson(listing: Listing): Option<string> {
    if listing == [] then None
    else if IsJsonName(listing[0]) then listing[0]
    else FirstJson(listing[1..])
  }

  /** The chosen name is a candidate, and every entry listed before it is not; None means no candidate at all. */
  lemma {:induction false} FirstJsonSpec(listing: Listing)
    ensures FirstJson(listing).None? <==> forall k :: 0 <= k < |listing| ==> !IsJsonName(listing[k])
    ensures FirstJson(listing).Some? ==>
      exists k :: 0 <= k < |listing| && listing[k] == FirstJson(listing) && IsJsonName(listing[k]) &&
                  (forall j :: 0 <= j < k ==> !IsJsonName(listing[j]))
  {
    if listing != [] && !IsJsonName(listing[0]) {
      FirstJsonSpec(listing[1..]);
      assert forall k :: 1 <= k < |listing| ==> listing[k] == listing[1..][k - 1];
      if FirstJson(listing).Some? {
        var k :| 0 <= k < |listing[1..]| && listing[1..][k] == FirstJson(listing) && IsJsonName(listing[1..][k]) &&
                 (forall j :: 0 <= j < k ==> !IsJsonName(listing[1..][j]));
        assert listing[k + 1] == FirstJson(listing);
      }
    }
  }

  /** The loop over the JSON listing, which stops at the first candidate event file. */
  method SelectJsonFile(listing: Listing) returns (r: Option<string>)
    ensures r == FirstJson(listing)
  {
    r := None;
    var i := 0;
    while i < |listing|
      invariant 0 <= i <= |listing|
      invariant FirstJson(listing) == FirstJson(listing[i..])
    {
      assert listing[i..][1..] == listing[i + 1..];
      if IsJsonName(listing[i]) {
        r := listing[i];
        return;
      }
      i := i + 1;
    }
  }

  /**
   * The characters `[\w\-_.]` keeps, restricted to ASCII: letters, digits,
   * '_', '-' and '.'. Python 3 also counts non-ASCII letters and digits as
   * `\w`; those are not represented here.
   */
  predicate SafeChar(c: char) {
    'a' <= c <= 'z' || 'A' <= c <= 'Z' || '0' <= c <= '9' || c == '_' || c == '-' || c == '.'
  }

  /** `re.sub(r'[^\w\-_.]', '_', name)`. */
  function SafeName(name: string): (r: string)
    ensures |r| == |name|
    ensures forall k :: 0 <= k < |r| ==> SafeChar(r[k])
    ensures forall k :: 0 <= k < |r| ==> r[k] == (if SafeChar(name[k]) then name[k] else '_')
  {
    seq(|name|, k requires 0 <= k < |name| => if SafeChar(name[k]) then name[k] else '_')
  }

  /**
   * The local name of the event file: the sanitised name cut to 50 characters,
   * followed by the sanitised name's suffix once more.
   */
  function JsonLocalName(name: string): string {
    Take(SafeName(name), 50) + Suffix(SafeName(name))
  }

  predicate AllSafe(s: string) {
    forall k :: 0 <= k < |s| ==> SafeChar(s[k])
  }

  lemma AllSafeEnd(p: string, r: string)
    requires AllSafe(p) && EndsWith(p, r)
    ensures AllSafe(r)
  {
    assert forall k :: 0 <= k < |r| ==> r[k] == p[|p| - |r| + k];
  }

  lemma AllSafeJoin(a: string, b: string)
    requires AllSafe(a) && AllSafe(b)
    ensures AllSafe(a + b)
  {
    assert forall k :: |a| <= k < |a + b| ==> (a + b)[k] == b[k - |a|];
  }

  lemma AllSafeNoSlash(s: string)
    requires AllSafe(s)
    ensures '/' !in s
  {
  }

  /** A safe name does not end in '/', so its path keeps every character. */
  lemma NoTrailingSlash(s: string)
    requires AllSafe(s)
    ensures DropTrailingSlashes(s) == s
  {
    if s != [] {
      assert SafeChar(s[|s| - 1]);
    }
  }

  /** The suffix of a safe name is safe. */
  lemma SuffixOfSafe(s: string)
    requires AllSafe(s)
    ensures AllSafe(Suffix(s))
  {
    NoTrailingSlash(s);
    BaseNameSpec(s);
    AllSafeEnd(s, BaseName(s));
    AllSafeEnd(BaseName(s), Suffix(s));
  }

  /** The local event file name never leaves the working directory and is at most 50 characters plus a suffix. */
  lemma JsonLocalNameSafe(name: string)
    ensures AllSafe(JsonLocalName(name))
    ensures '/' !in JsonLocalName(name)
    ensures |JsonLocalName(name)| <= 50 + |Suffix(SafeName(name))|
  {
    var s := SafeName(name);
    assert AllSafe(JsonLocalName(name)) by {
      SuffixOfSafe(s);
      AllSafeJoin(Take(s, 50), Suffix(s));
    }
    AllSafeNoSlash(JsonLocalName(name));
  }

  /** A name of at most 50 characters keeps its whole sanitised form, and its suffix is repeated. */
  lemma ShortJsonNameRepeatsSuffix(name: string)
    requires |name| <= 50
    ensures JsonLocalName(name) == SafeName(name) + Suffix(SafeName(name))
  {
  }

  /** A safe name keeps its characters. */
  lemma SafeNameOfSafe(name: string)
    requires AllSafe(name)
    ensures SafeName(name) == name
  {
  }

  /** The suffix of a plain name whose last dot sits at `i`, strictly inside it. */
  lemma SuffixAt(p: string, i: nat)
    requires '/' !in p && 0 < i < |p| - 1 && p[i] == '.'
    requires forall k :: i < k < |p| ==> p[k] != '.'
    ensures Suffix(p) == p[i..]
  {
    BaseNameOfPlainName(p);
    var j := LastIndexOf(p, '.');
    assert j == i;
  }

  /** `events.json` is saved locally as `events.json.json`. */
  lemma EventsJsonDoubled()
    ensures JsonLocalName("events.json") == "events.json.json"
  {
    var name := "events.json";
    assert AllSafe(name);
    SafeNameOfSafe(name);
    SuffixAt(name, 6);
  }
}
