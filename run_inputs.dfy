/**
 * What both variants of a generation run read from outside (the uploaded
 * file, the storage bucket, the PDF builder) and the local files they make.
 */
module RunInputs {
  import opened Wrappers
  import opened Json
  import opened LocalFiles
  import opened StorageNames
  import opened ScreenshotDownload
  import opened FileReaders

  /** An uploaded file: its name and what the parsing libraries make of its bytes. */
  datatype Upload = Upload(filename: string, libraries: Libraries)

  /** The `log_dataa` bucket: whether listing raises, the two listings, and what each download gives. */
  datatype Bucket = Bucket(listRaises: bool, jsonListing: Listing, shotListing: Listing, objects: Objects)

  /** `create_pdf_from_screenshots`: the PDF is written, or the call raises, possibly after creating a partial file. */
  datatype PdfCreation = PdfCreated | PdfFails(leavesFile: bool)

  /** The `SOPState` a run hands to the workflow. */
  datatype SopState = SopState(
    knowledgeBase: string,
    filePath: string,
    eventData: string,
    query: string,
    components: Json,
    category: Json,
    contents: string)

  /** `temp_{user_id}_{job_id}_generated.pdf`. */
  function PdfPath(user: string, job: string): string {
    TempPath(user, job, "generated.pdf")
  }

  /** Where the chosen event file is stored. */
  function EventSource(user: string, job: string, name: string): string {
    JsonDirectory(user, job) + "/" + name
  }

  /** Where the chosen event file is saved locally. */
  function EventPath(user: string, job: string, name: string): string {
    TempPath(user, job, JsonLocalName(name))
  }

  /** Listing succeeded and at least one of the two folders lists something. */
  predicate ListingsUsable(b: Bucket) {
    !b.listRaises && !(b.jsonListing == [] && b.shotListing == [])
  }

  /** The screenshots a run saves, in listing order. */
  function Shots(user: string, job: string, b: Bucket, unwritable: set<string>): seq<(string, string)> {
    Downloaded(b.objects, unwritable, ShotTasks(user, job, b.shotListing))
  }

  /** The event file is downloaded as bytes and its local copy is written completely. */
  predicate EventSaved(user: string, job: string, b: Bucket, unwritable: set<string>, name: string) {
    FetchOf(b.objects, EventSource(user, job, name)) == Bytes && EventPath(user, job, name) !in unwritable
  }

  /**
   * A file a run may leave behind untracked: the partial PDF of a failed
   * build, or the partial local copy of the event file when its write raised.
   */
  predicate LeftBehind(user: string, job: string, pdf: PdfCreation, b: Bucket, unwritable: set<string>, p: string) {
    (pdf == PdfFails(true) && p == PdfPath(user, job)) ||
    (FirstJson(b.jsonListing).Some? && p == EventPath(user, job, FirstJson(b.jsonListing).value) && p in unwritable)
  }

  /** The partial files the PDF step and the event step may leave for the chosen event file. */
  function Strays(user: string, job: string, pdf: PdfCreation, unwritable: set<string>, name: string): set<string> {
    (if pdf == PdfFails(true) then {PdfPath(user, job)} else {}) +
    (if EventPath(user, job, name) in unwritable then {EventPath(user, job, name)} else {})
  }

  /** A stray file of the first event file is a file the run may leave behind. */
  lemma StraysLeftBehind(user: string, job: string, pdf: PdfCreation, b: Bucket, unwritable: set<string>)
    requires FirstJson(b.jsonListing).Some?
    ensures forall p :: p in Strays(user, job, pdf, unwritable, FirstJson(b.jsonListing).value) ==>
      LeftBehind(user, job, pdf, b, unwritable, p)
  {
  }

  /** `a` when it is kept, then `b` when it is kept. */
  function Kept(a: string, keepA: bool, b: string, keepB: bool): seq<string> {
    (if keepA then [a] else []) + (if keepB then [b] else [])
  }

  lemma KeptNonEmpty(a: string, keepA: bool, b: string, keepB: bool)
    requires a != [] && b != []
    ensures forall p :: p in Kept(a, keepA, b, keepB) ==> p != []
  {
  }

  /** The files the PDF step and the event step track: the PDF once it is built, then the event file once it is saved. */
  function Tracked(user: string, job: string, pdf: PdfCreation, name: string, saved: bool): seq<string> {
    Kept(PdfPath(user, job), pdf.PdfCreated?, EventPath(user, job, name), saved)
  }

  /** Tracked paths are non-empty, so the clean-up removes them. */
  lemma TrackedNonEmpty(user: string, job: string, pdf: PdfCreation, name: string, saved: bool)
    ensures forall p :: p in Tracked(user, job, pdf, name, saved) ==> p != []
  {
    KeptNonEmpty(PdfPath(user, job), pdf.PdfCreated?, EventPath(user, job, name), saved);
  }

  /** A built PDF and a completely written event file leave nothing behind. */
  lemma NoStrays(user: string, job: string, pdf: PdfCreation, unwritable: set<string>, name: string)
    requires pdf.PdfCreated? && EventPath(user, job, name) !in unwritable
    ensures Strays(user, job, pdf, unwritable, name) == {}
  {
  }

  /** Two lists of non-empty paths make one. */
  lemma NonEmptyPaths(first: seq<string>, second: seq<string>)
    requires forall p :: p in first ==> p != []
    requires forall p :: p in second ==> p != []
    ensures forall p :: p in first + second ==> p != []
  {
  }

  /** The files two steps in a row create: those the first tracks or cannot remove, then those of the second. */
  lemma NewFilesCompose(start: set<string>, mid: set<string>, end: set<string>, stuck: set<string>,
                        first: seq<string>, second: seq<string>, strays: set<string>)
    requires forall p :: p in mid && p !in start ==> p in stuck || p in first
    requires forall p :: p in end && p !in mid ==> p in second || p in strays
    ensures forall p :: p in end && p !in start ==> p in stuck || p in first + second || p in strays
  {
  }

  /**
   * The files of a run that got past the 404 checks, once its screenshots are
   * downloaded and its PDF and event steps have run: every path it tracks is
   * non-empty; every new file is tracked, cannot be removed, or may be left
   * behind; with no strays every new file is tracked or cannot be removed;
   * and a partial PDF is never tracked.
   */
  lemma RunFiles(start: set<string>, downloaded: set<string>, end: set<string>, stuck: set<string>,
                 shotTemps: seq<string>, tracked: seq<string>,
                 user: string, job: string, pdf: PdfCreation, b: Bucket, unwritable: set<string>, saved: bool)
    requires FirstJson(b.jsonListing).Some?
    requires forall p :: p in shotTemps ==> p != [] && p != PdfPath(user, job)
    requires forall p :: p in downloaded && p !in start ==> p in stuck || p in shotTemps
    requires tracked == Tracked(user, job, pdf, FirstJson(b.jsonListing).value, saved)
    requires saved ==> pdf.PdfCreated?
    requires forall p :: p in end && p !in downloaded ==>
      p in tracked || p in Strays(user, job, pdf, unwritable, FirstJson(b.jsonListing).value)
    ensures forall p :: p in shotTemps + tracked ==> p != []
    ensures forall p :: p in end && p !in start ==>
      p in stuck || p in shotTemps + tracked || LeftBehind(user, job, pdf, b, unwritable, p)
    ensures Strays(user, job, pdf, unwritable, FirstJson(b.jsonListing).value) == {} ==>
      forall p :: p in end && p !in start ==> p in stuck || p in shotTemps + tracked
    ensures pdf == PdfFails(true) ==> PdfPath(user, job) !in shotTemps + tracked
  {
    var name := FirstJson(b.jsonListing).value;
    TrackedNonEmpty(user, job, pdf, name, saved);
    NonEmptyPaths(shotTemps, tracked);
    NewFilesCompose(start, downloaded, end, stuck, shotTemps, tracked, Strays(user, job, pdf, unwritable, name));
    StraysLeftBehind(user, job, pdf, b, unwritable);
  }

  /** Every saved screenshot has a non-empty local path, and none is the PDF's path. */
  lemma ShotPaths(user: string, job: string, b: Bucket, unwritable: set<string>)
    ensures forall p :: p in Paths(Shots(user, job, b, unwritable)) ==> p != [] && p != PdfPath(user, job)
  {
    var info := Shots(user, job, b, unwritable);
    forall p | p in Paths(info)
      ensures p != [] && p != PdfPath(user, job)
    {
      var k :| 0 <= k < |info| && Paths(info)[k] == p;
      ShotPath(user, job, b, unwritable, info[k]);
    }
  }

  lemma ShotPath(user: string, job: string, b: Bucket, unwritable: set<string>, x: (string, string))
    requires x in Shots(user, job, b, unwritable)
    ensures x.0 != [] && x.0 != PdfPath(user, job)
  {
    var tasks := ShotTasks(user, job, b.shotListing);
    DownloadedSpec(b.objects, unwritable, tasks);
    var t :| t in tasks && Saved(b.objects, unwritable, t) && x == (t.tempPath, t.name);
    ShotTasksSpec(user, job, b.shotListing);
    ScreenshotsAvoidPdfPath(user, job, b.shotListing);
    assert t.tempPath == TempPath(user, job, LocalName(t.name));
  }

  /** The PDF step's effect on the directory: a created PDF exists; a failed one may leave a partial file. */
  method MakePdf(fs: LocalFs, user: string, job: string, pdf: PdfCreation) returns (made: bool)
    modifies fs
    ensures made <==> pdf.PdfCreated?
    ensures pdf != PdfFails(false) ==> fs.files == old(fs.files) + {PdfPath(user, job)}
    ensures pdf == PdfFails(false) ==> fs.files == old(fs.files)
  {
    made := pdf.PdfCreated?;
    if pdf != PdfFails(false) {
      fs.Create(PdfPath(user, job));
    }
  }

  /**
   * Downloading the chosen event file and writing its local copy. Anything
   * but bytes writes nothing; a write that raises leaves its partial file.
   */
  method SaveEvent(fs: LocalFs, user: string, job: string, b: Bucket, name: string) returns (saved: bool)
    modifies fs
    ensures saved <==> EventSaved(user, job, b, fs.unwritable, name)
    ensures FetchOf(b.objects, EventSource(user, job, name)) == Bytes ==> fs.files == old(fs.files) + {EventPath(user, job, name)}
    ensures FetchOf(b.objects, EventSource(user, job, name)) != Bytes ==> fs.files == old(fs.files)
  {
    var response := FetchOf(b.objects, EventSource(user, job, name));
    if response != Bytes {
      return false;
    }
    saved := fs.Write(EventPath(user, job, name));
  }
}
