/**
 * `generate_sop_api` of the earlier service (`POST /generate_sop/`): the
 * same run without status records, with the screenshots downloaded one after
 * the other and every upload read as some kind of text.
 */
module LegacyRun {
  import opened Wrappers
  import opened Json
  import opened PyText
  import opened LocalFiles
  import opened StorageNames
  import opened ScreenshotDownload
  import opened TemplateLookup
  import opened FileReaders
  import opened RunInputs

  /** The form fields of a request. */
  datatype Request = Request(user: string, job: string, query: string, templateId: string, upload: Option<Upload>)

  /** What the run consults: the template tables, the bucket, the PDF builder, `parse_json`'s answer, and whether the workflow raises. */
  datatype World = World(tables: Tables, bucket: Bucket, pdf: PdfCreation, eventText: string, workflowRaises: bool)

  /** The response: the metadata and the state the workflow ran on, or an `HTTPException` code. */
  datatype Outcome = Success(filesProcessed: nat, state: SopState) | Raised(code: int)

  /** The knowledge base: the retrieval is commented out, so the issue text is always empty. */
  const KnowledgeBase := "### Jira Issues:\n" + "" + "\n"

  /** Lines 112-123: the upload read by the reader its lower-cased suffix selects, decoded as text otherwise; "" without an upload. */
  function UploadText(upload: Option<Upload>): string {
    if upload.None? then "" else ReaderText(upload.value.libraries, ReaderFor(Suffix(upload.value.filename)))
  }

  /** `len(screenshot_info) + (1 if file else 0)`. */
  function FilesProcessed(shotCount: nat, upload: Option<Upload>): nat {
    shotCount + if upload.Some? then 1 else 0
  }

  /** Once the PDF and the event file are saved: the event data (400), then the workflow (500). */
  function WorkflowVerdict(req: Request, w: World, shotCount: nat, components: Json, category: Json): Outcome {
    if w.eventText == [] then Raised(400)
    else if w.workflowRaises then Raised(500)
    else
      Success(FilesProcessed(shotCount, req.upload),
              SopState(KnowledgeBase, PdfPath(req.user, req.job), w.eventText, req.query, components, category, UploadText(req.upload)))
  }

  /** The steps that need files, then the event check and the workflow. */
  function FilesVerdict(req: Request, w: World, unwritable: set<string>, components: Json, category: Json): Outcome {
    var shots := Shots(req.user, req.job, w.bucket, unwritable);
    var json := FirstJson(w.bucket.jsonListing);
    if shots == [] || json.None? then Raised(404)
    else if w.pdf.PdfFails? || !EventSaved(req.user, req.job, w.bucket, unwritable, json.value) then Raised(500)
    else WorkflowVerdict(req, w, |shots|, components, category)
  }

  /** How a run ends, check by check in the order the function makes them. */
  function Verdict(req: Request, w: World, unwritable: set<string>): Outcome {
    var lookup := FindLegacyTemplate(w.tables, req.templateId, req.user);
    if lookup.NotFound? then Raised(404)
    else if lookup.LookupRaised? then Raised(500)
    else if !ListingsUsable(w.bucket) then Raised(404)
    else FilesVerdict(req, w, unwritable, lookup.components, lookup.category)
  }

  /**
   * Lines 186-211: the screenshots are downloaded one at a time. Anything but
   * bytes skips the item; a saved file is recorded in both lists; on an
   * exception the local file is removed when it exists and is not already
   * tracked, and the loop goes on.
   */
  method DownloadSequentially(fs: LocalFs, objects: Objects, tasks: seq<ShotTask>)
    returns (info: seq<(string, string)>, temps: seq<string>)
    modifies fs
    ensures info == Downloaded(objects, fs.unwritable, tasks)
    ensures temps == Paths(info)
    ensures forall p :: p in fs.files && p !in old(fs.files) ==> p in fs.stuck || p in temps
  {
    info, temps := [], [];
    var i := 0;
    while i < |tasks|
      invariant 0 <= i <= |tasks|
      invariant info == Downloaded(objects, fs.unwritable, tasks[..i])
      invariant temps == Paths(info)
      invariant forall p :: p in fs.files && p !in old(fs.files) ==> p in fs.stuck || p in temps
    {
      var t := tasks[i];
      assert tasks[..i + 1][..i] == tasks[..i];
      var response := FetchOf(objects, t.fullPath);
      if response == FetchRaises {
        if t.tempPath !in temps {
          var removed := fs.RemoveIfExists(t.tempPath);
        }
      } else if response == Bytes {
        var ok := fs.Write(t.tempPath);
        if ok {
          info := info + [(t.tempPath, t.name)];
          temps := temps + [t.tempPath];
        } else if t.tempPath !in temps {
          var removed := fs.RemoveIfExists(t.tempPath);
        }
      }
      i := i + 1;
    }
    assert tasks[..i] == tasks;
  }

  /**
   * Lines 230-257: the PDF, then the event file's local copy; the first that
   * fails stops the run. Each file is tracked once it is complete.
   */
  method SaveFiles(fs: LocalFs, req: Request, w: World, name: string) returns (saved: bool, tracked: seq<string>)
    modifies fs
    ensures saved <==> w.pdf.PdfCreated? && EventSaved(req.user, req.job, w.bucket, fs.unwritable, name)
    ensures tracked == Tracked(req.user, req.job, w.pdf, name, saved)
    ensures forall p :: p in fs.files && p !in old(fs.files) ==>
      p in tracked || p in Strays(req.user, req.job, w.pdf, fs.unwritable, name)
  {
    tracked := [];
    var made := MakePdf(fs, req.user, req.job, w.pdf);
    if !made {
      return false, tracked;
    }
    tracked := [PdfPath(req.user, req.job)];
    saved := SaveEvent(fs, req.user, req.job, w.bucket, name);
    if saved {
      tracked := tracked + [EventPath(req.user, req.job, name)];
    }
  }

  /** Lines 258-268 and the workflow: the event data check, then the run of the workflow. */
  method RunWorkflow(req: Request, w: World, shotCount: nat, components: Json, category: Json) returns (r: Outcome)
    ensures r == WorkflowVerdict(req, w, shotCount, components, category)
  {
    if w.eventText == [] {
      return Raised(400);
    }
    var state := SopState(KnowledgeBase, PdfPath(req.user, req.job), w.eventText, req.query, components, category, UploadText(req.upload));
    if w.workflowRaises {
      return Raised(500);
    }
    r := Success(FilesProcessed(shotCount, req.upload), state);
  }

  /** Lines 186-211: the run's screenshots, each saved under a non-empty path other than the PDF's. */
  method DownloadShots(fs: LocalFs, req: Request, w: World) returns (info: seq<(string, string)>, temps: seq<string>)
    modifies fs
    ensures info == Shots(req.user, req.job, w.bucket, fs.unwritable)
    ensures forall p :: p in temps ==> p != [] && p != PdfPath(req.user, req.job)
    ensures forall p :: p in fs.files && p !in old(fs.files) ==> p in fs.stuck || p in temps
  {
    info, temps := DownloadSequentially(fs, w.bucket.objects, ShotTasks(req.user, req.job, w.bucket.shotListing));
    ShotPaths(req.user, req.job, w.bucket, fs.unwritable);
  }

  /** Lines 186-268: the downloads, the file checks, the PDF and the event file's local copy, then the workflow. */
  method ProcessFiles(fs: LocalFs, req: Request, w: World, components: Json, category: Json)
    returns (r: Outcome, temps: seq<string>)
    modifies fs
    ensures r == FilesVerdict(req, w, fs.unwritable, components, category)
    ensures forall p :: p in temps ==> p != []
    ensures forall p :: p in fs.files && p !in old(fs.files) ==>
      p in fs.stuck || p in temps || LeftBehind(req.user, req.job, w.pdf, w.bucket, fs.unwritable, p)
    ensures r.Success? ==> forall p :: p in fs.files && p !in old(fs.files) ==> p in fs.stuck || p in temps
  {
    var info, shotTemps := DownloadShots(fs, req, w);
    var jsonName := SelectJsonFile(w.bucket.jsonListing);
    temps := shotTemps;
    if info == [] || jsonName.None? {
      return Raised(404), temps;
    }
    ghost var downloaded := fs.files;
    var saved, tracked := SaveFiles(fs, req, w, jsonName.value);
    temps := shotTemps + tracked;
    RunFiles(old(fs.files), downloaded, fs.files, fs.stuck, shotTemps, tracked, req.user, req.job, w.pdf, w.bucket,
             fs.unwritable, saved);
    ghost var verdict := FilesVerdict(req, w, fs.unwritable, components, category);
    if !saved {
      assert verdict == Raised(500);
      return Raised(500), temps;
    }
    NoStrays(req.user, req.job, w.pdf, fs.unwritable, jsonName.value);
    assert verdict == WorkflowVerdict(req, w, |info|, components, category);
    r := RunWorkflow(req, w, |info|, components, category);
  }

  /** The body of the main `try` block: the template lookup and the listing checks, then the files. */
  method RunSteps(fs: LocalFs, req: Request, w: World) returns (r: Outcome, temps: seq<string>)
    modifies fs
    ensures r == Verdict(req, w, fs.unwritable)
    ensures forall p :: p in temps ==> p != []
    ensures forall p :: p in fs.files && p !in old(fs.files) ==>
      p in fs.stuck || p in temps || LeftBehind(req.user, req.job, w.pdf, w.bucket, fs.unwritable, p)
    ensures r.Success? ==> forall p :: p in fs.files && p !in old(fs.files) ==> p in fs.stuck || p in temps
  {
    temps := [];
    var lookup := FindLegacyTemplate(w.tables, req.templateId, req.user);
    if lookup.NotFound? {
      return Raised(404), temps;
    }
    if lookup.LookupRaised? {
      return Raised(500), temps;
    }
    if w.bucket.listRaises || (w.bucket.jsonListing == [] && w.bucket.shotListing == []) {
      return Raised(404), temps;
    }
    r, temps := ProcessFiles(fs, req, w, lookup.components, lookup.category);
  }

  /**
   * `generate_sop_api`: the upload is read before the main block; `finally`
   * removes every tracked temporary file that exists and swallows failures.
   */
  method GenerateSop(fs: LocalFs, req: Request, w: World) returns (r: Outcome)
    modifies fs
    ensures r == Verdict(req, w, fs.unwritable)
    ensures forall p :: p in fs.files && p !in old(fs.files) ==>
      p in fs.stuck || LeftBehind(req.user, req.job, w.pdf, w.bucket, fs.unwritable, p)
    ensures r.Success? ==> forall p :: p in fs.files && p !in old(fs.files) ==> p in fs.stuck
  {
    var temps;
    r, temps := RunSteps(fs, req, w);
    var cleaned := fs.CleanUp(temps);
  }

  /** Every check a run makes, none of which looks at the upload. */
  predicate ChecksPass(user: string, job: string, templateId: string, w: World, unwritable: set<string>) {
    FindLegacyTemplate(w.tables, templateId, user).Found? && ListingsUsable(w.bucket) &&
    Shots(user, job, w.bucket, unwritable) != [] && FirstJson(w.bucket.jsonListing).Some? &&
    w.pdf.PdfCreated? && EventSaved(user, job, w.bucket, unwritable, FirstJson(w.bucket.jsonListing).value) &&
    w.eventText != [] && !w.workflowRaises
  }

  /** A run succeeds exactly when every check passes. */
  lemma SuccessExactly(req: Request, w: World, unwritable: set<string>)
    ensures Verdict(req, w, unwritable).Success? <==> ChecksPass(req.user, req.job, req.templateId, w, unwritable)
  {
    var lookup := FindLegacyTemplate(w.tables, req.templateId, req.user);
    if lookup.Found? && ListingsUsable(w.bucket) {
      assert Verdict(req, w, unwritable) == FilesVerdict(req, w, unwritable, lookup.components, lookup.category);
      FilesSuccess(req, w, unwritable, lookup.components, lookup.category);
    }
  }

  lemma FilesSuccess(req: Request, w: World, unwritable: set<string>, components: Json, category: Json)
    ensures FilesVerdict(req, w, unwritable, components, category).Success? <==>
      Shots(req.user, req.job, w.bucket, unwritable) != [] && FirstJson(w.bucket.jsonListing).Some? &&
      w.pdf.PdfCreated? && EventSaved(req.user, req.job, w.bucket, unwritable, FirstJson(w.bucket.jsonListing).value) &&
      w.eventText != [] && !w.workflowRaises
  {
    var shots := Shots(req.user, req.job, w.bucket, unwritable);
    var json := FirstJson(w.bucket.jsonListing);
    if shots != [] && json.Some? && w.pdf.PdfCreated? && EventSaved(req.user, req.job, w.bucket, unwritable, json.value) {
      assert FilesVerdict(req, w, unwritable, components, category) == WorkflowVerdict(req, w, |shots|, components, category);
    }
  }

  /**
   * A successful run counts the upload as one more file processed, and hands
   * the workflow the found schema and category and the upload's text.
   */
  lemma SuccessReports(req: Request, w: World, unwritable: set<string>)
    requires Verdict(req, w, unwritable).Success?
    ensures var r := Verdict(req, w, unwritable);
      r.filesProcessed == |Shots(req.user, req.job, w.bucket, unwritable)| + (if req.upload.Some? then 1 else 0) &&
      r.state == SopState(KnowledgeBase, PdfPath(req.user, req.job), w.eventText, req.query,
                          FindLegacyTemplate(w.tables, req.templateId, req.user).components,
                          FindLegacyTemplate(w.tables, req.templateId, req.user).category,
                          UploadText(req.upload))
  {
  }

  /** Every upload is read: a suffix no document reader takes is decoded as text, so the upload never fails a run. */
  lemma UploadNeverFails(req: Request, w: World, unwritable: set<string>, other: Option<Upload>)
    ensures Verdict(req, w, unwritable).Success? == Verdict(req.(upload := other), w, unwritable).Success?
    ensures req.upload.Some? && ReaderFor(Suffix(req.upload.value.filename)) == TextReader ==>
      UploadText(req.upload) == req.upload.value.libraries.decoded
  {
    SuccessExactly(req, w, unwritable);
    SuccessExactly(req.(upload := other), w, unwritable);
  }

  /** The fatal checks in their order: listings, screenshots and event file (404), then empty event data (400). */
  lemma FatalOrder(req: Request, w: World, unwritable: set<string>)
    requires FindLegacyTemplate(w.tables, req.templateId, req.user).Found?
    ensures !ListingsUsable(w.bucket) ==> Verdict(req, w, unwritable) == Raised(404)
    ensures ListingsUsable(w.bucket) && Shots(req.user, req.job, w.bucket, unwritable) == [] ==> Verdict(req, w, unwritable) == Raised(404)
    ensures ListingsUsable(w.bucket) && FirstJson(w.bucket.jsonListing).None? ==> Verdict(req, w, unwritable) == Raised(404)
    ensures ListingsUsable(w.bucket) && Shots(req.user, req.job, w.bucket, unwritable) != [] &&
            FirstJson(w.bucket.jsonListing).Some? && w.pdf.PdfCreated? &&
            EventSaved(req.user, req.job, w.bucket, unwritable, FirstJson(w.bucket.jsonListing).value) && w.eventText == [] ==>
      Verdict(req, w, unwritable) == Raised(400)
  {
  }
}
