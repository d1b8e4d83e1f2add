/**
 * `generate_sop_api` of the current service (`POST /generate`): one
 * document-generation run, from the 'pending' record through the ordered
 * fatal checks and the workflow to the cleanup of its temporary files.
 */
module SopRun {
  import opened Wrappers
  import opened Json
  import opened PyText
  import opened LocalFiles
  import opened DocStatus
  import opened StorageNames
  import opened ScreenshotDownload
  import opened TemplateLookup
  import opened RagContext
  import opened FileReaders
  import opened RunInputs

  /** The form fields of a request. */
  datatype Request = Request(
    user: string,
    job: string,
    query: string,
    templateId: string,
    integration: string,
    upload: Option<Upload>)

  /** The workflow: it raises, or returns after leaving `status` in the run's row. */
  datatype Workflow = WorkflowRaises | WorkflowReturns(status: Json)

  /**
   * Everything the run consults besides its own files and status row: the
   * template tables, the bucket, the PDF builder, what `parse_json` returns,
   * the retrieval of related issues, and the workflow.
   */
  datatype World = World(
    tables: Tables,
    bucket: Bucket,
    pdf: PdfCreation,
    eventText: string,
    retrieval: Retrieval,
    workflow: Workflow)

  /** An `HTTPException` with its status code, or the `ValueError` of a status write to a failing store. */
  datatype RunError = HttpError(code: int) | StatusWriteError

  /** The response: the metadata and the state the workflow ran on, or an error. */
  datatype Outcome = Success(filesProcessed: nat, state: SopState) | Raised(error: RunError)

  /**
   * The upload's text. None stands for `uploaded_file_content` never being
   * assigned: a file whose lower-cased suffix is none of the three document
   * formats.
   */
  function UploadText(upload: Option<Upload>): Option<string> {
    if upload.None? then Some("")
    else
      var known := KnownReader(Lower(Suffix(upload.value.filename)));
      if known.None? then None else Some(ReaderText(upload.value.libraries, known.value))
  }

  /** The text of an upload with an unknown suffix is never bound; no upload gives "". */
  lemma UploadTextSpec(upload: Option<Upload>)
    ensures upload.None? ==> UploadText(upload) == Some("")
    ensures upload.Some? ==>
      (UploadText(upload).None? <==> ReaderFor(Suffix(upload.value.filename)) == TextReader)
    ensures upload.Some? && UploadText(upload).Some? ==>
      UploadText(upload).value == ReaderText(upload.value.libraries, ReaderFor(Suffix(upload.value.filename)))
  {
    if upload.Some? {
      ReaderForSpec(Suffix(upload.value.filename));
    }
  }

  /** The steps after the event file is saved: the event check and the workflow. */
  function WorkflowVerdict(req: Request, w: World, shotCount: nat, components: Json, category: Json): Outcome {
    if w.eventText == [] then Raised(HttpError(400))
    else if UploadText(req.upload).None? || w.workflow.WorkflowRaises? then Raised(HttpError(500))
    else
      var state := SopState(KnowledgeBase(req.integration, w.retrieval), PdfPath(req.user, req.job),
                            w.eventText, req.query, components, category, UploadText(req.upload).value);
      Success(shotCount + 1, state)
  }

  /** Once a screenshot and an event file are found: the PDF and the event file's local copy, then the workflow. */
  function SavedVerdict(req: Request, w: World, unwritable: set<string>, shotCount: nat, name: string,
                        components: Json, category: Json): Outcome {
    if w.pdf.PdfFails? || !EventSaved(req.user, req.job, w.bucket, unwritable, name) then Raised(HttpError(500))
    else WorkflowVerdict(req, w, shotCount, components, category)
  }

  /** The steps that need files: a screenshot, an event file, the PDF, the event file's local copy. */
  function FilesVerdict(req: Request, w: World, unwritable: set<string>, components: Json, category: Json): Outcome {
    var shots := Shots(req.user, req.job, w.bucket, unwritable);
    var json := FirstJson(w.bucket.jsonListing);
    if shots == [] || json.None? then Raised(HttpError(404))
    else SavedVerdict(req, w, unwritable, |shots|, json.value, components, category)
  }

  /** How a run against a working store ends, check by check in the order the function makes them. */
  function Verdict(req: Request, w: World, unwritable: set<string>): Outcome {
    var lookup := FindTemplate(w.tables, req.templateId, req.user);
    if lookup.NotFound? then Raised(HttpError(404))
    else if lookup.LookupRaised? then Raised(HttpError(500))
    else if !ListingsUsable(w.bucket) then Raised(HttpError(404))
    else FilesVerdict(req, w, unwritable, lookup.components, lookup.category)
  }

  /** The run gets as far as building the PDF. */
  predicate ReachesPdf(req: Request, w: World, unwritable: set<string>) {
    FindTemplate(w.tables, req.templateId, req.user).Found? && ListingsUsable(w.bucket) &&
    Shots(req.user, req.job, w.bucket, unwritable) != [] && FirstJson(w.bucket.jsonListing).Some?
  }

  /** The status writes after 'pending' of a run that succeeds: 'success' unless the workflow left it already. */
  function SuccessWrites(job: string, workflow: Workflow): seq<(string, string)> {
    if workflow.WorkflowReturns? && workflow.status == Str("success") then [] else [(job, "success")]
  }

  /** `update_document_status(supabase, job_id, "failed")` followed by raising `HTTPException(code)`. */
  method Fail(store: DocStore, job: string, code: int) returns (r: Outcome)
    requires !store.down
    modifies store
    ensures r == Raised(HttpError(code))
    ensures store.writes == old(store.writes) + [(job, "failed")]
    ensures job in old(store.rows) ==> job in store.rows
  {
    var raised := store.UpdateDocumentStatus(job, "failed");
    r := Raised(HttpError(code));
  }

  /** Lines 136-146: the upload is read by the reader its suffix selects, and is left unbound for any other suffix. */
  method ReadUpload(upload: Option<Upload>) returns (contents: Option<string>)
    ensures contents == UploadText(upload)
  {
    if upload.None? {
      return Some("");
    }
    var ext := Suffix(upload.value.filename);
    if KnownReader(Lower(ext)).None? {
      return None;
    }
    var text := ReadFileByExtension(upload.value.libraries, ext);
    contents := Some(text);
  }

  /** Lines 148-181: the screenshot downloads and the fold of their results. */
  method CollectScreenshots(fs: LocalFs, req: Request, b: Bucket) returns (info: seq<(string, string)>, temps: seq<string>)
    modifies fs
    ensures info == Shots(req.user, req.job, b, fs.unwritable)
    ensures temps == Paths(info)
    ensures forall p :: p in temps ==> p != [] && p != PdfPath(req.user, req.job)
    ensures forall p :: p in fs.files && p !in old(fs.files) ==> p in fs.stuck || p in temps
  {
    var tasks := ShotTasks(req.user, req.job, b.shotListing);
    var results := DownloadAll(fs, b.objects, tasks);
    var successes;
    info, temps, successes := KeepDownloaded(results);
    KeptOutcomes(b.objects, fs.unwritable, tasks, results);
    KeptSpec(results);
    forall p | p in fs.files && p !in old(fs.files) && p !in fs.stuck
      ensures p in temps
    {
      var i :| 0 <= i < |tasks| && results[i] == Some((p, tasks[i].name));
      assert (p, tasks[i].name) in info;
      var k :| 0 <= k < |info| && info[k] == (p, tasks[i].name);
      assert temps[k] == p;
    }
    ShotPaths(req.user, req.job, b, fs.unwritable);
  }

  /**
   * Lines 202-245: the PDF and the local copy of the chosen event file.
   * `tracked` holds what this part appends to `temp_files`.
   */
  method SaveFiles(fs: LocalFs, store: DocStore, req: Request, w: World, name: string)
    returns (failure: Option<Outcome>, tracked: seq<string>)
    requires !store.down && req.job in store.rows
    modifies fs, store
    ensures failure.None? <==> w.pdf.PdfCreated? && EventSaved(req.user, req.job, w.bucket, fs.unwritable, name)
    ensures failure.Some? ==> failure.value == Raised(HttpError(500)) && store.writes == old(store.writes) + [(req.job, "failed")]
    ensures failure.None? ==> store.writes == old(store.writes) && store.rows == old(store.rows)
    ensures req.job in store.rows
    ensures tracked == Tracked(req.user, req.job, w.pdf, name, failure.None?)
    ensures forall p :: p in fs.files && p !in old(fs.files) ==>
      p in tracked || p in Strays(req.user, req.job, w.pdf, fs.unwritable, name)
    ensures w.pdf == PdfFails(true) ==> PdfPath(req.user, req.job) in fs.files
  {
    tracked := [];
    var made := MakePdf(fs, req.user, req.job, w.pdf);
    if !made {
      var r := Fail(store, req.job, 500);
      return Some(r), tracked;
    }
    tracked := [PdfPath(req.user, req.job)];
    var saved := SaveEvent(fs, req.user, req.job, w.bucket, name);
    if !saved {
      var r := Fail(store, req.job, 500);
      return Some(r), tracked;
    }
    tracked := tracked + [EventPath(req.user, req.job, name)];
    failure := None;
  }

  /**
   * Lines 234-297: the event-data check, the knowledge base, the workflow and
   * the read-back of the status it left. Building `SOPState` from an unbound
   * upload text raises before the workflow runs.
   */
  method FinishRun(store: DocStore, req: Request, w: World, shotCount: nat, components: Json, category: Json,
                   contents: Option<string>) returns (r: Outcome)
    requires !store.down && req.job in store.rows
    requires contents == UploadText(req.upload)
    modifies store
    ensures r == WorkflowVerdict(req, w, shotCount, components, category)
    ensures r.Raised? ==> store.writes == old(store.writes) + [(req.job, "failed")]
    ensures r.Success? ==> store.writes == old(store.writes) + SuccessWrites(req.job, w.workflow)
    ensures req.job in store.rows
    ensures r.Success? ==> StatusColumn in store.rows[req.job] && store.rows[req.job][StatusColumn] == Str("success")
  {
    if w.eventText == [] {
      r := Fail(store, req.job, 400);
      return;
    }
    var kb := KnowledgeBase(req.integration, w.retrieval);
    if contents.None? {
      r := Fail(store, req.job, 500);
      return;
    }
    var state := SopState(kb, PdfPath(req.user, req.job), w.eventText, req.query, components, category, contents.value);
    if w.workflow.WorkflowRaises? {
      r := Fail(store, req.job, 500);
      return;
    }
    store.Overwrite(req.job, w.workflow.status);
    var row := store.rows[req.job];
    if !(StatusColumn in row && row[StatusColumn] == Str("success")) {
      var raised := store.UpdateDocumentStatus(req.job, "success");
    }
    r := Success(shotCount + 1, state);
  }

  /** Lines 202-297: the PDF and the event file, then the workflow, once the downloads have found what they need. */
  method SaveAndFinish(fs: LocalFs, store: DocStore, req: Request, w: World, shotCount: nat, name: string,
                       components: Json, category: Json, contents: Option<string>)
    returns (r: Outcome, tracked: seq<string>)
    requires !store.down && req.job in store.rows
    requires contents == UploadText(req.upload)
    modifies fs, store
    ensures r == SavedVerdict(req, w, fs.unwritable, shotCount, name, components, category)
    ensures r.Raised? ==> store.writes == old(store.writes) + [(req.job, "failed")]
    ensures r.Success? ==> store.writes == old(store.writes) + SuccessWrites(req.job, w.workflow)
    ensures r.Success? ==> req.job in store.rows && StatusColumn in store.rows[req.job] &&
                           store.rows[req.job][StatusColumn] == Str("success")
    ensures tracked == Tracked(req.user, req.job, w.pdf, name,
                               w.pdf.PdfCreated? && EventSaved(req.user, req.job, w.bucket, fs.unwritable, name))
    ensures forall p :: p in fs.files && p !in old(fs.files) ==>
      p in tracked || p in Strays(req.user, req.job, w.pdf, fs.unwritable, name)
    ensures r.Success? ==> Strays(req.user, req.job, w.pdf, fs.unwritable, name) == {}
    ensures w.pdf == PdfFails(true) ==> PdfPath(req.user, req.job) in fs.files
  {
    var failure;
    failure, tracked := SaveFiles(fs, store, req, w, name);
    if failure.Some? {
      r := failure.value;
      assert r == SavedVerdict(req, w, fs.unwritable, shotCount, name, components, category);
      return;
    }
    NoStrays(req.user, req.job, w.pdf, fs.unwritable, name);
    assert SavedVerdict(req, w, fs.unwritable, shotCount, name, components, category) ==
      WorkflowVerdict(req, w, shotCount, components, category);
    r := FinishRun(store, req, w, shotCount, components, category, contents);
  }

  /** Lines 136-297: everything after the template lookup and the listing checks. */
  method ProcessFiles(fs: LocalFs, store: DocStore, req: Request, w: World, components: Json, category: Json)
    returns (r: Outcome, temps: seq<string>)
    requires !store.down && req.job in store.rows
    modifies fs, store
    ensures r == FilesVerdict(req, w, fs.unwritable, components, category)
    ensures r.Raised? ==> store.writes == old(store.writes) + [(req.job, "failed")]
    ensures r.Success? ==> store.writes == old(store.writes) + SuccessWrites(req.job, w.workflow)
    ensures r.Success? ==> req.job in store.rows && StatusColumn in store.rows[req.job] &&
                           store.rows[req.job][StatusColumn] == Str("success")
    ensures forall p :: p in temps ==> p != []
    ensures forall p :: p in fs.files && p !in old(fs.files) ==>
      p in fs.stuck || p in temps || LeftBehind(req.user, req.job, w.pdf, w.bucket, fs.unwritable, p)
    ensures r.Success? ==> forall p :: p in fs.files && p !in old(fs.files) ==> p in fs.stuck || p in temps
    ensures Shots(req.user, req.job, w.bucket, fs.unwritable) != [] && FirstJson(w.bucket.jsonListing).Some? &&
            w.pdf == PdfFails(true) ==>
      PdfPath(req.user, req.job) in fs.files && PdfPath(req.user, req.job) !in temps
  {
    var contents := ReadUpload(req.upload);
    var info, shotTemps := CollectScreenshots(fs, req, w.bucket);
    var jsonName := SelectJsonFile(w.bucket.jsonListing);
    temps := shotTemps;
    if info == [] || jsonName.None? {
      r := Fail(store, req.job, 404);
      return;
    }
    ghost var downloaded := fs.files;
    var tracked;
    r, tracked := SaveAndFinish(fs, store, req, w, |info|, jsonName.value, components, category, contents);
    assert FilesVerdict(req, w, fs.unwritable, components, category) ==
           SavedVerdict(req, w, fs.unwritable, |info|, jsonName.value, components, category);
    temps := shotTemps + tracked;
    RunFiles(old(fs.files), downloaded, fs.files, fs.stuck, shotTemps, tracked, req.user, req.job, w.pdf, w.bucket,
             fs.unwritable, w.pdf.PdfCreated? && EventSaved(req.user, req.job, w.bucket, fs.unwritable, jsonName.value));
  }

  /** The body of the main `try` block, once the 'pending' record is in place. */
  method RunSteps(fs: LocalFs, store: DocStore, req: Request, w: World) returns (r: Outcome, temps: seq<string>)
    requires !store.down && req.job in store.rows
    modifies fs, store
    ensures r == Verdict(req, w, fs.unwritable)
    ensures r.Raised? ==> store.writes == old(store.writes) + [(req.job, "failed")]
    ensures r.Success? ==> store.writes == old(store.writes) + SuccessWrites(req.job, w.workflow)
    ensures r.Success? ==> req.job in store.rows && StatusColumn in store.rows[req.job] &&
                           store.rows[req.job][StatusColumn] == Str("success")
    ensures forall p :: p in temps ==> p != []
    ensures forall p :: p in fs.files && p !in old(fs.files) ==>
      p in fs.stuck || p in temps || LeftBehind(req.user, req.job, w.pdf, w.bucket, fs.unwritable, p)
    ensures r.Success? ==> forall p :: p in fs.files && p !in old(fs.files) ==> p in fs.stuck || p in temps
    ensures ReachesPdf(req, w, fs.unwritable) && w.pdf == PdfFails(true) ==>
      PdfPath(req.user, req.job) in fs.files && PdfPath(req.user, req.job) !in temps
  {
    temps := [];
    var lookup := FindTemplate(w.tables, req.templateId, req.user);
    if lookup.NotFound? {
      r := Fail(store, req.job, 404);
      return;
    }
    if lookup.LookupRaised? {
      r := Fail(store, req.job, 500);
      return;
    }
    if w.bucket.listRaises || (w.bucket.jsonListing == [] && w.bucket.shotListing == []) {
      r := Fail(store, req.job, 404);
      return;
    }
    r, temps := ProcessFiles(fs, store, req, w, lookup.components, lookup.category);
  }

  /**
   * `generate_sop_api`: 'pending' is upserted first; every exception leaving
   * the main block writes 'failed' once more and is re-raised; `finally`
   * removes the tracked temporary files. A failing store turns the run into
   * the `ValueError` of that last status write.
   */
  method GenerateSop(fs: LocalFs, store: DocStore, req: Request, w: World) returns (r: Outcome)
    modifies fs, store
    ensures store.down ==> r == Raised(StatusWriteError) && store.writes == old(store.writes) && store.rows == old(store.rows)
    ensures !store.down ==> r == Verdict(req, w, fs.unwritable)
    ensures !store.down && r.Raised? ==>
      store.writes == old(store.writes) + [(req.job, "pending"), (req.job, "failed"), (req.job, "failed")]
    ensures !store.down && r.Success? ==>
      store.writes == old(store.writes) + [(req.job, "pending")] + SuccessWrites(req.job, w.workflow)
    ensures r.Success? ==> req.job in store.rows && StatusColumn in store.rows[req.job] &&
                           store.rows[req.job][StatusColumn] == Str("success")
    ensures forall p :: p in fs.files && p !in old(fs.files) ==> p in fs.stuck || LeftBehind(req.user, req.job, w.pdf, w.bucket, fs.unwritable, p)
    ensures r.Success? ==> forall p :: p in fs.files && p !in old(fs.files) ==> p in fs.stuck
    ensures !store.down && ReachesPdf(req, w, fs.unwritable) && w.pdf == PdfFails(true) ==>
      PdfPath(req.user, req.job) in fs.files
  {
    var pending := map["id" := Str(req.job), "user_id" := Str(req.user), StatusColumn := Str("pending")];
    var raised := store.Upsert(req.job, pending);
    var temps: seq<string> := [];
    if raised {
      r := Raised(HttpError(500));
    } else {
      r, temps := RunSteps(fs, store, req, w);
    }
    if r.Raised? {
      var failed := store.UpdateDocumentStatus(req.job, "failed");
      if failed {
        r := Raised(StatusWriteError);
      }
    }
    var cleaned := fs.CleanUp(temps);
  }

  /** A run succeeds exactly when every check passes. */
  lemma SuccessExactly(req: Request, w: World, unwritable: set<string>)
    ensures Verdict(req, w, unwritable).Success? <==>
      FindTemplate(w.tables, req.templateId, req.user).Found? && ListingsUsable(w.bucket) &&
      Shots(req.user, req.job, w.bucket, unwritable) != [] && FirstJson(w.bucket.jsonListing).Some? &&
      w.pdf.PdfCreated? && EventSaved(req.user, req.job, w.bucket, unwritable, FirstJson(w.bucket.jsonListing).value) &&
      w.eventText != [] && UploadText(req.upload).Some? && w.workflow.WorkflowReturns?
  {
    var lookup := FindTemplate(w.tables, req.templateId, req.user);
    if lookup.Found? && ListingsUsable(w.bucket) {
      FilesSuccess(req, w, unwritable, lookup.components, lookup.category);
    }
  }

  lemma FilesSuccess(req: Request, w: World, unwritable: set<string>, components: Json, category: Json)
    ensures FilesVerdict(req, w, unwritable, components, category).Success? <==>
      Shots(req.user, req.job, w.bucket, unwritable) != [] && FirstJson(w.bucket.jsonListing).Some? &&
      w.pdf.PdfCreated? && EventSaved(req.user, req.job, w.bucket, unwritable, FirstJson(w.bucket.jsonListing).value) &&
      w.eventText != [] && UploadText(req.upload).Some? && w.workflow.WorkflowReturns?
  {
    var shots := Shots(req.user, req.job, w.bucket, unwritable);
    var json := FirstJson(w.bucket.jsonListing);
    if shots != [] && json.Some? && w.pdf.PdfCreated? && EventSaved(req.user, req.job, w.bucket, unwritable, json.value) {
      assert FilesVerdict(req, w, unwritable, components, category) == WorkflowVerdict(req, w, |shots|, components, category);
      WorkflowSuccess(req, w, |shots|, components, category);
    }
  }

  lemma WorkflowSuccess(req: Request, w: World, shotCount: nat, components: Json, category: Json)
    ensures WorkflowVerdict(req, w, shotCount, components, category).Success? <==>
      w.eventText != [] && UploadText(req.upload).Some? && w.workflow.WorkflowReturns?
  {
  }

  /**
   * A successful run reports one file more than the screenshots it saved, and
   * hands the workflow the found schema and category, the upload's text, the
   * knowledge base and the PDF.
   */
  lemma SuccessReports(req: Request, w: World, unwritable: set<string>)
    requires Verdict(req, w, unwritable).Success?
    ensures var r := Verdict(req, w, unwritable);
      r.filesProcessed == |Shots(req.user, req.job, w.bucket, unwritable)| + 1 && r.filesProcessed >= 2 &&
      r.state == SopState(KnowledgeBase(req.integration, w.retrieval), PdfPath(req.user, req.job), w.eventText, req.query,
                          FindTemplate(w.tables, req.templateId, req.user).components,
                          FindTemplate(w.tables, req.templateId, req.user).category,
                          UploadText(req.upload).value)
  {
  }

  /** An upload whose suffix no document reader takes makes the run fail at the workflow step, whatever else holds. */
  lemma UnknownUploadFails(req: Request, w: World, unwritable: set<string>)
    requires req.upload.Some? && ReaderFor(Suffix(req.upload.value.filename)) == TextReader
    ensures !Verdict(req, w, unwritable).Success?
    ensures ReachesPdf(req, w, unwritable) && w.pdf.PdfCreated? &&
            EventSaved(req.user, req.job, w.bucket, unwritable, FirstJson(w.bucket.jsonListing).value) && w.eventText != [] ==>
      Verdict(req, w, unwritable) == Raised(HttpError(500))
  {
    UploadTextSpec(req.upload);
    SuccessExactly(req, w, unwritable);
    if ReachesPdf(req, w, unwritable) && w.pdf.PdfCreated? &&
       EventSaved(req.user, req.job, w.bucket, unwritable, FirstJson(w.bucket.jsonListing).value) && w.eventText != [] {
      var lookup := FindTemplate(w.tables, req.templateId, req.user);
      var shots := Shots(req.user, req.job, w.bucket, unwritable);
      assert Verdict(req, w, unwritable) == FilesVerdict(req, w, unwritable, lookup.components, lookup.category);
      assert FilesVerdict(req, w, unwritable, lookup.components, lookup.category) ==
        WorkflowVerdict(req, w, |shots|, lookup.components, lookup.category);
    }
  }

  /**
   * The fatal checks in their order: listings (404), screenshots (404), event
   * file (404), then empty event data (400); each earlier failure decides the
   * outcome whatever the later steps would do.
   */
  lemma FatalOrder(req: Request, w: World, unwritable: set<string>)
    requires FindTemplate(w.tables, req.templateId, req.user).Found?
    ensures !ListingsUsable(w.bucket) ==> Verdict(req, w, unwritable) == Raised(HttpError(404))
    ensures ListingsUsable(w.bucket) && Shots(req.user, req.job, w.bucket, unwritable) == [] ==>
      Verdict(req, w, unwritable) == Raised(HttpError(404))
    ensures ListingsUsable(w.bucket) && FirstJson(w.bucket.jsonListing).None? ==>
      Verdict(req, w, unwritable) == Raised(HttpError(404))
    ensures ReachesPdf(req, w, unwritable) && w.pdf.PdfCreated? &&
            EventSaved(req.user, req.job, w.bucket, unwritable, FirstJson(w.bucket.jsonListing).value) && w.eventText == [] ==>
      Verdict(req, w, unwritable) == Raised(HttpError(400))
  {
    var lookup := FindTemplate(w.tables, req.templateId, req.user);
    assert Verdict(req, w, unwritable) ==
      if !ListingsUsable(w.bucket) then Raised(HttpError(404))
      else FilesVerdict(req, w, unwritable, lookup.components, lookup.category);
    FilesOrder(req, w, unwritable, lookup.components, lookup.category);
  }

  lemma FilesOrder(req: Request, w: World, unwritable: set<string>, components: Json, category: Json)
    ensures Shots(req.user, req.job, w.bucket, unwritable) == [] || FirstJson(w.bucket.jsonListing).None? ==>
      FilesVerdict(req, w, unwritable, components, category) == Raised(HttpError(404))
    ensures Shots(req.user, req.job, w.bucket, unwritable) != [] && FirstJson(w.bucket.jsonListing).Some? && w.pdf.PdfCreated? &&
            EventSaved(req.user, req.job, w.bucket, unwritable, FirstJson(w.bucket.jsonListing).value) && w.eventText == [] ==>
      FilesVerdict(req, w, unwritable, components, category) == Raised(HttpError(400))
  {
  }

  /** The lookup decides first: a template in neither table is 404 and a failing query 500, whatever the bucket holds. */
  lemma LookupFirst(req: Request, w: World, unwritable: set<string>)
    ensures FindTemplate(w.tables, req.templateId, req.user).NotFound? ==> Verdict(req, w, unwritable) == Raised(HttpError(404))
    ensures FindTemplate(w.tables, req.templateId, req.user).LookupRaised? ==> Verdict(req, w, unwritable) == Raised(HttpError(500))
  {
  }

  /** The retrieval never aborts a run: it only changes the knowledge base the workflow receives. */
  lemma RetrievalNeverAborts(req: Request, w: World, unwritable: set<string>, other: Retrieval)
    ensures Verdict(req, w.(retrieval := other), unwritable).Success? == Verdict(req, w, unwritable).Success?
    ensures Verdict(req, w, unwritable).Raised? ==> Verdict(req, w.(retrieval := other), unwritable) == Verdict(req, w, unwritable)
  {
    var lookup := FindTemplate(w.tables, req.templateId, req.user);
    assert FindTemplate(w.(retrieval := other).tables, req.templateId, req.user) == lookup;
    if lookup.Found? && ListingsUsable(w.bucket) {
      FilesIgnoreRetrieval(req, w, unwritable, other, lookup.components, lookup.category);
    }
  }

  lemma FilesIgnoreRetrieval(req: Request, w: World, unwritable: set<string>, other: Retrieval, components: Json, category: Json)
    ensures FilesVerdict(req, w.(retrieval := other), unwritable, components, category).Success? ==
            FilesVerdict(req, w, unwritable, components, category).Success?
    ensures FilesVerdict(req, w, unwritable, components, category).Raised? ==>
            FilesVerdict(req, w.(retrieval := other), unwritable, components, category) == FilesVerdict(req, w, unwritable, components, category)
  {
    var w2 := w.(retrieval := other);
    assert w2.bucket == w.bucket && w2.pdf == w.pdf && w2.eventText == w.eventText && w2.workflow == w.workflow;
    var shots := Shots(req.user, req.job, w.bucket, unwritable);
    var json := FirstJson(w.bucket.jsonListing);
    if shots != [] && json.Some? {
      assert FilesVerdict(req, w, unwritable, components, category) ==
        SavedVerdict(req, w, unwritable, |shots|, json.value, components, category);
      assert FilesVerdict(req, w2, unwritable, components, category) ==
        SavedVerdict(req, w2, unwritable, |shots|, json.value, components, category);
      if w.pdf.PdfCreated? && EventSaved(req.user, req.job, w.bucket, unwritable, json.value) {
        WorkflowIgnoresRetrieval(req, w, other, |shots|, components, category);
      }
    }
  }

  lemma WorkflowIgnoresRetrieval(req: Request, w: World, other: Retrieval, shotCount: nat, components: Json, category: Json)
    ensures WorkflowVerdict(req, w.(retrieval := other), shotCount, components, category).Success? ==
            WorkflowVerdict(req, w, shotCount, components, category).Success?
    ensures WorkflowVerdict(req, w, shotCount, components, category).Raised? ==>
            WorkflowVerdict(req, w.(retrieval := other), shotCount, components, category) == WorkflowVerdict(req, w, shotCount, components, category)
  {
  }
}
