/**
 * `generate_sop_docx` of the current service: check the schema and the PDF,
 * upload the PDF, let the model answer with a JSON article, render it as
 * Markdown and upsert the finished row into `generated_docs`. Every failure
 * inside the main block writes 'failed', once in the step's own handler
 * where it has one and once more in the outer handler; the upload is
 * deleted in `finally` exactly when one was made.
 */
module SopGeneration {
  import opened Wrappers
  import opened Json
  import opened DocStatus
  import opened PdfValidation
  import opened AppMarkdown
  import opened GenAiFiles
  import opened SopRecord

  /** The arguments of `generate_sop_docx` that the step reads. */
  datatype Args = Args(user: string, job: string, components: Json, category: Json)

  /**
   * The model's call and the copy of its answer written to `output.json` in
   * the same `try`: one of them raises, or the model answers with text and
   * the copy is written.
   */
  datatype Generation = GenerationRaises | Answered(text: string)

  /** What the step meets outside the model. */
  datatype World = World(
    credentials: bool,      // SUPABASE_URL and SUPABASE_SERVICE_ROLE_KEY are both set
    configRaises: bool,     // GenerationConfig rejects the schema
    pdf: PdfFile,
    upload: UploadOutcome,
    generation: Generation,
    parsed: Option<Json>,   // json.loads of the answer; None for a JSONDecodeError
    saveAnswered: bool)     // the upsert's answer carries rows

  /** The step at which a run fails. */
  datatype Step =
    | MissingCredentials | InvalidSchema | BadConfig | BadPdf(pdfError: PdfError) | UploadFailed
    | GenerationFailed | InvalidJson | NotAnObject | MarkdownFailed(fieldError: FieldError)
    | SaveRaised | SaveEmpty

  /** The returned dict (`document_id`, `title`, `timestamp`), or the step whose exception propagates. */
  datatype Outcome = Generated(documentId: string, title: Json, timestamp: string) | Raised(step: Step)

  /** Steps 1-3: the schema must be a non-empty object, the config must accept it, the PDF must validate. */
  function Precheck(args: Args, w: World): Option<Step> {
    if !Truthy(args.components) || !args.components.Obj? then Some(InvalidSchema)
    else if w.configRaises then Some(BadConfig)
    else if ValidatePdf(w.pdf).Some? then Some(BadPdf(ValidatePdf(w.pdf).value))
    else None
  }

  /** Steps 6-7: a non-empty answer that parses to an object. */
  function Article(w: World): Result<seq<(string, Json)>, Step> {
    if w.generation.GenerationRaises? || w.generation.text == [] then Err(GenerationFailed)
    else if w.parsed.None? then Err(InvalidJson)
    else if !w.parsed.value.Obj? then Err(NotAnObject)
    else Ok(w.parsed.value.fields)
  }

  /** Steps 6-8: the article and its Markdown rendering. */
  function Content(args: Args, w: World): Result<(seq<(string, Json)>, string), Step> {
    var article :- Article(w);
    match Render(article, args.user, args.job)
    case Err(e) => Err(MarkdownFailed(e))
    case Ok(markdown) => Ok((article, markdown))
  }

  /** How a run ends, step by step; `down` is a store that rejects every request. */
  function Verdict(args: Args, w: World, down: bool, timestamp: string): Outcome {
    if !w.credentials then Raised(MissingCredentials)
    else if Precheck(args, w).Some? then Raised(Precheck(args, w).value)
    else if w.upload.UploadRaises? then Raised(UploadFailed)
    else if Content(args, w).Err? then Raised(Content(args, w).error)
    else if down then Raised(SaveRaised)
    else if !w.saveAnswered then Raised(SaveEmpty)
    else Generated(args.job, Title(Content(args, w).value.0, args.job, timestamp), timestamp)
  }

  /** The upload is made: the checks before it pass and the call returns a handle. */
  predicate Uploads(args: Args, w: World) {
    w.credentials && Precheck(args, w).None? && w.upload.Uploaded?
  }

  /**
   * The 'failed' writes a failure at `step` makes against a store that is up:
   * none before the `try`, one from the outer handler for the checks without
   * a handler of their own, two where the step's handler writes too, and
   * three for an empty upsert answer, which is written, raised, and caught by
   * the upsert's own handler before the outer one.
   */
  function FailedWrites(step: Step): nat {
    match step
    case MissingCredentials => 0
    case InvalidSchema => 1
    case BadConfig => 1
    case BadPdf(_) => 1
    case SaveEmpty => 3
    case _ => 2
  }

  function Failed(job: string, n: nat): seq<(string, string)> {
    seq(n, _ => (job, "failed"))
  }

  /** The rows after the `status` of `job` is set, when that row exists. */
  function StatusSet(rows: map<string, Row>, job: string, status: string): map<string, Row> {
    if job in rows then rows[job := rows[job][StatusColumn := Str(status)]] else rows
  }

  /** `update_document_status(supabase, job_id, "failed")`, whose failure the caller does not distinguish. */
  method WriteFailed(store: DocStore, job: string)
    modifies store
    ensures store.down ==> store.rows == old(store.rows) && store.writes == old(store.writes)
    ensures !store.down ==> store.writes == old(store.writes) + [(job, "failed")]
    ensures !store.down ==> store.rows == StatusSet(old(store.rows), job, "failed")
  {
    var raised := store.UpdateDocumentStatus(job, "failed");
  }

  /** Steps 6-8: the model's answer, its parse and its rendering; a failure is written by the step's own handler. */
  method Generate(store: DocStore, args: Args, w: World) returns (content: Result<(seq<(string, Json)>, string), Step>)
    modifies store
    ensures content == Content(args, w)
    ensures store.down || content.Ok? ==> store.rows == old(store.rows) && store.writes == old(store.writes)
    ensures !store.down && content.Err? ==>
      store.writes == old(store.writes) + [(args.job, "failed")] && store.rows == StatusSet(old(store.rows), args.job, "failed")
  {
    var article := Article(w);
    if article.Err? {
      WriteFailed(store, args.job);
      return Err(article.error);
    }
    var markdown := CreateMarkdown(article.value, args.user, args.job);
    if markdown.Err? {
      WriteFailed(store, args.job);
      return Err(MarkdownFailed(markdown.error));
    }
    content := Ok((article.value, markdown.value));
  }

  /**
   * Step 10: the upsert on conflict `id`. A store that is down raises; an
   * answer without rows writes 'failed' and raises into the step's own
   * handler, which writes 'failed' again.
   */
  method Save(store: DocStore, job: string, record: Row, answered: bool) returns (failure: Option<Step>)
    requires StatusColumn in record && record[StatusColumn] == Str("success")
    modifies store
    ensures failure == (if store.down then Some(SaveRaised) else if !answered then Some(SaveEmpty) else None)
    ensures store.down ==> store.rows == old(store.rows) && store.writes == old(store.writes)
    ensures !store.down && !answered ==>
      store.writes == old(store.writes) + Failed(job, 2) && store.rows == StatusSet(old(store.rows), job, "failed")
    ensures failure.None? ==>
      store.writes == old(store.writes) + [(job, "success")] && store.rows == old(store.rows)[job := Merged(old(store.rows), job, record)]
  {
    if !store.down && !answered {
      WriteFailed(store, job);
      WriteFailed(store, job);
      assert Failed(job, 2) == [(job, "failed"), (job, "failed")];
      StatusSetTwice(old(store.rows), job, "failed");
      return Some(SaveEmpty);
    }
    var raised := store.Upsert(job, record);
    if raised {
      WriteFailed(store, job);
      return Some(SaveRaised);
    }
    failure := None;
  }

  /** One more 'failed' write. */
  lemma FailedSnoc(job: string, n: nat)
    ensures Failed(job, n) + [(job, "failed")] == Failed(job, n + 1)
  {
  }

  /** Steps 6-10 once the upload is made: generate, render and save. */
  method GenerateAndSave(store: DocStore, args: Args, w: World, timestamp: string, createdAt: string)
    returns (r: Outcome)
    requires Uploads(args, w)
    modifies store
    ensures r == Verdict(args, w, store.down, timestamp)
    ensures store.down ==> store.rows == old(store.rows) && store.writes == old(store.writes)
    ensures !store.down && r.Raised? ==> store.writes == old(store.writes) + Failed(args.job, FailedWrites(r.step) - 1)
    ensures !store.down && r.Raised? ==> store.rows == StatusSet(old(store.rows), args.job, "failed")
    ensures r.Generated? ==>
      Content(args, w).Ok? &&
      store.writes == old(store.writes) + [(args.job, "success")] &&
      store.rows == old(store.rows)[args.job := Merged(old(store.rows), args.job,
        AppRecord(args.job, args.category, args.user, Content(args, w).value.0, Content(args, w).value.1, timestamp, createdAt))]
  {
    var content := Generate(store, args, w);
    if content.Err? {
      assert Verdict(args, w, store.down, timestamp) == Raised(content.error);
      FailedSnoc(args.job, 0);
      return Raised(content.error);
    }
    var (article, markdown) := content.value;
    var failure := Save(store, args.job, AppRecord(args.job, args.category, args.user, article, markdown, timestamp, createdAt), w.saveAnswered);
    if failure.Some? {
      assert Verdict(args, w, store.down, timestamp) == Raised(failure.value);
      FailedSnoc(args.job, 0);
      return Raised(failure.value);
    }
    r := Generated(args.job, Title(article, args.job, timestamp), timestamp);
  }

  /** The body of the `try` block, without the outer handler's write. */
  method Steps(store: DocStore, api: FileApi, args: Args, w: World, timestamp: string, createdAt: string)
    returns (r: Outcome, handle: Option<string>)
    requires w.credentials
    modifies store, api
    ensures r == Verdict(args, w, store.down, timestamp)
    ensures handle == (if Uploads(args, w) then Some(w.upload.name) else None)
    ensures api.deleted == old(api.deleted)
    ensures api.live == (if Uploads(args, w) then old(api.live) + {w.upload.name} else old(api.live))
    ensures store.down ==> store.rows == old(store.rows) && store.writes == old(store.writes)
    ensures !store.down && r.Raised? ==> store.writes == old(store.writes) + Failed(args.job, FailedWrites(r.step) - 1)
    ensures !store.down && r.Raised? ==>
      store.rows == (if FailedWrites(r.step) > 1 then StatusSet(old(store.rows), args.job, "failed") else old(store.rows))
    ensures r.Generated? ==>
      Content(args, w).Ok? &&
      store.writes == old(store.writes) + [(args.job, "success")] &&
      store.rows == old(store.rows)[args.job := Merged(old(store.rows), args.job,
        AppRecord(args.job, args.category, args.user, Content(args, w).value.0, Content(args, w).value.1, timestamp, createdAt))]
  {
    var pre := Precheck(args, w);
    if pre.Some? {
      assert Verdict(args, w, store.down, timestamp) == Raised(pre.value) && FailedWrites(pre.value) == 1;
      return Raised(pre.value), None;
    }
    handle := api.UploadFile(w.upload);
    if handle.None? {
      WriteFailed(store, args.job);
      FailedSnoc(args.job, 0);
      return Raised(UploadFailed), handle;
    }
    r := GenerateAndSave(store, args, w, timestamp, createdAt);
    assert r.Raised? ==> FailedWrites(r.step) > 1;
  }

  /**
   * `generate_sop_docx`: the credentials are checked before the `try`; a
   * failure inside it writes 'failed' once more and propagates; `finally`
   * releases the upload.
   */
  method GenerateSopDocx(store: DocStore, api: FileApi, args: Args, w: World, timestamp: string, createdAt: string)
    returns (r: Outcome)
    modifies store, api
    ensures r == Verdict(args, w, store.down, timestamp)
    ensures store.down ==> store.rows == old(store.rows) && store.writes == old(store.writes)
    ensures !store.down && r.Raised? ==> store.writes == old(store.writes) + Failed(args.job, FailedWrites(r.step))
    ensures !store.down && r.Raised? ==>
      store.rows == (if r.step == MissingCredentials then old(store.rows) else StatusSet(old(store.rows), args.job, "failed"))
    ensures r.Generated? ==>
      Content(args, w).Ok? &&
      store.writes == old(store.writes) + [(args.job, "success")] &&
      store.rows == old(store.rows)[args.job := Merged(old(store.rows), args.job,
        AppRecord(args.job, args.category, args.user, Content(args, w).value.0, Content(args, w).value.1, timestamp, createdAt))]
    ensures api.deleted == old(api.deleted) + (if Uploads(args, w) then [w.upload.name] else [])
    ensures api.live ==
      if !Uploads(args, w) then old(api.live)
      else if api.deleteFails then old(api.live) + {w.upload.name}
      else old(api.live) - {w.upload.name}
  {
    if !w.credentials {
      return Raised(MissingCredentials);
    }
    var handle;
    r, handle := Steps(store, api, args, w, timestamp, createdAt);
    if r.Raised? {
      WriteFailed(store, args.job);
      FailedSnoc(args.job, FailedWrites(r.step) - 1);
      if !store.down && FailedWrites(r.step) > 1 {
        StatusSetTwice(old(store.rows), args.job, "failed");
      }
    }
    api.Release(handle);
  }

  /** Setting the same status twice is setting it once. */
  lemma StatusSetTwice(rows: map<string, Row>, job: string, status: string)
    ensures StatusSet(StatusSet(rows, job, status), job, status) == StatusSet(rows, job, status)
  {
    if job in rows {
      var row := rows[job][StatusColumn := Str(status)];
      assert row[StatusColumn := Str(status)] == row;
    }
  }

  /** A run returns a document exactly when every step passes, and then reports the job as the document's id. */
  lemma SuccessExactly(args: Args, w: World, down: bool, timestamp: string)
    ensures Verdict(args, w, down, timestamp).Generated? <==>
      w.credentials && args.components.Obj? && args.components.fields != [] && !w.configRaises &&
      w.pdf.present && w.pdf.size > 0 && w.pdf.parses && w.upload.Uploaded? &&
      w.generation.Answered? && w.generation.text != [] && w.parsed.Some? && w.parsed.value.Obj? &&
      Render(w.parsed.value.fields, args.user, args.job).Ok? && !down && w.saveAnswered
    ensures Verdict(args, w, down, timestamp).Generated? ==>
      Verdict(args, w, down, timestamp).documentId == args.job &&
      Truthy(Verdict(args, w, down, timestamp).title)
  {
    AcceptedExactly(w.pdf);
    if Verdict(args, w, down, timestamp).Generated? {
      TitleRule(Content(args, w).value.0, args.job, timestamp);
    }
  }

  /**
   * Every failure inside the `try` block is recorded as 'failed' at least
   * once and at most three times; only missing credentials, checked before
   * the block, write nothing.
   */
  lemma FailuresAreRecorded(args: Args, w: World, down: bool, timestamp: string)
    requires Verdict(args, w, down, timestamp).Raised?
    ensures Verdict(args, w, down, timestamp).step == MissingCredentials <==> !w.credentials
    ensures w.credentials ==> 1 <= FailedWrites(Verdict(args, w, down, timestamp).step) <= 3
    ensures w.credentials && Uploads(args, w) ==> FailedWrites(Verdict(args, w, down, timestamp).step) >= 2
  {
  }

  /**
   * The checks in their order: credentials before anything else, then the
   * schema, whatever the model, the PDF or the store would have done.
   */
  lemma ChecksInOrder(args: Args, w: World, w2: World, down: bool, timestamp: string)
    requires w2.credentials == w.credentials
    ensures !w.credentials ==> Verdict(args, w, down, timestamp) == Raised(MissingCredentials)
    ensures w.credentials && !(args.components.Obj? && args.components.fields != []) ==>
      Verdict(args, w, down, timestamp) == Raised(InvalidSchema) &&
      Verdict(args, w2, !down, timestamp) == Raised(InvalidSchema)
    ensures w.credentials && Precheck(args, w).None? && !Uploads(args, w) ==> Verdict(args, w, down, timestamp) == Raised(UploadFailed)
  {
  }

  /** A MIME mismatch never fails the step: only existence, size and structure of the PDF count. */
  lemma MimeNeverFails(args: Args, w: World, down: bool, timestamp: string, m: MimeCheck)
    ensures Verdict(args, w.(pdf := w.pdf.(mime := m)), down, timestamp) == Verdict(args, w, down, timestamp)
  {
    MimeNeverMatters(w.pdf, m);
  }
}
