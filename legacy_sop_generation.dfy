/**
 * `generate_sop_docx` of the earlier service: the same steps as the current
 * one, with the credentials checked inside the `try`, no status writes, and
 * the finished row inserted rather than upserted.
 *
 * As written, the step cannot get past its prompt: `get_prompt` is called
 * with keywords the imported prompt function does not declare, and further
 * on the one-parameter `create_markdown` is called with three arguments.
 * `VerdictAsWritten` is that behaviour; `Verdict` and `GenerateSopDocx` are
 * the step with both calls made as the callee declares them.
 */
module LegacySopGeneration {
  import opened Wrappers
  import opened Json
  import opened DocStatus
  import opened PdfValidation
  import opened LegacyMarkdown
  import opened MarkdownLines
  import opened GenAiFiles
  import opened SopRecord

  /** The arguments of `generate_sop_docx` that the step reads. */
  datatype Args = Args(user: string, job: string, components: Json, category: Json)

  /**
   * The model's call and the copy of its answer written to `output.json` in
   * the same `try`: one of them raises, or the model answers with text and
   * the copy is written.
   */
  datatype Generation = GenerationRaises | Answered(text: string)

  /** What the step meets outside the model. */
  datatype World = World(
    credentials: bool,      // SUPABASE_URL and SUPABASE_SERVICE_ROLE_KEY are both set
    configRaises: bool,     // GenerationConfig rejects the schema
    pdf: PdfFile,
    upload: UploadOutcome,
    generation: Generation,
    parsed: Option<Json>,   // json.loads of the answer; None for a JSONDecodeError
    insertAnswered: bool)   // the insert's answer carries rows

  /** The step at which a run fails; `PromptRejected` and `MarkdownRejected` are the two `TypeError`s. */
  datatype Step =
    | InvalidSchema | MissingCredentials | BadConfig | BadPdf(pdfError: PdfError) | UploadFailed
    | PromptRejected | GenerationFailed | InvalidJson | NotAnObject | MarkdownFailed(fieldError: FieldError)
    | MarkdownRejected | InsertRaised | InsertEmpty

  /** The returned dict (`document_id` is the inserted row's `id`), or the step whose exception propagates. */
  datatype Outcome = Generated(documentId: Json, title: Json, timestamp: string) | Raised(step: Step)

  /** The parameters of the imported `get_prompt`, none of them with a default. */
  const LegacyPromptParams: seq<string> := ["user_query", "event_text", "KB", "format_instructions"]

  /** The parameters of the current service's `get_prompt`. */
  const AppPromptParams: seq<string> := ["user_query", "event_text", "KB", "contents", "generation_schema_str"]

  /** The keywords the step passes to `get_prompt`. */
  const PromptKeywords: seq<string> := ["KB", "event_text", "user_query", "contents", "generation_schema_str"]

  /** A keyword-only call binds: every keyword names a parameter and every parameter is given. */
  predicate Binds(params: seq<string>, keywords: seq<string>) {
    (forall k :: k in keywords ==> k in params) && (forall p :: p in params ==> p in keywords)
  }

  /** The prompt call is rejected by the imported signature and accepted by the current service's one. */
  lemma PromptCallRejected()
    ensures !Binds(LegacyPromptParams, PromptKeywords)
    ensures Binds(AppPromptParams, PromptKeywords)
  {
    assert PromptKeywords[3] == "contents";
    assert "contents" !in LegacyPromptParams;
  }

  /** The number of parameters of the earlier `create_markdown(article_dict)`, and of arguments the step passes. */
  const LegacyMarkdownArity := 1
  const MarkdownArguments := 3

  /** Steps 1-4: the schema, the credentials, the config, the PDF. */
  function Precheck(args: Args, w: World): Option<Step> {
    if !Truthy(args.components) || !args.components.Obj? then Some(InvalidSchema)
    else if !w.credentials then Some(MissingCredentials)
    else if w.configRaises then Some(BadConfig)
    else if ValidatePdf(w.pdf).Some? then Some(BadPdf(ValidatePdf(w.pdf).value))
    else None
  }

  /** Steps 7-8: a non-empty answer that parses to an object. */
  function Article(w: World): Result<seq<(string, Json)>, Step> {
    if w.generation.GenerationRaises? || w.generation.text == [] then Err(GenerationFailed)
    else if w.parsed.None? then Err(InvalidJson)
    else if !w.parsed.value.Obj? then Err(NotAnObject)
    else Ok(w.parsed.value.fields)
  }

  /** Step 9 called as declared: the earlier renderer on the article alone. */
  function Markdown(article: seq<(string, Json)>): Result<string, Step> {
    match RenderLegacy(article)
    case Err(e) => Err(MarkdownFailed(e))
    case Ok(markdown) => Ok(markdown)
  }

  /** Step 9 as written: three arguments to a one-parameter function raise `TypeError`, re-raised as `ValueError`. */
  function MarkdownAsWritten(article: seq<(string, Json)>): Result<string, Step> {
    if MarkdownArguments != LegacyMarkdownArity then Err(MarkdownRejected)
    else Markdown(article)
  }

  /** Step 11: the insert, once the article is rendered. */
  function Saved(args: Args, w: World, article: seq<(string, Json)>, taken: bool, down: bool, timestamp: string): Outcome {
    if down || taken then Raised(InsertRaised)
    else if !w.insertAnswered then Raised(InsertEmpty)
    else Generated(Str(args.job), Title(article, args.job, timestamp), timestamp)
  }

  /** The step as written, with the prompt call checked against the imported signature and the three-argument rendering. */
  function VerdictAsWritten(args: Args, w: World, taken: bool, down: bool, timestamp: string): Outcome {
    if Precheck(args, w).Some? then Raised(Precheck(args, w).value)
    else if w.upload.UploadRaises? then Raised(UploadFailed)
    else if !Binds(LegacyPromptParams, PromptKeywords) then Raised(PromptRejected)
    else if Article(w).Err? then Raised(Article(w).error)
    else if MarkdownAsWritten(Article(w).value).Err? then Raised(MarkdownAsWritten(Article(w).value).error)
    else Saved(args, w, Article(w).value, taken, down, timestamp)
  }

  /** Steps 7-9 with the calls corrected: the article and its rendering. */
  function Content(w: World): Result<(seq<(string, Json)>, string), Step> {
    var article :- Article(w);
    var markdown :- Markdown(article);
    Ok((article, markdown))
  }

  /**
   * How a corrected run ends; `taken` is a row with the job's id already in
   * the table, `down` a store that rejects every request.
   */
  function Verdict(args: Args, w: World, taken: bool, down: bool, timestamp: string): Outcome {
    if Precheck(args, w).Some? then Raised(Precheck(args, w).value)
    else if w.upload.UploadRaises? then Raised(UploadFailed)
    else if Content(w).Err? then Raised(Content(w).error)
    else Saved(args, w, Content(w).value.0, taken, down, timestamp)
  }

  /** The upload is made: the checks before it pass and the call returns a handle. */
  predicate Uploads(args: Args, w: World) {
    Precheck(args, w).None? && w.upload.Uploaded?
  }

  /** As written, no run ever returns a document, and every run that uploads fails at the prompt. */
  lemma AsWrittenNeverSucceeds(args: Args, w: World, taken: bool, down: bool, timestamp: string)
    ensures VerdictAsWritten(args, w, taken, down, timestamp).Raised?
    ensures Uploads(args, w) ==> VerdictAsWritten(args, w, taken, down, timestamp) == Raised(PromptRejected)
  {
    PromptCallRejected();
  }

  /**
   * Were the prompt corrected, the rendering as written would still raise
   * where the corrected call renders: the empty article.
   */
  lemma MarkdownAsWrittenFails()
    ensures Markdown([]).Ok?
    ensures MarkdownAsWritten([]) != Markdown([])
  {
    forall k | 0 <= k < 15
      ensures LegacySections([])[k] == Ok([])
    {
      LegacyAbsentKeySkipsSection([], k);
    }
    ChainOfNothing(LegacySections([]));
  }

  /** Sections that all contribute nothing make a document that raises nothing. */
  lemma {:induction false} ChainOfNothing(parts: seq<Ops>)
    requires forall k :: 0 <= k < |parts| ==> parts[k] == Ok([])
    ensures Chain(parts) == Ok([])
  {
    if parts != [] {
      ChainOfNothing(parts[..|parts| - 1]);
    }
  }

  /** Steps 7-9 with the calls corrected. */
  method Generate(w: World) returns (content: Result<(seq<(string, Json)>, string), Step>)
    ensures content == Content(w)
  {
    var article := Article(w);
    if article.Err? {
      return Err(article.error);
    }
    var markdown := CreateLegacyMarkdown(article.value);
    if markdown.Err? {
      return Err(MarkdownFailed(markdown.error));
    }
    content := Ok((article.value, markdown.value));
  }

  /**
   * `generate_sop_docx` with the two calls corrected: every failure
   * propagates without a status write, a finished row is inserted, and
   * `finally` releases the upload exactly when one was made.
   */
  method GenerateSopDocx(store: DocStore, api: FileApi, args: Args, w: World, timestamp: string)
    returns (r: Outcome)
    modifies store, api
    ensures r == Verdict(args, w, args.job in old(store.rows), store.down, timestamp)
    ensures store.writes == old(store.writes)
    ensures r.Raised? ==> store.rows == old(store.rows)
    ensures r.Generated? ==>
      Content(w).Ok? &&
      store.rows == old(store.rows)[args.job := LegacyRecord(args.job, args.category, args.user, Content(w).value.0, Content(w).value.1, timestamp)]
    ensures api.deleted == old(api.deleted) + (if Uploads(args, w) then [w.upload.name] else [])
    ensures api.live ==
      if !Uploads(args, w) then old(api.live)
      else if api.deleteFails then old(api.live) + {w.upload.name}
      else old(api.live) - {w.upload.name}
  {
    var handle: Option<string> := None;
    var pre := Precheck(args, w);
    if pre.Some? {
      r := Raised(pre.value);
    } else {
      handle := api.UploadFile(w.upload);
      if handle.None? {
        r := Raised(UploadFailed);
      } else {
        var content := Generate(w);
        if content.Err? {
          r := Raised(content.error);
        } else {
          var (article, markdown) := content.value;
          if !store.down && args.job !in store.rows && !w.insertAnswered {
            r := Raised(InsertEmpty);
          } else {
            LegacyRecordHasNoStatus(args.job, args.category, args.user, article, markdown, timestamp);
            var raised := store.Insert(args.job, LegacyRecord(args.job, args.category, args.user, article, markdown, timestamp));
            if raised {
              r := Raised(InsertRaised);
            } else {
              r := Generated(Str(args.job), Title(article, args.job, timestamp), timestamp);
            }
          }
        }
      }
    }
    api.Release(handle);
  }

  /**
   * A corrected run returns a document exactly when every step passes and the
   * job's id is new to the table; the document id is the job's.
   */
  lemma SuccessExactly(args: Args, w: World, taken: bool, down: bool, timestamp: string)
    ensures Verdict(args, w, taken, down, timestamp).Generated? <==>
      args.components.Obj? && args.components.fields != [] && w.credentials && !w.configRaises &&
      w.pdf.present && w.pdf.size > 0 && w.pdf.parses && w.upload.Uploaded? &&
      w.generation.Answered? && w.generation.text != [] && w.parsed.Some? && w.parsed.value.Obj? &&
      RenderLegacy(w.parsed.value.fields).Ok? && !down && !taken && w.insertAnswered
    ensures Verdict(args, w, taken, down, timestamp).Generated? ==>
      Verdict(args, w, taken, down, timestamp).documentId == Str(args.job) &&
      Truthy(Verdict(args, w, taken, down, timestamp).title)
  {
    AcceptedExactly(w.pdf);
    if Verdict(args, w, taken, down, timestamp).Generated? {
      TitleRule(Content(w).value.0, args.job, timestamp);
    }
  }

  /**
   * The schema is checked before the credentials, which are checked inside
   * the `try` (unlike the current service), so a missing credential never
   * stops a release: there is no upload yet.
   */
  lemma CredentialsInsideTry(args: Args, w: World, taken: bool, down: bool, timestamp: string)
    ensures !(args.components.Obj? && args.components.fields != []) ==>
      Verdict(args, w, taken, down, timestamp) == Raised(InvalidSchema)
    ensures args.components.Obj? && args.components.fields != [] && !w.credentials ==>
      Verdict(args, w, taken, down, timestamp) == Raised(MissingCredentials) && !Uploads(args, w)
  {
  }

  /** The corrected step and the step as written agree on every run that stops before the prompt. */
  lemma AgreeBeforePrompt(args: Args, w: World, taken: bool, down: bool, timestamp: string)
    ensures !Uploads(args, w) ==> Verdict(args, w, taken, down, timestamp) == VerdictAsWritten(args, w, taken, down, timestamp)
  {
  }
}
