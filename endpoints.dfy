/**
 * The two small endpoints beside the generation run: `POST /rephrase`, whose
 * behaviour up to the model call is input checking, and the Markdown
 * download, which dispatches on the requested format.
 */
module Endpoints {
  import opened Wrappers
  import opened PyText

  /** The Gemini chat model as the endpoint meets it: building it raises, calling it raises, or it answers. */
  datatype Model = InitRaises | InvokeRaises | Answers(content: string)

  /** The response of `POST /rephrase`: the rephrased section, or an `HTTPException` code. */
  datatype Reply = Rephrased(section: string) | RephraseError(code: int)

  /** All three form fields are non-empty and the section occurs in the Markdown text. */
  predicate RephraseInputsValid(query: string, markdown: string, section: string) {
    query != [] && markdown != [] && section != [] && Contains(markdown, section)
  }

  /**
   * `rephrase_markdown` as written: after the input checks the prompt is
   * formatted from `rephrase_prompt_template`, a name the module never
   * imports, so the `NameError` reaches the generic handler as a 500 whatever
   * the model would have done.
   */
  function RephraseAsWritten(query: string, markdown: string, section: string): Reply {
    if query == [] || markdown == [] || section == [] then RephraseError(400)
    else if !Contains(markdown, section) then RephraseError(400)
    else RephraseError(500)
  }

  /** As written, the endpoint never answers: bad inputs give 400 and every valid request 500. */
  lemma RephraseAsWrittenNeverAnswers(query: string, markdown: string, section: string)
    ensures RephraseAsWritten(query, markdown, section) ==
      RephraseError(if RephraseInputsValid(query, markdown, section) then 500 else 400)
  {
  }

  /** A concrete valid request that, as written, fails with 500. */
  lemma RephraseAsWrittenFailsOnValidInput()
    ensures RephraseInputsValid("shorter", "ab", "a")
    ensures RephraseAsWritten("shorter", "ab", "a") == RephraseError(500)
  {
    assert "ab"[0..1] == "a";
  }

  /**
   * `rephrase_markdown` with the template in scope: the input checks (400),
   * then the model, whose construction or call failing gives 500, and whose
   * answer is returned as the rephrased section.
   */
  function Rephrase(query: string, markdown: string, section: string, model: Model): (r: Reply)
    ensures r.Rephrased? <==> RephraseInputsValid(query, markdown, section) && model.Answers?
    ensures r.Rephrased? ==> r.section == model.content
    ensures !RephraseInputsValid(query, markdown, section) ==> r == RephraseError(400)
    ensures RephraseInputsValid(query, markdown, section) && !model.Answers? ==> r == RephraseError(500)
  {
    if query == [] || markdown == [] || section == [] then RephraseError(400)
    else if !Contains(markdown, section) then RephraseError(400)
    else if !model.Answers? then RephraseError(500)
    else Rephrased(model.content)
  }

  /** The corrected endpoint agrees with the one as written on every request it rejects for its inputs. */
  lemma RephraseChecksUnchanged(query: string, markdown: string, section: string, model: Model)
    ensures !RephraseInputsValid(query, markdown, section) ==>
      Rephrase(query, markdown, section, model) == RephraseAsWritten(query, markdown, section)
  {
  }

  /** The download response: a stream with its media type and file name, or an `HTTPException` code. */
  datatype Download = Stream(mediaType: string, filename: string) | DownloadError(code: int)

  const PdfMediaType := "application/pdf"
  const DocxMediaType := "application/vnd.openxmlformats-officedocument.wordprocessingml.document"

  /** `filename or default_filename`: a missing or empty name gives the default. */
  function NameOr(filename: Option<string>, default: string): (r: string)
    ensures filename.Some? && filename.value != [] ==> r == filename.value
    ensures filename.None? || filename.value == [] ==> r == default
  {
    if filename.Some? && filename.value != [] then filename.value else default
  }

  /**
   * `convert_markdown`: "pdf" and "docx" are converted, anything else is
   * refused with 400 before any conversion; a converter that raises gives
   * 500.
   */
  function ConvertMarkdown(format: string, filename: Option<string>, converterRaises: bool): (r: Download)
    ensures r.Stream? <==> (format == "pdf" || format == "docx") && !converterRaises
    ensures format != "pdf" && format != "docx" ==> r == DownloadError(400)
    ensures (format == "pdf" || format == "docx") && converterRaises ==> r == DownloadError(500)
    ensures r.Stream? ==> r.mediaType == (if format == "pdf" then PdfMediaType else DocxMediaType)
    ensures r.Stream? ==> r.filename == NameOr(filename, "document." + format)
  {
    if format == "pdf" then
      if converterRaises then DownloadError(500) else Stream(PdfMediaType, NameOr(filename, "document.pdf"))
    else if format == "docx" then
      if converterRaises then DownloadError(500) else Stream(DocxMediaType, NameOr(filename, "document.docx"))
    else DownloadError(400)
  }

  /** The format is matched exactly: case matters, so "PDF" is refused. */
  lemma FormatIsCaseSensitive(filename: Option<string>, converterRaises: bool)
    ensures ConvertMarkdown("PDF", filename, converterRaises) == DownloadError(400)
  {
  }
}
