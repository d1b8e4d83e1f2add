/**
 * `validate_pdf_file`: the checks a generated PDF passes before it is
 * uploaded. The file is represented by what the checks observe of it.
 */
module PdfValidation {
  import opened Wrappers

  /** What the MIME detector says of the file: a type, or an exception. */
  datatype MimeCheck = Detected(mime: string) | MimeRaises

  /** A file on disk as the checks see it: whether it exists, its size, its MIME answer, and whether PyPDF2 opens it. */
  datatype PdfFile = PdfFile(present: bool, size: nat, mime: MimeCheck, parses: bool)

  /** The `ValueError`s of `validate_pdf_file`. */
  datatype PdfError = PdfNotFound | PdfEmpty | InvalidPdf

  const PdfMime := "application/pdf"

  /**
   * The checks in order: existence, then size, then structure. A wrong or
   * undetectable MIME type is only logged. None means the file is accepted.
   */
  function ValidatePdf(f: PdfFile): (r: Option<PdfError>)
    ensures r == Some(PdfNotFound) <==> !f.present
    ensures r == Some(PdfEmpty) <==> f.present && f.size == 0
    ensures r == Some(InvalidPdf) <==> f.present && f.size > 0 && !f.parses
  {
    if !f.present then Some(PdfNotFound)
    else if f.size == 0 then Some(PdfEmpty)
    else if !f.parses then Some(InvalidPdf)
    else None
  }

  /** The MIME type never decides the outcome. */
  lemma MimeNeverMatters(f: PdfFile, m: MimeCheck)
    ensures ValidatePdf(f.(mime := m)) == ValidatePdf(f)
  {
  }

  /** A file is accepted exactly when it exists, is non-empty and opens as a PDF, whatever its MIME type. */
  lemma AcceptedExactly(f: PdfFile)
    ensures ValidatePdf(f).None? <==> f.present && f.size > 0 && f.parses
  {
  }
}
