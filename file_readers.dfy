/**
 * Turning an uploaded file into text. The parsing libraries (pandas,
 * PyPDF2, python-docx, the UTF-8 codec) are represented by what they make
 * of the bytes; every reader turns a library failure into "".
 */
module FileReaders {
  import opened Wrappers
  import opened PyText

  /** One PDF page as PyPDF2 extracts it: text, None, or an exception. */
  datatype Page = PageText(text: string) | NoText | PageRaises

  /**
   * The libraries' view of one uploaded file: the Excel frame's text, the PDF
   * pages, the DOCX paragraphs (each None when opening the file raises), and
   * the UTF-8 decoding with undecodable bytes dropped.
   */
  datatype Libraries = Libraries(
    excel: Option<string>,
    pdf: Option<seq<Page>>,
    docx: Option<seq<string>>,
    decoded: string)

  datatype Reader = ExcelReader | PdfReader | DocxReader | TextReader

  /** The reader a lower-cased extension selects among the three document formats, if any. */
  function KnownReader(ext: string): Option<Reader> {
    if ext == ".xlsx" || ext == ".xls" then Some(ExcelReader)
    else if ext == ".pdf" then Some(PdfReader)
    else if ext == ".docx" then Some(DocxReader)
    else None
  }

  /** `read_file_by_extension`'s choice: the extension is lower-cased, and anything unknown is read as text. */
  function ReaderFor(ext: string): Reader {
    var known := KnownReader(Lower(ext));
    if known.Some? then known.value else TextReader
  }

  lemma LowerIdempotent(s: string)
    ensures Lower(Lower(s)) == Lower(s)
  {
    assert forall k :: 0 <= k < |s| ==> LowerChar(LowerChar(s[k])) == LowerChar(s[k]);
  }

  /** Dispatch ignores the case of the extension. */
  lemma ReaderIgnoresCase(ext: string)
    ensures ReaderFor(ext) == ReaderFor(Lower(ext))
  {
    LowerIdempotent(ext);
  }

  /** Only the three document formats leave the text reader. */
  lemma {:induction false} ReaderForSpec(ext: string)
    ensures ReaderFor(ext) == ExcelReader <==> Lower(ext) == ".xlsx" || Lower(ext) == ".xls"
    ensures ReaderFor(ext) == PdfReader <==> Lower(ext) == ".pdf"
    ensures ReaderFor(ext) == DocxReader <==> Lower(ext) == ".docx"
    ensures ReaderFor(ext) == TextReader <==> KnownReader(Lower(ext)).None?
  {
  }

  /** `read_excel_file`. */
  function ReadExcel(lib: Libraries): (r: string)
    ensures lib.excel.None? ==> r == []
  {
    if lib.excel.Some? then lib.excel.value else ""
  }

  /** `page.extract_text() or ""`. */
  function PageString(p: Page): string
    requires !p.PageRaises?
  {
    if p.PageText? then p.text else ""
  }

  predicate Readable(pages: seq<Page>) {
    forall k :: 0 <= k < |pages| ==> !pages[k].PageRaises?
  }

  /** The text of readable pages, in page order. */
  function PagesText(pages: seq<Page>): string
    requires Readable(pages)
  {
    if pages == [] then [] else PagesText(pages[..|pages| - 1]) + PageString(pages[|pages| - 1])
  }

  /** The text of a document is the texts of its parts, in order. */
  lemma {:induction false} PagesTextSplits(a: seq<Page>, b: seq<Page>)
    requires Readable(a) && Readable(b)
    ensures Readable(a + b)
    ensures PagesText(a + b) == PagesText(a) + PagesText(b)
    decreases |b|
  {
    assert Readable(a + b) by {
      forall k | 0 <= k < |a + b|
        ensures !(a + b)[k].PageRaises?
      {
        if k >= |a| {
          assert (a + b)[k] == b[k - |a|];
        }
      }
    }
    if b != [] {
      var init := b[..|b| - 1];
      PagesTextSplits(a, init);
      assert (a + b)[..|a + b| - 1] == a + init;
    } else {
      assert a + b == a;
    }
  }

  /** A page without text contributes nothing. */
  lemma NoTextIsEmpty(pages: seq<Page>)
    requires Readable(pages)
    ensures PagesText(pages + [NoText]) == PagesText(pages)
  {
    assert (pages + [NoText])[..|pages|] == pages;
  }

  /** `read_pdf_file`'s answer: the pages' text, or "" when opening or any page raises. */
  function PdfText(pages: Option<seq<Page>>): string {
    if pages.Some? && Readable(pages.value) then PagesText(pages.value) else ""
  }

  /** `read_pdf_file`: the loop that adds up the pages' text. */
  method ReadPdf(pages: Option<seq<Page>>) returns (text: string)
    ensures text == PdfText(pages)
    ensures pages.None? ==> text == []
  {
    if pages.None? {
      return "";
    }
    var ps := pages.value;
    text := "";
    var i := 0;
    while i < |ps|
      invariant 0 <= i <= |ps|
      invariant Readable(ps[..i]) && text == PagesText(ps[..i])
    {
      assert ps[..i + 1][..i] == ps[..i];
      if ps[i].PageRaises? {
        assert !Readable(ps);
        return "";
      }
      text := text + PageString(ps[i]);
      i := i + 1;
    }
    assert ps[..i] == ps;
  }

  /** `[p for p in paragraphs if p]`. */
  function NonEmpty(paras: seq<string>): (r: seq<string>)
    ensures forall k :: 0 <= k < |r| ==> r[k] != []
  {
    if paras == [] then []
    else NonEmpty(paras[..|paras| - 1]) + (if paras[|paras| - 1] != [] then [paras[|paras| - 1]] else [])
  }

  /** Exactly the non-empty paragraphs are kept. */
  lemma {:induction false} NonEmptySpec(paras: seq<string>)
    ensures forall p :: p in NonEmpty(paras) <==> p in paras && p != []
  {
    if paras != [] {
      NonEmptySpec(paras[..|paras| - 1]);
      assert paras == paras[..|paras| - 1] + [paras[|paras| - 1]];
    }
  }

  /** `read_docx_file`: the non-empty paragraphs joined by newlines, or "" when opening raises. */
  function ReadDocx(lib: Libraries): (r: string)
    ensures lib.docx.None? ==> r == []
  {
    if lib.docx.Some? then Join("\n", NonEmpty(lib.docx.value)) else ""
  }

  /** Every non-empty paragraph appears in the DOCX text. */
  lemma DocxShowsParagraphs(lib: Libraries)
    requires lib.docx.Some?
    ensures forall p :: p in lib.docx.value && p != [] ==> Contains(ReadDocx(lib), p)
  {
    var kept := NonEmpty(lib.docx.value);
    NonEmptySpec(lib.docx.value);
    JoinHasParts("\n", kept);
    forall p | p in lib.docx.value && p != []
      ensures Contains(ReadDocx(lib), p)
    {
      var k :| 0 <= k < |kept| && kept[k] == p;
    }
  }

  /** The text the given reader makes of the file. */
  function ReaderText(lib: Libraries, reader: Reader): string {
    match reader
    case ExcelReader => ReadExcel(lib)
    case PdfReader => PdfText(lib.pdf)
    case DocxReader => ReadDocx(lib)
    case TextReader => lib.decoded
  }

  /** Whatever the libraries make of the file, no reader raises: a library failure gives "". */
  lemma ReadersNeverFail(lib: Libraries, reader: Reader)
    ensures reader == ExcelReader && lib.excel.None? ==> ReaderText(lib, reader) == []
    ensures reader == PdfReader && (lib.pdf.None? || !Readable(lib.pdf.value)) ==> ReaderText(lib, reader) == []
    ensures reader == DocxReader && lib.docx.None? ==> ReaderText(lib, reader) == []
    ensures reader == TextReader ==> ReaderText(lib, reader) == lib.decoded
  {
  }

  /** `read_file_by_extension`: the reader the extension selects, applied to the file. */
  method ReadFileByExtension(lib: Libraries, ext: string) returns (text: string)
    ensures text == ReaderText(lib, ReaderFor(ext))
  {
    var reader := ReaderFor(ext);
    match reader
    case ExcelReader => text := ReadExcel(lib);
    case PdfReader => text := ReadPdf(lib.pdf);
    case DocxReader => text := ReadDocx(lib);
    case TextReader => text := lib.decoded;
  }
}
