/**
 * `create_markdown(article_dict)` of the older renderer: fifteen sections
 * read from the older key set, in its own order, with screenshot references
 * left as text. The section blocks are those of the current renderer; only
 * the keys, the order, the notes spacing and the screenshot line differ.
 */
module LegacyMarkdown {
  import opened Wrappers
  import opened PyText
  import opened Json
  import opened MarkdownLines
  import opened MarkdownBlocks
  import opened MarkdownEmit

  /** The article key section `k` reads. */
  function LegacyKey(k: nat): string
    requires k < 15
  {
    if k == 0 then "Title"
    else if k == 1 then "Subtitle"
    else if k == 2 then "Introduction"
    else if k == 3 then "Features"
    else if k == 4 then "tableOfContents"
    else if k == 5 then "paragraphs"
    else if k == 6 then "Steps / How-To"
    else if k == 7 then "FAQ"
    else if k == 8 then "codeSnippets"
    else if k == 9 then "notes"
    else if k == 10 then "tips"
    else if k == 11 then "quotes"
    else if k == 12 then "checklist"
    else if k == 13 then "Conclusion"
    else "references"
  }

  /** The calls section `k` makes on the line list. */
  function LegacySection(article: Article, k: nat): Ops
    requires k < 15
  {
    if k == 0 then HeadingOps(article, "Title", "# ")
    else if k == 1 then HeadingOps(article, "Subtitle", "## ")
    else if k == 2 then Ok(IntroOps(article, "Introduction"))
    else if k == 3 then Ok(HeadedList(ListField(article, "Features"), "## Key Features", "- "))
    else if k == 4 then TocOps(article, "tableOfContents")
    else if k == 5 then Ok(Paras(ListField(article, "paragraphs")))
    else if k == 6 then StepsOps(article, "Steps / How-To", SeeText)
    else if k == 7 then FaqOps(article, "FAQ")
    else if k == 8 then CodeOps(article, "codeSnippets")
    else if k == 9 then Ok(NotesSection(ListField(article, "notes"), false))
    else if k == 10 then Ok(HeadedList(ListField(article, "tips"), "## Tips", "- "))
    else if k == 11 then QuoteOps(article, "quotes")
    else if k == 12 then Ok(HeadedList(ListField(article, "checklist"), "## Checklist", "- [ ] "))
    else if k == 13 then Ok(ConclusionOps(article, "Conclusion"))
    else RefOps(article, "references")
  }

  /** The sections in document order. */
  function LegacySections(article: Article): (r: seq<Ops>)
    ensures |r| == 15
  {
    seq(15, k requires 0 <= k < 15 => LegacySection(article, k))
  }

  /** The line list `create_markdown` builds, or the exception it raises. */
  function LegacyLines(article: Article): Result<seq<string>, FieldError> {
    var ops :- Chain(LegacySections(article));
    Ok(Run([], ops))
  }

  /** `'\n'.join(markdown_lines)`; the UTF-8 encoding into a buffer is not modelled. */
  function RenderLegacy(article: Article): Result<string, FieldError> {
    var lines :- LegacyLines(article);
    Ok(Join("\n", lines))
  }

  /**
   * The body of `create_markdown`: the fifteen blocks in turn on one line
   * list, an exception in any of them ending the call. The blocks are
   * grouped three ways only to keep each proof small.
   */
  method CreateLegacyMarkdown(article: Article) returns (r: Result<string, FieldError>)
    ensures r == RenderLegacy(article)
  {
    var lines: seq<string> := [];
    var err: Option<FieldError>;
    ghost var done: seq<Op> := [];
    PrefixAll(LegacySections(article));
    lines, err, done := EmitLegacyOpening(article, lines, done);
    if err.Some? { return Err(err.value); }
    lines, err, done := EmitLegacyMiddle(article, lines, done);
    if err.Some? { return Err(err.value); }
    lines, err, done := EmitLegacyClosing(article, lines, done);
    if err.Some? { return Err(err.value); }
    r := Ok(Join("\n", lines));
  }

  /** Blocks 0 to 5 (title to paragraphs). */
  method EmitLegacyOpening(article: Article, lines: seq<string>, ghost done: seq<Op>)
    returns (next: seq<string>, err: Option<FieldError>, ghost now: seq<Op>)
    requires Prefix(LegacySections(article), 0) == Ok(done) && lines == Run([], done)
    ensures err.None? ==> Prefix(LegacySections(article), 6) == Ok(now) && next == Run([], now)
    ensures err.Some? ==> Chain(LegacySections(article)) == Err(err.value)
  {
    next, err, now := lines, None, done;
    var before: seq<string>;
    before := next;
    next, err := EmitLegacySection(article, 0, next);
    now := PrefixStep([], LegacySections(article), 0, now, before, next, err);
    if err.Some? { return; }
    before := next;
    next, err := EmitLegacySection(article, 1, next);
    now := PrefixStep([], LegacySections(article), 1, now, before, next, err);
    if err.Some? { return; }
    before := next;
    next, err := EmitLegacySection(article, 2, next);
    now := PrefixStep([], LegacySections(article), 2, now, before, next, err);
    if err.Some? { return; }
    before := next;
    next, err := EmitLegacySection(article, 3, next);
    now := PrefixStep([], LegacySections(article), 3, now, before, next, err);
    if err.Some? { return; }
    before := next;
    next, err := EmitLegacySection(article, 4, next);
    now := PrefixStep([], LegacySections(article), 4, now, before, next, err);
    if err.Some? { return; }
    before := next;
    next, err := EmitLegacySection(article, 5, next);
    now := PrefixStep([], LegacySections(article), 5, now, before, next, err);
    if err.Some? { return; }
  }

  /** Blocks 6 to 10 (steps to tips). */
  method EmitLegacyMiddle(article: Article, lines: seq<string>, ghost done: seq<Op>)
    returns (next: seq<string>, err: Option<FieldError>, ghost now: seq<Op>)
    requires Prefix(LegacySections(article), 6) == Ok(done) && lines == Run([], done)
    ensures err.None? ==> Prefix(LegacySections(article), 11) == Ok(now) && next == Run([], now)
    ensures err.Some? ==> Chain(LegacySections(article)) == Err(err.value)
  {
    next, err, now := lines, None, done;
    var before: seq<string>;
    before := next;
    next, err := EmitLegacySection(article, 6, next);
    now := PrefixStep([], LegacySections(article), 6, now, before, next, err);
    if err.Some? { return; }
    before := next;
    next, err := EmitLegacySection(article, 7, next);
    now := PrefixStep([], LegacySections(article), 7, now, before, next, err);
    if err.Some? { return; }
    before := next;
    next, err := EmitLegacySection(article, 8, next);
    now := PrefixStep([], LegacySections(article), 8, now, before, next, err);
    if err.Some? { return; }
    before := next;
    next, err := EmitLegacySection(article, 9, next);
    now := PrefixStep([], LegacySections(article), 9, now, before, next, err);
    if err.Some? { return; }
    before := next;
    next, err := EmitLegacySection(article, 10, next);
    now := PrefixStep([], LegacySections(article), 10, now, before, next, err);
    if err.Some? { return; }
  }

  /** Blocks 11 to 14 (quotes to references). */
  method EmitLegacyClosing(article: Article, lines: seq<string>, ghost done: seq<Op>)
    returns (next: seq<string>, err: Option<FieldError>, ghost now: seq<Op>)
    requires Prefix(LegacySections(article), 11) == Ok(done) && lines == Run([], done)
    ensures err.None? ==> Prefix(LegacySections(article), 15) == Ok(now) && next == Run([], now)
    ensures err.Some? ==> Chain(LegacySections(article)) == Err(err.value)
  {
    next, err, now := lines, None, done;
    var before: seq<string>;
    before := next;
    next, err := EmitLegacySection(article, 11, next);
    now := PrefixStep([], LegacySections(article), 11, now, before, next, err);
    if err.Some? { return; }
    before := next;
    next, err := EmitLegacySection(article, 12, next);
    now := PrefixStep([], LegacySections(article), 12, now, before, next, err);
    if err.Some? { return; }
    before := next;
    next, err := EmitLegacySection(article, 13, next);
    now := PrefixStep([], LegacySections(article), 13, now, before, next, err);
    if err.Some? { return; }
    before := next;
    next, err := EmitLegacySection(article, 14, next);
    now := PrefixStep([], LegacySections(article), 14, now, before, next, err);
    if err.Some? { return; }
  }

  /** Block `k` of `create_markdown`, run on the list the blocks before it left. */
  method EmitLegacySection(article: Article, k: nat, lines: seq<string>) returns (next: seq<string>, err: Option<FieldError>)
    requires k < 15
    ensures Performed(next, lines, LegacySection(article, k), err)
  {
    err := None;
    if k == 0 {
      next, err := EmitHeading(lines, article, "Title", "# ");
    } else if k == 1 {
      next, err := EmitHeading(lines, article, "Subtitle", "## ");
    } else if k == 2 {
      next := EmitIntro(lines, article, "Introduction");
    } else if k == 3 {
      next := EmitHeadedList(lines, ListField(article, "Features"), "## Key Features", "- ");
    } else if k == 4 {
      next, err := EmitToc(lines, article, "tableOfContents");
    } else if k == 5 {
      next := EmitParas(lines, ListField(article, "paragraphs"));
    } else if k == 6 {
      next, err := EmitSteps(lines, article, "Steps / How-To", SeeText);
    } else if k == 7 {
      next, err := EmitFaq(lines, article, "FAQ");
    } else if k == 8 {
      next, err := EmitCode(lines, article, "codeSnippets");
    } else if k == 9 {
      next := EmitNotes(lines, ListField(article, "notes"), false);
    } else if k == 10 {
      next := EmitHeadedList(lines, ListField(article, "tips"), "## Tips", "- ");
    } else if k == 11 {
      next, err := EmitQuotes(lines, article, "quotes");
    } else if k == 12 {
      next := EmitHeadedList(lines, ListField(article, "checklist"), "## Checklist", "- [ ] ");
    } else if k == 13 {
      next := EmitConclusion(lines, article, "Conclusion");
    } else {
      next, err := EmitRefs(lines, article, "references");
    }
  }

  // ---------------------------------------------------------------------------
  // Properties of the document

  /** Every section appends only non-empty lines and starts with an `append`. */
  lemma LegacySectionFormed(article: Article, k: nat)
    requires k < 15
    ensures Formed(LegacySection(article, k))
  {
    if k == 0 { HeadingFormed(article, "Title", "# "); }
    else if k == 1 { HeadingFormed(article, "Subtitle", "## "); }
    else if k == 2 { IntroFormed(article, "Introduction"); }
    else if k == 3 { HeadedListFormed(ListField(article, "Features"), "## Key Features", "- "); }
    else if k == 4 { TocFormed(article, "tableOfContents"); }
    else if k == 5 { ParasFormed(ListField(article, "paragraphs")); }
    else if k == 6 { StepsFormed(article, "Steps / How-To", SeeText); }
    else if k == 7 { FaqFormed(article, "FAQ"); }
    else if k == 8 { CodeFormed(article, "codeSnippets"); }
    else if k == 9 { NotesFormed(ListField(article, "notes"), false); }
    else if k == 10 { HeadedListFormed(ListField(article, "tips"), "## Tips", "- "); }
    else if k == 11 { QuoteFormed(article, "quotes"); }
    else if k == 12 { HeadedListFormed(ListField(article, "checklist"), "## Checklist", "- [ ] "); }
    else if k == 13 { ConclusionFormed(article, "Conclusion"); }
    else { RefFormed(article, "references"); }
  }

  lemma AllLegacySectionsFormed(article: Article)
    ensures forall k :: 0 <= k < 15 ==> Formed(LegacySections(article)[k])
  {
    forall k | 0 <= k < 15 ensures Formed(LegacySections(article)[k]) {
      LegacySectionFormed(article, k);
    }
  }

  /** No leading empty line and no two empty lines in a row. */
  lemma LegacyWellSpaced(article: Article)
    ensures LegacyLines(article).Ok? ==> WellSpaced(LegacyLines(article).value)
  {
    var parts := LegacySections(article);
    AllLegacySectionsFormed(article);
    ChainNonEmpty(parts);
    if Chain(parts).Ok? {
      RunKeepsWellSpaced([], Chain(parts).value);
    }
  }

  /** The document is its sections, each rendered on its own, in the fixed order. */
  lemma LegacyIsSectionsInOrder(article: Article)
    ensures LegacyLines(article).Ok? ==> LegacyLines(article).value == Standalone(LegacySections(article))
  {
    AllLegacySectionsFormed(article);
    if Chain(LegacySections(article)).Ok? {
      ChainRunsApart(LegacySections(article));
    }
  }

  /** Section `k` depends on the article only through the value bound to its key. */
  lemma LegacySectionReadsItsKey(a1: Article, a2: Article, k: nat)
    requires k < 15 && Get(a1, LegacyKey(k)) == Get(a2, LegacyKey(k))
    ensures LegacySection(a1, k) == LegacySection(a2, k)
  {
    if k == 0 { SameBinding(a1, a2, "Title"); }
    else if k == 1 { SameBinding(a1, a2, "Subtitle"); }
    else if k == 2 { SameBinding(a1, a2, "Introduction"); }
    else if k == 3 { SameBinding(a1, a2, "Features"); }
    else if k == 4 { SameBinding(a1, a2, "tableOfContents"); }
    else if k == 5 { SameBinding(a1, a2, "paragraphs"); }
    else if k == 6 { SameBinding(a1, a2, "Steps / How-To"); }
    else if k == 7 { SameBinding(a1, a2, "FAQ"); }
    else if k == 8 { SameBinding(a1, a2, "codeSnippets"); }
    else if k == 9 { SameBinding(a1, a2, "notes"); }
    else if k == 10 { SameBinding(a1, a2, "tips"); }
    else if k == 11 { SameBinding(a1, a2, "quotes"); }
    else if k == 12 { SameBinding(a1, a2, "checklist"); }
    else if k == 13 { SameBinding(a1, a2, "Conclusion"); }
    else { SameBinding(a1, a2, "references"); }
  }

  /** A section whose key is missing from the article contributes nothing. */
  lemma LegacyAbsentKeySkipsSection(article: Article, k: nat)
    requires k < 15 && !HasKey(article, LegacyKey(k))
    ensures LegacySection(article, k) == Ok([])
  {
    if k == 0 { Missing(article, "Title"); }
    else if k == 1 { Missing(article, "Subtitle"); }
    else if k == 2 { Missing(article, "Introduction"); }
    else if k == 3 { Missing(article, "Features"); }
    else if k == 4 { Missing(article, "tableOfContents"); }
    else if k == 5 { Missing(article, "paragraphs"); }
    else if k == 6 { Missing(article, "Steps / How-To"); }
    else if k == 7 { Missing(article, "FAQ"); }
    else if k == 8 { Missing(article, "codeSnippets"); }
    else if k == 9 { Missing(article, "notes"); }
    else if k == 10 { Missing(article, "tips"); }
    else if k == 11 { Missing(article, "quotes"); }
    else if k == 12 { Missing(article, "checklist"); }
    else if k == 13 { Missing(article, "Conclusion"); }
    else { Missing(article, "references"); }
  }

  /** The first section that raises decides the outcome. */
  lemma LegacyFirstRaiseWins(article: Article, k: nat)
    requires k < 15 && Prefix(LegacySections(article), k).Ok? && LegacySection(article, k).Err?
    ensures RenderLegacy(article) == Err(LegacySection(article, k).error)
  {
    PrefixErrRest(LegacySections(article), k + 1);
  }
}
