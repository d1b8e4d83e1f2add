/**
 * `create_markdown(article_dict, user_id, job_id)` of the current renderer:
 * twenty-three sections, each read from its own key of the article and
 * appended to one line list in a fixed order, the list joined with "\n".
 * `AppSections` lists what each section contributes, `Render` is the
 * document, and `CreateMarkdown` is the Python function's body, proved to
 * produce exactly `Render`.
 */
module AppMarkdown {
  import opened Wrappers
  import opened PyText
  import opened Json
  import opened MarkdownLines
  import opened MarkdownBlocks
  import opened MarkdownEmit
  import opened AppBlocks
  import opened AppEmit

  /** The article key section `k` reads. */
  function AppKey(k: nat): string
    requires k < 23
  {
    if k == 0 then "title"
    else if k == 1 then "subtitle"
    else if k == 2 then "introduction"
    else if k == 3 then "features"
    else if k == 4 then "table_of_contents"
    else if k == 5 then "paragraphs"
    else if k == 6 then "notes"
    else if k == 7 then "code_snippets"
    else if k == 8 then "quotes"
    else if k == 9 then "checklists"
    else if k == 10 then "faq"
    else if k == 11 then "steps"
    else if k == 12 then "callouts"
    else if k == 13 then "alert_boxes"
    else if k == 14 then "ctas"
    else if k == 15 then "decision_points"
    else if k == 16 then "expandable_sections"
    else if k == 17 then "expected_results"
    else if k == 18 then "glossary"
    else if k == 19 then "process_maps"
    else if k == 20 then "tables"
    else if k == 21 then "conclusion"
    else "references"
  }

  /** The calls section `k` makes on the line list. */
  function AppSection(article: Article, user: string, job: string, k: nat): Ops
    requires k < 23
  {
    if k == 0 then HeadingOps(article, "title", "# ")
    else if k == 1 then HeadingOps(article, "subtitle", "## ")
    else if k == 2 then Ok(IntroOps(article, "introduction"))
    else if k == 3 then Ok(HeadedList(ListField(article, "features"), "## Key Features", "- "))
    else if k == 4 then TocOps(article, "table_of_contents")
    else if k == 5 then Ok(Paras(ListField(article, "paragraphs")))
    else if k == 6 then Ok(NotesSection(ListField(article, "notes"), true))
    else if k == 7 then CodeOps(article, "code_snippets")
    else if k == 8 then QuoteOps(article, "quotes")
    else if k == 9 then Ok(HeadedList(ListField(article, "checklists"), "## Checklist", "- [ ] "))
    else if k == 10 then FaqOps(article, "faq")
    else if k == 11 then StepsOps(article, "steps", StorageUrl(user, job))
    else if k == 12 then Ok(HeadedList(ListField(article, "callouts"), "## Tips", "- "))
    else if k == 13 then AlertOps(article, "alert_boxes")
    else if k == 14 then CtaOps(article, "ctas")
    else if k == 15 then DecisionOps(article, "decision_points")
    else if k == 16 then ExpandableOps(article, "expandable_sections")
    else if k == 17 then ResultOps(article, "expected_results")
    else if k == 18 then GlossaryOps(article, "glossary")
    else if k == 19 then StageOps(article, "process_maps")
    else if k == 20 then TableOps(article, "tables")
    else if k == 21 then Ok(ConclusionOps(article, "conclusion"))
    else RefOps(article, "references")
  }

  /** The sections in document order. */
  function AppSections(article: Article, user: string, job: string): (r: seq<Ops>)
    ensures |r| == 23
  {
    seq(23, k requires 0 <= k < 23 => AppSection(article, user, job, k))
  }

  /** The line list `create_markdown` builds, or the exception it raises. */
  function RenderLines(article: Article, user: string, job: string): Result<seq<string>, FieldError> {
    var ops :- Chain(AppSections(article, user, job));
    Ok(Run([], ops))
  }

  /** `'\n'.join(markdown_lines)`; the UTF-8 encoding into a buffer is not modelled. */
  function Render(article: Article, user: string, job: string): Result<string, FieldError> {
    var lines :- RenderLines(article, user, job);
    Ok(Join("\n", lines))
  }

  method CreateMarkdown(article: Article, user: string, job: string) returns (r: Result<string, FieldError>)
    ensures r == Render(article, user, job)
  {
    var lines: seq<string> := [];
    var err: Option<FieldError>;
    ghost var done: seq<Op> := [];
    PrefixAll(AppSections(article, user, job));
    lines, err, done := EmitOpening(article, user, job, lines, done);
    if err.Some? { return Err(err.value); }
    lines, err, done := EmitReference(article, user, job, lines, done);
    if err.Some? { return Err(err.value); }
    lines, err, done := EmitGuidance(article, user, job, lines, done);
    if err.Some? { return Err(err.value); }
    lines, err, done := EmitClosing(article, user, job, lines, done);
    if err.Some? { return Err(err.value); }
    r := Ok(Join("\n", lines));
  }

  method EmitOpening(article: Article, user: string, job: string, lines: seq<string>, ghost done: seq<Op>)
    returns (next: seq<string>, err: Option<FieldError>, ghost now: seq<Op>)
    requires Prefix(AppSections(article, user, job), 0) == Ok(done) && lines == Run([], done)
    ensures err.None? ==> Prefix(AppSections(article, user, job), 6) == Ok(now) && next == Run([], now)
    ensures err.Some? ==> Chain(AppSections(article, user, job)) == Err(err.value)
  {
    next, err, now := lines, None, done;
    var before: seq<string>;
    before := next;
    next, err := EmitSection(article, user, job, 0, next);
    now := PrefixStep([], AppSections(article, user, job), 0, now, before, next, err);
    if err.Some? { return; }
    before := next;
    next, err := EmitSection(article, user, job, 1, next);
    now := PrefixStep([], AppSections(article, user, job), 1, now, before, next, err);
    if err.Some? { return; }
    before := next;
    next, err := EmitSection(article, user, job, 2, next);
    now := PrefixStep([], AppSections(article, user, job), 2, now, before, next, err);
    if err.Some? { return; }
    before := next;
    next, err := EmitSection(article, user, job, 3, next);
    now := PrefixStep([], AppSections(article, user, job), 3, now, before, next, err);
    if err.Some? { return; }
    before := next;
    next, err := EmitSection(article, user, job, 4, next);
    now := PrefixStep([], AppSections(article, user, job), 4, now, before, next, err);
    if err.Some? { return; }
    before := next;
    next, err := EmitSection(article, user, job, 5, next);
    now := PrefixStep([], AppSections(article, user, job), 5, now, before, next, err);
    if err.Some? { return; }
  }

  method EmitReference(article: Article, user: string, job: string, lines: seq<string>, ghost done: seq<Op>)
    returns (next: seq<string>, err: Option<FieldError>, ghost now: seq<Op>)
    requires Prefix(AppSections(article, user, job), 6) == Ok(done) && lines == Run([], done)
    ensures err.None? ==> Prefix(AppSections(article, user, job), 12) == Ok(now) && next == Run([], now)
    ensures err.Some? ==> Chain(AppSections(article, user, job)) == Err(err.value)
  {
    next, err, now := lines, None, done;
    var before: seq<string>;
    before := next;
    next, err := EmitSection(article, user, job, 6, next);
    now := PrefixStep([], AppSections(article, user, job), 6, now, before, next, err);
    if err.Some? { return; }
    before := next;
    next, err := EmitSection(article, user, job, 7, next);
    now := PrefixStep([], AppSections(article, user, job), 7, now, before, next, err);
    if err.Some? { return; }
    before := next;
    next, err := EmitSection(article, user, job, 8, next);
    now := PrefixStep([], AppSections(article, user, job), 8, now, before, next, err);
    if err.Some? { return; }
    before := next;
    next, err := EmitSection(article, user, job, 9, next);
    now := PrefixStep([], AppSections(article, user, job), 9, now, before, next, err);
    if err.Some? { return; }
    before := next;
    next, err := EmitSection(article, user, job, 10, next);
    now := PrefixStep([], AppSections(article, user, job), 10, now, before, next, err);
    if err.Some? { return; }
    before := next;
    next, err := EmitSection(article, user, job, 11, next);
    now := PrefixStep([], AppSections(article, user, job), 11, now, before, next, err);
    if err.Some? { return; }
  }

  method EmitGuidance(article: Article, user: string, job: string, lines: seq<string>, ghost done: seq<Op>)
    returns (next: seq<string>, err: Option<FieldError>, ghost now: seq<Op>)
    requires Prefix(AppSections(article, user, job), 12) == Ok(done) && lines == Run([], done)
    ensures err.None? ==> Prefix(AppSections(article, user, job), 18) == Ok(now) && next == Run([], now)
    ensures err.Some? ==> Chain(AppSections(article, user, job)) == Err(err.value)
  {
    next, err, now := lines, None, done;
    var before: seq<string>;
    before := next;
    next, err := EmitSection(article, user, job, 12, next);
    now := PrefixStep([], AppSections(article, user, job), 12, now, before, next, err);
    if err.Some? { return; }
    before := next;
    next, err := EmitSection(article, user, job, 13, next);
    now := PrefixStep([], AppSections(article, user, job), 13, now, before, next, err);
    if err.Some? { return; }
    before := next;
    next, err := EmitSection(article, user, job, 14, next);
    now := PrefixStep([], AppSections(article, user, job), 14, now, before, next, err);
    if err.Some? { return; }
    before := next;
    next, err := EmitSection(article, user, job, 15, next);
    now := PrefixStep([], AppSections(article, user, job), 15, now, before, next, err);
    if err.Some? { return; }
    before := next;
    next, err := EmitSection(article, user, job, 16, next);
    now := PrefixStep([], AppSections(article, user, job), 16, now, before, next, err);
    if err.Some? { return; }
    before := next;
    next, err := EmitSection(article, user, job, 17, next);
    now := PrefixStep([], AppSections(article, user, job), 17, now, before, next, err);
    if err.Some? { return; }
  }

  method EmitClosing(article: Article, user: string, job: string, lines: seq<string>, ghost done: seq<Op>)
    returns (next: seq<string>, err: Option<FieldError>, ghost now: seq<Op>)
    requires Prefix(AppSections(article, user, job), 18) == Ok(done) && lines == Run([], done)
    ensures err.None? ==> Prefix(AppSections(article, user, job), 23) == Ok(now) && next == Run([], now)
    ensures err.Some? ==> Chain(AppSections(article, user, job)) == Err(err.value)
  {
    next, err, now := lines, None, done;
    var before: seq<string>;
    before := next;
    next, err := EmitSection(article, user, job, 18, next);
    now := PrefixStep([], AppSections(article, user, job), 18, now, before, next, err);
    if err.Some? { return; }
    before := next;
    next, err := EmitSection(article, user, job, 19, next);
    now := PrefixStep([], AppSections(article, user, job), 19, now, before, next, err);
    if err.Some? { return; }
    before := next;
    next, err := EmitSection(article, user, job, 20, next);
    now := PrefixStep([], AppSections(article, user, job), 20, now, before, next, err);
    if err.Some? { return; }
    before := next;
    next, err := EmitSection(article, user, job, 21, next);
    now := PrefixStep([], AppSections(article, user, job), 21, now, before, next, err);
    if err.Some? { return; }
    before := next;
    next, err := EmitSection(article, user, job, 22, next);
    now := PrefixStep([], AppSections(article, user, job), 22, now, before, next, err);
    if err.Some? { return; }
  }

  method EmitSection(article: Article, user: string, job: string, k: nat, lines: seq<string>)
    returns (next: seq<string>, err: Option<FieldError>)
    requires k < 23
    ensures Performed(next, lines, AppSection(article, user, job, k), err)
  {
    err := None;
    if k == 0 {
      next, err := EmitHeading(lines, article, "title", "# ");
    } else if k == 1 {
      next, err := EmitHeading(lines, article, "subtitle", "## ");
    } else if k == 2 {
      next := EmitIntro(lines, article, "introduction");
    } else if k == 3 {
      next := EmitHeadedList(lines, ListField(article, "features"), "## Key Features", "- ");
    } else if k == 4 {
      next, err := EmitToc(lines, article, "table_of_contents");
    } else if k == 5 {
      next := EmitParas(lines, ListField(article, "paragraphs"));
    } else if k == 6 {
      next := EmitNotes(lines, ListField(article, "notes"), true);
    } else if k == 7 {
      next, err := EmitCode(lines, article, "code_snippets");
    } else if k == 8 {
      next, err := EmitQuotes(lines, article, "quotes");
    } else if k == 9 {
      next := EmitHeadedList(lines, ListField(article, "checklists"), "## Checklist", "- [ ] ");
    } else if k == 10 {
      next, err := EmitFaq(lines, article, "faq");
    } else if k == 11 {
      next, err := EmitSteps(lines, article, "steps", StorageUrl(user, job));
    } else if k == 12 {
      next := EmitHeadedList(lines, ListField(article, "callouts"), "## Tips", "- ");
    } else if k == 13 {
      next, err := EmitAlerts(lines, article, "alert_boxes");
    } else if k == 14 {
      next, err := EmitCtas(lines, article, "ctas");
    } else if k == 15 {
      next, err := EmitDecisions(lines, article, "decision_points");
    } else if k == 16 {
      next, err := EmitExpandables(lines, article, "expandable_sections");
    } else if k == 17 {
      next, err := EmitResults(lines, article, "expected_results");
    } else if k == 18 {
      next, err := EmitGlossary(lines, article, "glossary");
    } else if k == 19 {
      next, err := EmitStages(lines, article, "process_maps");
    } else if k == 20 {
      next, err := EmitTables(lines, article, "tables");
    } else if k == 21 {
      next := EmitConclusion(lines, article, "conclusion");
    } else {
      next, err := EmitRefs(lines, article, "references");
    }
  }

  // ---------------------------------------------------------------------------
  // Properties of the document

  /** Every section appends only non-empty lines and starts with an `append`. */
  lemma AppSectionFormed(article: Article, user: string, job: string, k: nat)
    requires k < 23
    ensures Formed(AppSection(article, user, job, k))
  {
    if k == 0 { HeadingFormed(article, "title", "# "); }
    else if k == 1 { HeadingFormed(article, "subtitle", "## "); }
    else if k == 2 { IntroFormed(article, "introduction"); }
    else if k == 3 { HeadedListFormed(ListField(article, "features"), "## Key Features", "- "); }
    else if k == 4 { TocFormed(article, "table_of_contents"); }
    else if k == 5 { ParasFormed(ListField(article, "paragraphs")); }
    else if k == 6 { NotesFormed(ListField(article, "notes"), true); }
    else if k == 7 { CodeFormed(article, "code_snippets"); }
    else if k == 8 { QuoteFormed(article, "quotes"); }
    else if k == 9 { HeadedListFormed(ListField(article, "checklists"), "## Checklist", "- [ ] "); }
    else if k == 10 { FaqFormed(article, "faq"); }
    else if k == 11 { StepsFormed(article, "steps", StorageUrl(user, job)); }
    else if k == 12 { HeadedListFormed(ListField(article, "callouts"), "## Tips", "- "); }
    else if k == 13 { AlertFormed(article, "alert_boxes"); }
    else if k == 14 { CtaFormed(article, "ctas"); }
    else if k == 15 { DecisionFormed(article, "decision_points"); }
    else if k == 16 { ExpandableFormed(article, "expandable_sections"); }
    else if k == 17 { ResultFormed(article, "expected_results"); }
    else if k == 18 { GlossaryFormed(article, "glossary"); }
    else if k == 19 { StageFormed(article, "process_maps"); }
    else if k == 20 { TableFormed(article, "tables"); }
    else if k == 21 { ConclusionFormed(article, "conclusion"); }
    else { RefFormed(article, "references"); }
  }

  lemma AllSectionsFormed(article: Article, user: string, job: string)
    ensures forall k :: 0 <= k < 23 ==> Formed(AppSections(article, user, job)[k])
  {
    forall k | 0 <= k < 23 ensures Formed(AppSections(article, user, job)[k]) {
      AppSectionFormed(article, user, job, k);
    }
  }

  /**
   * The document never starts with an empty line and never holds two empty
   * lines in a row, whatever the article holds.
   */
  lemma RenderWellSpaced(article: Article, user: string, job: string)
    ensures RenderLines(article, user, job).Ok? ==> WellSpaced(RenderLines(article, user, job).value)
  {
    var parts := AppSections(article, user, job);
    AllSectionsFormed(article, user, job);
    ChainNonEmpty(parts);
    if Chain(parts).Ok? {
      RunKeepsWellSpaced([], Chain(parts).value);
    }
  }

  /**
   * The document is its sections, each rendered on its own, concatenated in
   * the fixed order: no section sees or changes what an earlier one wrote.
   */
  lemma RenderIsSectionsInOrder(article: Article, user: string, job: string)
    ensures RenderLines(article, user, job).Ok? ==> RenderLines(article, user, job).value == Standalone(AppSections(article, user, job))
  {
    var parts := AppSections(article, user, job);
    AllSectionsFormed(article, user, job);
    if Chain(parts).Ok? {
      ChainRunsApart(parts);
    }
  }

  /** Section `k` depends on the article only through the value bound to its key. */
  lemma SectionReadsItsKey(a1: Article, a2: Article, user: string, job: string, k: nat)
    requires k < 23 && Get(a1, AppKey(k)) == Get(a2, AppKey(k))
    ensures AppSection(a1, user, job, k) == AppSection(a2, user, job, k)
  {
    if k < 6 { SectionReadsItsKeyInOpening(a1, a2, user, job, k); }
    else if k < 12 { SectionReadsItsKeyInReference(a1, a2, user, job, k); }
    else if k < 18 { SectionReadsItsKeyInGuidance(a1, a2, user, job, k); }
    else { SectionReadsItsKeyInClosing(a1, a2, user, job, k); }
  }

  /** `SectionReadsItsKey` for the sections 0 to 5. */
  lemma SectionReadsItsKeyInOpening(a1: Article, a2: Article, user: string, job: string, k: nat)
    requires k < 6 && Get(a1, AppKey(k)) == Get(a2, AppKey(k))
    ensures AppSection(a1, user, job, k) == AppSection(a2, user, job, k)
  {
    if k == 0 { SameBinding(a1, a2, "title"); }
    else if k == 1 { SameBinding(a1, a2, "subtitle"); }
    else if k == 2 { SameBinding(a1, a2, "introduction"); }
    else if k == 3 { SameBinding(a1, a2, "features"); }
    else if k == 4 { SameBinding(a1, a2, "table_of_contents"); }
    else { SameBinding(a1, a2, "paragraphs"); }
  }

  /** `SectionReadsItsKey` for the sections 6 to 11. */
  lemma SectionReadsItsKeyInReference(a1: Article, a2: Article, user: string, job: string, k: nat)
    requires 6 <= k < 12 && Get(a1, AppKey(k)) == Get(a2, AppKey(k))
    ensures AppSection(a1, user, job, k) == AppSection(a2, user, job, k)
  {
    if k == 6 { SameBinding(a1, a2, "notes"); }
    else if k == 7 { SameBinding(a1, a2, "code_snippets"); }
    else if k == 8 { SameBinding(a1, a2, "quotes"); }
    else if k == 9 { SameBinding(a1, a2, "checklists"); }
    else if k == 10 { SameBinding(a1, a2, "faq"); }
    else { SameBinding(a1, a2, "steps"); }
  }

  /** `SectionReadsItsKey` for the sections 12 to 17. */
  lemma SectionReadsItsKeyInGuidance(a1: Article, a2: Article, user: string, job: string, k: nat)
    requires 12 <= k < 18 && Get(a1, AppKey(k)) == Get(a2, AppKey(k))
    ensures AppSection(a1, user, job, k) == AppSection(a2, user, job, k)
  {
    if k == 12 { SameBinding(a1, a2, "callouts"); }
    else if k == 13 { SameBinding(a1, a2, "alert_boxes"); }
    else if k == 14 { SameBinding(a1, a2, "ctas"); }
    else if k == 15 { SameBinding(a1, a2, "decision_points"); }
    else if k == 16 { SameBinding(a1, a2, "expandable_sections"); }
    else { SameBinding(a1, a2, "expected_results"); }
  }

  /** `SectionReadsItsKey` for the sections 18 to 22. */
  lemma SectionReadsItsKeyInClosing(a1: Article, a2: Article, user: string, job: string, k: nat)
    requires 18 <= k < 23 && Get(a1, AppKey(k)) == Get(a2, AppKey(k))
    ensures AppSection(a1, user, job, k) == AppSection(a2, user, job, k)
  {
    if k == 18 { SameBinding(a1, a2, "glossary"); }
    else if k == 19 { SameBinding(a1, a2, "process_maps"); }
    else if k == 20 { SameBinding(a1, a2, "tables"); }
    else if k == 21 { SameBinding(a1, a2, "conclusion"); }
    else { SameBinding(a1, a2, "references"); }
  }


  /** A section whose key is missing from the article contributes nothing. */
  lemma AbsentKeySkipsSection(article: Article, user: string, job: string, k: nat)
    requires k < 23 && !HasKey(article, AppKey(k))
    ensures AppSection(article, user, job, k) == Ok([])
  {
    if k < 6 { AbsentKeySkipsSectionInOpening(article, user, job, k); }
    else if k < 12 { AbsentKeySkipsSectionInReference(article, user, job, k); }
    else if k < 18 { AbsentKeySkipsSectionInGuidance(article, user, job, k); }
    else { AbsentKeySkipsSectionInClosing(article, user, job, k); }
  }

  /** `AbsentKeySkipsSection` for the sections 0 to 5. */
  lemma AbsentKeySkipsSectionInOpening(article: Article, user: string, job: string, k: nat)
    requires k < 6 && !HasKey(article, AppKey(k))
    ensures AppSection(article, user, job, k) == Ok([])
  {
    if k == 0 { Missing(article, "title"); }
    else if k == 1 { Missing(article, "subtitle"); }
    else if k == 2 { Missing(article, "introduction"); }
    else if k == 3 { Missing(article, "features"); }
    else if k == 4 { Missing(article, "table_of_contents"); }
    else { Missing(article, "paragraphs"); }
  }

  /** `AbsentKeySkipsSection` for the sections 6 to 11. */
  lemma AbsentKeySkipsSectionInReference(article: Article, user: string, job: string, k: nat)
    requires 6 <= k < 12 && !HasKey(article, AppKey(k))
    ensures AppSection(article, user, job, k) == Ok([])
  {
    if k == 6 { Missing(article, "notes"); }
    else if k == 7 { Missing(article, "code_snippets"); }
    else if k == 8 { Missing(article, "quotes"); }
    else if k == 9 { Missing(article, "checklists"); }
    else if k == 10 { Missing(article, "faq"); }
    else { Missing(article, "steps"); }
  }

  /** `AbsentKeySkipsSection` for the sections 12 to 17. */
  lemma AbsentKeySkipsSectionInGuidance(article: Article, user: string, job: string, k: nat)
    requires 12 <= k < 18 && !HasKey(article, AppKey(k))
    ensures AppSection(article, user, job, k) == Ok([])
  {
    if k == 12 { Missing(article, "callouts"); }
    else if k == 13 { Missing(article, "alert_boxes"); }
    else if k == 14 { Missing(article, "ctas"); }
    else if k == 15 { Missing(article, "decision_points"); }
    else if k == 16 { Missing(article, "expandable_sections"); }
    else { Missing(article, "expected_results"); }
  }

  /** `AbsentKeySkipsSection` for the sections 18 to 22. */
  lemma AbsentKeySkipsSectionInClosing(article: Article, user: string, job: string, k: nat)
    requires 18 <= k < 23 && !HasKey(article, AppKey(k))
    ensures AppSection(article, user, job, k) == Ok([])
  {
    if k == 18 { Missing(article, "glossary"); }
    else if k == 19 { Missing(article, "process_maps"); }
    else if k == 20 { Missing(article, "tables"); }
    else if k == 21 { Missing(article, "conclusion"); }
    else { Missing(article, "references"); }
  }


  /**
   * The first section that raises decides the outcome: the sections after it
   * never run, and `create_markdown` raises that section's exception.
   */
  lemma FirstRaiseWins(article: Article, user: string, job: string, k: nat)
    requires k < 23 && Prefix(AppSections(article, user, job), k).Ok? && AppSection(article, user, job, k).Err?
    ensures Render(article, user, job) == Err(AppSection(article, user, job, k).error)
  {
    PrefixErrRest(AppSections(article, user, job), k + 1);
  }

  /** A title that is present but not a string makes the whole call raise. */
  lemma TitleMustBeString(article: Article, user: string, job: string)
    requires Get(article, "title").Some? && !Get(article, "title").value.Str?
    ensures Render(article, user, job) == Err(NotAString("title"))
  {
    StrFieldSpec(article, "title", "");
    FirstRaiseWins(article, user, job, 0);
  }
}
