/**
 * The loops of the shared sections, written as the Python code writes them:
 * each method takes the line list built so far, makes the section's
 * `append` and `add_empty_line` calls on it and returns the result, and is
 * proved to return the list its section function describes, or to stop with
 * the exception that function names.
 */
module MarkdownEmit {
  import opened Wrappers
  import opened PyText
  import opened Json
  import opened MarkdownLines
  import opened MarkdownBlocks

  /** `append(text)` followed by `add_empty_line()`. */
  method EmitLineAndBlank(lines: seq<string>, text: string) returns (out: seq<string>)
    ensures out == Run(lines, [Line(text), Blank])
  {
    ghost var done: seq<Op> := [];
    out, done := Append(lines, text, lines, done);
    out, done := AddEmpty(out, lines, done);
    assert done == [Line(text), Blank];
  }

  /** `append(text)` alone. */
  method EmitLine(lines: seq<string>, text: string) returns (out: seq<string>)
    ensures out == Run(lines, [Line(text)])
  {
    ghost var done: seq<Op> := [];
    out, done := Append(lines, text, lines, done);
    assert done == [Line(text)];
  }

  /** A heading read with `.get(key, '').strip()`, shown with its marker when non-blank. */
  method EmitHeading(lines: seq<string>, article: Article, key: string, marker: string)
    returns (out: seq<string>, err: Option<FieldError>)
    ensures Performed(out, lines, HeadingOps(article, key, marker), err)
  {
    out, err := lines, None;
    var t := StrField(article, key, "");
    if t.Err? {
      err := Some(t.error);
      return;
    }
    if t.value != [] {
      out := EmitLineAndBlank(lines, marker + t.value);
    }
  }

  method EmitPara(lines: seq<string>, x: Json) returns (out: seq<string>)
    ensures out == Run(lines, ParaItem(x))
  {
    out := lines;
    if x.Str? && NonBlank(x.s) {
      out := EmitLineAndBlank(lines, Strip(x.s));
    }
  }

  method EmitParas(lines: seq<string>, items: seq<Json>) returns (out: seq<string>)
    ensures out == Run(lines, Paras(items))
  {
    out := lines;
    var i := 0;
    while i < |items|
      invariant 0 <= i <= |items| && out == Run(lines, Paras(items[..i]))
    {
      assert items[..i + 1][..i] == items[..i];
      var next := EmitPara(out, items[i]);
      RunAppend(lines, Paras(items[..i]), ParaItem(items[i]));
      out := next;
      i := i + 1;
    }
    assert items[..i] == items;
  }

  method EmitBullet(lines: seq<string>, x: Json, prefix: string) returns (out: seq<string>)
    ensures out == Run(lines, BulletItem(x, prefix))
  {
    out := lines;
    if x.Str? && NonBlank(x.s) {
      out := EmitLine(lines, prefix + Strip(x.s));
    }
  }

  method EmitBullets(lines: seq<string>, items: seq<Json>, prefix: string) returns (out: seq<string>)
    ensures out == Run(lines, Bullets(items, prefix))
  {
    out := lines;
    var i := 0;
    while i < |items|
      invariant 0 <= i <= |items| && out == Run(lines, Bullets(items[..i], prefix))
    {
      assert items[..i + 1][..i] == items[..i];
      var next := EmitBullet(out, items[i], prefix);
      RunAppend(lines, Bullets(items[..i], prefix), BulletItem(items[i], prefix));
      out := next;
      i := i + 1;
    }
    assert items[..i] == items;
  }

  method EmitHeadedList(lines: seq<string>, items: seq<Json>, heading: string, prefix: string)
    returns (out: seq<string>)
    ensures out == Run(lines, HeadedList(items, heading, prefix))
  {
    out := lines;
    if items != [] {
      out := EmitLineAndBlank(lines, heading);
      var next := EmitBullets(out, items, prefix);
      ghost var done := [Line(heading), Blank] + Bullets(items, prefix);
      RunAppend(lines, [Line(heading), Blank], Bullets(items, prefix));
      out, done := AddEmpty(next, lines, done);
    }
  }

  method EmitIntro(lines: seq<string>, article: Article, key: string) returns (out: seq<string>)
    ensures out == Run(lines, IntroOps(article, key))
  {
    out := lines;
    var intro := DictField(article, key);
    if intro.Some? {
      var fields := intro.value;
      out := EmitLineAndBlank(lines, "## Introduction");
      ghost var done := [Line("## Introduction"), Blank];
      var next := EmitParas(out, ListField(fields, "paragraphs"));
      RunAppend(lines, done, Paras(ListField(fields, "paragraphs")));
      done, out := done + Paras(ListField(fields, "paragraphs")), next;
      next := EmitHeadedList(out, ListField(fields, "prerequisites"), "### Prerequisites", "- ");
      RunAppend(lines, done, HeadedList(ListField(fields, "prerequisites"), "### Prerequisites", "- "));
      done, out := done + HeadedList(ListField(fields, "prerequisites"), "### Prerequisites", "- "), next;
      next := EmitHeadedList(out, ListField(fields, "outcomes"), "### Learning Outcomes", "- ");
      RunAppend(lines, done, HeadedList(ListField(fields, "outcomes"), "### Learning Outcomes", "- "));
      done, out := done + HeadedList(ListField(fields, "outcomes"), "### Learning Outcomes", "- "), next;
      assert done == IntroOps(article, key);
    }
  }

  method EmitConclusion(lines: seq<string>, article: Article, key: string) returns (out: seq<string>)
    ensures out == Run(lines, ConclusionOps(article, key))
  {
    out := lines;
    var conc := DictField(article, key);
    if conc.Some? {
      var fields := conc.value;
      out := EmitLineAndBlank(lines, "## Conclusion");
      ghost var done := [Line("## Conclusion"), Blank];
      var next := EmitParas(out, ListField(fields, "paragraphs"));
      RunAppend(lines, done, Paras(ListField(fields, "paragraphs")));
      done, out := done + Paras(ListField(fields, "paragraphs")), next;
      next := EmitHeadedList(out, ListField(fields, "nextSteps"), "### Next Steps", "- ");
      RunAppend(lines, done, HeadedList(ListField(fields, "nextSteps"), "### Next Steps", "- "));
      done, out := done + HeadedList(ListField(fields, "nextSteps"), "### Next Steps", "- "), next;
      assert done == ConclusionOps(article, key);
    }
  }

  method EmitNote(lines: seq<string>, x: Json, every: bool) returns (out: seq<string>)
    ensures out == Run(lines, NoteItem(x, every))
  {
    out := lines;
    if x.Str? && NonBlank(x.s) {
      out := EmitLineAndBlank(lines, "> " + Strip(x.s));
    } else if every {
      ghost var done: seq<Op> := [];
      out, done := AddEmpty(lines, lines, done);
      assert done == [Blank];
    }
  }

  method EmitNoteItems(lines: seq<string>, items: seq<Json>, every: bool) returns (out: seq<string>)
    ensures out == Run(lines, Notes(items, every))
  {
    out := lines;
    var i := 0;
    while i < |items|
      invariant 0 <= i <= |items| && out == Run(lines, Notes(items[..i], every))
    {
      assert items[..i + 1][..i] == items[..i];
      var next := EmitNote(out, items[i], every);
      RunAppend(lines, Notes(items[..i], every), NoteItem(items[i], every));
      out := next;
      i := i + 1;
    }
    assert items[..i] == items;
  }

  /** The notes section; `every` selects whether `add_empty_line()` follows skipped notes too. */
  method EmitNotes(lines: seq<string>, items: seq<Json>, every: bool) returns (out: seq<string>)
    ensures out == Run(lines, NotesSection(items, every))
  {
    out := lines;
    if items != [] {
      var mid := EmitLineAndBlank(lines, "## Notes");
      out := EmitNoteItems(mid, items, every);
      RunAppend(lines, [Line("## Notes"), Blank], Notes(items, every));
    }
  }

  method EmitTocItem(lines: seq<string>, x: Json) returns (out: seq<string>, err: Option<FieldError>)
    ensures Performed(out, lines, TocItem(x), err)
  {
    out, err := lines, None;
    if !x.Obj? {
      return;
    }
    var text := StrField(x.fields, "text", "");
    if text.Err? {
      err := Some(text.error);
      return;
    }
    if text.value != [] {
      out := EmitLine(lines, "- " + text.value);
    }
  }

  method EmitCodeItem(lines: seq<string>, x: Json) returns (out: seq<string>, err: Option<FieldError>)
    ensures Performed(out, lines, CodeItem(x), err)
  {
    out, err := lines, None;
    if !x.Obj? {
      return;
    }
    var content := StrField(x.fields, "content", "");
    if content.Err? {
      err := Some(content.error);
      return;
    }
    var language := StrField(x.fields, "language", "plaintext");
    if language.Err? {
      err := Some(language.error);
      return;
    }
    var caption := StrField(x.fields, "caption", "");
    if caption.Err? {
      err := Some(caption.error);
      return;
    }
    if content.value != [] {
      out := EmitSnippet(lines, content.value, language.value, caption.value);
    }
  }

  /** The lines of one snippet whose content is non-blank. */
  method EmitSnippet(lines: seq<string>, content: string, language: string, caption: string)
    returns (out: seq<string>)
    ensures out == Run(lines, SnippetLines(content, language, caption))
  {
    out := lines;
    ghost var done: seq<Op> := [];
    if caption != [] {
      out, done := Append(out, "### " + caption, lines, done);
      out, done := AddEmpty(out, lines, done);
    }
    out, done := Append(out, "*Language: " + language + "*", lines, done);
    out, done := AddEmpty(out, lines, done);
    out, done := Append(out, "```" + language, lines, done);
    out, done := Append(out, content, lines, done);
    out, done := Append(out, "```", lines, done);
    out, done := AddEmpty(out, lines, done);
    assert done == SnippetLines(content, language, caption);
  }

  method EmitQuoteItem(lines: seq<string>, x: Json) returns (out: seq<string>, err: Option<FieldError>)
    ensures Performed(out, lines, QuoteItem(x), err)
  {
    out, err := lines, None;
    if !x.Obj? {
      return;
    }
    var text := StrField(x.fields, "text", "");
    if text.Err? {
      err := Some(text.error);
      return;
    }
    var attribution := StrField(x.fields, "attribution", "");
    if attribution.Err? {
      err := Some(attribution.error);
      return;
    }
    if text.value != [] {
      ghost var done: seq<Op> := [];
      out, done := Append(out, "> " + text.value, lines, done);
      if attribution.value != [] {
        out, done := Append(out, "> \U{2014} " + attribution.value, lines, done);
      }
      out, done := AddEmpty(out, lines, done);
      assert done == QuoteItem(x).value;
    }
  }

  method EmitFaqItem(lines: seq<string>, x: Json) returns (out: seq<string>, err: Option<FieldError>)
    ensures Performed(out, lines, FaqItem(x), err)
  {
    out, err := lines, None;
    if !x.Obj? {
      return;
    }
    var question := StrField(x.fields, "question", "");
    if question.Err? {
      err := Some(question.error);
      return;
    }
    var answer := StrField(x.fields, "answer", "");
    if answer.Err? {
      err := Some(answer.error);
      return;
    }
    if question.value != [] && answer.value != [] {
      ghost var done: seq<Op> := [];
      out, done := Append(out, "**Q:** " + question.value, lines, done);
      out, done := Append(out, "**A:** " + answer.value, lines, done);
      out, done := AddEmpty(out, lines, done);
      assert done == FaqItem(x).value;
    }
  }

  method EmitRefItem(lines: seq<string>, x: Json) returns (out: seq<string>, err: Option<FieldError>)
    ensures Performed(out, lines, RefItem(x), err)
  {
    out, err := lines, None;
    if !x.Obj? {
      return;
    }
    var text := StrField(x.fields, "text", "");
    if text.Err? {
      err := Some(text.error);
      return;
    }
    var href := StrField(x.fields, "href", "");
    if href.Err? {
      err := Some(href.error);
      return;
    }
    var annotation := StrField(x.fields, "annotation", "");
    if annotation.Err? {
      err := Some(annotation.error);
      return;
    }
    if text.value != [] && href.value != [] {
      var refText := "- [" + text.value + "](" + href.value + ")";
      if annotation.value != [] {
        refText := refText + " (" + annotation.value + ")";
      }
      out := EmitLine(lines, refText);
    } else if text.value != [] {
      out := EmitLine(lines, "- " + text.value);
    }
  }

  /** The loop over the table-of-contents entries, stopping at the first exception. */
  method EmitTocItems(lines: seq<string>, items: seq<Json>) returns (out: seq<string>, err: Option<FieldError>)
    ensures Performed(out, lines, Each(items, TocItem), err)
  {
    out, err := lines, None;
    var i := 0;
    while i < |items|
      invariant 0 <= i <= |items| && err == None
      invariant EachUpTo(items, TocItem, i).Ok? && out == Run(lines, EachUpTo(items, TocItem, i).value)
    {
      ghost var prev := out;
      out, err := EmitTocItem(out, items[i]);
      EachStep(lines, items, TocItem, i, prev, out, err);
      if err.Some? {
        return;
      }
      i := i + 1;
    }
  }

  method EmitToc(lines: seq<string>, article: Article, key: string) returns (out: seq<string>, err: Option<FieldError>)
    ensures Performed(out, lines, TocOps(article, key), err)
  {
    out, err := lines, None;
    var items := ListField(article, key);
    if items == [] {
      return;
    }
    var mid := EmitLineAndBlank(lines, "## Table of Contents");
    out, err := EmitTocItems(mid, items);
    PerformedAfter(lines, [Line("## Table of Contents"), Blank], mid, Each(items, TocItem), out, err);
    if err.None? {
      ghost var done := [Line("## Table of Contents"), Blank] + Each(items, TocItem).value;
      out, done := AddEmpty(out, lines, done);
    }
  }

  /** The loop over the code snippets, stopping at the first exception. */
  method EmitCodeItems(lines: seq<string>, items: seq<Json>) returns (out: seq<string>, err: Option<FieldError>)
    ensures Performed(out, lines, Each(items, CodeItem), err)
  {
    out, err := lines, None;
    var i := 0;
    while i < |items|
      invariant 0 <= i <= |items| && err == None
      invariant EachUpTo(items, CodeItem, i).Ok? && out == Run(lines, EachUpTo(items, CodeItem, i).value)
    {
      ghost var prev := out;
      out, err := EmitCodeItem(out, items[i]);
      EachStep(lines, items, CodeItem, i, prev, out, err);
      if err.Some? {
        return;
      }
      i := i + 1;
    }
  }

  method EmitCode(lines: seq<string>, article: Article, key: string) returns (out: seq<string>, err: Option<FieldError>)
    ensures Performed(out, lines, CodeOps(article, key), err)
  {
    out, err := lines, None;
    var items := ListField(article, key);
    if items == [] {
      return;
    }
    var mid := EmitLineAndBlank(lines, "## Code Snippets");
    out, err := EmitCodeItems(mid, items);
    PerformedAfter(lines, [Line("## Code Snippets"), Blank], mid, Each(items, CodeItem), out, err);
  }

  /** The loop over the quotes, stopping at the first exception. */
  method EmitQuoteItems(lines: seq<string>, items: seq<Json>) returns (out: seq<string>, err: Option<FieldError>)
    ensures Performed(out, lines, Each(items, QuoteItem), err)
  {
    out, err := lines, None;
    var i := 0;
    while i < |items|
      invariant 0 <= i <= |items| && err == None
      invariant EachUpTo(items, QuoteItem, i).Ok? && out == Run(lines, EachUpTo(items, QuoteItem, i).value)
    {
      ghost var prev := out;
      out, err := EmitQuoteItem(out, items[i]);
      EachStep(lines, items, QuoteItem, i, prev, out, err);
      if err.Some? {
        return;
      }
      i := i + 1;
    }
  }

  method EmitQuotes(lines: seq<string>, article: Article, key: string) returns (out: seq<string>, err: Option<FieldError>)
    ensures Performed(out, lines, QuoteOps(article, key), err)
  {
    out, err := lines, None;
    var items := ListField(article, key);
    if items == [] {
      return;
    }
    var mid := EmitLineAndBlank(lines, "## Quotes");
    out, err := EmitQuoteItems(mid, items);
    PerformedAfter(lines, [Line("## Quotes"), Blank], mid, Each(items, QuoteItem), out, err);
  }

  /** The loop over the FAQ entries, stopping at the first exception. */
  method EmitFaqItems(lines: seq<string>, items: seq<Json>) returns (out: seq<string>, err: Option<FieldError>)
    ensures Performed(out, lines, Each(items, FaqItem), err)
  {
    out, err := lines, None;
    var i := 0;
    while i < |items|
      invariant 0 <= i <= |items| && err == None
      invariant EachUpTo(items, FaqItem, i).Ok? && out == Run(lines, EachUpTo(items, FaqItem, i).value)
    {
      ghost var prev := out;
      out, err := EmitFaqItem(out, items[i]);
      EachStep(lines, items, FaqItem, i, prev, out, err);
      if err.Some? {
        return;
      }
      i := i + 1;
    }
  }

  method EmitFaq(lines: seq<string>, article: Article, key: string) returns (out: seq<string>, err: Option<FieldError>)
    ensures Performed(out, lines, FaqOps(article, key), err)
  {
    out, err := lines, None;
    var items := ListField(article, key);
    if items == [] {
      return;
    }
    var mid := EmitLineAndBlank(lines, "## Frequently Asked Questions (FAQ)");
    out, err := EmitFaqItems(mid, items);
    PerformedAfter(lines, [Line("## Frequently Asked Questions (FAQ)"), Blank], mid, Each(items, FaqItem), out, err);
  }

  /** The loop over the references, stopping at the first exception. */
  method EmitRefItems(lines: seq<string>, items: seq<Json>) returns (out: seq<string>, err: Option<FieldError>)
    ensures Performed(out, lines, Each(items, RefItem), err)
  {
    out, err := lines, None;
    var i := 0;
    while i < |items|
      invariant 0 <= i <= |items| && err == None
      invariant EachUpTo(items, RefItem, i).Ok? && out == Run(lines, EachUpTo(items, RefItem, i).value)
    {
      ghost var prev := out;
      out, err := EmitRefItem(out, items[i]);
      EachStep(lines, items, RefItem, i, prev, out, err);
      if err.Some? {
        return;
      }
      i := i + 1;
    }
  }

  method EmitRefs(lines: seq<string>, article: Article, key: string) returns (out: seq<string>, err: Option<FieldError>)
    ensures Performed(out, lines, RefOps(article, key), err)
  {
    out, err := lines, None;
    var items := ListField(article, key);
    if items == [] {
      return;
    }
    var mid := EmitLineAndBlank(lines, "## References");
    out, err := EmitRefItems(mid, items);
    PerformedAfter(lines, [Line("## References"), Blank], mid, Each(items, RefItem), out, err);
    if err.None? {
      ghost var done := [Line("## References"), Blank] + Each(items, RefItem).value;
      out, done := AddEmpty(out, lines, done);
    }
  }

  method EmitStepItem(lines: seq<string>, style: ShotStyle, n: nat, x: Json)
    returns (out: seq<string>, err: Option<FieldError>)
    ensures Performed(out, lines, StepItem(style, n, x), err)
  {
    out, err := lines, None;
    if !x.Obj? {
      return;
    }
    var step := StrField(x.fields, "step", "");
    if step.Err? {
      err := Some(step.error);
      return;
    }
    var explanation := StrField(x.fields, "explanation", "");
    if explanation.Err? {
      err := Some(explanation.error);
      return;
    }
    var shot := StrField(x.fields, "screenshotRef", "");
    if shot.Err? {
      err := Some(shot.error);
      return;
    }
    out := EmitStepLines(lines, style, n, step.value, explanation.value, shot.value);
  }

  /** `if shown: append(text); add_empty_line()`. */
  method EmitShown(lines: seq<string>, shown: bool, text: string) returns (out: seq<string>)
    ensures out == Run(lines, Shown(shown, text))
  {
    out := lines;
    if shown {
      out := EmitLineAndBlank(lines, text);
    }
  }

  method EmitStepLines(lines: seq<string>, style: ShotStyle, n: nat, step: string, explanation: string, shot: string)
    returns (out: seq<string>)
    ensures out == Run(lines, StepLines(style, n, step, explanation, shot))
  {
    var first := Shown(step != [], "**Step " + NatToString(n) + ":** " + step);
    var second := Shown(explanation != [], explanation);
    var third := Shown(shot != [], ShotLine(style, n, explanation, shot));
    out := EmitShown(lines, step != [], "**Step " + NatToString(n) + ":** " + step);
    out := EmitShown(out, explanation != [], explanation);
    RunAppend(lines, first, second);
    out := EmitShown(out, shot != [], ShotLine(style, n, explanation, shot));
    RunAppend(lines, first + second, third);
  }

  /** One turn of the numbered loop: step `i + 1` on the item at index `i`. */
  method EmitNumberedStep(lines: seq<string>, items: seq<Json>, style: ShotStyle, i: nat, out: seq<string>)
    returns (next: seq<string>, err: Option<FieldError>)
    requires i < |items| && EnumerateUpTo(items, StepAt(style), i).Ok?
    requires out == Run(lines, EnumerateUpTo(items, StepAt(style), i).value)
    ensures err.None? ==>
      EnumerateUpTo(items, StepAt(style), i + 1).Ok? && next == Run(lines, EnumerateUpTo(items, StepAt(style), i + 1).value)
    ensures err.Some? ==> Performed(next, lines, Steps(items, style), err)
  {
    next, err := EmitStepItem(out, style, i + 1, items[i]);
    EnumerateStep(lines, items, StepAt(style), i, out, next, err);
  }

  /** The numbered loop over the steps, stopping at the first exception. */
  method EmitStepItems(lines: seq<string>, items: seq<Json>, style: ShotStyle)
    returns (out: seq<string>, err: Option<FieldError>)
    ensures Performed(out, lines, Steps(items, style), err)
  {
    out, err := lines, None;
    var i := 0;
    while i < |items|
      invariant 0 <= i <= |items| && err == None
      invariant EnumerateUpTo(items, StepAt(style), i).Ok? && out == Run(lines, EnumerateUpTo(items, StepAt(style), i).value)
    {
      out, err := EmitNumberedStep(lines, items, style, i, out);
      if err.Some? {
        return;
      }
      i := i + 1;
    }
  }

  method EmitSteps(lines: seq<string>, article: Article, key: string, style: ShotStyle)
    returns (out: seq<string>, err: Option<FieldError>)
    ensures Performed(out, lines, StepsOps(article, key, style), err)
  {
    out, err := lines, None;
    var items := ListField(article, key);
    if items == [] {
      return;
    }
    var mid := EmitLineAndBlank(lines, "## Procedure / Steps");
    out, err := EmitStepItems(mid, items, style);
    PerformedAfter(lines, [Line("## Procedure / Steps"), Blank], mid, Steps(items, style), out, err);
  }
}
