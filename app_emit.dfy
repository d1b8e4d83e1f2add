/**
 * The loops of the sections only the current renderer has, on the line list
 * built so far, each proved to make exactly the calls its section function
 * describes or to stop with the exception it names.
 */
module AppEmit {
  import opened Wrappers
  import opened PyText
  import opened Json
  import opened MarkdownLines
  import opened MarkdownBlocks
  import opened MarkdownEmit
  import opened AppBlocks

  method EmitAlertItem(lines: seq<string>, x: Json) returns (out: seq<string>, err: Option<FieldError>)
    ensures Performed(out, lines, AlertItem(x), err)
  {
    out, err := lines, None;
    if !x.Obj? {
      return;
    }
    var style := StrField(x.fields, "style", "Info");
    if style.Err? {
      err := Some(style.error);
      return;
    }
    var content := StrField(x.fields, "content", "");
    if content.Err? {
      err := Some(content.error);
      return;
    }
    out := EmitShown(lines, content.value != [], "> **" + style.value + ":** " + content.value);
  }

  method EmitCtaItem(lines: seq<string>, x: Json) returns (out: seq<string>, err: Option<FieldError>)
    ensures Performed(out, lines, CtaItem(x), err)
  {
    out, err := lines, None;
    if !x.Obj? {
      return;
    }
    var text := StrField(x.fields, "text", "");
    if text.Err? {
      err := Some(text.error);
      return;
    }
    var href := StrField(x.fields, "href", "");
    if href.Err? {
      err := Some(href.error);
      return;
    }
    ghost var done: seq<Op> := [];
    if text.value != [] && href.value != [] {
      out, done := Append(out, "[" + text.value + "](" + href.value + ")", lines, done);
    } else if text.value != [] {
      out, done := Append(out, "- " + text.value, lines, done);
    }
    out, done := AddEmpty(out, lines, done);
    assert done == CtaLines(text.value, href.value);
  }

  /** `if steps and isinstance(steps, list)`: the title line, the bullets, `add_empty_line()`. */
  method EmitBranch(lines: seq<string>, steps: seq<Json>, title: string) returns (out: seq<string>)
    ensures out == Run(lines, Branch(steps, title))
  {
    out := lines;
    if steps != [] {
      var mid := EmitLine(lines, title);
      var next := EmitBullets(mid, steps, "- ");
      RunAppend(lines, [Line(title)], Bullets(steps, "- "));
      ghost var done := [Line(title)] + Bullets(steps, "- ");
      out, done := AddEmpty(next, lines, done);
    }
  }

  method EmitDecisionItem(lines: seq<string>, x: Json) returns (out: seq<string>, err: Option<FieldError>)
    ensures Performed(out, lines, DecisionItem(x), err)
  {
    out, err := lines, None;
    if !x.Obj? {
      return;
    }
    var condition := StrField(x.fields, "if_condition", "");
    if condition.Err? {
      err := Some(condition.error);
      return;
    }
    var thenSteps := ListField(x.fields, "then_steps");
    var elseSteps := ListField(x.fields, "else_steps");
    if condition.value != [] {
      ghost var head := [Line("**If:** " + condition.value), Blank];
      out := EmitLineAndBlank(lines, "**If:** " + condition.value);
      var next := EmitBranch(out, thenSteps, "**Then:**");
      RunAppend(lines, head, Branch(thenSteps, "**Then:**"));
      out := EmitBranch(next, elseSteps, "**Else:**");
      RunAppend(lines, head + Branch(thenSteps, "**Then:**"), Branch(elseSteps, "**Else:**"));
    }
  }

  method EmitContentLines(lines: seq<string>, items: seq<Json>) returns (out: seq<string>)
    ensures out == Run(lines, ContentLines(items))
  {
    out := lines;
    var i := 0;
    while i < |items|
      invariant 0 <= i <= |items| && out == Run(lines, ContentLines(items[..i]))
    {
      assert items[..i + 1][..i] == items[..i];
      ghost var done := ContentLines(items[..i]);
      if items[i].Str? && NonBlank(items[i].s) {
        out, done := Append(out, Strip(items[i].s), lines, done);
      }
      out, done := AddEmpty(out, lines, done);
      assert done == ContentLines(items[..i + 1]);
      i := i + 1;
    }
    assert items[..i] == items;
  }

  method EmitExpandableItem(lines: seq<string>, x: Json) returns (out: seq<string>, err: Option<FieldError>)
    ensures Performed(out, lines, ExpandableItem(x), err)
  {
    out, err := lines, None;
    if !x.Obj? {
      return;
    }
    var title := StrField(x.fields, "title", "");
    if title.Err? {
      err := Some(title.error);
      return;
    }
    var content := ListField(x.fields, "content");
    if title.value != [] && content != [] {
      var mid := EmitLineAndBlank(lines, "### " + title.value);
      out := EmitContentLines(mid, content);
      RunAppend(lines, [Line("### " + title.value), Blank], ContentLines(content));
    }
  }

  method EmitResultItem(lines: seq<string>, x: Json) returns (out: seq<string>, err: Option<FieldError>)
    ensures Performed(out, lines, ResultItem(x), err)
  {
    out, err := lines, None;
    if !x.Obj? {
      return;
    }
    var text := StrField(x.fields, "text", "");
    if text.Err? {
      err := Some(text.error);
      return;
    }
    out := EmitShown(lines, text.value != [], "- " + text.value);
  }

  method EmitGlossaryItem(lines: seq<string>, x: Json) returns (out: seq<string>, err: Option<FieldError>)
    ensures Performed(out, lines, GlossaryItem(x), err)
  {
    out, err := lines, None;
    if !x.Obj? {
      return;
    }
    var term := StrField(x.fields, "term", "");
    if term.Err? {
      err := Some(term.error);
      return;
    }
    var definition := StrField(x.fields, "definition", "");
    if definition.Err? {
      err := Some(definition.error);
      return;
    }
    out := EmitShown(lines, term.value != [] && definition.value != [], "**" + term.value + ":** " + definition.value);
  }

  method EmitStageItem(lines: seq<string>, x: Json) returns (out: seq<string>, err: Option<FieldError>)
    ensures Performed(out, lines, StageItem(x), err)
  {
    out, err := lines, None;
    if !x.Obj? {
      return;
    }
    var stage := StrField(x.fields, "stage", "");
    if stage.Err? {
      err := Some(stage.error);
      return;
    }
    var details := StrField(x.fields, "details", "");
    if details.Err? {
      err := Some(details.error);
      return;
    }
    if stage.value != [] {
      ghost var done: seq<Op> := [];
      out, done := Append(out, "**Stage:** " + stage.value, lines, done);
      if details.value != [] {
        out, done := Append(out, details.value, lines, done);
      }
      out, done := AddEmpty(out, lines, done);
      assert done == StageItem(x).value;
    }
  }

  /** `for row in rows: if isinstance(row, list): append(row_text)`. */
  method EmitRowLines(lines: seq<string>, rows: seq<Json>) returns (out: seq<string>)
    ensures out == Run(lines, RowLines(rows))
  {
    out := lines;
    var i := 0;
    while i < |rows|
      invariant 0 <= i <= |rows| && out == Run(lines, RowLines(rows[..i]))
    {
      assert rows[..i + 1][..i] == rows[..i];
      ghost var done := RowLines(rows[..i]);
      if rows[i].Arr? {
        out, done := Append(out, RowText(StrCells(rows[i].items)), lines, done);
      }
      assert done == RowLines(rows[..i + 1]);
      i := i + 1;
    }
    assert rows[..i] == rows;
  }

  method EmitTableLines(lines: seq<string>, headers: seq<Json>, rows: seq<Json>) returns (out: seq<string>)
    ensures out == Run(lines, TableLines(headers, rows))
  {
    out := lines;
    if headers != [] && rows != [] {
      var headerRow := RowText(StrCells(headers));
      var separator := SeparatorText(|headers|);
      ghost var head := [Line(headerRow), Line(separator)];
      ghost var done: seq<Op> := [];
      out, done := Append(out, headerRow, lines, done);
      out, done := Append(out, separator, lines, done);
      assert done == head;
      var next := EmitRowLines(out, rows);
      RunAppend(lines, head, RowLines(rows));
      out, done := AddEmpty(next, lines, head + RowLines(rows));
      assert TableLines(headers, rows) == head + RowLines(rows) + [Blank];
    }
  }

  method EmitTableItem(lines: seq<string>, x: Json) returns (out: seq<string>, err: Option<FieldError>)
    ensures Performed(out, lines, TableItem(x), err)
  {
    out, err := lines, None;
    if x.Obj? {
      out := EmitTableLines(lines, ListField(x.fields, "headers"), ListField(x.fields, "rows"));
    }
  }

  /** The loop over the alerts, stopping at the first exception. */
  method EmitAlertItems(lines: seq<string>, items: seq<Json>) returns (out: seq<string>, err: Option<FieldError>)
    ensures Performed(out, lines, Each(items, AlertItem), err)
  {
    out, err := lines, None;
    var i := 0;
    while i < |items|
      invariant 0 <= i <= |items| && err == None
      invariant EachUpTo(items, AlertItem, i).Ok? && out == Run(lines, EachUpTo(items, AlertItem, i).value)
    {
      ghost var prev := out;
      out, err := EmitAlertItem(out, items[i]);
      EachStep(lines, items, AlertItem, i, prev, out, err);
      if err.Some? {
        return;
      }
      i := i + 1;
    }
  }

  method EmitAlerts(lines: seq<string>, article: Article, key: string) returns (out: seq<string>, err: Option<FieldError>)
    ensures Performed(out, lines, AlertOps(article, key), err)
  {
    out, err := lines, None;
    var items := ListField(article, key);
    if items == [] {
      return;
    }
    var mid := EmitLineAndBlank(lines, "## Alerts");
    out, err := EmitAlertItems(mid, items);
    PerformedAfter(lines, [Line("## Alerts"), Blank], mid, Each(items, AlertItem), out, err);
  }

  /** The loop over the calls to action, stopping at the first exception. */
  method EmitCtaItems(lines: seq<string>, items: seq<Json>) returns (out: seq<string>, err: Option<FieldError>)
    ensures Performed(out, lines, Each(items, CtaItem), err)
  {
    out, err := lines, None;
    var i := 0;
    while i < |items|
      invariant 0 <= i <= |items| && err == None
      invariant EachUpTo(items, CtaItem, i).Ok? && out == Run(lines, EachUpTo(items, CtaItem, i).value)
    {
      ghost var prev := out;
      out, err := EmitCtaItem(out, items[i]);
      EachStep(lines, items, CtaItem, i, prev, out, err);
      if err.Some? {
        return;
      }
      i := i + 1;
    }
  }

  method EmitCtas(lines: seq<string>, article: Article, key: string) returns (out: seq<string>, err: Option<FieldError>)
    ensures Performed(out, lines, CtaOps(article, key), err)
  {
    out, err := lines, None;
    var items := ListField(article, key);
    if items == [] {
      return;
    }
    var mid := EmitLineAndBlank(lines, "## Call to Action");
    out, err := EmitCtaItems(mid, items);
    PerformedAfter(lines, [Line("## Call to Action"), Blank], mid, Each(items, CtaItem), out, err);
  }

  /** The loop over the decision points, stopping at the first exception. */
  method EmitDecisionItems(lines: seq<string>, items: seq<Json>) returns (out: seq<string>, err: Option<FieldError>)
    ensures Performed(out, lines, Each(items, DecisionItem), err)
  {
    out, err := lines, None;
    var i := 0;
    while i < |items|
      invariant 0 <= i <= |items| && err == None
      invariant EachUpTo(items, DecisionItem, i).Ok? && out == Run(lines, EachUpTo(items, DecisionItem, i).value)
    {
      ghost var prev := out;
      out, err := EmitDecisionItem(out, items[i]);
      EachStep(lines, items, DecisionItem, i, prev, out, err);
      if err.Some? {
        return;
      }
      i := i + 1;
    }
  }

  method EmitDecisions(lines: seq<string>, article: Article, key: string) returns (out: seq<string>, err: Option<FieldError>)
    ensures Performed(out, lines, DecisionOps(article, key), err)
  {
    out, err := lines, None;
    var items := ListField(article, key);
    if items == [] {
      return;
    }
    var mid := EmitLineAndBlank(lines, "## Decision Points");
    out, err := EmitDecisionItems(mid, items);
    PerformedAfter(lines, [Line("## Decision Points"), Blank], mid, Each(items, DecisionItem), out, err);
  }

  /** The loop over the expandable sections, stopping at the first exception. */
  method EmitExpandableItems(lines: seq<string>, items: seq<Json>) returns (out: seq<string>, err: Option<FieldError>)
    ensures Performed(out, lines, Each(items, ExpandableItem), err)
  {
    out, err := lines, None;
    var i := 0;
    while i < |items|
      invariant 0 <= i <= |items| && err == None
      invariant EachUpTo(items, ExpandableItem, i).Ok? && out == Run(lines, EachUpTo(items, ExpandableItem, i).value)
    {
      ghost var prev := out;
      out, err := EmitExpandableItem(out, items[i]);
      EachStep(lines, items, ExpandableItem, i, prev, out, err);
      if err.Some? {
        return;
      }
      i := i + 1;
    }
  }

  method EmitExpandables(lines: seq<string>, article: Article, key: string) returns (out: seq<string>, err: Option<FieldError>)
    ensures Performed(out, lines, ExpandableOps(article, key), err)
  {
    out, err := lines, None;
    var items := ListField(article, key);
    if items == [] {
      return;
    }
    var mid := EmitLineAndBlank(lines, "## Expandable Sections");
    out, err := EmitExpandableItems(mid, items);
    PerformedAfter(lines, [Line("## Expandable Sections"), Blank], mid, Each(items, ExpandableItem), out, err);
  }

  /** The loop over the expected results, stopping at the first exception. */
  method EmitResultItems(lines: seq<string>, items: seq<Json>) returns (out: seq<string>, err: Option<FieldError>)
    ensures Performed(out, lines, Each(items, ResultItem), err)
  {
    out, err := lines, None;
    var i := 0;
    while i < |items|
      invariant 0 <= i <= |items| && err == None
      invariant EachUpTo(items, ResultItem, i).Ok? && out == Run(lines, EachUpTo(items, ResultItem, i).value)
    {
      ghost var prev := out;
      out, err := EmitResultItem(out, items[i]);
      EachStep(lines, items, ResultItem, i, prev, out, err);
      if err.Some? {
        return;
      }
      i := i + 1;
    }
  }

  method EmitResults(lines: seq<string>, article: Article, key: string) returns (out: seq<string>, err: Option<FieldError>)
    ensures Performed(out, lines, ResultOps(article, key), err)
  {
    out, err := lines, None;
    var items := ListField(article, key);
    if items == [] {
      return;
    }
    var mid := EmitLineAndBlank(lines, "## Expected Results");
    out, err := EmitResultItems(mid, items);
    PerformedAfter(lines, [Line("## Expected Results"), Blank], mid, Each(items, ResultItem), out, err);
  }

  /** The loop over the glossary entries, stopping at the first exception. */
  method EmitGlossaryItems(lines: seq<string>, items: seq<Json>) returns (out: seq<string>, err: Option<FieldError>)
    ensures Performed(out, lines, Each(items, GlossaryItem), err)
  {
    out, err := lines, None;
    var i := 0;
    while i < |items|
      invariant 0 <= i <= |items| && err == None
      invariant EachUpTo(items, GlossaryItem, i).Ok? && out == Run(lines, EachUpTo(items, GlossaryItem, i).value)
    {
      ghost var prev := out;
      out, err := EmitGlossaryItem(out, items[i]);
      EachStep(lines, items, GlossaryItem, i, prev, out, err);
      if err.Some? {
        return;
      }
      i := i + 1;
    }
  }

  method EmitGlossary(lines: seq<string>, article: Article, key: string) returns (out: seq<string>, err: Option<FieldError>)
    ensures Performed(out, lines, GlossaryOps(article, key), err)
  {
    out, err := lines, None;
    var items := ListField(article, key);
    if items == [] {
      return;
    }
    var mid := EmitLineAndBlank(lines, "## Glossary");
    out, err := EmitGlossaryItems(mid, items);
    PerformedAfter(lines, [Line("## Glossary"), Blank], mid, Each(items, GlossaryItem), out, err);
  }

  /** The loop over the process-map stages, stopping at the first exception. */
  method EmitStageItems(lines: seq<string>, items: seq<Json>) returns (out: seq<string>, err: Option<FieldError>)
    ensures Performed(out, lines, Each(items, StageItem), err)
  {
    out, err := lines, None;
    var i := 0;
    while i < |items|
      invariant 0 <= i <= |items| && err == None
      invariant EachUpTo(items, StageItem, i).Ok? && out == Run(lines, EachUpTo(items, StageItem, i).value)
    {
      ghost var prev := out;
      out, err := EmitStageItem(out, items[i]);
      EachStep(lines, items, StageItem, i, prev, out, err);
      if err.Some? {
        return;
      }
      i := i + 1;
    }
  }

  method EmitStages(lines: seq<string>, article: Article, key: string) returns (out: seq<string>, err: Option<FieldError>)
    ensures Performed(out, lines, StageOps(article, key), err)
  {
    out, err := lines, None;
    var items := ListField(article, key);
    if items == [] {
      return;
    }
    var mid := EmitLineAndBlank(lines, "## Process Map");
    out, err := EmitStageItems(mid, items);
    PerformedAfter(lines, [Line("## Process Map"), Blank], mid, Each(items, StageItem), out, err);
  }

  /** The loop over the tables, stopping at the first exception. */
  method EmitTableItems(lines: seq<string>, items: seq<Json>) returns (out: seq<string>, err: Option<FieldError>)
    ensures Performed(out, lines, Each(items, TableItem), err)
  {
    out, err := lines, None;
    var i := 0;
    while i < |items|
      invariant 0 <= i <= |items| && err == None
      invariant EachUpTo(items, TableItem, i).Ok? && out == Run(lines, EachUpTo(items, TableItem, i).value)
    {
      ghost var prev := out;
      out, err := EmitTableItem(out, items[i]);
      EachStep(lines, items, TableItem, i, prev, out, err);
      if err.Some? {
        return;
      }
      i := i + 1;
    }
  }

  method EmitTables(lines: seq<string>, article: Article, key: string) returns (out: seq<string>, err: Option<FieldError>)
    ensures Performed(out, lines, TableOps(article, key), err)
  {
    out, err := lines, None;
    var items := ListField(article, key);
    if items == [] {
      return;
    }
    var mid := EmitLineAndBlank(lines, "## Tables");
    out, err := EmitTableItems(mid, items);
    PerformedAfter(lines, [Line("## Tables"), Blank], mid, Each(items, TableItem), out, err);
  }
}
