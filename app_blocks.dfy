/**
 * The sections only the current renderer has: alerts, calls to action,
 * decision points, expandable sections, expected results, glossary, process
 * map and tables. Each item function is the trace of one turn of its loop;
 * every section is `Section` over its items.
 */
module AppBlocks {
  import opened Wrappers
  import opened PyText
  import opened Json
  import opened MarkdownLines
  import opened MarkdownBlocks

  // ---------------------------------------------------------------------------
  // Alerts

  /** An alert: `> **style:** content` when the content is non-blank; the style defaults to 'Info'. */
  function AlertItem(x: Json): Ops {
    if !x.Obj? then Ok([])
    else
      match StrPair(x.fields, "style", "Info", "content", "")
      case Err(e) => Err(e)
      case Ok((style, content)) => Ok(Shown(content != [], "> **" + style + ":** " + content))
  }

  function AlertOps(article: Article, key: string): Ops {
    Section(ListField(article, key), "## Alerts", AlertItem, [])
  }

  /** An alert without a 'style' key is labelled 'Info'. */
  lemma AlertDefaultStyle(fields: seq<(string, Json)>, content: string)
    requires !HasKey(fields, "style")
    requires Get(fields, "content") == Some(Str(content)) && NonBlank(content)
    ensures AlertItem(Obj(fields)) == Ok([Line("> **Info:** " + Strip(content)), Blank])
  {
    StripStripped("Info");
    StrFieldSpec(fields, "style", "Info");
    StrFieldSpec(fields, "content", "");
    assert StrPair(fields, "style", "Info", "content", "") == Ok(("Info", Strip(content)));
    assert "> **" + "Info" + ":** " + Strip(content) == "> **Info:** " + Strip(content);
  }

  // ---------------------------------------------------------------------------
  // Calls to action

  /**
   * A call to action: a link when text and href are both non-blank, a plain
   * bullet when only the text is, nothing otherwise; `add_empty_line()` follows
   * every dict item.
   */
  function CtaLines(text: string, href: string): seq<Op> {
    (if text != [] && href != [] then [Line("[" + text + "](" + href + ")")]
     else if text != [] then [Line("- " + text)]
     else [])
    + [Blank]
  }

  function CtaItem(x: Json): Ops {
    if !x.Obj? then Ok([])
    else
      match StrPair(x.fields, "text", "", "href", "")
      case Err(e) => Err(e)
      case Ok((text, href)) => Ok(CtaLines(text, href))
  }

  function CtaOps(article: Article, key: string): Ops {
    Section(ListField(article, key), "## Call to Action", CtaItem, [])
  }

  /** The line a call to action shows, in each of its three cases. */
  lemma CtaShape(text: string, href: string)
    ensures var ops := CtaLines(text, href);
      && ops[|ops| - 1] == Blank
      && (|ops| == 2 <==> text != [])
      && (text != [] && href != [] ==> ops[0] == Line("[" + text + "](" + href + ")"))
      && (text != [] && href == [] ==> ops[0] == Line("- " + text))
  {
  }

  // ---------------------------------------------------------------------------
  // Decision points

  /** `if steps and isinstance(steps, list)`: the title line, the bullets and a blank. */
  function Branch(steps: seq<Json>, title: string): seq<Op> {
    if steps == [] then [] else [Line(title)] + Bullets(steps, "- ") + [Blank]
  }

  /** A decision point: shown only with a non-blank condition, then its two branches. */
  function DecisionItem(x: Json): Ops {
    if !x.Obj? then Ok([])
    else
      var condition :- StrField(x.fields, "if_condition", "");
      Ok(if condition == [] then []
         else [Line("**If:** " + condition), Blank]
              + Branch(ListField(x.fields, "then_steps"), "**Then:**")
              + Branch(ListField(x.fields, "else_steps"), "**Else:**"))
  }

  function DecisionOps(article: Article, key: string): Ops {
    Section(ListField(article, key), "## Decision Points", DecisionItem, [])
  }

  // ---------------------------------------------------------------------------
  // Expandable sections

  /** One content line: the stripped text and a blank, or only `add_empty_line()` for a skipped item. */
  function ContentLine(x: Json): (r: seq<Op>)
    ensures NonEmptyLines(r)
  {
    match TextItem(x) case Some(t) => [Line(t), Blank] case None => [Blank]
  }

  function ContentLines(items: seq<Json>): (r: seq<Op>)
    ensures NonEmptyLines(r)
    decreases |items|
  {
    if items == [] then [] else ContentLines(items[..|items| - 1]) + ContentLine(items[|items| - 1])
  }

  /** An expandable section: shown when its title is non-blank and its content a non-empty list. */
  function ExpandableItem(x: Json): Ops {
    if !x.Obj? then Ok([])
    else
      var title :- StrField(x.fields, "title", "");
      var content := ListField(x.fields, "content");
      Ok(if title != [] && content != [] then [Line("### " + title), Blank] + ContentLines(content) else [])
  }

  function ExpandableOps(article: Article, key: string): Ops {
    Section(ListField(article, key), "## Expandable Sections", ExpandableItem, [])
  }

  /** The texts of an expandable section's content are exactly its non-blank string items, stripped. */
  lemma {:induction false} ContentTexts(items: seq<Json>)
    ensures Texts(ContentLines(items)) == StrippedItems(items, "")
    decreases |items|
  {
    if items != [] {
      var init, x := items[..|items| - 1], items[|items| - 1];
      ContentTexts(init);
      TextsAppend(ContentLines(init), ContentLine(x));
      match TextItem(x)
      case Some(t) =>
        assert Texts(ContentLine(x)) == Texts([Line(t)]) + [];
        assert Texts([Line(t)]) == Texts([]) + [t];
        assert "" + Strip(x.s) == t;
      case None =>
        assert Texts(ContentLine(x)) == Texts([]) + [];
    }
  }

  // ---------------------------------------------------------------------------
  // Expected results, glossary, process map

  function ResultItem(x: Json): Ops {
    if !x.Obj? then Ok([])
    else
      var text :- StrField(x.fields, "text", "");
      Ok(Shown(text != [], "- " + text))
  }

  function ResultOps(article: Article, key: string): Ops {
    Section(ListField(article, key), "## Expected Results", ResultItem, [])
  }

  /** A glossary entry: `**term:** definition`, only when both halves are non-blank. */
  function GlossaryItem(x: Json): Ops {
    if !x.Obj? then Ok([])
    else
      match StrPair(x.fields, "term", "", "definition", "")
      case Err(e) => Err(e)
      case Ok((term, definition)) => Ok(Shown(term != [] && definition != [], "**" + term + ":** " + definition))
  }

  function GlossaryOps(article: Article, key: string): Ops {
    Section(ListField(article, key), "## Glossary", GlossaryItem, [])
  }

  /** A glossary entry shows lines exactly when both its term and its definition are non-blank. */
  lemma GlossaryBothHalves(fields: seq<(string, Json)>)
    requires GlossaryItem(Obj(fields)).Ok?
    ensures GlossaryItem(Obj(fields)).value != [] <==>
      (Get(fields, "term").Some? && NonBlank(Get(fields, "term").value.s) &&
       Get(fields, "definition").Some? && NonBlank(Get(fields, "definition").value.s))
  {
    StrFieldSpec(fields, "term", "");
    StrFieldSpec(fields, "definition", "");
  }

  /** A process-map stage: `**Stage:** stage`, then its details when non-blank, then a blank. */
  function StageItem(x: Json): Ops {
    if !x.Obj? then Ok([])
    else
      match StrPair(x.fields, "stage", "", "details", "")
      case Err(e) => Err(e)
      case Ok((stage, details)) =>
        Ok(if stage == [] then []
           else [Line("**Stage:** " + stage)] + (if details != [] then [Line(details)] else []) + [Blank])
  }

  function StageOps(article: Article, key: string): Ops {
    Section(ListField(article, key), "## Process Map", StageItem, [])
  }

  // ---------------------------------------------------------------------------
  // Tables

  /** `cell.strip() for cell in cells if isinstance(cell, str)`. */
  function StrCells(cells: seq<Json>): (r: seq<string>)
    ensures |r| <= |cells|
    decreases |cells|
  {
    if cells == [] then []
    else
      var last := cells[|cells| - 1];
      StrCells(cells[..|cells| - 1]) + (if last.Str? then [Strip(last.s)] else [])
  }

  /**
   * The cells are taken piece by piece and in order: the cells of `a + b` are those of `a`
   * followed by those of `b`. With `StrCellsOne` this determines `StrCells` on every row.
   */
  lemma {:induction false} StrCellsAppend(a: seq<Json>, b: seq<Json>)
    ensures StrCells(a + b) == StrCells(a) + StrCells(b)
    decreases |b|
  {
    if b == [] {
      assert a + b == a;
    } else {
      assert (a + b)[..|a + b| - 1] == a + b[..|b| - 1];
      StrCellsAppend(a, b[..|b| - 1]);
    }
  }

  /** A single cell gives its stripped text when it is a string, and nothing otherwise. */
  lemma StrCellsOne(x: Json)
    ensures StrCells([x]) == (if x.Str? then [Strip(x.s)] else [])
  {
    assert [x][..0] == [];
  }

  /** A row of strings only keeps every cell, stripped, at its own position. */
  lemma {:induction false} StrCellsAllStrings(cells: seq<Json>)
    requires forall k :: 0 <= k < |cells| ==> cells[k].Str?
    ensures |StrCells(cells)| == |cells|
    ensures forall k :: 0 <= k < |cells| ==> StrCells(cells)[k] == Strip(cells[k].s)
    decreases |cells|
  {
    if cells != [] {
      var init := cells[..|cells| - 1];
      StrCellsAllStrings(init);
      assert StrCells(cells) == StrCells(init) + [Strip(cells[|cells| - 1].s)];
    }
  }

  /** A table row: `'| ' + ' | '.join(cells) + ' |'`. */
  function RowText(cells: seq<string>): string {
    "| " + Join(" | ", cells) + " |"
  }

  /** The separator row: one `---` per header, whatever the header's type. */
  function SeparatorText(n: nat): string {
    RowText(seq(n, _ => "---"))
  }

  function RowLines(rows: seq<Json>): seq<Op>
    decreases |rows|
  {
    if rows == [] then []
    else
      var last := rows[|rows| - 1];
      RowLines(rows[..|rows| - 1]) + (if last.Arr? then [Line(RowText(StrCells(last.items)))] else [])
  }

  /** A table: shown only when 'headers' and 'rows' are both non-empty lists; never raises. */
  function TableLines(headers: seq<Json>, rows: seq<Json>): seq<Op> {
    if headers != [] && rows != [] then
      [Line(RowText(StrCells(headers))), Line(SeparatorText(|headers|))] + RowLines(rows) + [Blank]
    else []
  }

  function TableItem(x: Json): Ops {
    Ok(if x.Obj? then TableLines(ListField(x.fields, "headers"), ListField(x.fields, "rows")) else [])
  }

  function TableOps(article: Article, key: string): Ops {
    Section(ListField(article, key), "## Tables", TableItem, [])
  }

  /**
   * Reference form of the separator: `| ---`, then ` | ---` once for each
   * further header, then ` |`.
   */
  lemma {:induction false} SeparatorCells(n: nat)
    requires n >= 1
    ensures SeparatorText(n) == "| ---" + Repeat(" | ---", n - 1) + " |"
  {
    JoinDashes(n);
  }

  lemma {:induction false} JoinDashes(n: nat)
    requires n >= 1
    ensures Join(" | ", seq(n, _ => "---")) == "---" + Repeat(" | ---", n - 1)
  {
    if n > 1 {
      var cells := seq(n, _ => "---");
      assert cells[..n - 1] == seq(n - 1, _ => "---");
      JoinDashes(n - 1);
      assert Join(" | ", cells) == Join(" | ", cells[..n - 1]) + " | " + "---";
    }
  }

  /**
   * The header row has one cell per string header: it matches the separator
   * exactly when every header is a string.
   */
  lemma {:induction false} HeaderCells(headers: seq<Json>)
    ensures |StrCells(headers)| == |headers| <==> forall k :: 0 <= k < |headers| ==> headers[k].Str?
    decreases |headers|
  {
    if headers != [] {
      var init, last := headers[..|headers| - 1], headers[|headers| - 1];
      HeaderCells(init);
      assert |StrCells(headers)| == |StrCells(init)| + (if last.Str? then 1 else 0);
      if forall k :: 0 <= k < |headers| ==> headers[k].Str? {
        forall k | 0 <= k < |init|
          ensures init[k].Str?
        {
          assert init[k] == headers[k];
        }
      } else if last.Str? {
        var k :| 0 <= k < |headers| && !headers[k].Str?;
        assert k < |init| && init[k] == headers[k];
      }
    }
  }

  /** A table with a non-string header: its header row is one cell short of its separator. */
  lemma HeaderDropsNonString()
    ensures var headers := [Str("Name"), Int(1)];
      TableLines(headers, [Arr([])]) ==
        [Line("| Name |"), Line("| --- | --- |"), Line("|  |"), Blank]
  {
    var headers := [Str("Name"), Int(1)];
    StripStripped("Name");
    assert StrCells(headers) == StrCells(headers[..1]) + [];
    assert StrCells(headers[..1]) == StrCells([]) + ["Name"];
    assert seq(2, _ => "---") == ["---", "---"];
    assert RowLines([Arr([])]) == RowLines([]) + [Line(RowText([]))];
    assert RowText(["Name"]) == "| Name |";
    assert Join(" | ", ["---", "---"]) == Join(" | ", ["---"]) + " | " + "---";
    assert RowText(["---", "---"]) == "| --- | --- |";
    assert RowText([]) == "|  |";
  }

  // ---------------------------------------------------------------------------
  // Every section appends non-empty lines and starts with an `append`

  lemma AlertFormed(article: Article, key: string)
    ensures Formed(AlertOps(article, key))
  {
    SectionFormed(ListField(article, key), "## Alerts", AlertItem, []);
  }

  lemma CtaFormed(article: Article, key: string)
    ensures Formed(CtaOps(article, key))
  {
    SectionFormed(ListField(article, key), "## Call to Action", CtaItem, []);
  }

  lemma BranchNonEmpty(steps: seq<Json>, title: string)
    requires title != ""
    ensures NonEmptyLines(Branch(steps, title))
  {
    BulletsNonEmpty(steps, "- ");
    NonEmptyConcat([Line(title)], Bullets(steps, "- "));
    NonEmptyConcat([Line(title)] + Bullets(steps, "- "), [Blank]);
  }

  lemma DecisionFormed(article: Article, key: string)
    ensures Formed(DecisionOps(article, key))
  {
    forall x ensures DecisionItem(x).Ok? ==> NonEmptyLines(DecisionItem(x).value) {
      if x.Obj? {
        var yes := Branch(ListField(x.fields, "then_steps"), "**Then:**");
        var no := Branch(ListField(x.fields, "else_steps"), "**Else:**");
        BranchNonEmpty(ListField(x.fields, "then_steps"), "**Then:**");
        BranchNonEmpty(ListField(x.fields, "else_steps"), "**Else:**");
        match StrField(x.fields, "if_condition", "")
        case Err(_) =>
        case Ok(condition) =>
          NonEmptyConcat([Line("**If:** " + condition), Blank], yes);
          NonEmptyConcat([Line("**If:** " + condition), Blank] + yes, no);
      }
    }
    SectionFormed(ListField(article, key), "## Decision Points", DecisionItem, []);
  }

  lemma ExpandableFormed(article: Article, key: string)
    ensures Formed(ExpandableOps(article, key))
  {
    forall x ensures ExpandableItem(x).Ok? ==> NonEmptyLines(ExpandableItem(x).value) {
      if x.Obj? {
        match StrField(x.fields, "title", "")
        case Err(_) =>
        case Ok(title) =>
          NonEmptyConcat([Line("### " + title), Blank], ContentLines(ListField(x.fields, "content")));
      }
    }
    SectionFormed(ListField(article, key), "## Expandable Sections", ExpandableItem, []);
  }

  lemma ResultFormed(article: Article, key: string)
    ensures Formed(ResultOps(article, key))
  {
    SectionFormed(ListField(article, key), "## Expected Results", ResultItem, []);
  }

  lemma GlossaryFormed(article: Article, key: string)
    ensures Formed(GlossaryOps(article, key))
  {
    SectionFormed(ListField(article, key), "## Glossary", GlossaryItem, []);
  }

  lemma StageFormed(article: Article, key: string)
    ensures Formed(StageOps(article, key))
  {
    SectionFormed(ListField(article, key), "## Process Map", StageItem, []);
  }

  lemma {:induction false} RowLinesNonEmpty(rows: seq<Json>)
    ensures NonEmptyLines(RowLines(rows))
    decreases |rows|
  {
    if rows != [] {
      var last := rows[|rows| - 1];
      RowLinesNonEmpty(rows[..|rows| - 1]);
      NonEmptyConcat(RowLines(rows[..|rows| - 1]), if last.Arr? then [Line(RowText(StrCells(last.items)))] else []);
    }
  }

  lemma TableFormed(article: Article, key: string)
    ensures Formed(TableOps(article, key))
  {
    forall x ensures TableItem(x).Ok? ==> NonEmptyLines(TableItem(x).value) {
      if x.Obj? {
        var headers, rows := ListField(x.fields, "headers"), ListField(x.fields, "rows");
        var head := [Line(RowText(StrCells(headers))), Line(SeparatorText(|headers|))];
        RowLinesNonEmpty(rows);
        NonEmptyConcat(head, RowLines(rows));
        NonEmptyConcat(head + RowLines(rows), [Blank]);
      }
    }
    SectionFormed(ListField(article, key), "## Tables", TableItem, []);
  }
}
