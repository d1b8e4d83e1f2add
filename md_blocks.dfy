/**
 * The sections both Markdown renderers share (they differ only in the key
 * each one reads): the heading lines, the introduction and conclusion
 * objects, string lists rendered as paragraphs or bullets, and the table of
 * contents, code snippet, quote, FAQ, step and reference lists. Each is the
 * trace of calls the Python block makes on the line list; the blocks
 * themselves, as loops on the list, are in `MarkdownEmit`.
 */
module MarkdownBlocks {
  import opened Wrappers
  import opened PyText
  import opened Json
  import opened MarkdownLines

  type Article = seq<(string, Json)>

  // ---------------------------------------------------------------------------
  // Lists of strings

  /** One paragraph: `if isinstance(x, str) and x.strip(): append(x.strip()); add_empty_line()`. */
  function ParaItem(x: Json): seq<Op> {
    match TextItem(x) case Some(t) => [Line(t), Blank] case None => []
  }

  /** One bullet: `if isinstance(x, str) and x.strip(): append(prefix + x.strip())`. */
  function BulletItem(x: Json, prefix: string): (r: seq<Op>)
    ensures r != [] <==> TextItem(x).Some?
    ensures r != [] ==> r == [Line(prefix + TextItem(x).value)]
  {
    match TextItem(x) case Some(t) => [Line(prefix + t)] case None => []
  }

  /**
   * One note. The current renderer calls `add_empty_line()` after every item,
   * shown or not (`every`); the older one only after a shown note.
   */
  function NoteItem(x: Json, every: bool): (r: seq<Op>)
    ensures NonEmptyLines(r)
    ensures TextItem(x).Some? ==> r == [Line("> " + TextItem(x).value), Blank]
  {
    match TextItem(x)
    case Some(t) => [Line("> " + t), Blank]
    case None => if every then [Blank] else []
  }

  /** Every string item in turn, as paragraphs. */
  function Paras(items: seq<Json>): (r: seq<Op>)
    decreases |items|
  {
    if items == [] then [] else Paras(items[..|items| - 1]) + ParaItem(items[|items| - 1])
  }

  /** Every string item in turn, as bullets. */
  function Bullets(items: seq<Json>, prefix: string): seq<Op>
    decreases |items|
  {
    if items == [] then [] else Bullets(items[..|items| - 1], prefix) + BulletItem(items[|items| - 1], prefix)
  }

  /**
   * Exactly the non-blank string items become bullets, in order, each the
   * prefix followed by the stripped item; everything else is skipped.
   */
  lemma {:induction false} BulletsAreStrippedItems(items: seq<Json>, prefix: string)
    ensures Texts(Bullets(items, prefix)) == StrippedItems(items, prefix)
    ensures forall k :: 0 <= k < |Bullets(items, prefix)| ==> Bullets(items, prefix)[k].Line?
    decreases |items|
  {
    if items != [] {
      var init, x := items[..|items| - 1], items[|items| - 1];
      var before, last := Bullets(init, prefix), BulletItem(x, prefix);
      BulletsAreStrippedItems(init, prefix);
      TextsAppend(before, last);
      BulletItemText(x, prefix);
      assert Bullets(items, prefix) == before + last;
      forall k | 0 <= k < |before + last|
        ensures (before + last)[k].Line?
      {
        if k >= |before| {
          assert (before + last)[k] == last[k - |before|];
        }
      }
    }
  }

  /** One bullet: a single `append` of the prefixed stripped item, or nothing. */
  lemma BulletItemText(x: Json, prefix: string)
    ensures Texts(BulletItem(x, prefix)) == if x.Str? && NonBlank(x.s) then [prefix + Strip(x.s)] else []
    ensures forall k :: 0 <= k < |BulletItem(x, prefix)| ==> BulletItem(x, prefix)[k].Line?
  {
    var last := BulletItem(x, prefix);
    if last != [] {
      assert Texts(last) == Texts([] + last) == Texts([]) + [last[0].text];
    } else {
      assert Texts(last) == [];
    }
  }

  /** Reference definition: the stripped non-blank string items, each behind `prefix`. */
  function StrippedItems(items: seq<Json>, prefix: string): seq<string>
    decreases |items|
  {
    if items == [] then [] else
      StrippedItems(items[..|items| - 1], prefix) +
      (if items[|items| - 1].Str? && NonBlank(items[|items| - 1].s) then [prefix + Strip(items[|items| - 1].s)] else [])
  }

  lemma {:induction false} TextsAppend(a: seq<Op>, b: seq<Op>)
    ensures Texts(a + b) == Texts(a) + Texts(b)
    decreases |b|
  {
    if b == [] {
      assert a + b == a;
    } else {
      var init := b[..|b| - 1];
      assert (a + b)[..|a + b| - 1] == a + init;
      TextsAppend(a, init);
    }
  }

  /** The notes loop. */
  function Notes(items: seq<Json>, every: bool): (r: seq<Op>)
    ensures NonEmptyLines(r)
    decreases |items|
  {
    if items == [] then [] else Notes(items[..|items| - 1], every) + NoteItem(items[|items| - 1], every)
  }

  /**
   * `if items and isinstance(items, list)`: a heading, a blank, the bullets and a
   * closing blank; nothing at all for an absent, empty or non-list value.
   */
  function HeadedList(items: seq<Json>, heading: string, prefix: string): seq<Op> {
    if items == [] then [] else [Line(heading), Blank] + Bullets(items, prefix) + [Blank]
  }

  /** `title = d.get(key, '').strip(); if title: append(marker + title); add_empty_line()`. */
  function HeadingOps(article: Article, key: string, marker: string): Ops {
    var t :- StrField(article, key, "");
    Ok(if t != [] then [Line(marker + t), Blank] else [])
  }

  /** The introduction object: heading, its paragraphs, prerequisites and learning outcomes. */
  function IntroOps(article: Article, key: string): seq<Op> {
    match DictField(article, key)
    case None => []
    case Some(intro) =>
      [Line("## Introduction"), Blank]
      + Paras(ListField(intro, "paragraphs"))
      + HeadedList(ListField(intro, "prerequisites"), "### Prerequisites", "- ")
      + HeadedList(ListField(intro, "outcomes"), "### Learning Outcomes", "- ")
  }

  /** The conclusion object: heading, its paragraphs and the next steps. */
  function ConclusionOps(article: Article, key: string): seq<Op> {
    match DictField(article, key)
    case None => []
    case Some(conc) =>
      [Line("## Conclusion"), Blank]
      + Paras(ListField(conc, "paragraphs"))
      + HeadedList(ListField(conc, "nextSteps"), "### Next Steps", "- ")
  }

  predicate EndsBlank(lines: seq<string>) {
    lines != [] && lines[|lines| - 1] == ""
  }

  lemma RunLineBlank(lines: seq<string>, t: string)
    requires t != ""
    ensures Run(lines, [Line(t), Blank]) == lines + [t, ""]
  {
    assert [Line(t), Blank] == [Line(t)] + [Blank];
    assert [Line(t)] == [] + [Line(t)];
    RunSnoc(lines, [Line(t)], Blank);
    RunSnoc(lines, [], Line(t));
  }

  lemma {:induction false} NotesEndBlank(lines: seq<string>, items: seq<Json>)
    requires EndsBlank(lines)
    ensures EndsBlank(Run(lines, Notes(items, false)))
    decreases |items|
  {
    if items != [] {
      var init := items[..|items| - 1];
      NotesEndBlank(lines, init);
      var mid := Notes(init, false);
      var last := NoteItem(items[|items| - 1], false);
      RunAppend(lines, mid, last);
      if last != [] {
        RunLineBlank(Run(lines, mid), last[0].text);
      } else {
        assert Notes(items, false) == mid + [];
        assert mid + [] == mid;
      }
    }
  }

  /**
   * Once the list ends in a blank line (as it does right after the notes
   * heading), the two ways of writing notes give the same lines: the extra
   * `add_empty_line()` after a skipped note never appends anything.
   */
  lemma {:induction false} NotesVariantsAgree(lines: seq<string>, items: seq<Json>)
    requires EndsBlank(lines)
    ensures Run(lines, Notes(items, true)) == Run(lines, Notes(items, false))
    decreases |items|
  {
    if items != [] {
      var init := items[..|items| - 1];
      NotesVariantsAgree(lines, init);
      NotesEndBlank(lines, init);
      var every, shown := Notes(init, true), Notes(init, false);
      var x := items[|items| - 1];
      RunAppend(lines, every, NoteItem(x, true));
      RunAppend(lines, shown, NoteItem(x, false));
      if TextItem(x).None? {
        assert NoteItem(x, true) == [] + [Blank];
        RunSnoc(Run(lines, every), [], Blank);
        assert NoteItem(x, false) == [];
      }
    }
  }

  /** The notes section: heading, blank, then the notes. */
  function NotesSection(items: seq<Json>, every: bool): seq<Op> {
    if items == [] then []
    else [Line("## Notes"), Blank] + Notes(items, every)
  }

  /** Both notes sections render the same lines, whatever came before them. */
  lemma NotesSectionsAgree(lines: seq<string>, items: seq<Json>)
    ensures Run(lines, NotesSection(items, true)) == Run(lines, NotesSection(items, false))
  {
    if items != [] {
      var head := [Line("## Notes"), Blank];
      RunAppend(lines, head, Notes(items, true));
      RunAppend(lines, head, Notes(items, false));
      RunLineBlank(lines, "## Notes");
      NotesVariantsAgree(Run(lines, head), items);
    }
  }

  // ---------------------------------------------------------------------------
  // Lists of objects

  /** A table-of-contents entry: `- text` for a dict with a non-blank 'text'. */
  function TocItem(x: Json): Ops {
    if !x.Obj? then Ok([])
    else
      var text :- StrField(x.fields, "text", "");
      Ok(if text != [] then [Line("- " + text)] else [])
  }

  function TocOps(article: Article, key: string): Ops {
    Section(ListField(article, key), "## Table of Contents", TocItem, [Blank])
  }

  /** The lines of one code snippet: optional caption heading, language label, fenced content. */
  function SnippetLines(content: string, language: string, caption: string): seq<Op> {
    (if caption != [] then [Line("### " + caption), Blank] else [])
    + [Line("*Language: " + language + "*"), Blank, Line("```" + language), Line(content), Line("```"), Blank]
  }

  /** A code snippet: 'content', 'language' (default 'plaintext') and 'caption' are all read, in that order. */
  function CodeItem(x: Json): Ops {
    if !x.Obj? then Ok([])
    else
      var content :- StrField(x.fields, "content", "");
      var language :- StrField(x.fields, "language", "plaintext");
      var caption :- StrField(x.fields, "caption", "");
      Ok(if content != [] then SnippetLines(content, language, caption) else [])
  }

  function CodeOps(article: Article, key: string): Ops {
    Section(ListField(article, key), "## Code Snippets", CodeItem, [])
  }

  /**
   * A snippet's lines: the caption heading comes first exactly when the caption
   * is non-blank; then the language label, the opening fence naming the same
   * language, the content and the closing fence.
   */
  lemma SnippetShape(content: string, language: string, caption: string)
    ensures var ops := SnippetLines(content, language, caption);
      && |ops| >= 6
      && (ops[0] == Line("### " + caption) <==> caption != [])
      && ops[|ops| - 6] == Line("*Language: " + language + "*")
      && ops[|ops| - 4] == Line("```" + language)
      && ops[|ops| - 3] == Line(content)
      && ops[|ops| - 2] == Line("```")
  {
    if caption == [] {
      var ops := SnippetLines(content, language, caption);
      assert ops[0].text[0] == '*';
    }
  }

  /** With no 'language' key, the label and the fence say 'plaintext'. */
  lemma LanguageDefault(fields: seq<(string, Json)>)
    requires Get(fields, "language").None?
    ensures StrField(fields, "language", "plaintext") == Ok("plaintext")
  {
    StripStripped("plaintext");
  }

  /** A quote: `> text`, then `> — attribution` when there is one, then a blank. */
  function QuoteItem(x: Json): Ops {
    if !x.Obj? then Ok([])
    else
      var text :- StrField(x.fields, "text", "");
      var attribution :- StrField(x.fields, "attribution", "");
      Ok(if text == [] then []
         else [Line("> " + text)] + (if attribution != [] then [Line("> \U{2014} " + attribution)] else []) + [Blank])
  }

  function QuoteOps(article: Article, key: string): Ops {
    Section(ListField(article, key), "## Quotes", QuoteItem, [])
  }

  /** A question and its answer, shown only when both are non-blank. */
  function FaqItem(x: Json): Ops {
    if !x.Obj? then Ok([])
    else
      var question :- StrField(x.fields, "question", "");
      var answer :- StrField(x.fields, "answer", "");
      Ok(if question != [] && answer != [] then [Line("**Q:** " + question), Line("**A:** " + answer), Blank] else [])
  }

  function FaqOps(article: Article, key: string): Ops {
    Section(ListField(article, key), "## Frequently Asked Questions (FAQ)", FaqItem, [])
  }

  /** A FAQ entry renders lines exactly when question and answer are both present and non-blank. */
  lemma FaqItemBothHalves(fields: seq<(string, Json)>)
    requires FaqItem(Obj(fields)).Ok?
    ensures FaqItem(Obj(fields)).value != [] <==>
      (Get(fields, "question").Some? && NonBlank(Get(fields, "question").value.s) &&
       Get(fields, "answer").Some? && NonBlank(Get(fields, "answer").value.s))
  {
    assert Strip("") == [];
  }

  /** A reference line: a link with an optional annotation, a plain bullet, or nothing. */
  function RefLine(text: string, href: string, annotation: string): Option<string> {
    if text != [] && href != [] then
      var link := "- [" + text + "](" + href + ")";
      Some(if annotation != [] then link + " (" + annotation + ")" else link)
    else if text != [] then Some("- " + text)
    else None
  }

  /**
   * A reference with text and href is the Markdown link, followed by the
   * annotation in parentheses when there is one; text alone is a plain bullet;
   * no text gives no line at all.
   */
  lemma RefLineShape(text: string, href: string, annotation: string)
    ensures var r := RefLine(text, href, annotation);
      && (r.Some? <==> text != [])
      && (r.Some? && href != [] ==> StartsWith(r.value, "- [" + text + "](" + href + ")"))
      && (r.Some? && href != [] && annotation != [] ==> EndsWith(r.value, " (" + annotation + ")"))
      && (r.Some? && href != [] && annotation == [] ==> EndsWith(r.value, "](" + href + ")"))
      && (r.Some? && href == [] ==> r.value == "- " + text)
  {
    if text != [] && href != [] {
      var link := "- [" + text + "](" + href + ")";
      var full := if annotation != [] then link + " (" + annotation + ")" else link;
      assert full[..|link|] == link;
    }
  }

  function RefItem(x: Json): Ops {
    if !x.Obj? then Ok([])
    else
      var text :- StrField(x.fields, "text", "");
      var href :- StrField(x.fields, "href", "");
      var annotation :- StrField(x.fields, "annotation", "");
      Ok(match RefLine(text, href, annotation) case Some(l) => [Line(l)] case None => [])
  }

  function RefOps(article: Article, key: string): Ops {
    Section(ListField(article, key), "## References", RefItem, [Blank])
  }

  // ---------------------------------------------------------------------------
  // Numbered steps

  /**
   * How a step's screenshot is shown: the current renderer links the image in
   * the storage bucket of the run's user and job; the older one names the
   * screenshot in a parenthetical.
   */
  datatype ShotStyle = StorageUrl(user: string, job: string) | SeeText

  const StorageBase: string := "https://gqvbkzcscjeaghodwxnz.supabase.co/storage/v1/object/public/log_dataa/"

  /** The public URL of a screenshot uploaded for `job` of `user`. */
  function ImageUrl(user: string, job: string, name: string): string {
    StorageBase + user + "/" + job + "/screenshots/" + name
  }

  /** The explanation, or "Screenshot for Step n", with every bracket and parenthesis removed. */
  function AltText(n: nat, explanation: string): string {
    var alt := if explanation != [] then explanation else "Screenshot for Step " + NatToString(n);
    RemoveChar(RemoveChar(RemoveChar(RemoveChar(alt, ']'), '['), '('), ')')
  }

  function ShotLine(style: ShotStyle, n: nat, explanation: string, name: string): string {
    match style
    case StorageUrl(user, job) => "![" + AltText(n, explanation) + "](" + ImageUrl(user, job, name) + ")"
    case SeeText => "*(See: " + name + ")*"
  }

  /**
   * The current renderer's screenshot line is an image whose target is the
   * storage URL in the user's and job's folder, ending in the file name; the
   * older renderer's is the "(See: …)" text and never an image.
   */
  lemma ShotLineForms(style: ShotStyle, n: nat, explanation: string, name: string)
    ensures style.StorageUrl? ==>
      var line := ShotLine(style, n, explanation, name);
      var target := StorageBase + style.user + "/" + style.job + "/screenshots/" + name + ")";
      StartsWith(line, "![") && EndsWith(line, target) && |line| >= |target| + 4 && line[|line| - |target| - 2..|line| - |target|] == "]("
    ensures style.SeeText? ==>
      var line := ShotLine(style, n, explanation, name);
      !StartsWith(line, "![") && StartsWith(line, "*(See: ") && EndsWith(line, name + ")*")
  {
    match style
    case StorageUrl(user, job) =>
      var target := StorageBase + user + "/" + job + "/screenshots/" + name + ")";
      assert ShotLine(style, n, explanation, name) == "![" + AltText(n, explanation) + "](" + target;
      ImageFrame(AltText(n, explanation), target);
    case SeeText =>
      SeeFrame(name);
  }

  /** A Markdown image opens with "![" and has "](" just before its target. */
  lemma ImageFrame(alt: string, target: string)
    ensures var line := "![" + alt + "](" + target;
      StartsWith(line, "![") && EndsWith(line, target) && |line| >= |target| + 4 &&
      line[|line| - |target| - 2..|line| - |target|] == "]("
  {
    var line := "![" + alt + "](" + target;
    assert line[..2] == "![";
    assert line[|line| - |target|..] == target;
    assert line[|line| - |target| - 2..|line| - |target|] == "](";
  }

  /** The "(See: …)" text starts with '*', so it is never an image. */
  lemma SeeFrame(name: string)
    ensures var line := "*(See: " + name + ")*";
      !StartsWith(line, "![") && StartsWith(line, "*(See: ") && EndsWith(line, name + ")*")
  {
    var line := "*(See: " + name + ")*";
    assert line[..7] == "*(See: ";
    assert line[0] == '*';
    assert line[|line| - |name + ")*"|..] == name + ")*";
  }


  /**
   * Step `n` of the list: when the item is a dict, 'step', 'explanation' and
   * 'screenshotRef' are read in that order, and each non-blank one gives its
   * line and a blank.
   */
  function StepItem(style: ShotStyle, n: nat, x: Json): Ops {
    if !x.Obj? then Ok([])
    else
      match StepFields(x.fields)
      case Err(e) => Err(e)
      case Ok((step, explanation, shot)) => Ok(StepLines(style, n, step, explanation, shot))
  }

  /** A step's 'step', 'explanation' and 'screenshotRef', read in that order. */
  function StepFields(fields: seq<(string, Json)>): Result<(string, string, string), FieldError> {
    var step :- StrField(fields, "step", "");
    var explanation :- StrField(fields, "explanation", "");
    var shot :- StrField(fields, "screenshotRef", "");
    Ok((step, explanation, shot))
  }

  /** `if shown: append(text); add_empty_line()`. */
  function Shown(shown: bool, text: string): seq<Op> {
    if shown then [Line(text), Blank] else []
  }

  /** The lines of step `n` from its three stripped fields. */
  function StepLines(style: ShotStyle, n: nat, step: string, explanation: string, shot: string): seq<Op> {
    Shown(step != [], "**Step " + NatToString(n) + ":** " + step)
    + Shown(explanation != [], explanation)
    + Shown(shot != [], ShotLine(style, n, explanation, shot))
  }

  /** The call the numbered loop makes on step `n`. */
  function StepAt(style: ShotStyle): (nat, Json) -> Ops {
    (n: nat, x: Json) => StepItem(style, n, x)
  }

  /** `for i, step_item in enumerate(items, 1)`, stopping at the first exception. */
  function Steps(items: seq<Json>, style: ShotStyle): Ops {
    Enumerate(items, StepAt(style))
  }

  /**
   * Step numbers are the 1-based positions in the whole list: the item at
   * index `i` is step `i + 1` whether or not the items before it are dicts.
   */
  lemma StepsNumbered(items: seq<Json>, style: ShotStyle)
    ensures Steps(items, style) == EnumerateFrom(items, StepAt(style), 1)
    ensures items != [] ==>
      Steps(items, style) == Then(StepItem(style, 1, items[0]), EnumerateFrom(items[1..], StepAt(style), 2))
  {
    EnumerateFromOne(items, StepAt(style));
  }

  lemma RemoveKeepsOut(s: string, c: char, d: char)
    requires d !in s
    ensures d !in RemoveChar(s, c)
  {
  }

  lemma NoBracketsIn(n: nat)
    ensures var s := "Screenshot for Step " + NatToString(n);
      ']' !in s && '[' !in s && '(' !in s && ')' !in s
  {
    var s := "Screenshot for Step " + NatToString(n);
    forall k | 0 <= k < |s| ensures s[k] != ']' && s[k] != '[' && s[k] != '(' && s[k] != ')' {
      if k >= 20 {
        assert s[k] == NatToString(n)[k - 20];
      }
    }
  }

  /**
   * The alt text never holds a square bracket or a parenthesis; it is the
   * explanation itself when that is non-blank and has none of them, and
   * "Screenshot for Step n" when there is no explanation.
   */
  lemma AltTextClean(n: nat, explanation: string)
    ensures var alt := AltText(n, explanation);
      ']' !in alt && '[' !in alt && '(' !in alt && ')' !in alt
    ensures explanation != [] && ']' !in explanation && '[' !in explanation && '(' !in explanation && ')' !in explanation
      ==> AltText(n, explanation) == explanation
    ensures explanation == [] ==> AltText(n, explanation) == "Screenshot for Step " + NatToString(n)
  {
    var alt := if explanation != [] then explanation else "Screenshot for Step " + NatToString(n);
    var a := RemoveChar(alt, ']');
    var b := RemoveChar(a, '[');
    var c := RemoveChar(b, '(');
    RemoveKeepsOut(a, '[', ']');
    RemoveKeepsOut(b, '(', ']');
    RemoveKeepsOut(c, ')', ']');
    RemoveKeepsOut(b, '(', '[');
    RemoveKeepsOut(c, ')', '[');
    RemoveKeepsOut(c, ')', '(');
    if explanation == [] {
      NoBracketsIn(n);
    }
  }

  function StepsOps(article: Article, key: string, style: ShotStyle): Ops {
    var items := ListField(article, key);
    if items == [] then Ok([])
    else Block([Line("## Procedure / Steps"), Blank], Steps(items, style), [])
  }

  // ---------------------------------------------------------------------------
  // Every section appends non-empty lines and starts with an `append`

  lemma HeadingFormed(article: Article, key: string, marker: string)
    requires marker != ""
    ensures Formed(HeadingOps(article, key, marker))
  {
  }

  lemma {:induction false} ParasFormed(items: seq<Json>)
    ensures Formed(Ok(Paras(items)))
    decreases |items|
  {
    if items != [] {
      ParasFormed(items[..|items| - 1]);
      NonEmptyConcat(Paras(items[..|items| - 1]), ParaItem(items[|items| - 1]));
    }
  }

  lemma {:induction false} BulletsNonEmpty(items: seq<Json>, prefix: string)
    ensures NonEmptyLines(Bullets(items, prefix))
    decreases |items|
  {
    if items != [] {
      BulletsNonEmpty(items[..|items| - 1], prefix);
      NonEmptyConcat(Bullets(items[..|items| - 1], prefix), BulletItem(items[|items| - 1], prefix));
    }
  }

  lemma HeadedListFormed(items: seq<Json>, heading: string, prefix: string)
    requires heading != ""
    ensures Formed(Ok(HeadedList(items, heading, prefix)))
  {
    BulletsNonEmpty(items, prefix);
    NonEmptyConcat([Line(heading), Blank], Bullets(items, prefix));
    NonEmptyConcat([Line(heading), Blank] + Bullets(items, prefix), [Blank]);
  }

  lemma IntroFormed(article: Article, key: string)
    ensures Formed(Ok(IntroOps(article, key)))
  {
    match DictField(article, key)
    case None =>
    case Some(intro) =>
      var paras := Paras(ListField(intro, "paragraphs"));
      var pre := HeadedList(ListField(intro, "prerequisites"), "### Prerequisites", "- ");
      var outcomes := HeadedList(ListField(intro, "outcomes"), "### Learning Outcomes", "- ");
      ParasFormed(ListField(intro, "paragraphs"));
      HeadedListFormed(ListField(intro, "prerequisites"), "### Prerequisites", "- ");
      HeadedListFormed(ListField(intro, "outcomes"), "### Learning Outcomes", "- ");
      NonEmptyConcat([Line("## Introduction"), Blank], paras);
      NonEmptyConcat([Line("## Introduction"), Blank] + paras, pre);
      NonEmptyConcat([Line("## Introduction"), Blank] + paras + pre, outcomes);
  }

  lemma ConclusionFormed(article: Article, key: string)
    ensures Formed(Ok(ConclusionOps(article, key)))
  {
    match DictField(article, key)
    case None =>
    case Some(conc) =>
      var paras := Paras(ListField(conc, "paragraphs"));
      var next := HeadedList(ListField(conc, "nextSteps"), "### Next Steps", "- ");
      ParasFormed(ListField(conc, "paragraphs"));
      HeadedListFormed(ListField(conc, "nextSteps"), "### Next Steps", "- ");
      NonEmptyConcat([Line("## Conclusion"), Blank], paras);
      NonEmptyConcat([Line("## Conclusion"), Blank] + paras, next);
  }

  lemma NotesFormed(items: seq<Json>, every: bool)
    ensures Formed(Ok(NotesSection(items, every)))
  {
    NonEmptyConcat([Line("## Notes"), Blank], Notes(items, every));
  }

  lemma TocFormed(article: Article, key: string)
    ensures Formed(TocOps(article, key))
  {
    SectionFormed(ListField(article, key), "## Table of Contents", TocItem, [Blank]);
  }

  /** A snippet with content appends only non-empty lines. */
  lemma SnippetNonEmpty(content: string, language: string, caption: string)
    requires content != []
    ensures NonEmptyLines(SnippetLines(content, language, caption))
  {
    var head: seq<Op> := if caption != [] then [Line("### " + caption), Blank] else [];
    var tail := [Line("*Language: " + language + "*"), Blank, Line("```" + language), Line(content), Line("```"), Blank];
    assert |"### " + caption| >= 4 && |"*Language: " + language + "*"| >= 11 && |"```" + language| >= 3;
    assert NonEmptyLines(head);
    assert NonEmptyLines(tail);
    NonEmptyConcat(head, tail);
  }

  lemma CodeItemNonEmpty(x: Json)
    ensures CodeItem(x).Ok? ==> NonEmptyLines(CodeItem(x).value)
  {
    if x.Obj? && CodeItem(x).Ok? && CodeItem(x).value != [] {
      var content := StrField(x.fields, "content", "").value;
      var language := StrField(x.fields, "language", "plaintext").value;
      var caption := StrField(x.fields, "caption", "").value;
      assert CodeItem(x).value == SnippetLines(content, language, caption);
      SnippetNonEmpty(content, language, caption);
    }
  }

  lemma CodeFormed(article: Article, key: string)
    ensures Formed(CodeOps(article, key))
  {
    forall x ensures CodeItem(x).Ok? ==> NonEmptyLines(CodeItem(x).value) {
      CodeItemNonEmpty(x);
    }
    SectionFormed(ListField(article, key), "## Code Snippets", CodeItem, []);
  }

  lemma QuoteFormed(article: Article, key: string)
    ensures Formed(QuoteOps(article, key))
  {
    SectionFormed(ListField(article, key), "## Quotes", QuoteItem, []);
  }

  lemma FaqFormed(article: Article, key: string)
    ensures Formed(FaqOps(article, key))
  {
    SectionFormed(ListField(article, key), "## Frequently Asked Questions (FAQ)", FaqItem, []);
  }

  lemma RefFormed(article: Article, key: string)
    ensures Formed(RefOps(article, key))
  {
    forall x ensures RefItem(x).Ok? ==> NonEmptyLines(RefItem(x).value) {
      if x.Obj? && RefItem(x).Ok? {
        var text := StrField(x.fields, "text", "").value;
        var href := StrField(x.fields, "href", "").value;
        var annotation := StrField(x.fields, "annotation", "").value;
        RefLineShape(text, href, annotation);
      }
    }
    SectionFormed(ListField(article, key), "## References", RefItem, [Blank]);
  }

  lemma ShownNonEmpty(shown: bool, text: string)
    requires text != ""
    ensures NonEmptyLines(Shown(shown, text))
  {
  }

  lemma ShotLineNonEmpty(style: ShotStyle, n: nat, explanation: string, name: string)
    ensures ShotLine(style, n, explanation, name) != ""
  {
    match style
    case StorageUrl(user, job) =>
      assert ShotLine(style, n, explanation, name)[0] == '!';
    case SeeText =>
      assert ShotLine(style, n, explanation, name)[0] == '*';
  }

  lemma StepLinesNonEmpty(style: ShotStyle, n: nat, step: string, explanation: string, shot: string)
    ensures NonEmptyLines(StepLines(style, n, step, explanation, shot))
  {
    var first := Shown(step != [], "**Step " + NatToString(n) + ":** " + step);
    var second := Shown(explanation != [], explanation);
    var third := Shown(shot != [], ShotLine(style, n, explanation, shot));
    ShownNonEmpty(step != [], "**Step " + NatToString(n) + ":** " + step);
    if explanation != [] {
      ShownNonEmpty(true, explanation);
    }
    ShotLineNonEmpty(style, n, explanation, shot);
    ShownNonEmpty(shot != [], ShotLine(style, n, explanation, shot));
    NonEmptyConcat(first, second);
    NonEmptyConcat(first + second, third);
  }

  lemma StepItemNonEmpty(style: ShotStyle, n: nat, x: Json)
    ensures StepItem(style, n, x).Ok? ==> NonEmptyLines(StepItem(style, n, x).value)
  {
    if x.Obj? && StepFields(x.fields).Ok? {
      var (step, explanation, shot) := StepFields(x.fields).value;
      StepLinesNonEmpty(style, n, step, explanation, shot);
    }
  }

  /** The steps section appends only non-empty lines and starts with its heading. */
  lemma StepsFormed(article: Article, key: string, style: ShotStyle)
    ensures Formed(StepsOps(article, key, style))
  {
    var items := ListField(article, key);
    if items != [] {
      forall n: nat, x: Json
        ensures StepAt(style)(n, x).Ok? ==> NonEmptyLines(StepAt(style)(n, x).value)
      {
        StepItemNonEmpty(style, n, x);
      }
      EnumerateNonEmpty(items, StepAt(style), |items|);
      var body := Steps(items, style);
      if body.Ok? {
        NonEmptyConcat([Line("## Procedure / Steps"), Blank], body.value);
        NonEmptyConcat([Line("## Procedure / Steps"), Blank] + body.value, []);
      }
    }
  }
}
