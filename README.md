# onvokeai SOP generation — a Dafny model

onvokeai turns a recorded browser workflow into a standard operating procedure
(SOP). A user uploads screenshots and an event log (JSON) to Supabase storage;
the `/generate` endpoint looks up the user's template, downloads the
screenshots, builds a PDF of them, reads the event log and an optional
uploaded document (Excel, PDF or Word), fetches related Jira or Confluence
issues as context, and runs a workflow whose last step asks Gemini for an
article dictionary and renders it to Markdown and a `.docx` file, recording
the job's status (`pending`, then `success` or `failed`) in the
`generated_docs` table. Two generations of the service exist side by side:
the current `app/` package and the older `API/` package. Both are modelled.

The model is in Dafny, one module per source file or component:

- `PyText`, `Json`, `Wrappers`: the Python string operations the code relies
  on (`strip`, `lower`, `capitalize`, `join`, `replace`, slicing, `PurePath`
  names and suffixes), the JSON values `json.loads` produces, and
  `dict.get` with the truthiness tests the renderers make.
- `MarkdownLines`, `MarkdownBlocks`, `MarkdownEmit`, `AppBlocks`, `AppEmit`,
  `AppMarkdown`, `LegacyMarkdown`: both `create_markdown` renderers. Each
  section's calls to `markdown_lines.append(...)` and `add_empty_line()` are
  described as a trace of `Line(text)` and `Blank` operations, and `Run`
  replays a trace on a line list exactly as the two Python calls do. The
  renderers themselves are imperative methods with loops over the sections
  and items, proved to leave the replay of the whole trace. Reading a field
  with `.get(key, '').strip()` raises when the value is not a string; that
  exception is modelled and ends the rendering.
- `StorageNames`, `ScreenshotDownload`, `LocalFiles`, `RunInputs`: the
  storage paths and temporary file names the endpoints build, the screenshot
  download, and the local temporary files the run creates and removes.
- `DocStatus`, `TemplateLookup`, `RagContext`, `FileReaders`,
  `PdfValidation`, `SopRecord`, `GenAiFiles`: the status update, the
  private-then-public template lookup, the RAG knowledge base text, the
  uploaded-file readers, the PDF validator, the `generated_docs` record and
  the Gemini file handle.
- `SopRun`, `LegacyRun`, `Endpoints`: the two `/generate` endpoints, the
  `/rephrase` endpoint and the `/download` conversion endpoint of both packages.
- `SopGeneration`, `LegacySopGeneration`: the two `generate_sop_docx`
  workflow steps.
- `Atlassian`, `McpConfig`, `McpAgent`, `Initializers`: the Atlassian client,
  the MCP configuration, the intelligent-context agent and the service
  initialisers.

Supabase, Gemini, Atlassian, the file system and the embedding model are
calls into code outside the model. Each becomes a parameter: a datatype
holding what that service answers, or a class holding the state the code
changes (the `generated_docs` rows, the local files, the uploaded Gemini
files). What the endpoints return and which statuses they record is then
proved for every answer those services can give.

## Model

| member | source | states |
|---|---|---|
| PyText.StripSpec | app/services/file_services/markdownit.py:19 | `strip()` leaves no whitespace at either end, returns a contiguous part of its input, and returns '' exactly when the input is all whitespace |
| PyText.StripStripped | app/services/file_services/markdownit.py:41 | stripping is idempotent: an already stripped string comes back unchanged |
| PyText.LeadingSpacesAreSpaces | app/services/file_services/markdownit.py:19 | the characters `strip()` removes at the front are all whitespace and the first one kept is not |
| PyText.TrailingSpacesAreSpaces | app/services/file_services/markdownit.py:19 | the characters `strip()` removes at the back are all whitespace and the last one kept is not |
| PyText.Lower | app/api/routes.py:138 | `lower()` keeps the length, turns each ASCII capital into its small letter and keeps every character outside 'A'-'Z' |
| PyText.Capitalize | app/api/routes.py:248 | `capitalize()` keeps the length, upper-cases the first character and lower-cases the rest |
| PyText.Take | app/api/routes.py:219 | `s[:50]` has length min(n, len(s)) and is a prefix of `s` |
| PyText.Join | app/services/file_services/markdownit.py:385 | `'\n'.join` of one part is that part and of no parts is '' |
| PyText.JoinHasParts | app/services/file_services/markdownit.py:385 | every joined part occurs in the joined text |
| PyText.JoinStartsWithFirst | app/services/file_services/markdownit.py:330 | a join starts with its first part |
| PyText.Repeat | app/services/mcp_services/atlassian_mcp.py:184 | `s * n` has length `len(s) * n` |
| PyText.ReplaceChar | app/api/routes.py:156 | `replace(a, b)` keeps the length and replaces exactly the occurrences of `a` |
| PyText.RemoveChar | app/services/file_services/markdownit.py:192 | `replace(c, '')` leaves no `c` and keeps every other character as often as the input has it (`multiset(r) == multiset(s)[c := 0]`); it changes nothing when `c` is absent |
| PyText.RemoveCharAppend | app/services/file_services/markdownit.py:192 | removing `c` from a concatenation removes it from each part and concatenates the results, so the kept characters stay in order |
| PyText.RemoveCharOne | app/services/file_services/markdownit.py:192 | a single character is dropped exactly when it is `c`; with the concatenation lemma this fixes the result on every string |
| PyText.NatToString | app/services/file_services/markdownit.py:177 | `str(n)` is a non-empty run of decimal digits whose decimal value is `n`, with a leading '0' exactly when `n` is 0 |
| PyText.BaseNameOfPlainName | app/api/routes.py:219 | a name without '/' is its own final path component |
| PyText.DropTrailingSlashes | app/api/routes.py:219 | `PurePath` drops the separators a path ends with: the result is a prefix of the path that does not end in '/' |
| PyText.DroppedAreSlashes | app/api/routes.py:219 | only '/' characters are dropped from the end |
| PyText.LastComponent | app/api/routes.py:219 | the text after the last '/' holds no '/', ends the path, and reaches back to that '/' or to the start |
| PyText.BaseNameSpec | app/api/routes.py:219 | `PurePath(p).name` is the last component of the path once its trailing separators are dropped, so it ends the trimmed path and reaches back to a '/' or to the start |
| PyText.TrailingSlashIgnored | app/api/routes.py:219 | a trailing '/' never changes the final component |
| PyText.SuffixEndsPath | app/api/routes.py:219 | the suffix ends the path once its trailing separators are dropped |
| PyText.LastIndexOf | app/api/routes.py:219 | the index found holds the character and no later index does; -1 when it does not occur |
| PyText.Suffix | app/api/routes.py:219 | `Path(p).suffix` is '' or a '.' followed by at least one character with no further '.' or '/', and ends the final component |
| Json.GetSpec | app/services/file_services/markdownit.py:19 | `dict.get(key)` finds a value exactly when the key is bound, and the value is the key's last binding, as `json.loads` keeps the last duplicate |
| Json.SameBinding | app/services/file_services/markdownit.py:19 | two objects binding a key to the same value read alike through every accessor |
| Json.Missing | app/services/file_services/markdownit.py:65-66 | a missing key reads as no list, no object and the stripped default |
| Json.ListFieldSpec | app/services/file_services/markdownit.py:65-66 | a list section runs exactly when the key holds a non-empty list, and over exactly that list |
| Json.DictFieldSpec | app/services/file_services/markdownit.py:31-32 | an object section runs exactly when the key holds a non-empty object |
| Json.StrFieldSpec | app/services/file_services/markdownit.py:81 | `.get(key, d).strip()` raises exactly when the key holds a non-string (naming the key); otherwise it is the stripped value or default, '' exactly when that is blank |
| Json.TextItem | app/services/file_services/markdownit.py:40 | an item counts exactly when it is a non-blank string, and then as its non-empty stripped text |
| MarkdownLines.RunKeepsWellSpaced | app/services/file_services/markdownit.py:12-14 | whatever sequence of `append` and `add_empty_line()` calls runs, the list never starts with a blank line and never holds two blank lines in a row |
| MarkdownLines.RunTexts | app/services/file_services/markdownit.py:12-14 | the non-blank lines after the calls are the old ones followed by exactly the appended texts, in order |
| MarkdownLines.RunExtends | app/services/file_services/markdownit.py:9-14 | `markdown_lines` only grows: the old list is a prefix of the new one |
| MarkdownLines.RunAppend | app/services/file_services/markdownit.py:9-14 | running two batches of calls is running the first, then the second on its result |
| MarkdownLines.RunSnoc | app/services/file_services/markdownit.py:9-14 | the last call acts on the list the earlier calls produced |
| MarkdownLines.RunLast | app/services/file_services/markdownit.py:9-14 | as `RunSnoc`, for a non-empty batch split at its last call |
| MarkdownLines.ReplayPrefix | app/services/file_services/markdownit.py:9-14 | the first `n` calls' effect depends only on those calls |
| MarkdownLines.RunPrefix | app/services/file_services/markdownit.py:12-14 | on a non-empty list, what the calls do depends only on its last line, so earlier lines are carried along unchanged |
| MarkdownLines.RunFromLine | app/services/file_services/markdownit.py:12-14 | a batch that starts with an `append` renders the same block whatever precedes it |
| MarkdownLines.Then | app/services/file_services/markdownit.py:18-28 | two statements in sequence raise exactly when one of them does, the first exception winning, and otherwise make both statements' calls in order; it groups either way by MarkdownLines.ThenAssoc |
| MarkdownLines.ThenAssoc | app/services/file_services/markdownit.py:18-28 | sequencing groups either way |
| MarkdownLines.Block | app/services/file_services/markdownit.py:96-102 | a heading, a body that may raise and a tail: the block raises exactly when the body does, with the body's exception, else its calls are heading, body, tail |
| MarkdownLines.EachStep | app/services/file_services/markdownit.py:99-102 | one turn of a `for x in items` loop: after a normal call the list is the replay of one more item; after an exception the whole loop raises that exception |
| MarkdownLines.EachErrPrefix | app/services/file_services/markdownit.py:79-83 | once an item raises, the loop raises the same whatever items follow |
| MarkdownLines.EachNonEmpty | app/services/file_services/markdownit.py:79-84 | a loop whose every item appends only non-empty lines appends only non-empty lines |
| MarkdownLines.PerformedAfter | app/services/file_services/markdownit.py:96-98 | a section's heading lines followed by its loop leave the replay of heading and loop, or the loop's exception |
| MarkdownLines.EnumerateStep | app/services/file_services/markdownit.py:170 | one turn of `for i, x in enumerate(items, 1)`: the item at index `i` is numbered `i + 1`; a normal call extends the replay, an exception ends the loop with it |
| MarkdownLines.EnumerateErrPrefix | app/services/file_services/markdownit.py:170 | once a numbered item raises, the loop raises the same whatever follows |
| MarkdownLines.EnumerateSplit | app/services/file_services/markdownit.py:170 | the loop up to `m`, then the rest numbered from `m + 1`, is the whole loop |
| MarkdownLines.EnumerateFromOne | app/services/file_services/markdownit.py:170 | numbering from 1 gives each item its 1-based position from the front of the list |
| MarkdownLines.EnumerateNonEmpty | app/services/file_services/markdownit.py:170-196 | a numbered loop whose every call appends only non-empty lines appends only non-empty lines |
| MarkdownLines.NonEmptyConcat | app/services/file_services/markdownit.py:9-14 | two batches appending only non-empty lines make one |
| MarkdownLines.ThenNonEmpty | app/services/file_services/markdownit.py:18-28 | the same for two statements in sequence |
| MarkdownLines.SectionFormed | app/services/file_services/markdownit.py:65-72 | a list section with a non-empty heading whose items append only non-empty lines starts with an `append` and appends only non-empty lines |
| MarkdownLines.ChainErrPrefix | app/services/file_services/markdownit.py:18-382 | once a section raises, the document raises the same whatever sections follow |
| MarkdownLines.ChainNonEmpty | app/services/file_services/markdownit.py:18-382 | if no section appends an empty line, neither does the document |
| MarkdownLines.PrefixIsChain | app/services/file_services/markdownit.py:18-382 | the first `k` sections run in turn are the chain of those sections |
| MarkdownLines.PrefixErrRest | app/services/file_services/markdownit.py:18-382 | an exception in the first `k` sections is the exception of the whole document |
| MarkdownLines.PrefixStep | app/services/file_services/markdownit.py:18-382 | one more section on the list the first `k` left: the list is the replay of `k + 1` sections, or the document raises what that section raised |
| MarkdownLines.PrefixAll | app/services/file_services/markdownit.py:18-382 | running all sections is the whole chain |
| MarkdownLines.ChainRunsApart | app/services/file_services/markdownit.py:18-382 | when each section starts with an `append` (or is empty), the document is its sections rendered independently and concatenated in order |
| MarkdownLines.Append | app/services/file_services/markdownit.py:21 | `markdown_lines.append(text)` adds exactly `text` at the end |
| MarkdownLines.AddEmpty | app/services/file_services/markdownit.py:12-14 | `add_empty_line()` appends '' exactly when the list is non-empty and its last line is not '', and otherwise leaves it unchanged |
| MarkdownBlocks.BulletItem | app/services/file_services/markdownit.py:69-71 | an item yields a bullet exactly when it is a non-blank string, and the bullet is the prefix followed by the stripped item |
| MarkdownBlocks.BulletItemText | app/services/file_services/markdownit.py:70-71 | one item appends the prefixed stripped text or nothing, and never a blank line |
| MarkdownBlocks.BulletsAreStrippedItems | app/services/file_services/markdownit.py:69-71 | exactly the non-blank string items become bullets, in order, each the prefix followed by the stripped item |
| MarkdownBlocks.TextsAppend | app/services/file_services/markdownit.py:69-71 | the texts appended by two batches are those of the first followed by those of the second |
| MarkdownBlocks.NoteItem | app/services/file_services/markdownit.py:99-102 | a note appends no empty line, and a non-blank note is the quoted stripped note followed by a blank |
| MarkdownBlocks.Notes | API/utils/markdownit.py:158-161 | the notes loop appends no empty line |
| MarkdownBlocks.RunLineBlank | app/services/file_services/markdownit.py:101-102 | appending a non-empty line and then `add_empty_line()` adds that line and one blank |
| MarkdownBlocks.NotesEndBlank | API/utils/markdownit.py:158-161 | after the older notes loop the list still ends with a blank line |
| MarkdownBlocks.NotesVariantsAgree | API/utils/markdownit.py:158-161 | once the list ends blank, calling `add_empty_line()` after every note (current renderer) or only after shown notes (older renderer) gives the same lines |
| MarkdownBlocks.NotesSectionsAgree | app/services/file_services/markdownit.py:94-102 | the two renderers' notes sections render the same lines after any list |
| MarkdownBlocks.SnippetShape | app/services/file_services/markdownit.py:115-124 | a snippet opens with the caption heading exactly when the caption is non-blank, then the language label, the fence naming the same language, the content and the closing fence |
| MarkdownBlocks.LanguageDefault | app/services/file_services/markdownit.py:112 | without a 'language' key, the label and fence say 'plaintext' |
| MarkdownBlocks.FaqItemBothHalves | app/services/file_services/markdownit.py:156-163 | a FAQ entry renders exactly when both question and answer are present and non-blank |
| MarkdownBlocks.RefLineShape | app/services/file_services/markdownit.py:369-381 | a reference with text and href is the Markdown link, followed by the annotation in parentheses when there is one; text alone is a plain bullet; no text gives no line |
| MarkdownBlocks.ShotLineForms | app/services/file_services/markdownit.py:184-195 | the current renderer's screenshot line is a Markdown image whose target is the storage URL in the user's and job's screenshot folder ending in the file name; the older renderer's is the "(See: …)" text and never an image |
| MarkdownBlocks.ImageFrame | app/services/file_services/markdownit.py:195 | an image line opens with "![" and has "](" right before its target |
| MarkdownBlocks.SeeFrame | API/utils/markdownit.py:113-115 | the older renderer's "(See: …)" line is never an image and ends with the screenshot name |
| MarkdownBlocks.StepsNumbered | app/services/file_services/markdownit.py:170 | step numbers are the 1-based positions in the whole list, whether or not earlier items are objects |
| MarkdownBlocks.RemoveKeepsOut | app/services/file_services/markdownit.py:192 | removing one character never brings in another |
| MarkdownBlocks.NoBracketsIn | app/services/file_services/markdownit.py:190 | "Screenshot for Step n" holds no bracket or parenthesis |
| MarkdownBlocks.AltTextClean | app/services/file_services/markdownit.py:189-192 | the alt text never holds a bracket or parenthesis; it is the explanation when that has none, and "Screenshot for Step n" when there is no explanation |
| MarkdownBlocks.HeadingFormed | app/services/file_services/markdownit.py:18-28 | the title and subtitle sections append only non-empty lines and start with an `append` |
| MarkdownBlocks.ParasFormed | app/services/file_services/markdownit.py:86-92 | the same for the paragraphs section |
| MarkdownBlocks.BulletsNonEmpty | app/services/file_services/markdownit.py:69-71 | a bullet list never appends an empty line |
| MarkdownBlocks.HeadedListFormed | app/services/file_services/markdownit.py:64-72 | a headed bullet section (features, checklists, tips) appends only non-empty lines and starts with its heading |
| MarkdownBlocks.IntroFormed | app/services/file_services/markdownit.py:30-62 | the same for the introduction |
| MarkdownBlocks.ConclusionFormed | app/services/file_services/markdownit.py:342-362 | the same for the conclusion |
| MarkdownBlocks.NotesFormed | app/services/file_services/markdownit.py:94-102 | the same for the notes |
| MarkdownBlocks.TocFormed | app/services/file_services/markdownit.py:74-84 | the same for the table of contents |
| MarkdownBlocks.SnippetNonEmpty | app/services/file_services/markdownit.py:115-124 | a snippet with content appends only non-empty lines |
| MarkdownBlocks.CodeItemNonEmpty | app/services/file_services/markdownit.py:109-124 | a snippet entry appends only non-empty lines |
| MarkdownBlocks.CodeFormed | app/services/file_services/markdownit.py:104-124 | the code section appends only non-empty lines and starts with its heading |
| MarkdownBlocks.QuoteFormed | app/services/file_services/markdownit.py:126-139 | the same for the quotes |
| MarkdownBlocks.FaqFormed | app/services/file_services/markdownit.py:151-163 | the same for the FAQ |
| MarkdownBlocks.RefFormed | app/services/file_services/markdownit.py:364-382 | the same for the references |
| MarkdownBlocks.ShownNonEmpty | app/services/file_services/markdownit.py:176-182 | a shown step line is non-empty |
| MarkdownBlocks.ShotLineNonEmpty | app/services/file_services/markdownit.py:195 | a screenshot line is never empty |
| MarkdownBlocks.StepLinesNonEmpty | app/services/file_services/markdownit.py:176-196 | a step's lines are all non-empty |
| MarkdownBlocks.StepItemNonEmpty | app/services/file_services/markdownit.py:171-196 | a step entry appends only non-empty lines |
| MarkdownBlocks.StepsFormed | app/services/file_services/markdownit.py:165-196 | the steps section appends only non-empty lines and starts with its heading |
| MarkdownEmit.EmitLineAndBlank | app/services/file_services/markdownit.py:21-22 | the list after `append(text)` and `add_empty_line()` is the replay of those two calls |
| MarkdownEmit.EmitLine | app/services/file_services/markdownit.py:21 | the list after `append(text)` is its replay |
| MarkdownEmit.EmitHeading | app/services/file_services/markdownit.py:18-28 | the title or subtitle section leaves the replay of its calls, or raises when the field is not a string |
| MarkdownEmit.EmitPara | app/services/file_services/markdownit.py:90-92 | one paragraph leaves the replay of its calls |
| MarkdownEmit.EmitParas | app/services/file_services/markdownit.py:86-92 | the paragraphs loop leaves the replay of every paragraph's calls, in order |
| MarkdownEmit.EmitBullet | app/services/file_services/markdownit.py:70-71 | one bullet leaves the replay of its calls |
| MarkdownEmit.EmitBullets | app/services/file_services/markdownit.py:69-71 | the bullets loop leaves the replay of every item's calls, in order |
| MarkdownEmit.EmitHeadedList | app/services/file_services/markdownit.py:64-72 | a headed bullet section leaves the replay of its heading, items and closing blank |
| MarkdownEmit.EmitIntro | app/services/file_services/markdownit.py:30-62 | the introduction leaves the replay of its heading, paragraphs, prerequisites and outcomes |
| MarkdownEmit.EmitConclusion | app/services/file_services/markdownit.py:342-362 | the conclusion leaves the replay of its heading, paragraphs and next steps |
| MarkdownEmit.EmitNote | app/services/file_services/markdownit.py:100-102 | one note leaves the replay of its calls |
| MarkdownEmit.EmitNoteItems | app/services/file_services/markdownit.py:99-102 | the notes loop leaves the replay of every note's calls |
| MarkdownEmit.EmitNotes | app/services/file_services/markdownit.py:94-102 | the notes section leaves the replay of its calls, in either renderer's variant |
| MarkdownEmit.EmitTocItem | app/services/file_services/markdownit.py:80-83 | one contents entry leaves the replay of its calls, or raises when its text is not a string |
| MarkdownEmit.EmitTocItems | app/services/file_services/markdownit.py:79-83 | the contents loop leaves the replay of every entry's calls, or raises the first entry's exception |
| MarkdownEmit.EmitToc | app/services/file_services/markdownit.py:74-84 | the table of contents leaves the replay of the section, or its exception |
| MarkdownEmit.EmitCodeItem | app/services/file_services/markdownit.py:110-124 | one snippet leaves the replay of its calls, or raises when a field is not a string |
| MarkdownEmit.EmitSnippet | app/services/file_services/markdownit.py:115-124 | a snippet with content leaves the replay of its caption, label, fences and content |
| MarkdownEmit.EmitCodeItems | app/services/file_services/markdownit.py:109-124 | the snippets loop leaves the replay of every snippet, or the first exception |
| MarkdownEmit.EmitCode | app/services/file_services/markdownit.py:104-124 | the code section leaves the replay of the section, or its exception |
| MarkdownEmit.EmitQuoteItem | app/services/file_services/markdownit.py:132-139 | one quote leaves the replay of its calls, or raises |
| MarkdownEmit.EmitQuoteItems | app/services/file_services/markdownit.py:131-139 | the quotes loop leaves the replay of every quote, or the first exception |
| MarkdownEmit.EmitQuotes | app/services/file_services/markdownit.py:126-139 | the quotes section leaves the replay of the section, or its exception |
| MarkdownEmit.EmitFaqItem | app/services/file_services/markdownit.py:157-163 | one FAQ entry leaves the replay of its calls, or raises |
| MarkdownEmit.EmitFaqItems | app/services/file_services/markdownit.py:156-163 | the FAQ loop leaves the replay of every entry, or the first exception |
| MarkdownEmit.EmitFaq | app/services/file_services/markdownit.py:151-163 | the FAQ section leaves the replay of the section, or its exception |
| MarkdownEmit.EmitRefItem | app/services/file_services/markdownit.py:370-381 | one reference leaves the replay of its calls, or raises |
| MarkdownEmit.EmitRefItems | app/services/file_services/markdownit.py:369-381 | the references loop leaves the replay of every reference, or the first exception |
| MarkdownEmit.EmitRefs | app/services/file_services/markdownit.py:364-382 | the references section leaves the replay of the section, or its exception |
| MarkdownEmit.EmitStepItem | app/services/file_services/markdownit.py:171-196 | one step leaves the replay of its calls, or raises when a field is not a string |
| MarkdownEmit.EmitShown | app/services/file_services/markdownit.py:176-178 | a line shown only when its text is non-blank leaves the replay of those calls |
| MarkdownEmit.EmitStepLines | app/services/file_services/markdownit.py:176-196 | a step's text, explanation and screenshot lines leave the replay of their calls |
| MarkdownEmit.EmitNumberedStep | app/services/file_services/markdownit.py:170-196 | one turn of the numbered loop: after step `i + 1` the list is the replay of the first `i + 1` items, or the loop raises that step's exception |
| MarkdownEmit.EmitStepItems | app/services/file_services/markdownit.py:170-196 | the numbered steps loop leaves the replay of every step numbered from 1, or the first exception |
| MarkdownEmit.EmitSteps | app/services/file_services/markdownit.py:165-196 | the steps section leaves the replay of the section, or its exception |
| AppBlocks.AlertDefaultStyle | app/services/file_services/markdownit.py:213-219 | an alert without a 'style' key is labelled 'Info' and shows its stripped content |
| AppBlocks.CtaShape | app/services/file_services/markdownit.py:226-234 | a call to action is a link when it has text and href, a bullet when it has text only, nothing without text, and is always followed by `add_empty_line()` |
| AppBlocks.ContentLine | app/services/file_services/markdownit.py:274-277 | an expandable section's content line appends no empty line |
| AppBlocks.ContentLines | app/services/file_services/markdownit.py:274-277 | the content loop appends no empty line |
| AppBlocks.ContentTexts | app/services/file_services/markdownit.py:274-277 | the texts of an expandable section are exactly its non-blank string items, stripped, in order |
| AppBlocks.GlossaryBothHalves | app/services/file_services/markdownit.py:296-302 | a glossary entry shows lines exactly when both its term and its definition are non-blank |
| AppBlocks.StrCells | app/services/file_services/markdownit.py:330 | the cells kept from a row are at most as many as the row has |
| AppBlocks.StrCellsAppend | app/services/file_services/markdownit.py:330-338 | the kept cells of two rows joined are those of the first followed by those of the second, so cells keep their order |
| AppBlocks.StrCellsOne | app/services/file_services/markdownit.py:330-338 | a single cell gives its stripped text when it is a string and nothing otherwise; with the concatenation lemma this fixes the kept cells of every row |
| AppBlocks.StrCellsAllStrings | app/services/file_services/markdownit.py:330-338 | a row of strings keeps every cell, stripped, at its own position |
| AppBlocks.SeparatorCells | app/services/file_services/markdownit.py:333 | the separator is `\| ---`, then ` \| ---` once per further header, then ` \|` |
| AppBlocks.JoinDashes | app/services/file_services/markdownit.py:333 | joining n dashes cells with ' \| ' gives one '---' and n - 1 further ' \| ---' |
| AppBlocks.HeaderCells | app/services/file_services/markdownit.py:330-333 | the header row has as many cells as the separator exactly when every header is a string |
| AppBlocks.HeaderDropsNonString | app/services/file_services/markdownit.py:328-340 | a table whose headers are 'Name' and 1 renders a one-cell header row above a two-cell separator |
| AppBlocks.AlertFormed | app/services/file_services/markdownit.py:208-219 | the alerts section appends only non-empty lines and starts with its heading |
| AppBlocks.CtaFormed | app/services/file_services/markdownit.py:221-234 | the same for the calls to action |
| AppBlocks.BranchNonEmpty | app/services/file_services/markdownit.py:249-260 | a Then or Else branch appends only non-empty lines |
| AppBlocks.DecisionFormed | app/services/file_services/markdownit.py:236-260 | the decision points section appends only non-empty lines and starts with its heading |
| AppBlocks.ExpandableFormed | app/services/file_services/markdownit.py:262-277 | the same for the expandable sections |
| AppBlocks.ResultFormed | app/services/file_services/markdownit.py:279-289 | the same for the expected results |
| AppBlocks.GlossaryFormed | app/services/file_services/markdownit.py:291-302 | the same for the glossary |
| AppBlocks.StageFormed | app/services/file_services/markdownit.py:304-317 | the same for the process map |
| AppBlocks.RowLinesNonEmpty | app/services/file_services/markdownit.py:336-339 | table rows are never empty lines |
| AppBlocks.TableFormed | app/services/file_services/markdownit.py:319-340 | the tables section appends only non-empty lines and starts with its heading |
| AppEmit.EmitAlertItem | app/services/file_services/markdownit.py:214-219 | one alert leaves the replay of its calls, or raises when a field is not a string |
| AppEmit.EmitCtaItem | app/services/file_services/markdownit.py:227-234 | one call to action leaves the replay of its calls, or raises |
| AppEmit.EmitBranch | app/services/file_services/markdownit.py:249-260 | a Then or Else branch leaves the replay of its title, bullets and closing blank |
| AppEmit.EmitDecisionItem | app/services/file_services/markdownit.py:242-260 | one decision point leaves the replay of its condition and branches, or raises |
| AppEmit.EmitContentLines | app/services/file_services/markdownit.py:274-277 | the content loop of an expandable section leaves the replay of every line's calls |
| AppEmit.EmitExpandableItem | app/services/file_services/markdownit.py:268-277 | one expandable section leaves the replay of its calls, or raises |
| AppEmit.EmitResultItem | app/services/file_services/markdownit.py:285-289 | one expected result leaves the replay of its calls, or raises |
| AppEmit.EmitGlossaryItem | app/services/file_services/markdownit.py:297-302 | one glossary entry leaves the replay of its calls, or raises |
| AppEmit.EmitStageItem | app/services/file_services/markdownit.py:310-317 | one process-map stage leaves the replay of its calls, or raises |
| AppEmit.EmitRowLines | app/services/file_services/markdownit.py:336-339 | the rows loop leaves the replay of one line per list row |
| AppEmit.EmitTableLines | app/services/file_services/markdownit.py:330-340 | a table leaves the replay of its header row, separator, rows and closing blank |
| AppEmit.EmitTableItem | app/services/file_services/markdownit.py:325-340 | one table entry leaves the replay of its calls, or raises |
| AppEmit.EmitAlertItems | app/services/file_services/markdownit.py:213-219 | the alerts loop leaves the replay of every alert, or the first exception |
| AppEmit.EmitAlerts | app/services/file_services/markdownit.py:208-219 | the alerts section leaves the replay of the section, or its exception |
| AppEmit.EmitCtaItems | app/services/file_services/markdownit.py:226-234 | the calls-to-action loop leaves the replay of every entry, or the first exception |
| AppEmit.EmitCtas | app/services/file_services/markdownit.py:221-234 | the calls-to-action section leaves the replay of the section, or its exception |
| AppEmit.EmitDecisionItems | app/services/file_services/markdownit.py:241-260 | the decision points loop leaves the replay of every entry, or the first exception |
| AppEmit.EmitDecisions | app/services/file_services/markdownit.py:236-260 | the decision points section leaves the replay of the section, or its exception |
| AppEmit.EmitExpandableItems | app/services/file_services/markdownit.py:267-277 | the expandable sections loop leaves the replay of every entry, or the first exception |
| AppEmit.EmitExpandables | app/services/file_services/markdownit.py:262-277 | the expandable sections section leaves the replay of the section, or its exception |
| AppEmit.EmitResultItems | app/services/file_services/markdownit.py:284-289 | the expected results loop leaves the replay of every entry, or the first exception |
| AppEmit.EmitResults | app/services/file_services/markdownit.py:279-289 | the expected results section leaves the replay of the section, or its exception |
| AppEmit.EmitGlossaryItems | app/services/file_services/markdownit.py:296-302 | the glossary loop leaves the replay of every entry, or the first exception |
| AppEmit.EmitGlossary | app/services/file_services/markdownit.py:291-302 | the glossary section leaves the replay of the section, or its exception |
| AppEmit.EmitStageItems | app/services/file_services/markdownit.py:309-317 | the process-map loop leaves the replay of every stage, or the first exception |
| AppEmit.EmitStages | app/services/file_services/markdownit.py:304-317 | the process-map section leaves the replay of the section, or its exception |
| AppEmit.EmitTableItems | app/services/file_services/markdownit.py:324-340 | the tables loop leaves the replay of every table, or the first exception |
| AppEmit.EmitTables | app/services/file_services/markdownit.py:319-340 | the tables section leaves the replay of the section, or its exception |
| AppMarkdown.AppSections | app/services/file_services/markdownit.py:18-382 | the document has exactly 23 sections, in the fixed order of the source |
| AppMarkdown.CreateMarkdown | app/services/file_services/markdownit.py:4-388 | `create_markdown` returns the '\n'-join of the lines all 23 sections leave in turn, or raises the exception of the first section that raises |
| AppMarkdown.EmitOpening | app/services/file_services/markdownit.py:18-92 | title, subtitle, introduction, features, contents and paragraphs leave the replay of the first six sections, or the document raises what they raised |
| AppMarkdown.EmitReference | app/services/file_services/markdownit.py:94-196 | notes, code, quotes, checklists, FAQ and steps extend that to the first twelve sections, or the document raises |
| AppMarkdown.EmitGuidance | app/services/file_services/markdownit.py:198-289 | tips, alerts, calls to action, decision points, expandable sections and expected results extend it to eighteen, or the document raises |
| AppMarkdown.EmitClosing | app/services/file_services/markdownit.py:291-382 | glossary, process map, tables, conclusion and references complete all 23, or the document raises |
| AppMarkdown.EmitSection | app/services/file_services/markdownit.py:18-382 | section `k` leaves the replay of its own calls on the list it is given, or raises its exception |
| AppMarkdown.AppSectionFormed | app/services/file_services/markdownit.py:18-382 | every section appends only non-empty lines and starts with an `append` |
| AppMarkdown.AllSectionsFormed | app/services/file_services/markdownit.py:18-382 | the same for all 23 sections at once |
| AppMarkdown.RenderWellSpaced | app/services/file_services/markdownit.py:12-14 | the document never starts with a blank line and never holds two blank lines in a row, whatever the article holds |
| AppMarkdown.RenderIsSectionsInOrder | app/services/file_services/markdownit.py:18-382 | the document is its sections each rendered on its own, concatenated in order: no section sees or changes what an earlier one wrote |
| AppMarkdown.SectionReadsItsKey | app/services/file_services/markdownit.py:18-382 | a section depends on the article only through the value bound to its key |
| AppMarkdown.SectionReadsItsKeyInOpening | app/services/file_services/markdownit.py:18-92 | the same for the first six sections |
| AppMarkdown.SectionReadsItsKeyInReference | app/services/file_services/markdownit.py:94-196 | the same for sections 6 to 11 |
| AppMarkdown.SectionReadsItsKeyInGuidance | app/services/file_services/markdownit.py:198-289 | the same for sections 12 to 17 |
| AppMarkdown.SectionReadsItsKeyInClosing | app/services/file_services/markdownit.py:291-382 | the same for sections 18 to 22 |
| AppMarkdown.AbsentKeySkipsSection | app/services/file_services/markdownit.py:18-382 | a section whose key the article lacks contributes nothing |
| AppMarkdown.AbsentKeySkipsSectionInOpening | app/services/file_services/markdownit.py:18-92 | the same for the first six sections |
| AppMarkdown.AbsentKeySkipsSectionInReference | app/services/file_services/markdownit.py:94-196 | the same for sections 6 to 11 |
| AppMarkdown.AbsentKeySkipsSectionInGuidance | app/services/file_services/markdownit.py:198-289 | the same for sections 12 to 17 |
| AppMarkdown.AbsentKeySkipsSectionInClosing | app/services/file_services/markdownit.py:291-382 | the same for sections 18 to 22 |
| AppMarkdown.FirstRaiseWins | app/services/file_services/markdownit.py:18-382 | when every earlier section returns and section `k` raises, `create_markdown` raises exactly that section's exception |
| AppMarkdown.TitleMustBeString | app/services/file_services/markdownit.py:19 | a title present but not a string makes the whole call raise, naming 'title' |
| LegacyMarkdown.LegacySections | API/utils/markdownit.py:18-238 | the older document has exactly 15 sections, in the source's order |
| LegacyMarkdown.CreateLegacyMarkdown | API/utils/markdownit.py:4-244 | the older `create_markdown` returns the '\n'-join of the lines all 15 sections leave in turn, or the first section's exception |
| LegacyMarkdown.EmitLegacyOpening | API/utils/markdownit.py:18-92 | title to paragraphs leave the replay of the first six sections, or the document raises what they raised |
| LegacyMarkdown.EmitLegacyMiddle | API/utils/markdownit.py:94-171 | steps, FAQ, code, notes and tips extend that to eleven, or the document raises |
| LegacyMarkdown.EmitLegacyClosing | API/utils/markdownit.py:173-238 | quotes, checklist, conclusion and references complete all 15, or the document raises |
| LegacyMarkdown.EmitLegacySection | API/utils/markdownit.py:18-238 | section `k` leaves the replay of its own calls, or raises its exception |
| LegacyMarkdown.LegacySectionFormed | API/utils/markdownit.py:18-238 | every section appends only non-empty lines and starts with an `append` |
| LegacyMarkdown.AllLegacySectionsFormed | API/utils/markdownit.py:18-238 | the same for all 15 sections at once |
| LegacyMarkdown.LegacyWellSpaced | API/utils/markdownit.py:12-14 | the older document never starts with a blank line and never holds two in a row |
| LegacyMarkdown.LegacyIsSectionsInOrder | API/utils/markdownit.py:18-238 | the older document is its sections rendered on their own and concatenated in order |
| LegacyMarkdown.LegacySectionReadsItsKey | API/utils/markdownit.py:18-238 | a section depends on the article only through its key's value |
| LegacyMarkdown.LegacyAbsentKeySkipsSection | API/utils/markdownit.py:18-238 | a section whose key is missing contributes nothing |
| LegacyMarkdown.LegacyFirstRaiseWins | API/utils/markdownit.py:18-238 | the first section that raises decides the outcome of the older renderer |
| StorageNames.TempPath | app/api/routes.py:157 | a temporary file name is never empty |
| StorageNames.LocalName | app/api/routes.py:156 | every '/' and backslash of a screenshot name becomes '_', and every other character is kept in place |
| StorageNames.ShotTasksSpec | app/api/routes.py:152-159 | exactly the listed names that are screenshots (non-empty, a '.png', '.jpg' or '.jpeg' suffix in any case, not the placeholder) are downloaded, each from the run's screenshot folder to its own temporary path, in listing order |
| StorageNames.ShotTempPathsFlat | app/api/routes.py:156-157 | every screenshot's temporary path is built from its name with no path separator left |
| StorageNames.TempPathInjective | app/api/routes.py:157 | two different local names never share a temporary path |
| StorageNames.ScreenshotNameNotPdf | app/api/routes.py:154-157 | no screenshot name becomes the local name "generated.pdf" |
| StorageNames.ScreenshotsAvoidPdfPath | app/api/routes.py:157 | no screenshot is saved under the path of the run's PDF (line 203) |
| StorageNames.FirstJsonSpec | app/api/routes.py:186-193 | the chosen event file is a listed '.json' name (any case, not the placeholder) with no such name before it, and there is none exactly when no listed name qualifies |
| StorageNames.SelectJsonFile | app/api/routes.py:186-193 | the loop stops at the first event file candidate, or finds none |
| StorageNames.SafeName | app/api/routes.py:218 | every character outside ASCII letters and digits, '_', '-' and '.' becomes '_', and the others are kept in place |
| StorageNames.AllSafeEnd | app/api/routes.py:219 | the end of a safe name is safe |
| StorageNames.AllSafeJoin | app/api/routes.py:219 | two safe names joined are safe |
| StorageNames.JsonLocalNameSafe | app/api/routes.py:218-220 | the local event file name uses only safe characters, holds no '/', and is at most 50 characters plus the suffix |
| StorageNames.ShortJsonNameRepeatsSuffix | app/api/routes.py:219 | a name of at most 50 characters keeps its whole sanitised form, followed by its suffix again |
| StorageNames.SafeNameOfSafe | app/api/routes.py:218 | sanitising a safe name changes nothing |
| StorageNames.SuffixAt | app/api/routes.py:219 | the suffix of a plain name runs from its last dot |
| StorageNames.EventsJsonDoubled | app/api/routes.py:218-220 | "events.json" is saved locally as "events.json.json" |
| PyText.BaseName | app/api/routes.py:219 | the final component of a path holds no '/'; PyText.BaseNameSpec gives where it sits |
| LocalFiles.LocalFs.constructor | app/api/routes.py:49 | the working directory starts with the given files, unwritable paths and paths whose removal fails |
| LocalFiles.LocalFs.Write | app/utils/download_screenshot.py:23-24 | `open(path, "wb").write(...)` leaves the file present and reports failure exactly for an unwritable path |
| LocalFiles.LocalFs.Create | app/api/routes.py:208 | the PDF builder adds exactly its output file |
| LocalFiles.LocalFs.RemoveIfExists | app/utils/download_screenshot.py:30-34 | the file goes away exactly when it existed and its removal does not fail; nothing else changes and nothing is raised |
| LocalFiles.LocalFs.CleanUp | app/api/routes.py:321-332 | the `finally` block removes exactly the tracked non-empty existing removable paths, counts them, and leaves no such path behind |
| DocStatus.DocStore.constructor | app/utils/update_status.py:7 | the `generated_docs` table starts with the given rows and no recorded status writes |
| DocStatus.DocStore.UpdateDocumentStatus | app/utils/update_status.py:7-26 | raises (`ValueError`) exactly when the store fails, changing nothing; otherwise sets only the job's `status` column when the row exists, leaves the table as it was when it does not, and records the write |
| DocStatus.DocStore.Upsert | app/api/routes.py:63-66 | `upsert(..., on_conflict="id")` raises exactly when the store fails; otherwise the job's row becomes the old row overridden by the given columns, and a string status among them is recorded |
| DocStatus.DocStore.Insert | API/utils/sop_generator.py:233 | `insert` raises when the store fails or the id is taken; otherwise it adds exactly the given row and records its status |
| DocStatus.DocStore.Overwrite | app/api/routes.py:283-289 | a status the workflow step leaves in an existing row, changing nothing else |
| DocStatus.Merged | app/services/ai_services/sop_generator.py:220-223 | after an upsert the row has every given column with its new value, keeps every other old column, and has no column from elsewhere |
| ScreenshotDownload.DownloadScreenshot | app/utils/download_screenshot.py:10-35 | returns `(temp_path, file_name)` exactly when the download gave bytes and the file could be written; a non-bytes answer writes nothing; after an exception the local file is gone unless its removal failed; it never raises |
| ScreenshotDownload.DownloadAll | app/api/routes.py:148-169 | the gathered downloads give one result per task, in task order, each that task's own outcome; every new local file is a reported success or a file whose removal failed |
| ScreenshotDownload.Paths | app/api/routes.py:176 | the tracked temporary paths are the first components of the kept results, in order |
| ScreenshotDownload.KeptSpec | app/api/routes.py:171-179 | exactly the successful results are kept, nothing is added, and nothing is kept exactly when every download failed |
| ScreenshotDownload.KeepDownloaded | app/api/routes.py:171-181 | the loop over the results appends every success to `screenshot_info`, its path to `temp_files`, and counts them |
| ScreenshotDownload.KeptOutcomes | app/api/routes.py:169-179 | folding the per-task results gives exactly the saved tasks, in order |
| ScreenshotDownload.DownloadedSpec | app/api/routes.py:169-179 | a screenshot is recorded exactly when its task's download was saved, and none is recorded exactly when no task was |
| TemplateLookup.FromRecord | app/api/routes.py:85-87 | a row with `components` always yields a found template |
| TemplateLookup.PrivateWins | app/api/routes.py:85-87 | in either lookup, a usable private row decides: the public table's rows, failure or missing response change nothing |
| TemplateLookup.PublicIsFallback | app/api/routes.py:88-102 | in either lookup, a found schema comes from the public table only when the private query answered without a usable row, and never after it raised |
| TemplateLookup.NotFoundExactly | app/api/routes.py:73-113 | the current lookup finds nothing exactly when neither query raises and neither gives a usable row (a missing response gives none); it raises exactly when the private query raises or, without a usable private row, the public one does |
| TemplateLookup.LegacyLookupOutcomes | API/app.py:129-164 | the earlier lookup finds nothing exactly when both queries answer without a usable row, and answers 500 exactly when the private query raises or returns no response, or, without a usable private row, the public one does |
| TemplateLookup.GuardMatters | API/app.py:137-151 | the two lookups agree whenever both responses are present; a missing private response is 500 for the earlier lookup, while the current one treats it as an empty private table |
| TemplateLookup.FoundFields | app/api/routes.py:86-87 | the schema is the row's `components` value and the category its `name`, or 'SOP' when the row has none |
| RagContext.IssueBlock | app/api/routes.py:255 | a match is shown under "<Integration> Item: " |
| RagContext.IssueBlocks | app/api/routes.py:254-257 | one block per match, in order |
| RagContext.KnowledgeBase | app/api/routes.py:266 | the knowledge base is the context under a heading naming the capitalised integration, followed by a newline |
| RagContext.EveryMatchShown | app/api/routes.py:253-257 | every retrieved match appears in the context |
| RagContext.SingleMatch | app/api/routes.py:254-257 | a single match is the whole context, with 'N/A' for a missing id or text |
| RagContext.NoIntegrationNoFetch | app/api/routes.py:248-251 | without an integration name the retrieval is never consulted and the context is the "unavailable" text |
| FileReaders.LowerIdempotent | app/services/file_services/file_readers.py:68 | lower-casing an extension twice is lower-casing it once |
| FileReaders.ReaderIgnoresCase | app/services/file_services/file_readers.py:68-77 | the reader chosen does not depend on the extension's case |
| FileReaders.ReaderForSpec | app/services/file_services/file_readers.py:68-77 | '.xlsx' and '.xls' select the Excel reader, '.pdf' the PDF reader, '.docx' the Word reader, each in any case, and every other extension the text reader |
| FileReaders.ReadExcel | app/services/file_services/file_readers.py:14-23 | a workbook the library cannot open reads as '' |
| FileReaders.PagesTextSplits | app/services/file_services/file_readers.py:31-32 | the text of a document is the texts of its parts, in order |
| FileReaders.NoTextIsEmpty | app/services/file_services/file_readers.py:32 | a page without text contributes nothing (`or ""`) |
| FileReaders.ReadPdf | app/services/file_services/file_readers.py:25-36 | the page loop gives the concatenated text of the pages, and a PDF that cannot be opened gives '' |
| FileReaders.NonEmpty | app/services/file_services/file_readers.py:43 | only non-empty paragraphs are kept |
| FileReaders.NonEmptySpec | app/services/file_services/file_readers.py:43 | exactly the non-empty paragraphs are kept |
| FileReaders.ReadDocx | app/services/file_services/file_readers.py:38-47 | a document the library cannot open reads as '' |
| FileReaders.DocxShowsParagraphs | app/services/file_services/file_readers.py:43 | every non-empty paragraph appears in the Word text |
| FileReaders.ReadersNeverFail | app/services/file_services/file_readers.py:14-55 | no reader raises: a library failure gives '', and the text reader gives the decoded bytes |
| FileReaders.ReadFileByExtension | app/services/file_services/file_readers.py:57-77 | `read_file_by_extension` returns what the reader its extension selects makes of the file |
| PdfValidation.ValidatePdf | app/services/file_services/pdf_validator.py:13-42 | the checks in their order: a missing file is 'not found' whatever else holds, an existing empty one 'empty', a non-empty one that does not open 'invalid'; acceptance in full is PdfValidation.AcceptedExactly |
| PdfValidation.MimeNeverMatters | app/services/file_services/pdf_validator.py:29-35 | the detected MIME type, or a failure to detect one, never changes the outcome |
| PdfValidation.AcceptedExactly | app/services/file_services/pdf_validator.py:13-42 | a file is accepted exactly when it exists, is non-empty and opens as a PDF |
| GenAiFiles.FileApi.constructor | app/services/ai_services/sop_generator.py:43 | the Gemini file store starts with the given files and no deletions |
| GenAiFiles.FileApi.UploadFile | app/services/ai_services/sop_generator.py:91-100 | the upload gives a handle exactly when it succeeds, naming the new file, which then exists |
| GenAiFiles.FileApi.DeleteFile | app/services/ai_services/sop_generator.py:274 | the delete is requested, and the file goes away unless the call raises |
| GenAiFiles.FileApi.Release | app/services/ai_services/sop_generator.py:269-279 | the `finally` block deletes the upload exactly when one was made; a failing delete is only logged |
| SopRecord.TitleRule | app/services/ai_services/sop_generator.py:191-194 | the stored title is the model's `docTitle` when present and truthy, 'SOP' when absent, the generated title when present but falsy, and always truthy |
| SopRecord.AppRecordReadsBack | app/services/ai_services/sop_generator.py:196-223 | the upserted row reads back with id the job, content the Markdown, status 'success' and a truthy title, whatever the row held before |
| SopRecord.LegacyRecordHasNoStatus | API/utils/sop_generator.py:212-233 | the older record has exactly the columns id, category, user_id, title, content and desc, so inserting it records no status |
| RunInputs.StraysLeftBehind | app/api/routes.py:202-231 | a partial PDF or event file the run does not track is among the files the run may leave behind |
| RunInputs.TrackedNonEmpty | app/api/routes.py:209-230 | every tracked path is non-empty, so the clean-up considers it |
| RunInputs.NoStrays | app/api/routes.py:202-231 | a built PDF and a fully written event file leave nothing untracked behind |
| RunInputs.RunFiles | app/api/routes.py:148-245 | once the screenshots, PDF and event steps have run, every tracked path is non-empty, every new file is tracked, unremovable or a possible stray, with no strays every new file is tracked or unremovable, and a partial PDF is never tracked |
| RunInputs.ShotPaths | app/api/routes.py:155-157 | every saved screenshot has a non-empty local path that is never the PDF's path |
| RunInputs.ShotPath | app/api/routes.py:155-157 | the same for one saved screenshot |
| RunInputs.MakePdf | app/api/routes.py:202-214 | the PDF step succeeds exactly when the builder does; a built PDF or a partial one adds the PDF path, a builder that fails before writing adds nothing |
| RunInputs.SaveEvent | app/api/routes.py:217-231 | the event file is saved exactly when the download gives bytes and the local file can be written; anything but bytes writes nothing |
| SopRun.UploadTextSpec | app/api/routes.py:136-146 | no upload gives ''; an upload gives the text of the reader its suffix selects, and its text is left unbound exactly when no document reader takes the suffix |
| SopRun.Fail | app/api/routes.py:105-106 | a fatal check records 'failed' for the job and raises the HTTP error with its code |
| SopRun.ReadUpload | app/api/routes.py:136-146 | the upload is read by the reader its suffix selects, and left unbound for any other suffix |
| SopRun.CollectScreenshots | app/api/routes.py:148-181 | the kept screenshots are exactly the saved downloads of the listing's image names, their local paths are tracked, non-empty and never the PDF's, and every new file is tracked or unremovable |
| SopRun.SaveFiles | app/api/routes.py:202-245 | the PDF and event steps succeed exactly when the PDF is built and the event file saved; a failure records 'failed' and raises 500; the tracked paths are those written in full, and a partial PDF stays behind |
| SopRun.FinishRun | app/api/routes.py:232-297 | the event check, knowledge base, workflow and status read-back give the run's verdict; a failure records 'failed', a success leaves the row with status 'success' |
| SopRun.SaveAndFinish | app/api/routes.py:202-297 | the PDF and event steps then the workflow give the verdict, with the same status writes and file tracking |
| SopRun.ProcessFiles | app/api/routes.py:136-297 | everything after the listing checks gives the verdict; every tracked path is non-empty and every new file is tracked, unremovable or a possible stray |
| SopRun.RunSteps | app/api/routes.py:60-297 | the main `try` block gives the verdict once 'pending' is recorded, writing 'failed' on every failure and leaving status 'success' on success |
| SopRun.GenerateSop | app/api/routes.py:35-332 | `/generate` records 'pending', then either succeeds with status 'success' or records 'failed' twice (the failing step and the outer handler) and raises; a failing store makes it raise the status write's error; after `finally` only unremovable files or possible strays remain, and none but unremovable ones after a success |
| SopRun.SuccessExactly | app/api/routes.py:35-311 | a run succeeds exactly when the template is found, the listings are usable, some screenshot is saved, an event file is chosen, the PDF is built, the event file saved and non-empty, the upload text bound and the workflow returns |
| SopRun.FilesSuccess | app/api/routes.py:136-311 | the same condition for the part after the listing checks |
| SopRun.WorkflowSuccess | app/api/routes.py:232-311 | the workflow part succeeds exactly when the event text is non-empty, the upload text bound and the workflow returns |
| SopRun.SuccessReports | app/api/routes.py:272-311 | a successful run reports one file more than the screenshots it saved, and hands the workflow the found schema and category, the upload text, the knowledge base and the PDF |
| SopRun.UnknownUploadFails | app/api/routes.py:137-146 | an upload with a suffix no document reader takes leaves `uploaded_file_content` unbound, so the run never succeeds and raises 500 at the workflow step once the earlier steps pass |
| SopRun.FatalOrder | app/api/routes.py:122-236 | the fatal checks decide in their order: listings (404), screenshots (404), event file (404), empty event data (400) |
| SopRun.LookupFirst | app/api/routes.py:73-113 | the template lookup decides first: a template in neither table is 404 and a failing query 500, whatever the bucket holds |
| SopRun.RetrievalNeverAborts | app/api/routes.py:247-263 | the retrieval never decides whether a run succeeds; it only changes the knowledge base |
| LegacyRun.DownloadSequentially | API/app.py:186-211 | the screenshots are downloaded one at a time: exactly the saved ones are recorded, in order, with their paths tracked, and every new file is tracked or unremovable |
| LegacyRun.DownloadShots | API/app.py:186-211 | the run's screenshots are the saved downloads of the listing's image names, each under a non-empty path other than the PDF's |
| LegacyRun.SaveFiles | API/app.py:230-257 | the PDF and event steps succeed exactly when the PDF is built and the event file saved; each file is tracked once complete, and any other new file is a stray of these steps |
| LegacyRun.RunWorkflow | API/app.py:258-310 | the event data check then the workflow give the older run's verdict |
| LegacyRun.ProcessFiles | API/app.py:186-323 | the downloads, file checks, PDF, event file and workflow give the verdict; tracked paths are non-empty and every new file is tracked, unremovable or a possible stray |
| LegacyRun.RunSteps | API/app.py:125-323 | the main `try` block gives the verdict, in which a template query raising or returning no response is 500, with the same file guarantees |
| LegacyRun.GenerateSop | API/app.py:95-342 | the older `/generate_sop/` gives the verdict, where the unguarded template lookup answers 500 for a missing response; after `finally` only unremovable files or possible strays remain, and only unremovable ones after a success; no status is ever recorded |
| LegacyRun.SuccessExactly | API/app.py:125-323 | an older run succeeds exactly when every check passes |
| LegacyRun.FilesSuccess | API/app.py:186-323 | the part after the listing checks succeeds exactly when a screenshot is saved, an event file chosen, the PDF built, the event file saved and non-empty, and the workflow returns |
| LegacyRun.SuccessReports | API/app.py:293-323 | a successful older run counts the upload as one more file processed, and hands the workflow the found schema and category and the upload's text |
| LegacyRun.UploadNeverFails | API/app.py:112-123 | an upload never decides whether the older run succeeds: a suffix no document reader takes is decoded as text |
| LegacyRun.FatalOrder | API/app.py:173-268 | listings, screenshots and event file fail with 404 in that order, then empty event data with 400 |
| Endpoints.RephraseAsWrittenNeverAnswers | app/api/routes.py:345-397 | as written, `/rephrase` never answers: invalid inputs give 400 and every valid request 500, because `rephrase_prompt_template` is never imported |
| Endpoints.RephraseAsWrittenFailsOnValidInput | app/api/routes.py:349-372 | a concrete valid request (query 'shorter', text 'ab', section 'a') that fails with 500 as written |
| Endpoints.Rephrase | app/api/routes.py:345-397 | with the template in scope, a request is answered exactly when its inputs are valid and the model answers, with the model's content; invalid inputs give 400 and a failing model 500 |
| Endpoints.RephraseChecksUnchanged | app/api/routes.py:349-354 | the corrected endpoint rejects exactly the inputs the one as written rejects, with the same 400 |
| Endpoints.NameOr | app/api/routes.py:417 | `filename or default_filename`: a missing or empty name gives the default |
| Endpoints.ConvertMarkdown | app/api/routes.py:401-427 | 'pdf' and 'docx' are streamed with their media type and the given or default file name; any other format is refused with 400 before conversion; a failing converter gives 500 |
| Endpoints.FormatIsCaseSensitive | app/api/routes.py:406-415 | the format is matched exactly, so 'PDF' is refused with 400 |
| SopGeneration.WriteFailed | app/services/ai_services/sop_generator.py:99 | `update_document_status(..., "failed")` records 'failed' and sets the job's status when the store is up, and changes nothing when it is down |
| SopGeneration.Generate | app/services/ai_services/sop_generator.py:113-186 | the model's answer, its parse and its rendering give the article and Markdown, or the failing step, whose own handler writes 'failed' |
| SopGeneration.Save | app/services/ai_services/sop_generator.py:210-248 | the upsert fails when the store is down; an answer without rows writes 'failed' twice (the check and the step's handler); otherwise it records 'success' and merges the record into the job's row |
| SopGeneration.FailedSnoc | app/services/ai_services/sop_generator.py:261-268 | one more 'failed' write extends the run of 'failed' writes by one |
| SopGeneration.GenerateAndSave | app/services/ai_services/sop_generator.py:102-248 | once the PDF is uploaded, generating, rendering and saving give the step's verdict, each failure writing one fewer 'failed' than the whole step, and a success leaving the merged finished record |
| SopGeneration.Steps | app/services/ai_services/sop_generator.py:65-259 | the `try` body gives the verdict; the upload is made exactly when the checks before it pass, and is not yet deleted |
| SopGeneration.GenerateSopDocx | app/services/ai_services/sop_generator.py:24-279 | `generate_sop_docx` checks the credentials first, returns the document (status 'success', merged record) or raises after writing 'failed' as many times as its step requires, and deletes the upload in `finally` exactly when one was made |
| SopGeneration.StatusSetTwice | app/services/ai_services/sop_generator.py:261-268 | writing the same status twice leaves the row as writing it once |
| SopGeneration.SuccessExactly | app/services/ai_services/sop_generator.py:24-259 | a document is returned exactly when the credentials are set, the schema is a non-empty dict, the config builds, the PDF is valid, the upload succeeds, the model answers non-empty JSON that parses to a dict which renders, and the store saves; its id is the job and its title truthy |
| SopGeneration.FailuresAreRecorded | app/services/ai_services/sop_generator.py:65-268 | every failure inside the `try` is recorded as 'failed' between one and three times, at least twice once the upload is made; only missing credentials write nothing |
| SopGeneration.ChecksInOrder | app/services/ai_services/sop_generator.py:56-100 | credentials are checked before anything else, then the schema whatever the store does, then the upload |
| SopGeneration.MimeNeverFails | app/services/ai_services/sop_generator.py:85-87 | a MIME mismatch never changes the step's outcome |
| LegacySopGeneration.PromptCallRejected | API/utils/sop_generator.py:108-114 | the prompt call's keywords do not bind to the imported `get_prompt(user_query, event_text, KB, format_instructions)`, but do bind to the current service's signature |
| LegacySopGeneration.AsWrittenNeverSucceeds | API/utils/sop_generator.py:19-292 | as written, no run returns a document, and every run that uploads fails at the prompt call |
| LegacySopGeneration.MarkdownAsWrittenFails | API/utils/sop_generator.py:183 | the three-argument call of the one-argument `create_markdown` raises on the empty article, which the corrected call renders |
| LegacySopGeneration.ChainOfNothing | API/utils/markdownit.py:18-238 | sections that all contribute nothing make a document that raises nothing |
| LegacySopGeneration.Generate | API/utils/sop_generator.py:119-199 | with the calls corrected, the model's answer, its parse and its rendering give the article and Markdown or the failing step |
| LegacySopGeneration.GenerateSopDocx | API/utils/sop_generator.py:19-292 | with the two calls corrected, no status is ever recorded, a failure leaves the table unchanged, a success inserts the finished record, and `finally` deletes the upload exactly when one was made |
| LegacySopGeneration.SuccessExactly | API/utils/sop_generator.py:51-270 | a corrected run returns a document exactly when every step passes and the job's id is new to the table; the document id is the job's and the title truthy |
| LegacySopGeneration.CredentialsInsideTry | API/utils/sop_generator.py:51-65 | the schema is checked before the credentials, which are checked inside the `try` before any upload |
| LegacySopGeneration.AgreeBeforePrompt | API/utils/sop_generator.py:51-103 | the corrected step and the step as written agree on every run that stops before the prompt |
| Atlassian.SpaceKeyOnlyWhenGiven | app/services/mcp_services/atlassian_mcp.py:57-63 | the search arguments always hold the query and the limit, and hold the space key exactly when a non-empty one is given |
| Atlassian.AtlassianClient.constructor | app/services/mcp_services/atlassian_mcp.py:17-22 | a new client has no session and has made no tool call |
| Atlassian.AtlassianClient.Enter | app/services/mcp_services/atlassian_mcp.py:24-32 | entering the context opens the session, or re-raises the connection failure and leaves the client as it was |
| Atlassian.AtlassianClient.Exit | app/services/mcp_services/atlassian_mcp.py:34-38 | leaving the context raises exactly when a session is open and closing it raises; without a session nothing is closed |
| Atlassian.AtlassianClient.SearchConfluence | app/services/mcp_services/atlassian_mcp.py:40-80 | without a session it raises `RuntimeError` and calls nothing; with one it makes exactly one `confluence_search` call with the built arguments and returns the search answer |
| Atlassian.AtlassianClient.GetPageContent | app/services/mcp_services/atlassian_mcp.py:82-110 | without a session it raises `RuntimeError`; with one it makes exactly one `confluence_get_page` call with the page id and returns the page answer |
| Atlassian.AtlassianClient.SearchJira | app/services/mcp_services/atlassian_mcp.py:112-144 | without a session it raises `RuntimeError`; with one it makes exactly one `jira_search` call with the JQL and the limit and returns the search answer |
| Atlassian.SearchAnswerSpec | app/services/mcp_services/atlassian_mcp.py:68-80 | a failed call or an empty reply gives []; parsed content with a length is returned as is, anything else gives []; a page answer is present exactly when the parsed content is a dict |
| Atlassian.JqlForm | app/services/mcp_services/atlassian_mcp.py:209-218 | the JQL is `project = KEY AND text ~ "query"` with a non-empty project key and `text ~ "query"` without, the query inserted unescaped |
| Atlassian.Top3 | app/services/mcp_services/atlassian_mcp.py:175 | the slice `[:3]` is the prefix of the results of length at most three, and all of them when there are no more than three |
| Atlassian.UnreadableStays | app/services/mcp_services/atlassian_mcp.py:175-184 | once a result cannot be read, no later result makes the run readable |
| Atlassian.EntriesSnoc | app/services/mcp_services/atlassian_mcp.py:175-184 | one more result formats exactly when the results before it do and it can be read |
| Atlassian.ReadableSnoc | app/services/mcp_services/atlassian_mcp.py:175-184 | all results of a run are readable exactly when all but the last are and the last is |
| Atlassian.EntriesReadable | app/services/mcp_services/atlassian_mcp.py:175-184 | a run of results formats exactly when every result in it can be read |
| Atlassian.EntriesStep | app/services/mcp_services/atlassian_mcp.py:175-184 | the lines of one more result are appended to those before it, or reading it raises |
| Atlassian.CollectEntries | app/services/mcp_services/atlassian_mcp.py:175-184 | the loop leaves the lines of all results, numbered from 1, or the failure of the first unreadable one |
| Atlassian.FormatResults | app/services/mcp_services/atlassian_mcp.py:172-186 | the context is the header, then the numbered lines of the first three results, joined by newlines |
| Atlassian.FetchConfluenceContext | app/services/mcp_services/atlassian_mcp.py:147-192 | the function returns the Confluence context for every connection, reply and closing of the session (a closing that raises replaces the body's text by the error text), and makes one `confluence_search` call with limit 5 exactly when the client connects |
| Atlassian.FetchJiraContext | app/services/mcp_services/atlassian_mcp.py:195-248 | the function returns the Jira context for every connection, reply and closing of the session (a closing that raises replaces the body's text by the error text), and makes one `jira_search` call with the built JQL and limit 5 exactly when the client connects |
| Atlassian.OnlyFirstThree | app/services/mcp_services/atlassian_mcp.py:175 | results after the third never change the context |
| Atlassian.EntryShape | app/services/mcp_services/atlassian_mcp.py:176-184 | a readable page gives its numbered title line, a URL line exactly when the URL is non-empty, content cut to 1000 characters and the separator; an issue gives four lines with the description cut to 500 |
| Atlassian.SeparatorIsDashes | app/services/mcp_services/atlassian_mcp.py:184 | the separator is fifty dashes |
| Atlassian.RepeatChars | app/services/mcp_services/atlassian_mcp.py:184 | repeating a one-character string gives that character at every position |
| Atlassian.FormattedStartsWithHeader | app/services/mcp_services/atlassian_mcp.py:173 | formatted results open with their header |
| Atlassian.NotNoResults | app/services/mcp_services/atlassian_mcp.py:169 | an error text or formatted results never equal the no-results text |
| Atlassian.ContextOutcomes | app/services/mcp_services/atlassian_mcp.py:158-192 | the context is the no-results text, an error text or the formatted results under their header; it is the no-results text exactly when the session opens, the answer is falsy and closing the session does not raise; a closing that raises always gives the error text |
| McpConfig.ConfiguredFromEnvironment | app/config/mcp_config.py:27-43 | Confluence (and likewise Jira) counts as configured exactly when its base URL, username and API token are all set to non-empty values; the space and project keys play no part |
| McpConfig.ConfigDictionaries | app/config/mcp_config.py:45-61 | each configuration dictionary has exactly its product's three keys, each bound to the variable of that name (None when unset) |
| McpConfig.McpEnvironmentSpec | app/services/mcp_services/langchain_mcp_agent.py:56-67 | the server's environment is the process environment plus the keys of each configured product; Jira's values override Confluence's, which override the process's, and nothing else is added |
| McpConfig.SameEnvironmentUnchanged | app/services/mcp_services/langchain_mcp_agent.py:56-67 | when the settings come from the same environment, the server sees the process environment unchanged |
| McpAgent.Agent.constructor | app/services/mcp_services/langchain_mcp_agent.py:29-54 | with a Google key, the agent's server runs `npx -y @sooperset/mcp-atlassian` with the MCP environment, and the model is `gemini-2.0-flash` at temperature 0.1 and gets the key |
| McpAgent.AgentSlot.constructor | app/services/mcp_services/langchain_mcp_agent.py:181 | the module starts without an agent instance |
| McpAgent.AgentSlot.GetMcpAgent | app/services/mcp_services/langchain_mcp_agent.py:183-188 | the first successful call builds the agent and stores it, and later calls return that same object; without a Google key it raises and the slot stays empty |
| McpAgent.OnlyLastMessageCounts | app/services/mcp_services/langchain_mcp_agent.py:121-133 | the context is the last message's content (or its text), so earlier messages never matter; an empty message list gives the error text of an `IndexError` |
| McpAgent.LayoutEnds | app/services/mcp_services/langchain_mcp_agent.py:212-223 | the returned text opens with its header block and ends with its closing block |
| McpAgent.LayoutSpace | app/services/mcp_services/langchain_mcp_agent.py:217 | the space line is inserted right after the query block |
| McpAgent.LayoutProject | app/services/mcp_services/langchain_mcp_agent.py:218 | the project line is inserted right after the space line |
| McpAgent.WrappedFrame | app/services/mcp_services/langchain_mcp_agent.py:212-223 | the agent's context appears unchanged between the fixed header (with the query) and the footer |
| McpAgent.SpaceLineOnlyWhenGiven | app/services/mcp_services/langchain_mcp_agent.py:217 | an absent or empty space key adds nothing; a given one adds exactly its "Confluence Space: " line and changes nothing else |
| McpAgent.ProjectLineOnlyWhenGiven | app/services/mcp_services/langchain_mcp_agent.py:218 | an absent or empty project key adds nothing; a given one adds exactly its "Jira Project: " line and changes nothing else |
| McpAgent.FetchIntelligentContext | app/services/mcp_services/langchain_mcp_agent.py:191-227 | when the agent cannot be built, the text is the error message; otherwise it is the wrapped context of the agent's run, and the stored instance is kept |
| Initializers.ServiceManager.constructor | app/core/initializers.py:25-35 | a new manager holds no model, no client, no embedding model and no libmagic flag |
| Initializers.ServiceManager.LoadConfiguration | app/core/initializers.py:54-62 | loading adds the `.env` variables the process does not already have, and `set_env` raises exactly when `GOOGLE_API_KEY` is then still unset (app/config/config.py:4-11) |
| Initializers.ServiceManager.InitializeGenai | app/core/initializers.py:64-79 | raises exactly when the Google key is unset or empty, leaving the model untouched; otherwise the model is the one `GENAI_MODEL` names, "gemini-2.0-flash" by default |
| Initializers.ServiceManager.InitializeSupabase | app/core/initializers.py:81-94 | raises exactly when the URL or the service-role key is unset or empty, leaving the client untouched; otherwise the client is built on both |
| Initializers.ServiceManager.InitializeEmbeddingModel | app/core/initializers.py:96-111 | raises exactly when the Google key is unset or empty; otherwise the embedding model is "models/embedding-001" on that key |
| Initializers.ServiceManager.Initialize | app/core/initializers.py:30-52 | every service is reset, then the steps run in order until the first one that raises, which is the verdict; services set before it stay, the ones after it stay unset, and the manager is ready exactly when nothing raised |
| Initializers.AccessorGuards | app/core/initializers.py:124-187 | each accessor answers exactly when its service is set, and raises `RuntimeError` with the source's message otherwise; `generate_embeddings` fails for a missing model exactly when the accessor would |
| Initializers.MimeFallback | app/core/initializers.py:150-166 | the MIME type is libmagic's answer when libmagic is available and answers, otherwise the `mimetypes` guess, otherwise "application/octet-stream"; libmagic is never consulted when unavailable |
| Initializers.KeyChecks | app/core/initializers.py:54-111 | an unset Google key fails already when the configuration is loaded, so the generation step's `ValueError` comes only from an empty key; initialisation succeeds exactly when the key and both Supabase settings are non-empty |
| Initializers.ServiceManagerClass.constructor | app/core/initializers.py:22-23 | the class starts without an instance and not initialised |
| Initializers.ServiceManagerClass.Construct | app/core/initializers.py:25-37 | the first call creates the one instance, later calls reuse it; initialisation runs only while the flag is false, the flag is set only on success, and a failed initialisation is retried on the same object |

## Left out

- Concurrency: the semaphore and `asyncio.gather` over the screenshot downloads (app/api/routes.py:161-169) and the thread-pool executor of `download_screenshot` are modelled as a sequence of per-download outcomes in task order, so interleavings are not represented.
- Supabase, Gemini, the embedding model, the MCP servers, pandoc, reportlab and the RAG fetchers are calls into outside code: each is a parameter holding what it answers (an upload handle or a failure, the model's text, the parsed JSON, the retrieved issues or an exception, a converter that raises or not). What they compute is not part of this model.
- `json.loads`, PyPDF2, python-docx, pandas, libmagic and `mimetypes` are represented by what they make of their input; their parsing is not modelled. JSON numbers other than integers are not represented.
- Exception messages and logging: an error is modelled by the step that raised it or the HTTP status it becomes, not by its message text, except where the message becomes part of a returned string (the Atlassian, agent and RAG context texts).
- The UTF-8 encoding of the rendered Markdown into a byte buffer: `AppMarkdown.CreateMarkdown` and `LegacyMarkdown.CreateLegacyMarkdown` end at the joined string.
- Wall-clock timestamps are parameters. The contents of `output.json` are not modelled, but a failure to write it is: the write sits inside the generation's `try`, so it is one of the ways the step reaches `GenerationRaises` ("Content generation failed", and in the current step the 'failed' status). The debug copies written under `SAVE_DEBUG_OUTPUT` have their own `try` that only logs, so the returned values do not depend on them.
- Prompt wording and the agent's reasoning: the prompt templates are text, and the ReAct agent's run is a parameter (`McpAgent.FetchIntelligentContext` takes the agent's result).
- `search_confluence_intelligently` and `search_jira_intelligently` (app/services/mcp_services/langchain_mcp_agent.py:135-177) only put prompt text in front of `search_for_sop_context` and are called from nowhere in the repository.
- The converters (`app/services/file_services/docx_converter.py`, `pdf_converter.py` and their `API/utils` counterparts) and `create_pdf_from_screenshots` are not part of this model: the download endpoint and the runs see only whether they raise (and, for the PDF, whether a partial file is left).
- The event-file readers (`app/utils/json_parser.py`, `API/parsers.py`) return a string, so the check for a parsed list holding an `"error"` entry (app/api/routes.py:237-239, API/app.py:262-263) can never fire; the event data is a string that is empty on failure.
- The pydantic declarations, the demo code under `ResearchSection/`, `API/workflow.py`, `API/sop_generator.py` and the application wiring are not part of this model.
- The module-level `service_manager = ServiceManager()` that runs when app/core/initializers.py is imported, and the accessor wrappers `get_genai_model`/`get_supabase_client`, are not modelled separately; `Initializers.ServiceManagerClass.Construct` is that construction.
- DocStatus.DocStore.UpdateDocumentStatus, DocStatus.DocStore.Upsert and DocStatus.DocStore.Insert: a store is either up for every request of a run or down for every request (`down`), so a store that fails one request and answers the next is not represented.
- DocStatus.DocStore.Insert: an `id` already present in `generated_docs` is assumed to be refused as a key conflict, as the table's primary key makes it.
- SopGeneration.Save: whether the upsert answer carries rows is a parameter (`saveAnswered`); a store that is up but answers with no rows is covered, but why it would is not modelled.
- Atlassian.FetchConfluenceContext and Atlassian.FetchJiraContext: a result field that is present but not a string (a number, a list, null) is treated as making the formatting raise, giving the error text, whereas Python would format it with `str()`.
- Initializers.ServiceManager.InitializeGenai, Initializers.ServiceManager.InitializeSupabase and Initializers.ServiceManager.InitializeEmbeddingModel: `genai.configure`, `create_client` and `GoogleGenerativeAIEmbeddings` are assumed not to raise once their settings are non-empty.
- Initializers.ServiceManager.Initialize: the `_check_magic_availability` step is the availability flag passed in; whether `import magic` succeeds is not modelled.
- PyText.Lower: only the ASCII capitals 'A'-'Z' are lowered; Python's `str.lower()` also lowers non-ASCII cased letters ('É' to 'é'), which the model keeps unchanged, and can change the length ('İ' lowers to two characters). The suffix comparisons it serves are unaffected: the only non-ASCII characters Python lowers to ASCII letters give 'k' and 'i', which none of the suffixes compared (".pdf", ".docx", ".xls", ".xlsx", ".json", ".png", ".jpg", ".jpeg") contains.
- PyText.Capitalize: the case mapping is ASCII-only; Python's `str.capitalize()` also maps non-ASCII letters ("ébène" to "Ébène"), which the model keeps unchanged.
- RagContext.KnowledgeBase: the heading capitalises the integration name through PyText.Capitalize, so an integration name starting with a non-ASCII letter keeps that letter's case in the model.
- StorageNames.SafeName: `\w` is taken as the ASCII letters and digits and '_'; on a Python 3 `str` it also matches non-ASCII letters and digits, which the model replaces with '_' ("événements.json" becomes "_v_nements.json" in the model but is kept by the program).
- StorageNames.JsonLocalNameSafe: the safety it proves is over the ASCII reading of `\w`; what it states about '/' and about the length holds for the program's own reading as well, since `\w` never matches '/' and `re.sub` keeps the length.
- PyText.BaseName: `PurePath` also drops '.' components before taking the name (`PurePath("a.b/.").name` is "a.b"); the model only drops trailing '/' characters, so its final component of "a.b/." is ".".

## Findings

| source | as written | input that shows it | evidently intended | confidence | as-written member | corrected member |
|---|---|---|---|---|---|---|
| app/api/routes.py:368 | `rephrase_markdown` formats `rephrase_prompt_template`, which routes.py never imports, so every request that passes the input checks raises `NameError` and answers 500 | query "shorter", markdown "ab", section "a" | the rephrased section from the model, and 500 only when the model fails | not executed | Endpoints.RephraseAsWrittenFailsOnValidInput | Endpoints.Rephrase |
| API/utils/sop_generator.py:108-114 | the earlier `generate_sop_docx` calls `get_prompt` with `contents=` and `generation_schema_str=`, keywords the imported `get_prompt(user_query, event_text, KB, format_instructions)` (API/prompts/technical_article_prompt.py:85) does not accept, so every run that reaches the prompt raises `TypeError` | any run whose schema, credentials, PDF and upload are valid | the prompt built and the article generated, as in the current service | not executed | LegacySopGeneration.AsWrittenNeverSucceeds | LegacySopGeneration.SuccessExactly |
| API/utils/sop_generator.py:183 | `create_markdown(article_dict, user_id, job_id)` calls the one-parameter `create_markdown(article_dict)` of API/utils/markdownit.py:4 with three arguments, so rendering raises `TypeError` for every article; as written this call is never reached, because the `get_prompt` `TypeError` of the row above always fires first, so it shows only once that call is corrected | the empty article `{}` | the article rendered by the earlier renderer | not executed | LegacySopGeneration.MarkdownAsWrittenFails | LegacySopGeneration.Generate |
