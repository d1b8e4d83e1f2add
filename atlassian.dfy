/**
 * The Atlassian client over an MCP session, and the two context strings
 * built from its Confluence and Jira searches. The session is reached
 * through tool calls whose replies are inputs; the strings never raise.
 */
module Atlassian {
  import opened Wrappers
  import opened Json
  import opened PyText

  /**
   * What a tool call yields: an exception (a reply that is not JSON
   * included), no content, or the parsed text of the first content item.
   */
  datatype ToolReply = ToolRaises | NoContent | Content(data: Json)

  /** A tool call as the client makes it: the tool's name and its arguments. */
  datatype Call = Call(tool: string, args: seq<(string, Json)>)

  /** Opening the stdio session: it raises, or a session is open. */
  datatype Connection = ConnectRaises | Connects

  /** The `RuntimeError` of a method called without a session. */
  datatype GuardError = NotConnected

  /** `{"query": query, "limit": limit}`, with `space_key` added only when one is given. */
  function SearchArgs(query: string, spaceKey: Option<string>, limit: int): seq<(string, Json)> {
    [("query", Str(query)), ("limit", Int(limit))] +
    (if spaceKey.Some? && spaceKey.value != [] then [("space_key", Str(spaceKey.value))] else [])
  }

  /** The space key is an argument exactly when a non-empty one is given; query and limit always are. */
  lemma SpaceKeyOnlyWhenGiven(query: string, spaceKey: Option<string>, limit: int)
    ensures HasKey(SearchArgs(query, spaceKey, limit), "space_key") <==> spaceKey.Some? && spaceKey.value != []
    ensures Get(SearchArgs(query, spaceKey, limit), "query") == Some(Str(query))
    ensures Get(SearchArgs(query, spaceKey, limit), "limit") == Some(Int(limit))
    ensures spaceKey.Some? && spaceKey.value != [] ==> Get(SearchArgs(query, spaceKey, limit), "space_key") == Some(Str(spaceKey.value))
  {
    var args := SearchArgs(query, spaceKey, limit);
    var first := [("query", Str(query))];
    var base := [("query", Str(query)), ("limit", Int(limit))];
    assert first[..0] == [] && base[..1] == first;
    assert Get(first, "query") == Some(Str(query)) && Get(first, "space_key") == None;
    assert Get(base, "query") == Some(Str(query)) && Get(base, "space_key") == None;
    GetSpec(base, "space_key");
    if spaceKey.Some? && spaceKey.value != [] {
      assert args[..2] == base;
      assert args[2] == ("space_key", Str(spaceKey.value));
    } else {
      assert args == base;
    }
  }

  /**
   * A search's result: the parsed content when it has a length (logging
   * `len` of anything else raises); [] when there is none or anything raises.
   */
  function SearchAnswer(reply: ToolReply): Json {
    match reply
    case Content(Str(s)) => Str(s)
    case Content(Arr(items)) => Arr(items)
    case Content(Obj(fields)) => Obj(fields)
    case _ => Arr([])
  }

  /** A page's content: the parsed content when it is a dict (logging its title reads it as one); None otherwise. */
  function PageAnswer(reply: ToolReply): Option<Json> {
    match reply
    case Content(Obj(fields)) => Some(Obj(fields))
    case _ => None
  }

  class AtlassianClient {
    /** Whether `session` is set. */
    var connected: bool
    /** Every tool call made on the session, in order. */
    var calls: seq<Call>

    constructor ()
      ensures !connected && calls == []
    {
      connected := false;
      calls := [];
    }

    /** `__aenter__`: the session is opened, or the exception propagates and nothing changes. */
    method Enter(conn: Connection) returns (raised: bool)
      modifies this`connected
      ensures raised <==> conn == ConnectRaises
      ensures connected == (old(connected) || !raised)
    {
      raised := conn == ConnectRaises;
      if !raised {
        connected := true;
      }
    }

    /**
     * `__aexit__`: with a session, closing it either raises or returns; the
     * client returns None, so an exception from the body is never swallowed.
     * Without a session nothing is closed and nothing raises.
     */
    method Exit(exitRaises: bool) returns (raised: bool)
      ensures raised <==> connected && exitRaises
    {
      raised := connected && exitRaises;
    }

    /** `search_confluence`: `RuntimeError` without a session; otherwise one `confluence_search` call. */
    method SearchConfluence(query: string, spaceKey: Option<string>, limit: int, reply: ToolReply)
      returns (r: Result<Json, GuardError>)
      modifies this`calls
      ensures !connected ==> r == Err(NotConnected) && calls == old(calls)
      ensures connected ==>
        r == Ok(SearchAnswer(reply)) &&
        calls == old(calls) + [Call("confluence_search", SearchArgs(query, spaceKey, limit))]
    {
      if !connected {
        return Err(NotConnected);
      }
      calls := calls + [Call("confluence_search", SearchArgs(query, spaceKey, limit))];
      r := Ok(SearchAnswer(reply));
    }

    /** `get_page_content`: `RuntimeError` without a session; otherwise one `confluence_get_page` call. */
    method GetPageContent(pageId: string, reply: ToolReply) returns (r: Result<Option<Json>, GuardError>)
      modifies this`calls
      ensures !connected ==> r == Err(NotConnected) && calls == old(calls)
      ensures connected ==>
        r == Ok(PageAnswer(reply)) &&
        calls == old(calls) + [Call("confluence_get_page", [("page_id", Str(pageId))])]
    {
      if !connected {
        return Err(NotConnected);
      }
      calls := calls + [Call("confluence_get_page", [("page_id", Str(pageId))])];
      r := Ok(PageAnswer(reply));
    }

    /** `search_jira`: `RuntimeError` without a session; otherwise one `jira_search` call. */
    method SearchJira(jql: string, limit: int, reply: ToolReply) returns (r: Result<Json, GuardError>)
      modifies this`calls
      ensures !connected ==> r == Err(NotConnected) && calls == old(calls)
      ensures connected ==>
        r == Ok(SearchAnswer(reply)) &&
        calls == old(calls) + [Call("jira_search", [("jql", Str(jql)), ("limit", Int(limit))])]
    {
      if !connected {
        return Err(NotConnected);
      }
      calls := calls + [Call("jira_search", [("jql", Str(jql)), ("limit", Int(limit))])];
      r := Ok(SearchAnswer(reply));
    }
  }

  /** Every answer a search can give is a list or the parsed content, and it is [] whenever the call raised. */
  lemma SearchAnswerSpec(reply: ToolReply)
    ensures reply.ToolRaises? || reply.NoContent? ==> SearchAnswer(reply) == Arr([])
    ensures reply.Content? && (reply.data.Str? || reply.data.Arr? || reply.data.Obj?) ==> SearchAnswer(reply) == reply.data
    ensures reply.Content? && !(reply.data.Str? || reply.data.Arr? || reply.data.Obj?) ==> SearchAnswer(reply) == Arr([])
    ensures PageAnswer(reply).Some? <==> reply.Content? && reply.data.Obj?
  {
  }

  /** `f'project = {project_key}'` when a key is given, then `f'text ~ "{query}"'`, joined with " AND ". */
  function Jql(query: string, projectKey: Option<string>): string {
    Join(" AND ", (if projectKey.Some? && projectKey.value != [] then ["project = " + projectKey.value] else []) +
                  ["text ~ \"" + query + "\""])
  }

  /** The two forms of the JQL; the query is inserted as given, without escaping. */
  lemma JqlForm(query: string, projectKey: Option<string>)
    ensures projectKey.Some? && projectKey.value != [] ==>
      Jql(query, projectKey) == "project = " + projectKey.value + " AND " + "text ~ \"" + query + "\""
    ensures !(projectKey.Some? && projectKey.value != []) ==> Jql(query, projectKey) == "text ~ \"" + query + "\""
  {
    var text := "text ~ \"" + query + "\"";
    if projectKey.Some? && projectKey.value != [] {
      var parts := ["project = " + projectKey.value, text];
      assert parts[..1] == ["project = " + projectKey.value];
    }
  }

  /** Which search a context string is built from. */
  datatype Source = Confluence | Jira

  /** The line closing each formatted result: `"-" * 50`. */
  const SeparatorWidth: nat := 50

  const Separator := Repeat("-", SeparatorWidth)

  /** What a source holds, as its messages name it. */
  function Subject(src: Source): string {
    match src
    case Confluence => "Confluence documentation"
    case Jira => "Jira issues"
  }

  function Header(src: Source): string {
    match src
    case Confluence => "=== RELEVANT " + "CONFLUENCE DOCUMENTATION" + " ===\n"
    case Jira => "=== RELEVANT " + "JIRA ISSUES" + " ===\n"
  }

  function NoResults(src: Source): string {
    "No relevant " + Subject(src) + " found for this query."
  }

  function ErrorPrefix(src: Source): string {
    "Error fetching " + Subject(src) + ": "
  }

  /** `d.get(key, default)` read as text; None for a value that is not a string. */
  function TextOr(fields: seq<(string, Json)>, key: string, default: string): Option<string> {
    match Get(fields, key)
    case None => Some(default)
    case Some(Str(s)) => Some(s)
    case Some(_) => None
  }

  /** Whether a result can be formatted: a dict whose fields the formatting reads are text. */
  predicate Readable(src: Source, item: Json) {
    item.Obj? &&
    match src
    case Confluence =>
      TextOr(item.fields, "title", "Unknown Title").Some? &&
      TextOr(item.fields, "content", "").Some? &&
      TextOr(item.fields, "url", "").Some?
    case Jira =>
      TextOr(item.fields, "key", "Unknown Key").Some? &&
      TextOr(item.fields, "summary", "No Summary").Some? &&
      TextOr(item.fields, "description", "").Some? &&
      TextOr(item.fields, "status", "Unknown Status").Some?
  }

  /**
   * The lines a readable result contributes under number `idx`. A
   * Confluence page gives its title, its URL only when non-empty, its
   * content cut to 1000 characters; a Jira issue its key and summary,
   * status and description cut to 500 characters; each cut text ends in
   * "..." and each result in the separator.
   */
  function Lines(src: Source, idx: nat, item: Json): seq<string>
    requires Readable(src, item)
  {
    match src
    case Confluence =>
      PageLines(idx, TextOr(item.fields, "title", "Unknown Title").value,
                TextOr(item.fields, "url", "").value, TextOr(item.fields, "content", "").value)
    case Jira =>
      IssueLines(idx, TextOr(item.fields, "key", "Unknown Key").value,
                 TextOr(item.fields, "summary", "No Summary").value,
                 TextOr(item.fields, "status", "Unknown Status").value,
                 TextOr(item.fields, "description", "").value)
  }

  function PageLines(idx: nat, title: string, url: string, content: string): seq<string> {
    ["Document " + NatToString(idx) + ": " + title] +
    (if url != [] then ["URL: " + url] else []) +
    ["Content: " + Take(content, 1000) + "...", Separator]
  }

  function IssueLines(idx: nat, key: string, summary: string, status: string, description: string): seq<string> {
    ["Issue " + NatToString(idx) + ": " + key + " - " + summary,
     "Status: " + status,
     "Description: " + Take(description, 500) + "...",
     Separator]
  }

  /** The lines one result contributes under number `idx`, or None when reading it raises. */
  function EntryLines(src: Source, idx: nat, item: Json): Option<seq<string>> {
    if Readable(src, item) then Some(Lines(src, idx, item)) else None
  }

  /** The lines of a run of results numbered from 1, or None when one of them cannot be read. */
  function EntriesLines(src: Source, items: seq<Json>): Option<seq<string>>
    decreases |items|
  {
    if items == [] then Some([])
    else
      match EntriesLines(src, items[..|items| - 1])
      case None => None
      case Some(before) =>
        match EntryLines(src, |items|, items[|items| - 1])
        case None => None
        case Some(lines) => Some(before + lines)
  }

  /** `results[:3]`. */
  function Top3(results: seq<Json>): (r: seq<Json>)
    ensures |r| <= 3 && |r| <= |results| && r == results[..|r|]
    ensures |results| <= 3 ==> r == results
  {
    if |results| <= 3 then results else results[..3]
  }

  /** The formatted context for a non-empty result list, or None when a result cannot be read. */
  function Formatted(src: Source, results: seq<Json>): Option<string> {
    match EntriesLines(src, Top3(results))
    case None => None
    case Some(lines) => Some(Join("\n", [Header(src)] + lines))
  }

  /**
   * `fetch_confluence_context` / `fetch_jira_context`: the string handed to
   * the generation, whatever happens; `message` is `str(e)` of the exception
   * that ends it. Once the session is open, `async with` closes it after the
   * body however the body ends; when closing raises (`exitRaises`), the text
   * the body returned is discarded and the exception's text takes its place.
   */
  function Context(src: Source, conn: Connection, reply: ToolReply, exitRaises: bool, message: string): string {
    if conn == ConnectRaises || exitRaises then ErrorPrefix(src) + message
    else
      var results := SearchAnswer(reply);
      if !Truthy(results) then NoResults(src)
      else if !results.Arr? then ErrorPrefix(src) + message
      else
        match Formatted(src, results.items)
        case None => ErrorPrefix(src) + message
        case Some(text) => text
  }

  /** A run of results that cannot be read stays unreadable however it continues. */
  lemma {:induction false} UnreadableStays(src: Source, items: seq<Json>, more: seq<Json>)
    requires EntriesLines(src, items).None?
    ensures EntriesLines(src, items + more).None?
    decreases |more|
  {
    if more != [] {
      var init := more[..|more| - 1];
      UnreadableStays(src, items, init);
      assert (items + more)[..|items + more| - 1] == items + init;
    } else {
      assert items + more == items;
    }
  }

  /** One more result formats exactly when the run before it does and the result can be read. */
  lemma EntriesSnoc(src: Source, items: seq<Json>)
    requires items != []
    ensures EntriesLines(src, items).Some? <==>
      EntriesLines(src, items[..|items| - 1]).Some? && Readable(src, items[|items| - 1])
  {
  }

  /** Every result of a run can be read exactly when every one before the last can, and the last can. */
  lemma ReadableSnoc(src: Source, items: seq<Json>, init: seq<Json>)
    requires items != [] && init == items[..|items| - 1]
    ensures (forall k :: 0 <= k < |items| ==> Readable(src, items[k])) <==>
      (forall k :: 0 <= k < |init| ==> Readable(src, init[k])) && Readable(src, items[|items| - 1])
  {
    if forall k :: 0 <= k < |items| ==> Readable(src, items[k]) {
      forall k | 0 <= k < |init|
        ensures Readable(src, init[k])
      {
        assert init[k] == items[k];
      }
    } else {
      var k :| 0 <= k < |items| && !Readable(src, items[k]);
      if k < |init| {
        assert init[k] == items[k];
      }
    }
  }

  /** A run of results formats exactly when every result in it can be read. */
  lemma {:induction false} EntriesReadable(src: Source, items: seq<Json>)
    ensures EntriesLines(src, items).Some? <==> forall k :: 0 <= k < |items| ==> Readable(src, items[k])
    decreases |items|
  {
    if items != [] {
      EntriesReadable(src, items[..|items| - 1]);
      EntriesSnoc(src, items);
      ReadableSnoc(src, items, items[..|items| - 1]);
    }
  }



  /** One more result extends the lines of the results before it. */
  lemma EntriesStep(src: Source, items: seq<Json>, i: nat)
    requires i < |items|
    ensures EntriesLines(src, items[..i + 1]) ==
      if EntriesLines(src, items[..i]).Some? && Readable(src, items[i])
      then Some(EntriesLines(src, items[..i]).value + Lines(src, i + 1, items[i]))
      else None
  {
    assert items[..i + 1][..i] == items[..i];
  }

  /** The loop over the first three results, appending each result's lines. */
  method CollectEntries(src: Source, top: seq<Json>) returns (lines: Option<seq<string>>)
    ensures lines == EntriesLines(src, top)
  {
    var acc := [];
    var i := 0;
    while i < |top|
      invariant 0 <= i <= |top|
      invariant EntriesLines(src, top[..i]) == Some(acc)
    {
      EntriesStep(src, top, i);
      var entry := EntryLines(src, i + 1, top[i]);
      if entry.None? {
        UnreadableStays(src, top[..i + 1], top[i + 1..]);
        assert top[..i + 1] + top[i + 1..] == top;
        return None;
      }
      acc := acc + entry.value;
      i := i + 1;
    }
    assert top[..i] == top;
    lines := Some(acc);
  }

  /** `context_parts`: the header, then the lines of the first three results, joined by newlines. */
  method FormatResults(src: Source, results: seq<Json>) returns (r: Option<string>)
    ensures r == Formatted(src, results)
  {
    var entries := CollectEntries(src, Top3(results));
    if entries.None? {
      return None;
    }
    r := Some(Join("\n", [Header(src)] + entries.value));
  }

  /**
   * `fetch_confluence_context`: a fresh client, at most one search with
   * limit 5, and the context string; the function never raises.
   */
  method FetchConfluenceContext(client: AtlassianClient, query: string, spaceKey: Option<string>,
                                conn: Connection, reply: ToolReply, exitRaises: bool, message: string)
    returns (text: string)
    requires !client.connected && client.calls == []
    modifies client
    ensures text == Context(Confluence, conn, reply, exitRaises, message)
    ensures client.calls == (if conn == Connects then [Call("confluence_search", SearchArgs(query, spaceKey, 5))] else [])
  {
    var raised := client.Enter(conn);
    if raised {
      return ErrorPrefix(Confluence) + message;
    }
    var found := client.SearchConfluence(query, spaceKey, 5, reply);
    var results := found.value;
    if !Truthy(results) {
      text := NoResults(Confluence);
    } else if !results.Arr? {
      text := ErrorPrefix(Confluence) + message;
    } else {
      var formatted := FormatResults(Confluence, results.items);
      text := if formatted.Some? then formatted.value else ErrorPrefix(Confluence) + message;
    }
    var exitRaised := client.Exit(exitRaises);
    if exitRaised {
      text := ErrorPrefix(Confluence) + message;
    }
  }

  /**
   * `fetch_jira_context`: a fresh client, the JQL built from the query and
   * project key, at most one search with limit 5, and the context string.
   */
  method FetchJiraContext(client: AtlassianClient, query: string, projectKey: Option<string>,
                          conn: Connection, reply: ToolReply, exitRaises: bool, message: string)
    returns (text: string)
    requires !client.connected && client.calls == []
    modifies client
    ensures text == Context(Jira, conn, reply, exitRaises, message)
    ensures client.calls == (if conn == Connects then [Call("jira_search", [("jql", Str(Jql(query, projectKey))), ("limit", Int(5))])] else [])
  {
    var raised := client.Enter(conn);
    if raised {
      return ErrorPrefix(Jira) + message;
    }
    var found := client.SearchJira(Jql(query, projectKey), 5, reply);
    var results := found.value;
    if !Truthy(results) {
      text := NoResults(Jira);
    } else if !results.Arr? {
      text := ErrorPrefix(Jira) + message;
    } else {
      var formatted := FormatResults(Jira, results.items);
      text := if formatted.Some? then formatted.value else ErrorPrefix(Jira) + message;
    }
    var exitRaised := client.Exit(exitRaises);
    if exitRaised {
      text := ErrorPrefix(Jira) + message;
    }
  }

  /** Results after the third never change the context. */
  lemma OnlyFirstThree(src: Source, conn: Connection, results: seq<Json>, extra: seq<Json>, exitRaises: bool, message: string)
    requires |results| >= 3
    ensures Context(src, conn, Content(Arr(results + extra)), exitRaises, message) ==
            Context(src, conn, Content(Arr(results)), exitRaises, message)
  {
    assert Top3(results + extra) == Top3(results);
  }

  /**
   * The shape of one formatted result: its numbered first line, the
   * separator last, the URL line exactly when the page has a URL, and the
   * cut text at most 1000 (Confluence) or 500 (Jira) characters long.
   */
  lemma EntryShape(src: Source, idx: nat, item: Json)
    requires Readable(src, item)
    ensures EntryLines(src, idx, item) == Some(Lines(src, idx, item))
    ensures var lines := Lines(src, idx, item);
      |lines| >= 3 && lines[|lines| - 1] == Separator &&
      (src == Confluence ==>
        StartsWith(lines[0], "Document " + NatToString(idx) + ": ") &&
        (|lines| == 4 <==> TextOr(item.fields, "url", "") != Some("")) &&
        |lines[|lines| - 2]| <= |"Content: "| + 1000 + 3) &&
      (src == Jira ==>
        |lines| == 4 && StartsWith(lines[0], "Issue " + NatToString(idx) + ": ") &&
        |lines[2]| <= |"Description: "| + 500 + 3)
  {
    var lines := Lines(src, idx, item);
    if src == Confluence {
      var head := "Document " + NatToString(idx) + ": ";
      assert lines[0] == head + TextOr(item.fields, "title", "Unknown Title").value;
      assert lines[0][..|head|] == head;
    } else {
      var head := "Issue " + NatToString(idx) + ": ";
      assert lines[0] == head + TextOr(item.fields, "key", "Unknown Key").value +
        " - " + TextOr(item.fields, "summary", "No Summary").value;
      assert lines[0][..|head|] == head;
    }
  }

  /** The separator is fifty dashes. */
  lemma SeparatorIsDashes()
    ensures |Separator| == 50 && forall k :: 0 <= k < |Separator| ==> Separator[k] == '-'
  {
    RepeatChars("-", SeparatorWidth);
  }

  lemma {:induction false} RepeatChars(s: string, n: nat)
    requires |s| == 1
    ensures forall k :: 0 <= k < n ==> Repeat(s, n)[k] == s[0]
  {
    if n > 0 {
      RepeatChars(s, n - 1);
    }
  }

  /** The formatted results open with their header. */
  lemma FormattedStartsWithHeader(src: Source, results: seq<Json>)
    requires Formatted(src, results).Some?
    ensures StartsWith(Formatted(src, results).value, Header(src))
  {
    var lines := EntriesLines(src, Top3(results)).value;
    JoinStartsWithFirst("\n", [Header(src)] + lines);
  }

  /** Neither an error text nor formatted results can be mistaken for the no-results text. */
  lemma NotNoResults(src: Source, prefix: string, text: string)
    requires prefix == ErrorPrefix(src) || prefix == Header(src)
    requires StartsWith(text, prefix)
    ensures text != NoResults(src)
  {
    assert text[0] == text[..|prefix|][0] == prefix[0];
    assert NoResults(src)[0] == "No relevant "[0];
    assert ErrorPrefix(src)[0] == "Error fetching "[0];
    assert Header(src)[0] == "=== RELEVANT "[0];
  }

  /**
   * A context string is one of three things: the fixed no-results text,
   * which comes exactly from a falsy answer of a session that opens and
   * closes cleanly; an error text; or the formatted results under their
   * header. A failure to close always gives the error text.
   */
  lemma ContextOutcomes(src: Source, conn: Connection, reply: ToolReply, exitRaises: bool, message: string)
    ensures var text := Context(src, conn, reply, exitRaises, message);
      var results := SearchAnswer(reply);
      text == NoResults(src) || StartsWith(text, ErrorPrefix(src)) ||
      (results.Arr? && Formatted(src, results.items) == Some(text) && StartsWith(text, Header(src)))
    ensures Context(src, conn, reply, exitRaises, message) == NoResults(src) <==>
      conn == Connects && !exitRaises && !Truthy(SearchAnswer(reply))
    ensures exitRaises ==> Context(src, conn, reply, exitRaises, message) == ErrorPrefix(src) + message
  {
    var text := Context(src, conn, reply, exitRaises, message);
    var results := SearchAnswer(reply);
    var error := ErrorPrefix(src) + message;
    assert StartsWith(error, ErrorPrefix(src)) by {
      assert error[..|ErrorPrefix(src)|] == ErrorPrefix(src);
    }
    if conn == ConnectRaises || exitRaises {
      NotNoResults(src, ErrorPrefix(src), error);
    } else if !Truthy(results) {
    } else if !results.Arr? {
      NotNoResults(src, ErrorPrefix(src), error);
    } else if Formatted(src, results.items).None? {
      NotNoResults(src, ErrorPrefix(src), error);
    } else {
      FormattedStartsWithHeader(src, results.items);
      NotNoResults(src, Header(src), text);
    }
  }
}
