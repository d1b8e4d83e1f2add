/**
 * The agent-based Atlassian search: the agent object with its server
 * environment and API key, the module-level singleton that holds it, the
 * extraction of the agent's answer, and the wrapped context handed to the
 * generation. The agent's own reasoning and tool calls are an input.
 */
module McpAgent {
  import opened Wrappers
  import opened PyText
  import opened McpConfig

  /** The server command and its arguments. */
  const ServerCommand := "npx"
  const ServerArgs := ["-y", "@sooperset/mcp-atlassian"]

  /** The model the agent runs on, and its sampling temperature. */
  const ModelName := "gemini-2.0-flash"
  const Temperature: real := 0.1

  /** `str(e)` of the errors the model names. */
  const MissingKeyMessage := "GOOGLE_API_KEY not found in environment variables"
  const IndexErrorMessage := "list index out of range"

  /** `AtlassianMCPAgent`: server parameters and the model's API key, fixed at construction. */
  class Agent {
    const command: string
    const args: seq<string>
    const serverEnv: Environment
    const model: string
    const temperature: real
    const apiKey: string

    /**
     * `__init__` once the key is known to be present: the server parameters
     * carry the MCP environment, the model is the fixed one and gets the key.
     */
    constructor (environ: Environment, config: AtlassianConfig)
      requires Exported(environ, "GOOGLE_API_KEY")
      ensures command == ServerCommand && args == ServerArgs
      ensures serverEnv == McpEnvironment(environ, config)
      ensures model == ModelName && temperature == Temperature
      ensures apiKey == environ["GOOGLE_API_KEY"]
    {
      command := ServerCommand;
      args := ServerArgs;
      serverEnv := McpEnvironment(environ, config);
      model := ModelName;
      temperature := Temperature;
      apiKey := environ["GOOGLE_API_KEY"];
    }
  }

  /** Why getting the agent fails: construction raised `ValueError`. */
  datatype AgentError = MissingGoogleApiKey

  /** The module-level `_agent_instance`. */
  class AgentSlot {
    var instance: Agent?

    constructor ()
      ensures instance == null
    {
      instance := null;
    }

    /**
     * `get_mcp_agent`: the first successful call constructs the agent, every
     * later call returns that same object. A construction without a
     * `GOOGLE_API_KEY` raises and leaves the slot empty, so the next call
     * tries again.
     */
    method GetMcpAgent(environ: Environment, config: AtlassianConfig) returns (r: Result<Agent, AgentError>)
      modifies this
      ensures old(instance) != null ==> r == Ok(old(instance)) && instance == old(instance)
      ensures old(instance) == null && !Exported(environ, "GOOGLE_API_KEY") ==>
        r == Err(MissingGoogleApiKey) && instance == null
      ensures old(instance) == null && Exported(environ, "GOOGLE_API_KEY") ==>
        r.Ok? && fresh(r.value) && instance == r.value &&
        r.value.serverEnv == McpEnvironment(environ, config) && r.value.model == ModelName &&
        r.value.apiKey == environ["GOOGLE_API_KEY"]
    {
      if instance == null {
        if !Exported(environ, "GOOGLE_API_KEY") {
          return Err(MissingGoogleApiKey);
        }
        instance := new Agent(environ, config);
      }
      r := Ok(instance);
    }
  }

  /** The last message of the agent: one with a `content` attribute, or any other object (`str(message)`). */
  datatype Message = HasContent(content: string) | Plain(text: string)

  /** What `ainvoke` returns: a dict holding "messages", or anything else (`str(result)`). */
  datatype AgentResult = WithMessages(messages: seq<Message>) | Other(text: string)

  /** One run of the agent over the session: it raises with a message, or finishes with a result. */
  datatype AgentRun = RunRaises(message: string) | Finished(result: AgentResult)

  function ErrorText(message: string): string {
    "Error retrieving intelligent context: " + message
  }

  /**
   * `search_for_sop_context`: the content of the last message, or the text of
   * a result without messages; every exception, indexing an empty message
   * list included, gives the error text.
   */
  function SopContext(run: AgentRun): string {
    match run
    case RunRaises(message) => ErrorText(message)
    case Finished(Other(text)) => text
    case Finished(WithMessages(messages)) =>
      if messages == [] then ErrorText(IndexErrorMessage)
      else
        match messages[|messages| - 1]
        case HasContent(content) => content
        case Plain(text) => text
  }

  /**
   * Only the last message counts: two message lists that end alike give the
   * same context, and an empty list is reported as an `IndexError`.
   */
  lemma OnlyLastMessageCounts(before: seq<Message>, other: seq<Message>, last: Message)
    ensures SopContext(Finished(WithMessages(before + [last]))) == SopContext(Finished(WithMessages(other + [last])))
    ensures SopContext(Finished(WithMessages(before + [last]))) == (if last.HasContent? then last.content else last.text)
    ensures SopContext(Finished(WithMessages([]))) == ErrorText(IndexErrorMessage)
  {
  }

  /** `f"Confluence Space: {space_key}" if space_key else ""`, and likewise for the project. */
  function FocusLine(name: string, key: Option<string>): string {
    if Given(key) then name + ": " + key.value else ""
  }

  const ContextHeader := "\n=== INTELLIGENT ATLASSIAN CONTEXT ===\nGenerated using ReAct agent with MCP tools\n\n"
  const ContextFooter := "\n\n=== END CONTEXT ===\n"

  /** The text up to the line where the Confluence space goes. */
  function QueryBlock(userQuery: string): string {
    ContextHeader + "Query: " + userQuery + "\n"
  }

  /** The text after the Jira project line. */
  function Closing(context: string): string {
    "\n\n" + context + ContextFooter
  }

  /** Four blocks with the space line and the project line between them. */
  function Layout(head: string, space: string, project: string, closing: string): string {
    head + (space + ("\n" + (project + closing)))
  }

  /** The f-string `fetch_intelligent_context` returns around the agent's context. */
  function Wrapped(userQuery: string, spaceKey: Option<string>, projectKey: Option<string>, context: string): string {
    Layout(QueryBlock(userQuery), FocusLine("Confluence Space", spaceKey), FocusLine("Jira Project", projectKey), Closing(context))
  }

  /** The first and last blocks of a layout are its ends. */
  lemma LayoutEnds(head: string, space: string, project: string, closing: string)
    ensures StartsWith(Layout(head, space, project, closing), head)
    ensures EndsWith(Layout(head, space, project, closing), closing)
  {
    var l := Layout(head, space, project, closing);
    var front := head + space + "\n" + project;
    assert l == front + closing;
    assert l[..|head|] == head;
    assert l[|l| - |closing|..] == closing;
  }

  /** A space line in a layout is inserted after the head of the layout without one. */
  lemma LayoutSpace(head: string, space: string, project: string, closing: string)
    ensures |head| <= |Layout(head, [], project, closing)|
    ensures Layout(head, space, project, closing) == head + space + Layout(head, [], project, closing)[|head|..]
  {
    var rest := "\n" + (project + closing);
    assert Layout(head, [], project, closing) == head + rest;
    assert (head + rest)[|head|..] == rest;
  }

  /** A project line in a layout is inserted after the space line of the layout without one. */
  lemma LayoutProject(head: string, space: string, project: string, closing: string)
    ensures |head + space + "\n"| <= |Layout(head, space, [], closing)|
    ensures Layout(head, space, project, closing) ==
      head + space + "\n" + project + Layout(head, space, [], closing)[|head + space + "\n"|..]
  {
    var front := head + space + "\n";
    assert Layout(head, space, [], closing) == front + closing;
    assert (front + closing)[|front|..] == closing;
    assert Layout(head, space, project, closing) == front + project + closing;
  }

  /** The agent's context is delivered unchanged between the fixed header and footer. */
  lemma WrappedFrame(userQuery: string, spaceKey: Option<string>, projectKey: Option<string>, context: string)
    ensures StartsWith(Wrapped(userQuery, spaceKey, projectKey, context), QueryBlock(userQuery))
    ensures EndsWith(Wrapped(userQuery, spaceKey, projectKey, context), Closing(context))
  {
    LayoutEnds(QueryBlock(userQuery), FocusLine("Confluence Space", spaceKey), FocusLine("Jira Project", projectKey), Closing(context));
  }

  /**
   * A space key that is not given (absent or empty) leaves the text as if
   * there were none; a given one adds exactly its "Confluence Space: " line
   * after the query, and nothing else changes.
   */
  lemma SpaceLineOnlyWhenGiven(userQuery: string, spaceKey: Option<string>, projectKey: Option<string>, context: string)
    ensures !Given(spaceKey) ==> Wrapped(userQuery, spaceKey, projectKey, context) == Wrapped(userQuery, None, projectKey, context)
    ensures Given(spaceKey) ==>
      var head := QueryBlock(userQuery);
      var without := Wrapped(userQuery, None, projectKey, context);
      |head| <= |without| &&
      Wrapped(userQuery, spaceKey, projectKey, context) == head + ("Confluence Space: " + spaceKey.value) + without[|head|..]
  {
    var space := FocusLine("Confluence Space", spaceKey);
    assert FocusLine("Confluence Space", None) == [];
    LayoutSpace(QueryBlock(userQuery), space, FocusLine("Jira Project", projectKey), Closing(context));
  }

  /**
   * A project key that is not given leaves the text as if there were none;
   * a given one adds exactly its "Jira Project: " line after the space line.
   */
  lemma ProjectLineOnlyWhenGiven(userQuery: string, spaceKey: Option<string>, projectKey: Option<string>, context: string)
    ensures !Given(projectKey) ==> Wrapped(userQuery, spaceKey, projectKey, context) == Wrapped(userQuery, spaceKey, None, context)
    ensures Given(projectKey) ==>
      var head := QueryBlock(userQuery) + FocusLine("Confluence Space", spaceKey) + "\n";
      var without := Wrapped(userQuery, spaceKey, None, context);
      |head| <= |without| &&
      Wrapped(userQuery, spaceKey, projectKey, context) == head + ("Jira Project: " + projectKey.value) + without[|head|..]
  {
    var project := FocusLine("Jira Project", projectKey);
    assert FocusLine("Jira Project", None) == [];
    LayoutProject(QueryBlock(userQuery), FocusLine("Confluence Space", spaceKey), project, Closing(context));
  }

  /**
   * `fetch_intelligent_context`: get the agent, run the search, wrap its
   * answer. Only getting the agent can raise, and that gives the error text.
   */
  method FetchIntelligentContext(slot: AgentSlot, environ: Environment, config: AtlassianConfig,
                                 userQuery: string, spaceKey: Option<string>, projectKey: Option<string>,
                                 run: AgentRun) returns (text: string)
    modifies slot
    ensures old(slot.instance) == null && !Exported(environ, "GOOGLE_API_KEY") ==>
      text == ErrorText(MissingKeyMessage) && slot.instance == null
    ensures old(slot.instance) != null || Exported(environ, "GOOGLE_API_KEY") ==>
      text == Wrapped(userQuery, spaceKey, projectKey, SopContext(run)) && slot.instance != null
    ensures old(slot.instance) != null ==> slot.instance == old(slot.instance)
  {
    var agent := slot.GetMcpAgent(environ, config);
    if agent.Err? {
      return ErrorText(MissingKeyMessage);
    }
    var context := SopContext(run);
    text := Wrapped(userQuery, spaceKey, projectKey, context);
  }
}
