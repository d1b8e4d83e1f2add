/**
 * The knowledge-base text a run hands to the workflow, built from the
 * retrieved issues of the chosen integration. Retrieval failures only change
 * the text: this step never ends a run.
 */
module RagContext {
  import opened PyText
  import opened Wrappers

  /** A retrieved item: its `issue_id` and `text_data`, None when the key is absent. */
  datatype Issue = Issue(issueId: Option<string>, textData: Option<string>)

  /** What `fetch_relevant_issues` gives: a list of matches, or an exception. */
  datatype Retrieval = Matches(issues: seq<Issue>) | RetrievalRaised(message: string)

  /** `issue.get(key, 'N/A')`. */
  function OrNA(v: Option<string>): string {
    if v.Some? then v.value else "N/A"
  }

  /** One match, as the context shows it. */
  function IssueBlock(integration: string, issue: Issue): (r: string)
    ensures StartsWith(r, Capitalize(integration) + " Item: ")
  {
    Capitalize(integration) + " Item: " + OrNA(issue.issueId) + "\nDetails: " + OrNA(issue.textData)
  }

  function IssueBlocks(integration: string, issues: seq<Issue>): (r: seq<string>)
    ensures |r| == |issues| && forall k :: 0 <= k < |issues| ==> r[k] == IssueBlock(integration, issues[k])
  {
    seq(|issues|, k requires 0 <= k < |issues| => IssueBlock(integration, issues[k]))
  }

  /**
   * `rag_context`: the placeholder when no integration is named (nothing is
   * fetched), the matches' blocks joined by newlines, a "no items" note for an
   * empty answer, or the error message when retrieval raises.
   */
  function RagText(integration: string, retrieval: Retrieval): string {
    if integration == [] then Capitalize(integration) + " context unavailable."
    else match retrieval
      case RetrievalRaised(message) => "Error fetching " + integration + " issues: " + message
      case Matches(issues) =>
        if issues == [] then "No relevant " + integration + " items found."
        else Join("\n", IssueBlocks(integration, issues))
  }

  /** `knowledge_base`: the context under a heading naming the integration. */
  function KnowledgeBase(integration: string, retrieval: Retrieval): (r: string)
    ensures StartsWith(r, "### Relevant " + Capitalize(integration) + " Content:\n")
    ensures EndsWith(r, RagText(integration, retrieval) + "\n")
  {
    var head := "### Relevant " + Capitalize(integration) + " Content:\n";
    var tail := RagText(integration, retrieval) + "\n";
    var r := head + tail;
    assert r[..|head|] == head && r[|head|..] == tail;
    r
  }

  /** Every retrieved match appears in the context, whatever the others hold. */
  lemma EveryMatchShown(integration: string, issues: seq<Issue>)
    requires integration != [] && issues != []
    ensures forall k :: 0 <= k < |issues| ==> Contains(RagText(integration, Matches(issues)), IssueBlock(integration, issues[k]))
  {
    JoinHasParts("\n", IssueBlocks(integration, issues));
  }

  /** A single match is the whole context. */
  lemma SingleMatch(integration: string, issue: Issue)
    requires integration != []
    ensures RagText(integration, Matches([issue])) ==
      Capitalize(integration) + " Item: " + OrNA(issue.issueId) + "\nDetails: " + OrNA(issue.textData)
  {
  }

  /** Without an integration name the retrieval answer is ignored. */
  lemma NoIntegrationNoFetch(retrieval: Retrieval)
    ensures RagText([], retrieval) == " context unavailable."
  {
  }
}
