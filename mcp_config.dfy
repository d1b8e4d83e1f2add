/**
 * `AtlassianMCPConfig`: the Confluence and Jira settings read from the
 * process environment when the class is defined, the checks that say
 * whether each product is configured, and the dictionaries handed to the
 * MCP server.
 */
module McpConfig {
  import opened Wrappers

  /** The process environment: variable names to values. */
  type Environment = map<string, string>

  /** The class fields; None for a variable that is unset (`os.getenv` gives `None`). */
  datatype AtlassianConfig = AtlassianConfig(
    confluenceBaseUrl: Option<string>,
    confluenceUsername: Option<string>,
    confluenceApiToken: Option<string>,
    confluenceSpaceKey: Option<string>,
    jiraBaseUrl: Option<string>,
    jiraUsername: Option<string>,
    jiraApiToken: Option<string>,
    jiraProjectKey: Option<string>)

  /** `os.getenv(name)`. */
  function Getenv(env: Environment, name: string): Option<string> {
    if name in env then Some(env[name]) else None
  }

  /** The class fields as the class body reads them. */
  function FromEnvironment(env: Environment): AtlassianConfig {
    AtlassianConfig(
      Getenv(env, "CONFLUENCE_BASE_URL"), Getenv(env, "CONFLUENCE_USERNAME"),
      Getenv(env, "CONFLUENCE_API_TOKEN"), Getenv(env, "CONFLUENCE_SPACE_KEY"),
      Getenv(env, "JIRA_BASE_URL"), Getenv(env, "JIRA_USERNAME"),
      Getenv(env, "JIRA_API_TOKEN"), Getenv(env, "JIRA_PROJECT_KEY"))
  }

  /** A setting is truthy: present and not the empty string. */
  predicate Given(v: Option<string>) {
    v.Some? && v.value != []
  }

  /** A variable is set to a non-empty value. */
  predicate Exported(env: Environment, name: string) {
    name in env && env[name] != []
  }

  /** `is_confluence_configured`: `all` of base URL, username and API token. */
  predicate IsConfluenceConfigured(c: AtlassianConfig) {
    Given(c.confluenceBaseUrl) && Given(c.confluenceUsername) && Given(c.confluenceApiToken)
  }

  /** `is_jira_configured`: `all` of base URL, username and API token. */
  predicate IsJiraConfigured(c: AtlassianConfig) {
    Given(c.jiraBaseUrl) && Given(c.jiraUsername) && Given(c.jiraApiToken)
  }

  /** `get_confluence_config`. */
  function ConfluenceConfig(c: AtlassianConfig): map<string, Option<string>> {
    map["CONFLUENCE_BASE_URL" := c.confluenceBaseUrl,
        "CONFLUENCE_USERNAME" := c.confluenceUsername,
        "CONFLUENCE_API_TOKEN" := c.confluenceApiToken]
  }

  /** `get_jira_config`. */
  function JiraConfig(c: AtlassianConfig): map<string, Option<string>> {
    map["JIRA_BASE_URL" := c.jiraBaseUrl,
        "JIRA_USERNAME" := c.jiraUsername,
        "JIRA_API_TOKEN" := c.jiraApiToken]
  }

  /**
   * Each product is configured exactly when its three variables are set to
   * non-empty values; the optional space and project keys play no part.
   */
  lemma ConfiguredFromEnvironment(env: Environment)
    ensures IsConfluenceConfigured(FromEnvironment(env)) <==>
      Exported(env, "CONFLUENCE_BASE_URL") && Exported(env, "CONFLUENCE_USERNAME") && Exported(env, "CONFLUENCE_API_TOKEN")
    ensures IsJiraConfigured(FromEnvironment(env)) <==>
      Exported(env, "JIRA_BASE_URL") && Exported(env, "JIRA_USERNAME") && Exported(env, "JIRA_API_TOKEN")
    ensures forall space, project ::
      IsConfluenceConfigured(FromEnvironment(env).(confluenceSpaceKey := space)) == IsConfluenceConfigured(FromEnvironment(env)) &&
      IsJiraConfigured(FromEnvironment(env).(jiraProjectKey := project)) == IsJiraConfigured(FromEnvironment(env))
  {
  }

  /**
   * Each dictionary holds exactly its product's three keys, and each key maps
   * to the variable of the same name (None when it is unset).
   */
  lemma ConfigDictionaries(env: Environment)
    ensures ConfluenceConfig(FromEnvironment(env)).Keys == {"CONFLUENCE_BASE_URL", "CONFLUENCE_USERNAME", "CONFLUENCE_API_TOKEN"}
    ensures JiraConfig(FromEnvironment(env)).Keys == {"JIRA_BASE_URL", "JIRA_USERNAME", "JIRA_API_TOKEN"}
    ensures forall k :: k in ConfluenceConfig(FromEnvironment(env)) ==> ConfluenceConfig(FromEnvironment(env))[k] == Getenv(env, k)
    ensures forall k :: k in JiraConfig(FromEnvironment(env)) ==> JiraConfig(FromEnvironment(env))[k] == Getenv(env, k)
  {
  }

  /** The present entries of a configuration dictionary, as `env.update` stores them. */
  function Assigned(m: map<string, Option<string>>): map<string, string> {
    map k | k in m && m[k].Some? :: m[k].value
  }

  /**
   * `_get_mcp_environment`: a copy of the environment, updated with the
   * Confluence dictionary when Confluence is configured, then with the Jira
   * dictionary when Jira is.
   */
  function McpEnvironment(env: Environment, c: AtlassianConfig): Environment {
    var withConfluence := if IsConfluenceConfigured(c) then env + Assigned(ConfluenceConfig(c)) else env;
    if IsJiraConfigured(c) then withConfluence + Assigned(JiraConfig(c)) else withConfluence
  }

  /**
   * The server's environment keeps every variable of the process, and holds
   * the configured values for the keys of a configured product; nothing else
   * is added.
   */
  lemma McpEnvironmentSpec(env: Environment, c: AtlassianConfig)
    ensures var e := McpEnvironment(env, c);
      e.Keys == env.Keys +
        (if IsConfluenceConfigured(c) then ConfluenceConfig(c).Keys else {}) +
        (if IsJiraConfigured(c) then JiraConfig(c).Keys else {})
    ensures var e := McpEnvironment(env, c);
      forall k :: k in e ==>
        if IsJiraConfigured(c) && k in JiraConfig(c) then Some(e[k]) == JiraConfig(c)[k]
        else if IsConfluenceConfigured(c) && k in ConfluenceConfig(c) then Some(e[k]) == ConfluenceConfig(c)[k]
        else k in env && e[k] == env[k]
  {
    var e := McpEnvironment(env, c);
    if IsConfluenceConfigured(c) {
      assert Assigned(ConfluenceConfig(c)).Keys == ConfluenceConfig(c).Keys;
    }
    if IsJiraConfigured(c) {
      assert Assigned(JiraConfig(c)).Keys == JiraConfig(c).Keys;
    }
  }

  /**
   * When the settings were read from the same environment the server's copy
   * is made from, the two updates change nothing: the server sees the
   * process environment as it is.
   */
  lemma SameEnvironmentUnchanged(env: Environment)
    ensures McpEnvironment(env, FromEnvironment(env)) == env
  {
    var c := FromEnvironment(env);
    var e := McpEnvironment(env, c);
    McpEnvironmentSpec(env, c);
    ConfigDictionaries(env);
    if IsConfluenceConfigured(c) {
      assert ConfluenceConfig(c).Keys <= env.Keys;
    }
    if IsJiraConfigured(c) {
      assert JiraConfig(c).Keys <= env.Keys;
    }
    assert e.Keys == env.Keys;
    forall k | k in e
      ensures e[k] == env[k]
    {
      if IsJiraConfigured(c) && k in JiraConfig(c) {
        assert Some(e[k]) == Getenv(env, k);
      } else if IsConfluenceConfigured(c) && k in ConfluenceConfig(c) {
        assert Some(e[k]) == Getenv(env, k);
      }
    }
  }
}
