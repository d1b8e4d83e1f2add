/**
 * `ServiceManager`: the one object that holds the generation model, the
 * Supabase client, the embedding model and the libmagic flag, built once per
 * process. The class-level `_instance` and `_initialized` are the fields of
 * `ServiceManagerClass`; the process environment, the `.env` file and
 * whether `magic` imports are inputs.
 */
module Initializers {
  import opened Wrappers
  import opened McpConfig

  const DefaultGenaiModel := "gemini-2.0-flash"
  const EmbeddingModelName := "models/embedding-001"
  const OctetStream := "application/octet-stream"

  datatype SupabaseClient = SupabaseClient(url: string, key: string)
  datatype EmbeddingModel = EmbeddingModel(model: string, apiKey: string)

  /**
   * Why initialisation raises: `set_env` is handed no key (`TypeError`), the
   * key is empty, or the Supabase URL or key is missing (`ValueError`).
   */
  datatype InitError = ConfigRaises | MissingGoogleApiKey | MissingSupabaseCredentials

  /** The `RuntimeError` of an accessor, or an exception of the embedding call. */
  datatype AccessError = NotInitialized(message: string) | EmbeddingRaises

  /** `load_dotenv()`: the file's variables, except those the process already has. */
  function LoadDotenv(env: Environment, dotenv: Environment): Environment {
    dotenv + env
  }

  /** `os.getenv("GENAI_MODEL", "gemini-2.0-flash")`: the default only when the variable is unset. */
  function GenaiModelName(env: Environment): string {
    if "GENAI_MODEL" in env then env["GENAI_MODEL"] else DefaultGenaiModel
  }

  /** The first step of `_initialize_all` that raises, if any. */
  function InitVerdict(env: Environment, dotenv: Environment): Option<InitError> {
    var loaded := LoadDotenv(env, dotenv);
    if "GOOGLE_API_KEY" !in loaded then Some(ConfigRaises)
    else if loaded["GOOGLE_API_KEY"] == [] then Some(MissingGoogleApiKey)
    else if !Exported(loaded, "SUPABASE_URL") || !Exported(loaded, "SUPABASE_SERVICE_ROLE_KEY") then Some(MissingSupabaseCredentials)
    else None
  }

  /** Whether the generation model is set up: configuration loads and the key is non-empty. */
  predicate GenaiReady(env: Environment, dotenv: Environment) {
    InitVerdict(env, dotenv) != Some(ConfigRaises) && InitVerdict(env, dotenv) != Some(MissingGoogleApiKey)
  }

  class ServiceManager {
    var genaiModel: Option<string>
    var supabaseClient: Option<SupabaseClient>
    var embeddingModel: Option<EmbeddingModel>
    var magicAvailable: Option<bool>

    /** `__new__`: an object holding no service yet. */
    constructor ()
      ensures genaiModel.None? && supabaseClient.None? && embeddingModel.None? && magicAvailable.None?
    {
      genaiModel := None;
      supabaseClient := None;
      embeddingModel := None;
      magicAvailable := None;
    }

    /** Every service is in place. */
    predicate Ready()
      reads this
    {
      genaiModel.Some? && supabaseClient.Some? && embeddingModel.Some? && magicAvailable.Some?
    }

    /** `_load_configuration`: load the `.env` file, then `set_env`, which refuses a missing key. */
    method LoadConfiguration(env: Environment, dotenv: Environment) returns (raised: bool, envAfter: Environment)
      ensures envAfter == LoadDotenv(env, dotenv)
      ensures raised <==> "GOOGLE_API_KEY" !in envAfter
    {
      envAfter := LoadDotenv(env, dotenv);
      var key := Getenv(envAfter, "GOOGLE_API_KEY");
      raised := key.None?;
      if !raised {
        envAfter := envAfter["GOOGLE_API_KEY" := key.value];
        assert envAfter == LoadDotenv(env, dotenv);
      }
    }

    /** `_initialize_genai`: a non-empty key, then the model named by `GENAI_MODEL`. */
    method InitializeGenai(env: Environment) returns (raised: bool)
      modifies this`genaiModel
      ensures raised <==> !Exported(env, "GOOGLE_API_KEY")
      ensures raised ==> genaiModel == old(genaiModel)
      ensures !raised ==> genaiModel == Some(GenaiModelName(env))
    {
      raised := !Exported(env, "GOOGLE_API_KEY");
      if !raised {
        genaiModel := Some(GenaiModelName(env));
      }
    }

    /** `_initialize_supabase`: both the URL and the service-role key must be non-empty. */
    method InitializeSupabase(env: Environment) returns (raised: bool)
      modifies this`supabaseClient
      ensures raised <==> !Exported(env, "SUPABASE_URL") || !Exported(env, "SUPABASE_SERVICE_ROLE_KEY")
      ensures raised ==> supabaseClient == old(supabaseClient)
      ensures !raised ==> supabaseClient == Some(SupabaseClient(env["SUPABASE_URL"], env["SUPABASE_SERVICE_ROLE_KEY"]))
    {
      raised := !Exported(env, "SUPABASE_URL") || !Exported(env, "SUPABASE_SERVICE_ROLE_KEY");
      if !raised {
        supabaseClient := Some(SupabaseClient(env["SUPABASE_URL"], env["SUPABASE_SERVICE_ROLE_KEY"]));
      }
    }

    /** `_initialize_embedding_model`: the key is checked again, then the embedding model is built on it. */
    method InitializeEmbeddingModel(env: Environment) returns (raised: bool)
      modifies this`embeddingModel
      ensures raised <==> !Exported(env, "GOOGLE_API_KEY")
      ensures raised ==> embeddingModel == old(embeddingModel)
      ensures !raised ==> embeddingModel == Some(EmbeddingModel(EmbeddingModelName, env["GOOGLE_API_KEY"]))
    {
      raised := !Exported(env, "GOOGLE_API_KEY");
      if !raised {
        embeddingModel := Some(EmbeddingModel(EmbeddingModelName, env["GOOGLE_API_KEY"]));
      }
    }

    /**
     * The body of `__init__` when not yet initialised: every service is reset,
     * then the steps run in order until one raises. Services set up before the
     * failing step stay in place.
     */
    method Initialize(env: Environment, dotenv: Environment, magicImports: bool)
      returns (err: Option<InitError>, envAfter: Environment)
      modifies this
      ensures envAfter == LoadDotenv(env, dotenv)
      ensures err == InitVerdict(env, dotenv)
      ensures genaiModel == (if GenaiReady(env, dotenv) then Some(GenaiModelName(envAfter)) else None)
      ensures supabaseClient ==
        (if err.None? then Some(SupabaseClient(envAfter["SUPABASE_URL"], envAfter["SUPABASE_SERVICE_ROLE_KEY"])) else None)
      ensures embeddingModel == (if err.None? then Some(EmbeddingModel(EmbeddingModelName, envAfter["GOOGLE_API_KEY"])) else None)
      ensures magicAvailable == (if err.None? then Some(magicImports) else None)
      ensures Ready() <==> err.None?
    {
      genaiModel := None;
      supabaseClient := None;
      embeddingModel := None;
      magicAvailable := None;
      var raised;
      raised, envAfter := LoadConfiguration(env, dotenv);
      if raised {
        return Some(ConfigRaises), envAfter;
      }
      raised := InitializeGenai(envAfter);
      if raised {
        return Some(MissingGoogleApiKey), envAfter;
      }
      raised := InitializeSupabase(envAfter);
      if raised {
        return Some(MissingSupabaseCredentials), envAfter;
      }
      raised := InitializeEmbeddingModel(envAfter);
      if raised {
        assert false;
      }
      magicAvailable := Some(magicImports);
      err := None;
    }

    /** The `genai_model` property. */
    function GenaiModel(): Result<string, AccessError>
      reads this
    {
      if genaiModel.None? then Err(NotInitialized("GenAI model not initialized")) else Ok(genaiModel.value)
    }

    /** The `supabase_client` property. */
    function Client(): Result<SupabaseClient, AccessError>
      reads this
    {
      if supabaseClient.None? then Err(NotInitialized("Supabase client not initialized")) else Ok(supabaseClient.value)
    }

    /** The `embedding_model` property. */
    function Embedding(): Result<EmbeddingModel, AccessError>
      reads this
    {
      if embeddingModel.None? then Err(NotInitialized("Embedding model not initialized")) else Ok(embeddingModel.value)
    }

    /**
     * `generate_embeddings`: the same guard as the accessor, then the vector
     * the embedding call returns (None when it raises).
     */
    function GenerateEmbeddings(text: string, vector: Option<seq<real>>): Result<seq<real>, AccessError>
      reads this
    {
      if embeddingModel.None? then Err(NotInitialized("Embedding model not initialized"))
      else if vector.None? then Err(EmbeddingRaises)
      else Ok(vector.value)
    }

    /**
     * `get_file_mime_type`: libmagic's answer when it is known to be available
     * and does not raise; otherwise the `mimetypes` guess, or
     * "application/octet-stream" when there is none.
     */
    function FileMimeType(magic: MagicOutcome, guess: Option<string>): string
      reads this
    {
      if magicAvailable == Some(true) && magic.Detected? then magic.mime
      else if guess.Some? && guess.value != [] then guess.value
      else OctetStream
    }
  }

  /** What libmagic does for a file: it raises, or it reports a MIME type. */
  datatype MagicOutcome = MagicRaises | Detected(mime: string)

  /**
   * The accessors answer exactly when their service is in place, with the
   * error the source names otherwise; after a complete initialisation all of
   * them answer.
   */
  lemma AccessorGuards(m: ServiceManager)
    ensures m.GenaiModel().Ok? <==> m.genaiModel.Some?
    ensures m.Client().Ok? <==> m.supabaseClient.Some?
    ensures m.Embedding().Ok? <==> m.embeddingModel.Some?
    ensures m.genaiModel.None? ==> m.GenaiModel() == Err(NotInitialized("GenAI model not initialized"))
    ensures m.supabaseClient.None? ==> m.Client() == Err(NotInitialized("Supabase client not initialized"))
    ensures m.embeddingModel.None? ==> m.Embedding() == Err(NotInitialized("Embedding model not initialized"))
    ensures m.Ready() ==> m.GenaiModel().Ok? && m.Client().Ok? && m.Embedding().Ok?
    ensures forall text, vector :: m.GenerateEmbeddings(text, vector).Err? && m.GenerateEmbeddings(text, vector) != Err(EmbeddingRaises) <==>
      m.Embedding().Err?
  {
  }

  /**
   * The MIME type is libmagic's, the guess or the fallback; libmagic's answer
   * matters only when it is known to be available, and the fallback text is
   * never empty.
   */
  lemma MimeFallback(m: ServiceManager, magic: MagicOutcome, guess: Option<string>)
    ensures var r := m.FileMimeType(magic, guess);
      (magic.Detected? && r == magic.mime) || (guess.Some? && r == guess.value) || r == OctetStream
    ensures m.magicAvailable != Some(true) ==> forall other :: m.FileMimeType(other, guess) == m.FileMimeType(magic, guess)
    ensures !(m.magicAvailable == Some(true) && magic.Detected?) ==> m.FileMimeType(magic, guess) != []
    ensures m.magicAvailable == Some(true) && magic.Detected? ==> m.FileMimeType(magic, guess) == magic.mime
  {
  }

  /**
   * The order of the failures: an unset Google key already fails in loading
   * the configuration, so the generation step's `ValueError` is raised only
   * for a key set to the empty string, and the embedding step's own check of
   * the key never fails.
   */
  lemma KeyChecks(env: Environment, dotenv: Environment)
    ensures InitVerdict(env, dotenv) == Some(MissingGoogleApiKey) <==>
      "GOOGLE_API_KEY" in LoadDotenv(env, dotenv) && LoadDotenv(env, dotenv)["GOOGLE_API_KEY"] == []
    ensures InitVerdict(env, dotenv) == Some(ConfigRaises) <==> "GOOGLE_API_KEY" !in env && "GOOGLE_API_KEY" !in dotenv
    ensures GenaiReady(env, dotenv) ==> Exported(LoadDotenv(env, dotenv), "GOOGLE_API_KEY")
    ensures InitVerdict(env, dotenv).None? <==>
      GenaiReady(env, dotenv) &&
      Exported(LoadDotenv(env, dotenv), "SUPABASE_URL") && Exported(LoadDotenv(env, dotenv), "SUPABASE_SERVICE_ROLE_KEY")
  {
  }

  /** The class attributes `_instance` and `_initialized`. */
  class ServiceManagerClass {
    var instance: ServiceManager?
    var initialized: bool

    /** Once initialised, the instance holds every service. */
    predicate Valid()
      reads this, instance
    {
      initialized ==> instance != null && instance.Ready()
    }

    constructor ()
      ensures instance == null && !initialized && Valid()
    {
      instance := null;
      initialized := false;
    }

    /**
     * `ServiceManager()`: `__new__` creates the object only the first time;
     * `__init__` runs the initialisation only while `_initialized` is false
     * and sets it only when every step succeeded. The object stays the
     * instance even when initialisation raises, and the next call tries
     * again on it.
     */
    method Construct(env: Environment, dotenv: Environment, magicImports: bool)
      returns (r: Result<ServiceManager, InitError>, envAfter: Environment)
      requires Valid()
      modifies this, instance
      ensures Valid()
      ensures instance != null
      ensures old(instance) != null ==> instance == old(instance)
      ensures old(instance) == null ==> fresh(instance)
      ensures r.Ok? ==> r.value == instance && instance.Ready()
      ensures old(initialized) ==> r.Ok? && initialized && envAfter == env && unchanged(instance)
      ensures !old(initialized) ==>
        envAfter == LoadDotenv(env, dotenv) &&
        (r.Err? <==> InitVerdict(env, dotenv).Some?) &&
        (r.Err? ==> r.error == InitVerdict(env, dotenv).value) &&
        initialized == r.Ok? &&
        instance.genaiModel == (if GenaiReady(env, dotenv) then Some(GenaiModelName(envAfter)) else None)
    {
      if instance == null {
        instance := new ServiceManager();
      }
      var m := instance;
      if initialized {
        return Ok(m), env;
      }
      var err;
      err, envAfter := m.Initialize(env, dotenv, magicImports);
      if err.Some? {
        return Err(err.value), envAfter;
      }
      initialized := true;
      r := Ok(m);
    }
  }
}
