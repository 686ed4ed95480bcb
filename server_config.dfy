/** The stand-alone configuration loader (package config), which fails on a missing key. */
module ServerConfig {
  import opened Wrappers
  import opened Environment
  import CommonConfig

  datatype Config = Config(
    apiKey: string,
    projectId: string,
    location: string,
    outputDir: string,
    transport: string,
    ssePort: int)

  const DefaultSsePort := 8080

  datatype LoadError =
    | MissingApiKey(message: string)
    | OutputDirUnavailable(message: string)

  /**
   * `Load`. The key check comes first; `mkdirError` is the error (if any) of
   * creating the output directory, which is only attempted when the key is set.
   */
  function Load(env: Env, mkdirError: Option<string>): (r: Result<Config, LoadError>)
    ensures r.Err? <==> Getenv(env, "GOOGLE_API_KEY") == "" || mkdirError.Some?
    ensures Getenv(env, "GOOGLE_API_KEY") == "" ==>
      r == Err(MissingApiKey("GOOGLE_API_KEY environment variable is required"))
    ensures Getenv(env, "GOOGLE_API_KEY") != "" && mkdirError.Some? ==>
      r == Err(OutputDirUnavailable("failed to create output directory: " + mkdirError.value))
    ensures r.Ok? ==> r.value.apiKey != "" && r.value.apiKey == env["GOOGLE_API_KEY"]
    ensures r.Ok? ==> r.value.ssePort == 8080
    ensures r.Ok? ==> r.value.projectId == Getenv(env, "GOOGLE_PROJECT_ID")
    ensures r.Ok? ==> r.value.location != "" && r.value.outputDir != "" && r.value.transport != ""
    ensures r.Ok? && Getenv(env, "GOOGLE_LOCATION") == "" ==> r.value.location == "us-central1"
    ensures r.Ok? && Getenv(env, "OUTPUT_DIR") == "" ==> r.value.outputDir == "./output"
    ensures r.Ok? && Getenv(env, "TRANSPORT") == "" ==> r.value.transport == "stdio"
  {
    var config := Config(
      apiKey := Getenv(env, "GOOGLE_API_KEY"),
      projectId := Getenv(env, "GOOGLE_PROJECT_ID"),
      location := GetEnvOrDefault(env, "GOOGLE_LOCATION", "us-central1"),
      outputDir := GetEnvOrDefault(env, "OUTPUT_DIR", "./output"),
      transport := GetEnvOrDefault(env, "TRANSPORT", "stdio"),
      ssePort := DefaultSsePort);
    if config.apiKey == "" then
      Err(MissingApiKey("GOOGLE_API_KEY environment variable is required"))
    else if mkdirError.Some? then
      Err(OutputDirUnavailable("failed to create output directory: " + mkdirError.value))
    else
      Ok(config)
  }

  /** The SSE port ignores the environment: any two environments give 8080. */
  lemma SsePortFixed(env1: Env, env2: Env)
    requires Load(env1, None).Ok? && Load(env2, None).Ok?
    ensures Load(env1, None).value.ssePort == Load(env2, None).value.ssePort == 8080
  {
  }

  /** Both loaders read the same variables with the same defaults. */
  lemma LoadersAgree(env: Env)
    requires Load(env, None).Ok?
    ensures var c := Load(env, None).value; var d := CommonConfig.LoadConfig(env);
      c.apiKey == d.apiKey && c.projectId == d.projectId && c.location == d.location &&
      c.outputDir == d.outputDir && c.transport == d.transport
  {
  }
}
