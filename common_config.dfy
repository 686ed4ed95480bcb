/** The configuration the server binary loads at startup (package common). */
module CommonConfig {
  import opened Wrappers
  import opened Environment

  datatype Config = Config(
    apiKey: string,
    projectId: string,
    location: string,
    port: string,
    transport: string,
    outputDir: string,
    genmediaBucket: string)

  const DefaultLocation := "us-central1"
  const DefaultPort := "8080"
  const DefaultTransport := "stdio"
  const DefaultOutputDir := "./output"

  /** `LoadConfig`: credentials verbatim, everything else from the env-or-default table. */
  function LoadConfig(env: Env): (c: Config)
    ensures c.apiKey == Getenv(env, "GOOGLE_API_KEY")
    ensures c.projectId == Getenv(env, "GOOGLE_PROJECT_ID")
    ensures c.genmediaBucket == Getenv(env, "GENMEDIA_BUCKET")
    ensures c.location != "" && c.port != "" && c.transport != "" && c.outputDir != ""
    ensures Getenv(env, "GOOGLE_LOCATION") == "" ==> c.location == "us-central1"
    ensures Getenv(env, "GOOGLE_LOCATION") != "" ==> c.location == env["GOOGLE_LOCATION"]
    ensures Getenv(env, "PORT") == "" ==> c.port == "8080"
    ensures Getenv(env, "PORT") != "" ==> c.port == env["PORT"]
    ensures Getenv(env, "TRANSPORT") == "" ==> c.transport == "stdio"
    ensures Getenv(env, "TRANSPORT") != "" ==> c.transport == env["TRANSPORT"]
    ensures Getenv(env, "OUTPUT_DIR") == "" ==> c.outputDir == "./output"
    ensures Getenv(env, "OUTPUT_DIR") != "" ==> c.outputDir == env["OUTPUT_DIR"]
  {
    Config(
      apiKey := Getenv(env, "GOOGLE_API_KEY"),
      projectId := Getenv(env, "GOOGLE_PROJECT_ID"),
      location := GetEnvOrDefault(env, "GOOGLE_LOCATION", DefaultLocation),
      port := GetEnvOrDefault(env, "PORT", DefaultPort),
      transport := GetEnvOrDefault(env, "TRANSPORT", DefaultTransport),
      outputDir := GetEnvOrDefault(env, "OUTPUT_DIR", DefaultOutputDir),
      genmediaBucket := Getenv(env, "GENMEDIA_BUCKET"))
  }

  /** Why a configuration is refused. */
  datatype ConfigError = MissingApiKey(message: string)

  /** `Config.Validate`: the API key is the only required setting. */
  function Validate(c: Config): (r: Option<ConfigError>)
    ensures r.Some? <==> c.apiKey == ""
    ensures r.Some? ==> r.value.message == "GOOGLE_API_KEY environment variable is required"
  {
    if c.apiKey == "" then Some(MissingApiKey("GOOGLE_API_KEY environment variable is required"))
    else None
  }

  /** Startup passes validation exactly when GOOGLE_API_KEY is set to a non-empty value. */
  lemma LoadedConfigValid(env: Env)
    ensures Validate(LoadConfig(env)).None? <==> "GOOGLE_API_KEY" in env && env["GOOGLE_API_KEY"] != ""
  {
  }
}
