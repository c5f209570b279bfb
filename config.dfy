/** The exporter's configuration (config.go) and its validation. */
module Config {
  import opened Outcomes

  /** `exporterhelper.RetrySettings`, carried but not inspected here. */
  datatype RetrySettings = RetrySettings(enabled: bool, initialInterval: int, maxInterval: int, maxElapsedTime: int)

  /** `Config`: the timeout is the `TimeoutSettings` duration in nanoseconds. */
  datatype Config = Config(
    path: string,
    url: string,
    apiKey: string,
    insecure: bool,
    timeout: int,
    retry: RetrySettings)

  const UrlError := Error("url must be non-empty")
  const ApiKeyError := Error("API Key must be non-empty")

  /** `Validate`: the URL is checked first, then the API key; nothing else
      (the path check is commented out in the source) can make it fail. */
  function Validate(cfg: Config): (r: Option<Error>)
    ensures cfg.url == "" ==> r == Some(Error("url must be non-empty"))
    ensures cfg.url != "" && cfg.apiKey == "" ==> r == Some(Error("API Key must be non-empty"))
    ensures r.None? <==> cfg.url != "" && cfg.apiKey != ""
  {
    if cfg.url == "" then Some(UrlError)
    else if cfg.apiKey == "" then Some(ApiKeyError)
    else None
  }
}
