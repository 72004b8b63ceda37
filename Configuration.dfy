/** The two settings records: the application's tuning values with their defaults, and
    the Azure OpenAI connection settings with the start-up check that rejects them. */
module Configuration {
  import opened Wrappers
  import opened Text

  /** `ApplicationSettings`; only the property defaults matter to the model. */
  datatype ApplicationSettings = ApplicationSettings(
    outputDirectory: string,
    maxIterations: int,
    historyTruncation: int,
    enableDetailedLogging: bool)

  /** A default-constructed `ApplicationSettings`. */
  const DefaultApplicationSettings := ApplicationSettings("output", 10, 6, false)

  /** `AzureOpenAISettings`. A property may be null when configuration binding sets it so. */
  datatype AzureOpenAISettings = AzureOpenAISettings(
    endpoint: Option<string>,
    apiKey: Option<string>,
    deploymentName: Option<string>)

  /** A default-constructed `AzureOpenAISettings`: empty endpoint and key, deployment "gpt-4o". */
  const DefaultAzureOpenAISettings := AzureOpenAISettings(Some(""), Some(""), Some("gpt-4o"))

  /** The part of a parsed `System.Uri` that `Validate` reads. */
  datatype Uri = Uri(scheme: string)

  /** The three `InvalidOperationException`s `Validate` can throw. */
  datatype SettingsError = EndpointNotConfigured | ApiKeyNotConfigured | EndpointNotHttps

  const ErrorPrefix := "Azure OpenAI "

  /** The message each exception carries. */
  function ErrorMessage(e: SettingsError): (message: string)
    ensures |ErrorPrefix| < |message| && message[..|ErrorPrefix|] == ErrorPrefix
  {
    ErrorPrefix +
      match e
      case EndpointNotConfigured => "Endpoint is not configured"
      case ApiKeyNotConfigured => "API Key is not configured"
      case EndpointNotHttps => "Endpoint must be a valid HTTPS URL"
  }

  /** `Uri.TryCreate(endpoint, UriKind.Absolute, out uri) && uri.Scheme == "https"`, where
      `tryCreateAbsolute` stands for the library parser: `None` when it refuses the text. */
  function IsAbsoluteHttps(endpoint: string, tryCreateAbsolute: string -> Option<Uri>): (ok: bool)
    ensures ok <==> exists uri :: tryCreateAbsolute(endpoint) == Some(uri) && uri.scheme == "https"
  {
    var uri := tryCreateAbsolute(endpoint);
    uri.Some? && uri.value.scheme == "https"
  }

  /** `AzureOpenAISettings.Validate()`: the first failing guard decides the error; the
      settings are a value, so nothing about them changes. */
  function Validate(settings: AzureOpenAISettings, tryCreateAbsolute: string -> Option<Uri>): (r: Outcome<SettingsError>)
    ensures r == Fail(EndpointNotConfigured) <==> IsNullOrWhiteSpace(settings.endpoint)
    ensures r == Fail(ApiKeyNotConfigured) <==>
      !IsNullOrWhiteSpace(settings.endpoint) && IsNullOrWhiteSpace(settings.apiKey)
    ensures r == Fail(EndpointNotHttps) <==>
      && !IsNullOrWhiteSpace(settings.endpoint) && !IsNullOrWhiteSpace(settings.apiKey)
      && !IsAbsoluteHttps(settings.endpoint.value, tryCreateAbsolute)
    ensures r == Pass <==>
      && !IsNullOrWhiteSpace(settings.endpoint) && !IsNullOrWhiteSpace(settings.apiKey)
      && IsAbsoluteHttps(settings.endpoint.value, tryCreateAbsolute)
  {
    if IsNullOrWhiteSpace(settings.endpoint) then Fail(EndpointNotConfigured)
    else if IsNullOrWhiteSpace(settings.apiKey) then Fail(ApiKeyNotConfigured)
    else if !IsAbsoluteHttps(settings.endpoint.value, tryCreateAbsolute) then Fail(EndpointNotHttps)
    else Pass
  }

  /** Each error has its own message, so the message tells which guard failed. */
  lemma ErrorMessageIdentifiesError(e1: SettingsError, e2: SettingsError)
    ensures ErrorMessage(e1) == ErrorMessage(e2) <==> e1 == e2
  {
  }

  /** `DeploymentName` takes no part in validation. */
  lemma ValidateIgnoresDeploymentName(settings: AzureOpenAISettings, name: Option<string>, tryCreateAbsolute: string -> Option<Uri>)
    ensures Validate(settings.(deploymentName := name), tryCreateAbsolute) == Validate(settings, tryCreateAbsolute)
  {
  }

  /** A default-constructed settings object fails on its endpoint, whatever the URI parser says. */
  lemma DefaultSettingsFailOnEndpoint(tryCreateAbsolute: string -> Option<Uri>)
    ensures Validate(DefaultAzureOpenAISettings, tryCreateAbsolute) == Fail(EndpointNotConfigured)
  {
  }
}
