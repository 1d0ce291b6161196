/** The Gemini client: credential check at construction, the request it builds,
    and the decision procedure that turns an HTTP exchange into text or one
    typed failure. */
module Llm {
  import opened Wrappers
  import opened Strings
  import Config

  /** Rust's `u16`. */
  type U16 = x: int | 0 <= x < 0x1_0000

  /** Rust's `u64`. */
  type U64 = x: int | 0 <= x < 0x1_0000_0000_0000_0000

  /** An HTTP status code as `reqwest` represents it (three decimal digits). */
  type StatusCode = c: int | 100 <= c <= 999 witness 200

  /** `StatusCode::is_success`: the 2xx range. */
  predicate IsSuccess(status: StatusCode) {
    200 <= status <= 299
  }

  // ---------------------------------------------------------------------------
  // Providers and the client
  // ---------------------------------------------------------------------------

  /** `LlmProvider`: one variant today. */
  datatype Provider = Gemini

  /** `LlmProvider::as_str`: the provider's name in messages. */
  function AsStr(provider: Provider): (name: string)
    ensures provider == Gemini ==> name == "gemini"
  {
    match provider
    case Gemini => "gemini"
  }

  /** The key the default configuration ships with, meaning "not configured yet". */
  const PlaceholderKey := "YOUR_GEMINI_API_KEY"

  /** The `llm` section of the configuration that `LlmClient` reads:
      the API key, the timeout and the optional `[gemini]` table. */
  datatype LlmConfig = LlmConfig(key: string, timeout: U64, gemini: Option<Config.GeminiConfig>)

  /** `LlmClient`; the HTTP transport it owns is not modelled. */
  datatype Client = Client(provider: Provider, apiKey: string, config: LlmConfig)

  /** Every way a call can fail, one variant per error site. */
  datatype LlmError =
    | KeyNotConfigured(provider: Provider)
    | GeminiConfigMissing
    | Network(detail: string)
    | Deserialize(detail: string, body: string)
    | Api(code: U16, message: string)
    | UnexpectedStatus(status: StatusCode, response: ResponseBody)
    | EmptyResponse(response: ResponseBody)

  /** A key the client accepts: non-empty and not the placeholder. */
  predicate KeyConfigured(key: string) {
    key != "" && key != PlaceholderKey
  }

  /** `LlmClient::new`: refuse an empty or placeholder key; otherwise keep the
      provider, the key exactly as configured, and the configuration. */
  function New(provider: Provider, config: LlmConfig): (r: Result<Client, LlmError>)
    ensures r.Failure? <==> config.key == "" || config.key == PlaceholderKey
    ensures r.Failure? ==> r.error == KeyNotConfigured(provider)
    ensures r.Success? ==>
      r.value.provider == provider && r.value.apiKey == config.key && r.value.config == config
  {
    if !KeyConfigured(config.key) then Failure(KeyNotConfigured(provider))
    else Success(Client(provider, config.key, config))
  }

  // ---------------------------------------------------------------------------
  // The request
  // ---------------------------------------------------------------------------

  datatype Part = Part(text: string)
  datatype Content = Content(parts: seq<Part>)
  datatype RequestBody = RequestBody(contents: seq<Content>)

  const UrlPrefix := "https://generativelanguage.googleapis.com/v1beta/models/"
  const KeyMarker := ":generateContent?key="

  /** The endpoint: fixed prefix, model, `:generateContent?key=`, API key. */
  function BuildUrl(model: string, key: string): (url: string)
    ensures |url| == |UrlPrefix| + |model| + |KeyMarker| + |key|
    ensures IsPrefix(UrlPrefix, url)
    ensures OccursAt(model, url, |UrlPrefix|)
    ensures OccursAt(KeyMarker, url, |UrlPrefix| + |model|)
    ensures IsSuffix(key, url)
  {
    Layout(UrlPrefix, model, KeyMarker + key);
    Layout(UrlPrefix + model, KeyMarker, key);
    assert UrlPrefix + model + (KeyMarker + key) == UrlPrefix + model + KeyMarker + key;
    UrlPrefix + model + KeyMarker + key
  }

  /** Splits `prefix + model + marker + key` at the first `:` after `prefix`,
      where `marker` is expected to start with `:`. Whatever it returns
      joins back to the URL. */
  function SplitEndpoint(url: string, prefix: string, marker: string): (r: Option<(string, string)>)
    ensures r.Some? ==> AbsentBefore(r.value.0, ':', |r.value.0|) && prefix + r.value.0 + marker + r.value.1 == url
  {
    if !IsPrefix(prefix, url) then None
    else
      var rest := url[|prefix|..];
      match IndexOf(rest, ':')
      case None => None
      case Some(i) =>
        if IsPrefix(marker, rest[i..]) then
          SplitBack(url, prefix, rest, i, marker);
          Some((rest[..i], rest[i + |marker|..]))
        else None
  }

  lemma SplitBack(url: string, prefix: string, rest: string, i: nat, marker: string)
    requires IsPrefix(prefix, url) && rest == url[|prefix|..]
    requires i <= |rest| && IsPrefix(marker, rest[i..])
    ensures prefix + rest[..i] + marker + rest[i + |marker|..] == url
  {
  }

  lemma SplitJoined(prefix: string, model: string, marker: string, key: string)
    requires marker != [] && marker[0] == ':' && AbsentBefore(model, ':', |model|)
    ensures SplitEndpoint(prefix + model + marker + key, prefix, marker) == Some((model, key))
  {
    var url := prefix + model + marker + key;
    assert url[..|prefix|] == prefix;
    var rest := url[|prefix|..];
    assert rest == model + marker + key;
    assert rest[..|model|] == model;
    assert rest[|model|] == ':';
    assert IndexOf(rest, ':') == Some(|model|);
    assert rest[|model|..] == marker + key;
    assert (marker + key)[..|marker|] == marker;
  }

  /** Reads model and key back out of an endpoint URL: the model runs to the
      first `:`, and the key is everything after the marker. */
  function ParseUrl(url: string): Option<(string, string)> {
    SplitEndpoint(url, UrlPrefix, KeyMarker)
  }

  /** A model name without `:` and any key can be read back from the URL. */
  lemma ParseBuildUrl(model: string, key: string)
    requires AbsentBefore(model, ':', |model|)
    ensures ParseUrl(BuildUrl(model, key)) == Some((model, key))
  {
    assert KeyMarker[0] == ':';
    SplitJoined(UrlPrefix, model, KeyMarker, key);
  }

  /** Every URL `ParseUrl` accepts is the one `BuildUrl` makes from its parts. */
  lemma BuildParseUrl(url: string, model: string, key: string)
    requires ParseUrl(url) == Some((model, key))
    ensures AbsentBefore(model, ':', |model|)
    ensures BuildUrl(model, key) == url
  {
  }

  /** The request body: one content holding one part whose text is the prompt. */
  function BuildRequest(prompt: string): (body: RequestBody)
    ensures |body.contents| == 1 && |body.contents[0].parts| == 1
    ensures body.contents[0].parts[0].text == prompt
  {
    RequestBody([Content([Part(prompt)])])
  }

  /** The prompt a single-content, single-part request carries. */
  function PromptOf(body: RequestBody): Option<string> {
    if |body.contents| == 1 && |body.contents[0].parts| == 1
    then Some(body.contents[0].parts[0].text)
    else None
  }

  /** `BuildRequest` loses nothing, and it is the only way to make such a body. */
  lemma RequestRoundTrip(prompt: string, body: RequestBody)
    ensures PromptOf(BuildRequest(prompt)) == Some(prompt)
    ensures PromptOf(body) == Some(prompt) ==> body == BuildRequest(prompt)
  {
    if PromptOf(body) == Some(prompt) {
      assert body.contents[0] == Content([Part(prompt)]);
      assert body.contents == [Content([Part(prompt)])];
    }
  }

  // ---------------------------------------------------------------------------
  // The response
  // ---------------------------------------------------------------------------

  datatype Candidate = Candidate(content: Option<Content>)
  datatype ApiError = ApiError(code: U16, message: string)
  datatype ResponseBody = ResponseBody(candidates: Option<seq<Candidate>>, error: Option<ApiError>)

  /** `iter().next()`. */
  function First<T>(s: seq<T>): (r: Option<T>)
    ensures r.Some? <==> s != []
    ensures r.Some? ==> r.value == s[0]
  {
    if s == [] then None else Some(s[0])
  }

  /** The chain of `if let`s: first candidate, its content, its first part. */
  function FirstPartText(body: ResponseBody): Option<string> {
    match body.candidates
    case None => None
    case Some(candidates) =>
      match First(candidates)
      case None => None
      case Some(candidate) =>
        match candidate.content
        case None => None
        case Some(content) =>
          match First(content.parts)
          case None => None
          case Some(part) => Some(part.text)
  }

  /** The response has a first candidate with content and a first part. */
  predicate HasAnswer(body: ResponseBody) {
    && body.candidates.Some? && |body.candidates.value| > 0
    && body.candidates.value[0].content.Some?
    && |body.candidates.value[0].content.value.parts| > 0
  }

  /** `text` is the first part of the first candidate. */
  predicate IsAnswer(body: ResponseBody, text: string) {
    HasAnswer(body) && body.candidates.value[0].content.value.parts[0].text == text
  }

  /** The interpreter of `send_gemini_request`. `parsed` is what
      `serde_json::from_str` made of `bodyText`: a body, or its error text.
      A body that does not parse fails first, whatever the status; a non-2xx
      status never yields text; a 2xx yields the first part of the first
      candidate or the empty-response error. */
  function Interpret(status: StatusCode, bodyText: string, parsed: Result<ResponseBody, string>)
    : (r: Result<string, LlmError>)
    ensures parsed.Failure? ==> r == Failure(Deserialize(parsed.error, bodyText))
    ensures parsed.Success? && !IsSuccess(status) ==>
      r == Failure(
        if parsed.value.error.Some? then Api(parsed.value.error.value.code, parsed.value.error.value.message)
        else UnexpectedStatus(status, parsed.value))
    ensures parsed.Success? && IsSuccess(status) ==>
      (r.Success? <==> HasAnswer(parsed.value))
      && (r.Success? ==> IsAnswer(parsed.value, r.value))
      && (r.Failure? ==> r.error == EmptyResponse(parsed.value))
  {
    match parsed
    case Failure(e) => Failure(Deserialize(e, bodyText))
    case Success(body) =>
      if !IsSuccess(status) then
        match body.error
        case Some(apiError) => Failure(Api(apiError.code, apiError.message))
        case None => Failure(UnexpectedStatus(status, body))
      else
        match FirstPartText(body)
        case Some(text) => Success(text)
        case None => Failure(EmptyResponse(body))
  }

  /** Text comes back exactly when the body parsed, the status is 2xx and the
      text is the first part of the first candidate. */
  lemma InterpretSucceedsIff(status: StatusCode, bodyText: string,
                             parsed: Result<ResponseBody, string>, text: string)
    ensures Interpret(status, bodyText, parsed) == Success(text) <==>
      parsed.Success? && IsSuccess(status) && IsAnswer(parsed.value, text)
  {
  }

  /** Only the first candidate and its first part are consulted: whatever
      follows them, and whatever `error` says, a 2xx returns that text. */
  lemma FirstWins(status: StatusCode, bodyText: string, text: string,
                  moreParts: seq<Part>, moreCandidates: seq<Candidate>, error: Option<ApiError>)
    requires IsSuccess(status)
    ensures Interpret(status, bodyText,
      Success(ResponseBody(Some([Candidate(Some(Content([Part(text)] + moreParts)))] + moreCandidates), error)))
      == Success(text)
  {
  }

  /** A non-2xx status is a failure even when candidates are present. */
  lemma ErrorStatusNeverAnswers(status: StatusCode, bodyText: string, body: ResponseBody)
    requires !IsSuccess(status)
    ensures Interpret(status, bodyText, Success(body)).Failure?
    ensures Interpret(status, bodyText, Success(body)).error.Api?
        <==> body.error.Some?
  {
  }

  // ---------------------------------------------------------------------------
  // Sending
  // ---------------------------------------------------------------------------

  /** What the transport reports for one POST: a network or read failure, or
      the status, the body text and the JSON parser's verdict on that text. */
  datatype Exchange =
    | Failed(detail: string)
    | Responded(status: StatusCode, bodyText: string, parsed: Result<ResponseBody, string>)

  /** `send_gemini_request`, with the HTTP exchange as the parameter `post`.
      Without a `[gemini]` table it fails before building anything; otherwise
      it posts `BuildRequest(prompt)` to `BuildUrl(model, apiKey)` and
      interprets whatever comes back. */
  function SendGeminiRequest(client: Client, prompt: string,
                             post: (string, RequestBody) -> Exchange): (r: Result<string, LlmError>)
    ensures client.config.gemini.None? ==> r == Failure(GeminiConfigMissing)
    ensures client.config.gemini.Some? ==>
      r == match post(BuildUrl(client.config.gemini.value.model, client.apiKey), BuildRequest(prompt))
           case Failed(detail) => Failure(Network(detail))
           case Responded(status, bodyText, parsed) => Interpret(status, bodyText, parsed)
  {
    match client.config.gemini
    case None => Failure(GeminiConfigMissing)
    case Some(gemini) =>
      var url := BuildUrl(gemini.model, client.apiKey);
      var requestBody := BuildRequest(prompt);
      match post(url, requestBody)
      case Failed(detail) => Failure(Network(detail))
      case Responded(status, bodyText, parsed) => Interpret(status, bodyText, parsed)
  }

  /** The missing-table error does not depend on the transport at all. */
  lemma MissingGeminiNeverPosts(client: Client, prompt: string,
                                post1: (string, RequestBody) -> Exchange,
                                post2: (string, RequestBody) -> Exchange)
    requires client.config.gemini.None?
    ensures SendGeminiRequest(client, prompt, post1) == SendGeminiRequest(client, prompt, post2)
         == Failure(GeminiConfigMissing)
  {
  }

  /** `send_request`: dispatch on the provider. */
  function SendRequest(client: Client, prompt: string,
                       post: (string, RequestBody) -> Exchange): (r: Result<string, LlmError>)
    ensures client.provider == Gemini ==> r == SendGeminiRequest(client, prompt, post)
  {
    match client.provider
    case Gemini => SendGeminiRequest(client, prompt, post)
  }

  // ---------------------------------------------------------------------------
  // Error messages
  // ---------------------------------------------------------------------------

  const KeyMessageLead := "API key is not configured for provider: "
  const DeserializeLead := "Failed to deserialize Gemini API response: "
  const ApiErrorLead := "LLM API error "
  const BodyLabel := " - Body: "

  /** The text each error displays. The status and empty-response errors print
      the body with Rust's `Debug` formatting, which is not modelled. */
  function Message(e: LlmError): (m: string)
    requires !e.UnexpectedStatus? && !e.EmptyResponse?
    ensures e.KeyNotConfigured? ==> m == KeyMessageLead + AsStr(e.provider)
    ensures e.GeminiConfigMissing? ==> m == "Gemini configuration not found"
    ensures e.Deserialize? ==>
      && |m| == |DeserializeLead| + |e.detail| + |BodyLabel| + |e.body|
      && IsPrefix(DeserializeLead, m)
      && OccursAt(e.detail, m, |DeserializeLead|)
      && IsSuffix(BodyLabel + e.body, m)
    ensures e.Api? ==>
      && |m| == |ApiErrorLead + Decimal(e.code) + ": "| + |e.message|
      && IsPrefix(ApiErrorLead + Decimal(e.code) + ": ", m)
      && IsSuffix(e.message, m)
  {
    match e
    case KeyNotConfigured(provider) => KeyMessageLead + AsStr(provider)
    case GeminiConfigMissing => "Gemini configuration not found"
    case Network(detail) => detail
    case Deserialize(detail, body) =>
      Layout(DeserializeLead, detail, BodyLabel + body);
      DeserializeLead + detail + (BodyLabel + body)
    case Api(code, message) =>
      Layout(ApiErrorLead + Decimal(code) + ": ", message, "");
      ApiErrorLead + Decimal(code) + ": " + message
  }

  /** The construction error names the provider after the fixed text. */
  lemma KeyErrorMessage(config: LlmConfig)
    requires !KeyConfigured(config.key)
    ensures New(Gemini, config).Failure?
    ensures Contains(Message(New(Gemini, config).error),
                     "API key is not configured for provider: gemini")
  {
    var m := Message(New(Gemini, config).error);
    assert OccursAt("API key is not configured for provider: gemini", m, 0);
  }
}
