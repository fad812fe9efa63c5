/** The Azure OpenAI client: configuration and its validation, the chat
    completions URL, the bounded retry loop of a request, the extraction of
    JSON from a fenced reply, the JSON request, and the assistant's polling
    loop. The network is a parameter: the outcome of each attempt, each
    status check and each reply is given, not fetched. */
module AiClient {
  import opened Wrappers
  import opened Strings

  /** The client's exception classes: the base error, the timeout, the rate
      limit and the JSON parse error. */
  datatype AiError =
    | GeneralError(message: string)
    | TimeoutError(message: string)
    | RateLimitError(message: string)
    | ParseError(message: string)

  // ---------------------------------------------------------------------------
  // Configuration

  const EndpointVar := "AZURE_OPENAI_ENDPOINT"
  const ApiKeyVar := "AZURE_OPENAI_API_KEY"
  const DeploymentVar := "AZURE_OPENAI_DEPLOYMENT_NAME"
  const ApiVersionVar := "AZURE_API_VERSION"
  const AssistantVar := "AZURE_ASSISTANT_ID"
  const DefaultApiVersion := "2024-02-01"

  /** The settings without which no client is built, in the order the
      error message lists them. */
  const RequiredVars := [EndpointVar, ApiKeyVar, DeploymentVar]

  const MissingHead := "Missing required Azure AI configuration. Please set the following environment variables: "

  /** The process environment. */
  type Env = map<string, string>

  /** The constructor's arguments; `timeoutText` is the timeout as Python
      prints the float. */
  datatype ClientArgs = ClientArgs(
    endpoint: Option<string>,
    apiKey: Option<string>,
    deployment: Option<string>,
    apiVersion: Option<string>,
    assistantId: Option<string>,
    timeoutText: string,
    maxRetries: int,
    retryDelay: real)

  datatype Client = Client(
    endpoint: string,
    apiKey: string,
    deployment: string,
    apiVersion: string,
    assistantId: Option<string>,
    timeoutText: string,
    maxRetries: int,
    retryDelay: real,
    apiUrl: string)

  /** A truthy text. */
  predicate Given(v: Option<string>) {
    v.Some? && v.value != ""
  }

  /** `given or os.getenv(name)`. */
  function Setting(given: Option<string>, env: Env, name: string): (r: Option<string>)
    ensures Given(given) ==> r == given
    ensures !Given(given) ==> (r.Some? <==> name in env)
    ensures !Given(given) && name in env ==> r == Some(env[name])
  {
    if Given(given) then given else if name in env then Some(env[name]) else None
  }

  /** `api_version or os.getenv(AZURE_API_VERSION, default)`. */
  function VersionSetting(given: Option<string>, env: Env): string {
    if Given(given) then given.value
    else if ApiVersionVar in env then env[ApiVersionVar]
    else DefaultApiVersion
  }

  /** The chat completions URL: the endpoint without trailing slashes, the
      deployment path and the API version. */
  function ApiUrl(endpoint: string, deployment: string, version: string): string {
    RStripChar(endpoint, '/') + DeploymentsPath + deployment + CompletionsPath + version
  }

  const DeploymentsPath := "/openai/deployments/"
  const CompletionsPath := "/chat/completions?api-version="

  /** The names of the required settings that are missing, in their fixed
      order. */
  function MissingVars(endpoint: Option<string>, apiKey: Option<string>, deployment: Option<string>): seq<string> {
    (if !Given(endpoint) then [EndpointVar] else [])
      + (if !Given(apiKey) then [ApiKeyVar] else [])
      + (if !Given(deployment) then [DeploymentVar] else [])
  }

  /** The elements of `s` that satisfy `p`, in order. */
  function Filter(s: seq<string>, p: string -> bool): (r: seq<string>)
    ensures |r| <= |s|
    ensures forall x :: x in r <==> x in s && p(x)
  {
    if |s| == 0 then [] else (if p(s[0]) then [s[0]] else []) + Filter(s[1..], p)
  }

  /** `AzureAIClient(...)`: fails listing the missing settings, or builds
      the client with its URL. */
  function NewClient(args: ClientArgs, env: Env): Result<Client, AiError> {
    var endpoint := Setting(args.endpoint, env, EndpointVar);
    var apiKey := Setting(args.apiKey, env, ApiKeyVar);
    var deployment := Setting(args.deployment, env, DeploymentVar);
    var version := VersionSetting(args.apiVersion, env);
    var assistant := Setting(args.assistantId, env, AssistantVar);
    var missing := MissingVars(endpoint, apiKey, deployment);
    if |missing| > 0 then
      Failure(GeneralError(MissingHead + Join(missing, ", ") + MissingHelp))
    else
      Success(Client(endpoint.value, apiKey.value, deployment.value, version, assistant,
                     args.timeoutText, args.maxRetries, args.retryDelay,
                     ApiUrl(endpoint.value, deployment.value, version)))
  }

  const MissingHelp := "\n\nRequired setup:\n1. Copy .env.example to .env\n2. Fill in your Azure AI Foundry credentials:\n"
    + "   - AZURE_OPENAI_ENDPOINT: Your Azure OpenAI endpoint URL\n"
    + "   - AZURE_OPENAI_API_KEY: Your Azure OpenAI API key\n"
    + "   - AZURE_OPENAI_DEPLOYMENT_NAME: Your GPT model deployment name\n"
    + "   - AZURE_API_VERSION: API version (optional, defaults to 2024-02-01)\n"
    + "   - AZURE_ASSISTANT_ID: Assistant ID (optional, for Azure AI Foundry assistants)\n\n"
    + "Get these values from: Azure AI Foundry -> Projects -> Your Project -> Settings"

  /** The value a required setting resolves to. */
  function Resolved(args: ClientArgs, env: Env, name: string): Option<string> {
    if name == EndpointVar then Setting(args.endpoint, env, EndpointVar)
    else if name == ApiKeyVar then Setting(args.apiKey, env, ApiKeyVar)
    else Setting(args.deployment, env, DeploymentVar)
  }

  /** The missing list is the required settings, in order, that resolve to
      nothing or to an empty text. */
  lemma MissingVarsSpec(args: ClientArgs, env: Env)
    ensures MissingVars(Setting(args.endpoint, env, EndpointVar), Setting(args.apiKey, env, ApiKeyVar),
                        Setting(args.deployment, env, DeploymentVar))
         == Filter(RequiredVars, name => !Given(Resolved(args, env, name)))
  {
    var p := name => !Given(Resolved(args, env, name));
    var r := RequiredVars;
    assert r[1..][1..][1..] == [];
    assert Filter(r[1..][1..], p) == (if p(DeploymentVar) then [DeploymentVar] else []);
    assert Filter(r[1..], p) == (if p(ApiKeyVar) then [ApiKeyVar] else []) + Filter(r[1..][1..], p);
    assert Filter(r, p) == (if p(EndpointVar) then [EndpointVar] else []) + Filter(r[1..], p);
  }

  /** Construction fails exactly when a required setting is missing, with a
      message naming the missing ones; otherwise the client keeps the
      resolved settings, the API version defaults to 2024-02-01 and the URL
      is built from them. */
  lemma NewClientSpec(args: ClientArgs, env: Env)
    ensures var endpoint := Setting(args.endpoint, env, EndpointVar);
      var apiKey := Setting(args.apiKey, env, ApiKeyVar);
      var deployment := Setting(args.deployment, env, DeploymentVar);
      && (NewClient(args, env).Failure? <==> !Given(endpoint) || !Given(apiKey) || !Given(deployment))
      && (NewClient(args, env).Failure? ==>
            NewClient(args, env).error == GeneralError(MissingHead + Join(Filter(RequiredVars, name => !Given(Resolved(args, env, name))), ", ") + MissingHelp))
      && (NewClient(args, env).Success? ==>
            var c := NewClient(args, env).value;
            && c.endpoint == endpoint.value && c.apiKey == apiKey.value && c.deployment == deployment.value
            && (Given(args.apiVersion) ==> c.apiVersion == args.apiVersion.value)
            && (!Given(args.apiVersion) && ApiVersionVar in env ==> c.apiVersion == env[ApiVersionVar])
            && (!Given(args.apiVersion) && ApiVersionVar !in env ==> c.apiVersion == DefaultApiVersion)
            && c.apiUrl == ApiUrl(c.endpoint, c.deployment, c.apiVersion))
  {
    MissingVarsSpec(args, env);
  }

  /** Trailing slashes on the endpoint do not change the URL, and the URL
      opens with the endpoint stripped of them. */
  lemma ApiUrlSlash(endpoint: string, deployment: string, version: string)
    ensures ApiUrl(endpoint + "/", deployment, version) == ApiUrl(endpoint, deployment, version)
    ensures IsPrefix(RStripChar(endpoint, '/'), ApiUrl(endpoint, deployment, version))
  {
    SlashStripped(endpoint);
    ApiUrlOpens(endpoint, deployment, version);
  }

  lemma SlashStripped(endpoint: string)
    ensures RStripChar(endpoint + "/", '/') == RStripChar(endpoint, '/')
  {
    assert (endpoint + "/")[..|endpoint + "/"| - 1] == endpoint;
  }

  lemma ApiUrlOpens(endpoint: string, deployment: string, version: string)
    ensures IsPrefix(RStripChar(endpoint, '/'), ApiUrl(endpoint, deployment, version))
  {
    var e := RStripChar(endpoint, '/');
    var rest := DeploymentsPath + deployment + CompletionsPath + version;
    assert ApiUrl(endpoint, deployment, version) == e + rest;
    PrefixOfAppend(e, e, rest);
  }

  // ---------------------------------------------------------------------------
  // The retry loop of a request

  /** What one attempt of the POST gave: a response (with the contents of
      its choices and its `retry-after` header), a timeout, or another
      request error. */
  datatype Attempt =
    | Response(status: int, choices: seq<string>, retryAfter: Option<real>, text: string)
    | TimedOut
    | RequestFailed(detail: string)

  /** The outcome of a request, the number of attempts made and the pauses
      taken between them. */
  datatype Trace = Trace(result: Result<string, AiError>, attempts: nat, sleeps: seq<real>)

  const NoChoices := "No choices in response"
  const RateLimitMessage := "Rate limit exceeded"
  const AllAttemptsFailed := "All retry attempts failed"

  function StatusMessage(status: int, text: string): string {
    "API request failed with status " + IntToString(status) + ": " + text
  }

  function TimeoutMessage(timeoutText: string): string {
    "Request timed out after " + timeoutText + "s"
  }

  function RequestErrorMessage(detail: string): string {
    "Request error: " + detail
  }

  function Stop(r: Result<string, AiError>): Trace {
    Trace(r, 1, [])
  }

  function Again(pause: real, t: Trace): Trace {
    Trace(t.result, t.attempts + 1, [pause] + t.sleeps)
  }

  /** `_make_request`: `max_retries + 1` attempts, none when that is not
      positive. */
  function MakeRequest(net: nat -> Attempt, maxRetries: int, retryDelay: real, timeoutText: string): Trace {
    if maxRetries < 0 then Trace(Failure(GeneralError(AllAttemptsFailed)), 0, [])
    else Attempts(net, maxRetries, retryDelay, timeoutText, 0)
  }

  /** The attempts after which the loop tries again when one is left: rate
      limits, timeouts and request errors. */
  predicate Retried(a: Attempt) {
    a.TimedOut? || a.RequestFailed? || (a.Response? && a.status == 429)
  }

  /** How an attempt ends the loop when it is the last one or is not
      retried. */
  function Settle(a: Attempt, timeoutText: string): Result<string, AiError> {
    match a
    case Response(status, choices, _, text) =>
      if status == 200 && |choices| > 0 then Success(choices[0])
      else if status == 200 then Failure(GeneralError(NoChoices))
      else if status == 429 then Failure(RateLimitError(RateLimitMessage))
      else Failure(GeneralError(StatusMessage(status, text)))
    case TimedOut => Failure(TimeoutError(TimeoutMessage(timeoutText)))
    case RequestFailed(detail) => Failure(GeneralError(RequestErrorMessage(detail)))
  }

  /** A 200 with at least one choice. */
  predicate Answers(a: Attempt) {
    a.Response? && a.status == 200 && |a.choices| > 0
  }

  /** An attempt that ends the loop returns exactly when it answers, and
      then its first choice. */
  lemma SettleReturns(a: Attempt, timeoutText: string)
    ensures Settle(a, timeoutText).Success? <==> Answers(a)
    ensures Answers(a) ==> Settle(a, timeoutText) == Success(a.choices[0])
  {
  }

  /** The pause after a retried attempt. */
  function Pause(a: Attempt, attempt: nat, retryDelay: real): real {
    if a.Response? then a.retryAfter.GetOr(retryDelay) else retryDelay * (attempt + 1) as real
  }

  /** The loop from attempt `attempt` on: a rate limit, timeout or request
      error waits and retries while an attempt is left; any other reply,
      or any reply to the last attempt, ends the loop as `Settle` says. */
  function Attempts(net: nat -> Attempt, maxRetries: int, retryDelay: real, timeoutText: string, attempt: nat): Trace
    requires attempt <= maxRetries
    decreases maxRetries - attempt
  {
    var a := net(attempt);
    if attempt == maxRetries || !Retried(a) then Stop(Settle(a, timeoutText))
    else Again(Pause(a, attempt, retryDelay), Attempts(net, maxRetries, retryDelay, timeoutText, attempt + 1))
  }

  /** The attempt that ends the loop: the first one from `from` on that is
      not retried, or the last. */
  function Settling(net: nat -> Attempt, maxRetries: int, from: nat): (k: nat)
    requires from <= maxRetries
    decreases maxRetries - from
    ensures from <= k <= maxRetries
  {
    if from == maxRetries || !Retried(net(from)) then from else Settling(net, maxRetries, from + 1)
  }

  /** From `from` on, the loop ends at the settling attempt `k`: its
      outcome is that attempt's, it makes `k - from + 1` attempts, and it
      pauses once after each earlier one, as long as that attempt asks. */
  lemma {:induction false} AttemptsSettle(net: nat -> Attempt, maxRetries: int, retryDelay: real, timeoutText: string, from: nat)
    requires from <= maxRetries
    ensures var k := Settling(net, maxRetries, from);
      var t := Attempts(net, maxRetries, retryDelay, timeoutText, from);
      && (forall j :: from <= j < k ==> Retried(net(j)))
      && (k == maxRetries || !Retried(net(k)))
      && t.result == Settle(net(k), timeoutText)
      && t.attempts == k - from + 1
      && |t.sleeps| == k - from
      && (forall j :: from <= j < k ==> t.sleeps[j - from] == Pause(net(j), j, retryDelay))
    decreases maxRetries - from
  {
    if from < maxRetries && Retried(net(from)) {
      AttemptsSettle(net, maxRetries, retryDelay, timeoutText, from + 1);
      var t' := Attempts(net, maxRetries, retryDelay, timeoutText, from + 1);
      var t := Attempts(net, maxRetries, retryDelay, timeoutText, from);
      assert t.sleeps == [Pause(net(from), from, retryDelay)] + t'.sleeps;
    }
  }

  /** The request makes at most `max_retries + 1` attempts and ends at the
      first attempt that is not a rate limit, timeout or request error, or
      at the last one; it returns exactly when that attempt is a 200 with a
      choice, and then returns the first choice. */
  lemma MakeRequestSpec(net: nat -> Attempt, maxRetries: int, retryDelay: real, timeoutText: string) returns (k: nat)
    requires maxRetries >= 0
    ensures var t := MakeRequest(net, maxRetries, retryDelay, timeoutText);
      && k <= maxRetries
      && (forall j :: 0 <= j < k ==> Retried(net(j)))
      && (k == maxRetries || !Retried(net(k)))
      && t.attempts == k + 1 <= maxRetries + 1
      && t.result == Settle(net(k), timeoutText)
      && (t.result.Success? <==> Answers(net(k)))
      && |t.sleeps| == k
      && (forall j :: 0 <= j < k ==> t.sleeps[j] == Pause(net(j), j, retryDelay))
  {
    k := Settling(net, maxRetries, 0);
    var t := MakeRequest(net, maxRetries, retryDelay, timeoutText);
    assert t == Attempts(net, maxRetries, retryDelay, timeoutText, 0);
    AttemptsSettle(net, maxRetries, retryDelay, timeoutText, 0);
    SettleReturns(net(k), timeoutText);
    // `AttemptsSettle` indexes the pauses from `from`; name that index here.
    assert forall j :: 0 <= j < k ==> t.sleeps[j] == t.sleeps[j - 0];
  }

  /** A reply that is neither a rate limit, a timeout nor a request error
      ends the request on the attempt it answers. */
  lemma NoRetryOnFirst(net: nat -> Attempt, maxRetries: int, retryDelay: real, timeoutText: string)
    requires maxRetries >= 0 && !Retried(net(0))
    ensures MakeRequest(net, maxRetries, retryDelay, timeoutText).attempts == 1
    ensures MakeRequest(net, maxRetries, retryDelay, timeoutText).result == Settle(net(0), timeoutText)
  {
  }

  /** The fallback "All retry attempts failed" is raised exactly when no
      attempt is allowed: every attempt that ends the loop raises its own
      error. */
  lemma AllAttemptsFailedOnlyWithoutAttempts(net: nat -> Attempt, maxRetries: int, retryDelay: real, timeoutText: string)
    ensures MakeRequest(net, maxRetries, retryDelay, timeoutText).result == Failure(GeneralError(AllAttemptsFailed))
        <==> maxRetries < 0
  {
    if maxRetries >= 0 {
      var k := MakeRequestSpec(net, maxRetries, retryDelay, timeoutText);
      var a := net(k);
      if a.Response? && a.status != 200 && a.status != 429 {
        assert StatusMessage(a.status, a.text)[1] == 'P';
      } else if a.RequestFailed? {
        assert RequestErrorMessage(a.detail)[0] == 'R';
      }
      assert AllAttemptsFailed[1] == 'l';
    }
  }

  // ---------------------------------------------------------------------------
  // JSON from a reply

  const Fence := "```"

  /** The body of the first fenced block of `t` (after an optional `json`
      tag), stripped; `None` when there is no complete block. */
  function FencedBody(t: string): Option<string> {
    match IndexOf(t, Fence)
    case None => None
    case Some(o) =>
      var rest := t[o + 3..];
      var body := if IsPrefix("json", rest) then rest[4..] else rest;
      match IndexOf(body, Fence)
      case None => None
      case Some(c) => Some(Strip(body[..c]))
  }

  /** The text `ensure_json` parses: the stripped reply, or the body of its
      first fenced block. */
  function CleanJson(text: string): string {
    var t := Strip(text);
    match FencedBody(t)
    case Some(b) => b
    case None => t
  }

  /** `ensure_json(text)` with the JSON parser `parse`, which gives a value
      or the decoder's error text. */
  function EnsureJson<V>(text: string, parse: string -> Result<V, string>): (r: Result<V, AiError>)
    ensures r.Success? <==> parse(CleanJson(text)).Success?
    ensures r.Success? ==> r.value == parse(CleanJson(text)).value
  {
    var cleaned := CleanJson(text);
    match parse(cleaned)
    case Success(v) => Success(v)
    case Failure(e) => Failure(ParseError("Failed to parse JSON from response: " + e + "\nResponse text: " + cleaned))
  }

  /** A reply with no fence in it is parsed as it is, stripped. */
  lemma CleanUnfenced(text: string)
    requires !Contains(Strip(text), Fence)
    ensures CleanJson(text) == Strip(text)
  {
  }

  function Tag(tagged: bool): string {
    if tagged then "json" else ""
  }

  predicate NoBacktick(s: string) {
    forall i :: 0 <= i < |s| ==> s[i] != '`'
  }

  /** The first fence of a text whose start has no backtick is the one
      right after that start. */
  lemma FenceFirstAt(pre: string, rest: string)
    requires NoBacktick(pre)
    ensures IndexOf(pre + Fence + rest, Fence) == Some(|pre|)
  {
    var t := pre + Fence + rest;
    assert t[|pre|..|pre| + 3] == Fence;
    assert ContainsAt(t, Fence, |pre|);
    forall j | 0 <= j < |pre| ensures !ContainsAt(t, Fence, j) {
      assert t[j] == pre[j] != '`';
      if j + 3 <= |t| {
        assert t[j..j + 3][0] == t[j];
      }
    }
    var r := IndexOf(t, Fence);
    assert r.Some?;
    assert r.value <= |pre|;
  }

  /** Only the first fenced block counts: text before it (without
      backticks) and anything after it, more blocks included, are
      ignored. */
  lemma FirstBlockOnly(pre: string, body: string, post: string, tagged: bool)
    requires NoBacktick(pre) && NoBacktick(body)
    requires !tagged ==> !IsPrefix("json", body)
    ensures FencedBody(pre + Fence + Tag(tagged) + body + Fence + post) == Some(Strip(body))
  {
    var tail := body + Fence + post;
    var t := pre + Fence + Tag(tagged) + body + Fence + post;
    assert t == pre + Fence + (Tag(tagged) + tail);
    FenceFirstAt(pre, Tag(tagged) + tail);
    var rest := t[|pre| + 3..];
    assert rest == Tag(tagged) + tail;
    TagSkipped(body, tail, tagged);
    FenceFirstAt(body, post);
    assert tail[..|body|] == body;
  }

  /** The optional `json` tag is skipped, and only it. */
  lemma TagSkipped(body: string, tail: string, tagged: bool)
    requires NoBacktick(body) && IsPrefix(body + Fence, tail)
    requires !tagged ==> !IsPrefix("json", body)
    ensures var rest := Tag(tagged) + tail;
      (if IsPrefix("json", rest) then rest[4..] else rest) == tail
  {
    var rest := Tag(tagged) + tail;
    if tagged {
      assert rest[..4] == "json";
      assert rest[4..] == tail;
    } else if |body| >= 4 {
      assert rest[..4] == body[..4];
    } else if |rest| >= 4 {
      assert rest[|body|] == '`';
      assert "json"[|body|] != '`';
    }
  }

  /** A text with no whitespace at either end is its own strip. */
  lemma StripUnpadded(s: string)
    requires |s| > 0 && !IsSpace(s[0]) && !IsSpace(s[|s| - 1])
    ensures Strip(s) == s
  {
  }

  /** A JSON text without backticks, fenced on lines of its own as models
      reply, comes back unchanged. */
  lemma FenceRoundTrip(json: string, tagged: bool)
    requires NoBacktick(json) && Strip(json) == json
    ensures CleanJson(Fence + Tag(tagged) + "\n" + json + "\n" + Fence) == json
  {
    var body := "\n" + json + "\n";
    var t := Fence + Tag(tagged) + "\n" + json + "\n" + Fence;
    assert t == "" + Fence + Tag(tagged) + body + Fence + "";
    assert body[0] == '\n';
    StripUnpadded(t);
    FirstBlockOnly("", body, "", tagged);
    assert body == ['\n'] + json + ['\n'];
    StripPadded(json, '\n', '\n');
  }

  // ---------------------------------------------------------------------------
  // Chat requests

  datatype ChatMessage = ChatMessage(role: string, content: string)

  /** The request payload: messages, temperature, and the fixed token and
      sampling limits. */
  datatype ChatRequest = ChatRequest(messages: seq<ChatMessage>, temperature: real, maxTokens: nat, topP: real)

  function Payload(messages: seq<ChatMessage>, temperature: real): ChatRequest {
    ChatRequest(messages, temperature, 4000, 0.95)
  }

  /** `llm_text`: the system and user prompts at the default temperature. */
  function TextRequest(system: string, user: string): ChatRequest {
    Payload([ChatMessage("system", system), ChatMessage("user", user)], 0.1)
  }

  const JsonInstructions := "\n\nIMPORTANT: You must respond with valid JSON only. Do not include any explanations, \nmarkdown formatting, or text outside the JSON structure.\n\nExpected response schema hint: "

  const JsonClosing := "\n\nRespond with valid JSON that matches the expected structure."

  /** The system prompt of `llm_json`: the caller's, the JSON-only
      instructions and the schema hint. */
  function JsonSystemPrompt(system: string, hint: string): string {
    system + (JsonInstructions + hint + JsonClosing)
  }

  function JsonRequest(system: string, user: string, hint: string): ChatRequest {
    Payload([ChatMessage("system", JsonSystemPrompt(system, hint)), ChatMessage("user", user)], 0.0)
  }

  /** The JSON request is deterministic (temperature 0), sends the user
      prompt unchanged, and its system message opens with the caller's
      prompt and carries the schema hint. */
  lemma JsonRequestSpec(system: string, user: string, hint: string)
    ensures var r := JsonRequest(system, user, hint);
      && r.temperature == 0.0 && r.maxTokens == 4000
      && |r.messages| == 2
      && r.messages[0].role == "system" && r.messages[1] == ChatMessage("user", user)
      && IsPrefix(system, r.messages[0].content)
      && Contains(r.messages[0].content, hint)
  {
    Wrapped(system, JsonInstructions, hint, JsonClosing);
  }

  /** A text extended by `before + middle + after` opens with itself and
      holds the middle. */
  lemma Wrapped(head: string, before: string, middle: string, after: string)
    ensures IsPrefix(head, head + (before + middle + after))
    ensures Contains(head + (before + middle + after), middle)
  {
    PrefixOfAppend(head, head, before + middle + after);
    ContainsMiddle(head + before, middle, after);
    assert head + (before + middle + after) == head + before + middle + after;
  }

  /** `llm_text` on a client, with `send` giving the outcome of each attempt
      for a payload. */
  function LlmText(c: Client, system: string, user: string, send: ChatRequest -> nat -> Attempt): Result<string, AiError> {
    MakeRequest(send(TextRequest(system, user)), c.maxRetries, c.retryDelay, c.timeoutText).result
  }

  /** `llm_json` on a client. */
  function LlmJson<V>(c: Client, system: string, user: string, hint: string, send: ChatRequest -> nat -> Attempt,
                      parse: string -> Result<V, string>): Result<V, AiError>
  {
    match MakeRequest(send(JsonRequest(system, user, hint)), c.maxRetries, c.retryDelay, c.timeoutText).result
    case Failure(e) => Failure(e)
    case Success(text) => EnsureJson(text, parse)
  }

  /** `llm_json` returns a value exactly when the request returns a text
      whose cleaned form parses, and then that value; a failed request
      raises its own error. */
  lemma LlmJsonSpec<V>(c: Client, system: string, user: string, hint: string, send: ChatRequest -> nat -> Attempt,
                       parse: string -> Result<V, string>)
    ensures var reply := MakeRequest(send(JsonRequest(system, user, hint)), c.maxRetries, c.retryDelay, c.timeoutText).result;
      var r := LlmJson(c, system, user, hint, send, parse);
      && (r.Success? <==> reply.Success? && parse(CleanJson(reply.value)).Success?)
      && (r.Success? ==> r.value == parse(CleanJson(reply.value)).value)
      && (reply.Failure? ==> r == Failure(reply.error))
  {
  }

  // ---------------------------------------------------------------------------
  // The assistant

  /** A status check of the run: a non-200 reply, or the run's status. */
  datatype StatusCheck = StatusFailed(code: int) | RunState(status: string)

  datatype ThreadMessage = ThreadMessage(role: string, text: string)

  /** The reply to the request for the thread's messages. */
  datatype MessagesReply = MessagesFailed(code: int) | MessagesListed(messages: seq<ThreadMessage>)

  /** 30 checks, one second apart. */
  const MaxPolls := 30

  predicate Terminal(status: string) {
    status == "failed" || status == "cancelled" || status == "expired"
  }

  /** A check that ends the polling. */
  predicate Decisive(c: StatusCheck) {
    c.StatusFailed? || c.status == "completed" || Terminal(c.status)
  }

  /** The first assistant message of a list, if any. */
  function FirstAssistant(ms: seq<ThreadMessage>): (r: Option<string>)
    ensures r.None? <==> forall i :: 0 <= i < |ms| ==> ms[i].role != "assistant"
  {
    if |ms| == 0 then None
    else if ms[0].role == "assistant" then Some(ms[0].text)
    else FirstAssistant(ms[1..])
  }

  lemma {:induction false} FirstAssistantSpec(ms: seq<ThreadMessage>) returns (i: nat)
    requires FirstAssistant(ms).Some?
    ensures i < |ms| && ms[i].role == "assistant" && FirstAssistant(ms).value == ms[i].text
    ensures forall j :: 0 <= j < i ==> ms[j].role != "assistant"
  {
    if ms[0].role == "assistant" {
      i := 0;
    } else {
      var i' := FirstAssistantSpec(ms[1..]);
      i := i' + 1;
    }
  }

  /** What a completed run returns: the first assistant message. */
  function Completion(m: MessagesReply): Result<string, AiError> {
    match m
    case MessagesFailed(code) => Failure(GeneralError("Messages retrieval failed: " + IntToString(code)))
    case MessagesListed(ms) =>
      match FirstAssistant(ms)
      case Some(text) => Success(text)
      case None => Failure(GeneralError("No assistant response found"))
  }

  /** How a decisive check ends the polling. */
  function Verdict(c: StatusCheck, m: MessagesReply): Result<string, AiError> {
    match c
    case StatusFailed(code) => Failure(GeneralError("Run status check failed: " + IntToString(code)))
    case RunState(status) =>
      if status == "completed" then Completion(m) else Failure(GeneralError("Assistant run " + status))
  }

  const PollTimeout := "Assistant run timed out"

  /** Check `k` is the first decisive one, and it says the run completed. */
  predicate CompletesAt(checks: nat -> StatusCheck, k: nat) {
    && k < MaxPolls
    && (forall j :: 0 <= j < k ==> !Decisive(checks(j)))
    && checks(k) == RunState("completed")
  }

  /** A decisive check other than "completed" rules out completion. */
  lemma DecidedOtherwise(checks: nat -> StatusCheck, i: nat)
    requires Decisive(checks(i)) && checks(i) != RunState("completed")
    requires forall j :: 0 <= j < i ==> !Decisive(checks(j))
    ensures forall k :: !CompletesAt(checks, k)
  {
  }

  /** The polling loop of `_run_assistant`: `checks(i)` is the reply to
      the `i`-th status request. It stops at the first decisive check,
      which decides the outcome, and gives up after 30 checks; it returns
      exactly when the run completes within them and the messages hold an
      assistant message. */
  method PollRun(checks: nat -> StatusCheck, messages: MessagesReply) returns (r: Result<string, AiError>, polls: nat)
    ensures 1 <= polls <= MaxPolls
    ensures forall j :: 0 <= j < polls - 1 ==> !Decisive(checks(j))
    ensures Decisive(checks(polls - 1)) ==> r == Verdict(checks(polls - 1), messages)
    ensures !Decisive(checks(polls - 1)) ==> polls == MaxPolls && r == Failure(GeneralError(PollTimeout))
    ensures r.Success? <==> (exists k :: CompletesAt(checks, k)) && Completion(messages).Success?
    ensures r.Success? ==> r == Completion(messages)
  {
    polls := 0;
    while polls < MaxPolls
      invariant 0 <= polls <= MaxPolls
      invariant forall j :: 0 <= j < polls ==> !Decisive(checks(j))
    {
      var c := checks(polls);
      polls := polls + 1;
      match c
      case StatusFailed(code) =>
        r := Failure(GeneralError("Run status check failed: " + IntToString(code)));
        DecidedOtherwise(checks, polls - 1);
        return;
      case RunState(status) =>
        if status == "completed" {
          r := Completion(messages);
          assert CompletesAt(checks, polls - 1);
          return;
        } else if Terminal(status) {
          r := Failure(GeneralError("Assistant run " + status));
          DecidedOtherwise(checks, polls - 1);
          return;
        }
    }
    r := Failure(GeneralError(PollTimeout));
  }

  /** The reply to one of the POSTs that set the run up. */
  datatype HttpReply = HttpReply(status: int, text: string)

  const NoAssistant := "Assistant ID not configured. Use llm_text() instead or set AZURE_ASSISTANT_ID."

  const AssistantFailed := "Assistant request failed: "

  /** `llm_text_with_assistant` over HTTP: create a thread, add the user
      message, start the run, poll it. Every error past the assistant check
      is re-raised with the "Assistant request failed: " prefix. */
  method LlmTextWithAssistant(c: Client, thread: HttpReply, message: HttpReply, run: HttpReply,
                              checks: nat -> StatusCheck, messages: MessagesReply)
    returns (r: Result<string, AiError>)
    ensures !Given(c.assistantId) ==> r == Failure(GeneralError(NoAssistant))
    ensures r.Success? <==> (
      && Given(c.assistantId) && thread.status == 200 && message.status == 200 && run.status == 200
      && (exists k :: CompletesAt(checks, k))
      && Completion(messages).Success?)
    ensures Given(c.assistantId) && r.Failure? ==> r.error.GeneralError? && IsPrefix(AssistantFailed, r.error.message)
    ensures r.Success? ==> messages.MessagesListed? && FirstAssistant(messages.messages) == Some(r.value)
  {
    if !Given(c.assistantId) {
      return Failure(GeneralError(NoAssistant));
    }
    var inner: Result<string, AiError>;
    if thread.status != 200 {
      inner := Failure(GeneralError("Thread creation failed: " + IntToString(thread.status) + " - " + thread.text));
    } else if message.status != 200 {
      inner := Failure(GeneralError("Message creation failed: " + IntToString(message.status) + " - " + message.text));
    } else if run.status != 200 {
      inner := Failure(GeneralError("Run creation failed: " + IntToString(run.status) + " - " + run.text));
    } else {
      var polls;
      inner, polls := PollRun(checks, messages);
    }
    match inner
    case Success(text) =>
      r := Success(text);
    case Failure(e) =>
      r := Failure(GeneralError(AssistantFailed + e.message));
      PrefixOfAppend(AssistantFailed, AssistantFailed, e.message);
  }
}
