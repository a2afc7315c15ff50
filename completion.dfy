/**
 * `chatWithAzure`: build the chat-completions URL from configuration, post the
 * conversation, and take the first choice's message text, falling back to
 * "(no response)" when the response does not carry one. The HTTP exchange is
 * a parameter: a function from the request to its outcome.
 */
module Completion {
  import opened JsValues

  datatype Role = System | User

  /** One `{ role, content }` entry of the `messages` array. */
  datatype Turn = Turn(role: Role, content: string)

  const SystemPrompt := "You are a helpful, concise assistant for Slack users."

  /** The two-turn conversation both handlers send: the fixed system turn, then the user's text. */
  function Conversation(userText: string): (r: seq<Turn>)
    ensures |r| == 2 && r[0] == Turn(System, SystemPrompt)
    ensures r[1].role == User && r[1].content == userText
  {
    [Turn(System, SystemPrompt), Turn(User, userText)]
  }

  // ---- the request ----

  /** The three environment variables the URL is built from; an unset one is None. */
  datatype Config = Config(endpoint: Option<string>, deployment: Option<string>, apiVersion: Option<string>)

  const DeploymentsPath := "/openai/deployments/"
  const CompletionsPath := "/chat/completions?api-version="
  const MaxTokens := 800

  /** The template literal of the request URL; an unset variable prints as "undefined". */
  function RequestUrl(cfg: Config): (r: string)
    ensures var prefix := ToText(cfg.endpoint) + DeploymentsPath;
      |prefix| <= |r| && r[..|prefix|] == prefix
    ensures |ToText(cfg.apiVersion)| <= |r| && r[|r| - |ToText(cfg.apiVersion)|..] == ToText(cfg.apiVersion)
  {
    ToText(cfg.endpoint) + DeploymentsPath + ToText(cfg.deployment) + CompletionsPath + ToText(cfg.apiVersion)
  }

  /** What is posted: the URL and the body's `messages` and `max_tokens`. */
  datatype Request = Request(url: string, messages: seq<Turn>, maxTokens: nat)

  function MakeRequest(cfg: Config, messages: seq<Turn>): (r: Request)
    ensures r.url == RequestUrl(cfg) && r.messages == messages && r.maxTokens == MaxTokens
  {
    Request(RequestUrl(cfg), messages, MaxTokens)
  }

  /** The first index of `c` in `s` at or after `p`, or `|s|` when there is none. */
  function IndexOf(s: string, c: char, p: nat): (n: nat)
    requires p <= |s|
    ensures p <= n <= |s|
    ensures n < |s| ==> s[n] == c
    ensures forall m :: p <= m < n ==> s[m] != c
    decreases |s| - p
  {
    if p == |s| || s[p] == c then p else IndexOf(s, c, p + 1)
  }

  /** Read the deployment and API version back out of a request URL, given the
      endpoint it starts with: the inverse of RequestUrl. */
  function ParseRequestUrl(url: string, endpoint: string): Option<(string, string)>
  {
    var prefix := endpoint + DeploymentsPath;
    if |prefix| <= |url| && url[..|prefix|] == prefix then
      var rest := url[|prefix|..];
      var n := IndexOf(rest, '/', 0);
      var tail := rest[n..];
      if |CompletionsPath| <= |tail| && tail[..|CompletionsPath|] == CompletionsPath then
        Some((rest[..n], tail[|CompletionsPath|..]))
      else
        None
    else
      None
  }

  /** The URL carries the endpoint, deployment and API version recoverably, as
      long as the deployment name has no `/` in it. */
  lemma RequestUrlRoundTrip(cfg: Config)
    requires '/' !in ToText(cfg.deployment)
    ensures ParseRequestUrl(RequestUrl(cfg), ToText(cfg.endpoint))
      == Some((ToText(cfg.deployment), ToText(cfg.apiVersion)))
  {
    var e, d, v := ToText(cfg.endpoint), ToText(cfg.deployment), ToText(cfg.apiVersion);
    var url := RequestUrl(cfg);
    var prefix := e + DeploymentsPath;
    assert url == prefix + (d + CompletionsPath + v);
    assert url[..|prefix|] == prefix;
    var rest := url[|prefix|..];
    assert rest == d + (CompletionsPath + v);
    var n := IndexOf(rest, '/', 0);
    assert rest[|d|] == '/';
    assert n == |d|;
    assert rest[..n] == d;
    assert rest[n..] == CompletionsPath + v;
  }

  // ---- the response ----

  /** The parts of the axios response that `res.data?.choices?.[0]?.message?.content`
      walks through; every level may be missing. */
  datatype Response = Response(data: Option<ResponseData>)
  datatype ResponseData = ResponseData(choices: Option<seq<Choice>>)
  datatype Choice = Choice(message: Option<ChatMessage>)
  datatype ChatMessage = ChatMessage(content: Option<string>)

  const NoResponse := "(no response)"

  /** The optional chain: None as soon as one link is missing, or the array is empty. */
  function FirstChoiceContent(res: Response): (r: Option<string>)
    ensures r.Some? <==> (&& res.data.Some? && res.data.value.choices.Some?
                          && |res.data.value.choices.value| > 0
                          && res.data.value.choices.value[0].message.Some?
                          && res.data.value.choices.value[0].message.value.content.Some?)
    ensures r.Some? ==> r.value == res.data.value.choices.value[0].message.value.content.value
  {
    match res.data
    case None => None
    case Some(data) =>
      match data.choices
      case None => None
      case Some(choices) =>
        if |choices| == 0 then None
        else
          match choices[0].message
          case None => None
          case Some(message) => message.content
  }

  /** `... ?? '(no response)'`: the content whenever it is there, even when empty;
      the fallback text only when some link of the path is missing. */
  function ExtractReply(res: Response): (r: string)
    ensures (&& res.data.Some? && res.data.value.choices.Some?
             && |res.data.value.choices.value| > 0
             && res.data.value.choices.value[0].message.Some?
             && res.data.value.choices.value[0].message.value.content.Some?)
      ==> r == res.data.value.choices.value[0].message.value.content.value
    ensures (|| res.data.None? || res.data.value.choices.None?
             || |res.data.value.choices.value| == 0
             || res.data.value.choices.value[0].message.None?
             || res.data.value.choices.value[0].message.value.content.None?)
      ==> r == NoResponse
  {
    match FirstChoiceContent(res)
    case Some(content) => content
    case None => NoResponse
  }

  /** An empty content string is passed through, not replaced by the fallback. */
  lemma EmptyContentKept(res: Response)
    requires FirstChoiceContent(res) == Some("")
    ensures ExtractReply(res) == ""
  {
  }

  // ---- the call ----

  /** How the POST ends: a response, the 60-second timeout, or an HTTP or transport failure. */
  datatype Outcome = Responded(response: Response) | TimedOut | Failed

  datatype CallError = Timeout | Upstream

  datatype Reply = Answer(text: string) | Error(error: CallError)

  /** `chatWithAzure(messages)` with the HTTP exchange `post` as a parameter: one
      attempt, no retry; failures are thrown to the caller. */
  function ChatWithAzure(cfg: Config, messages: seq<Turn>, post: Request -> Outcome): (r: Reply)
    ensures r.Answer? <==> post(MakeRequest(cfg, messages)).Responded?
    ensures r.Answer? ==> r.text == ExtractReply(post(MakeRequest(cfg, messages)).response)
    ensures r.Error? ==> (r.error == Timeout <==> post(MakeRequest(cfg, messages)) == TimedOut)
  {
    match post(MakeRequest(cfg, messages))
    case Responded(res) => Answer(ExtractReply(res))
    case TimedOut => Error(Timeout)
    case Failed => Error(Upstream)
  }
}
