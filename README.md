# Slack relay to an Azure OpenAI chat deployment — Dafny model

The relay (`index.js`) is a Slack Bolt app. It keeps OAuth installations in an
in-memory dictionary keyed by workspace or enterprise id. It answers
`app_mention` events in a thread and direct messages in their channel, with the
text produced by an Azure OpenAI chat-completions deployment.

This project models the parts of `index.js` that hold logic:

- `installation_store.dfy` (`InstallationStore`): the `installations`
  dictionary as a class `InMemoryStore` with a `map<string, Installation>`
  field. `storeInstallation`, `fetchInstallation` and `deleteInstallation` are
  methods with `modifies` clauses, and each is specified by a function on the
  map (`Put`, `Get`, `Remove`). The scope rule (enterprise id for an
  enterprise-wide install, team id otherwise) is the single function `ScopeId`,
  used by all three.
- `mention.dfy` (`Mention`): `replace(/<@[^>]+>\s?/, '')` as an explicit scan.
  `TokenAt` and `MatchesAt` say where the pattern matches. The lemmas prove that
  the scan cuts out exactly the leftmost match, plus at most one white-space
  character after it.
- `js_text.dfy` (`JsText`): JavaScript's white-space set, as used by `\s` and
  by `String.prototype.trim`, and `trim` itself.
- `js_values.dfy` (`JsValues`): a missing property (`Option`), `||` on strings,
  and the coercion of `undefined` to the text `"undefined"` in template
  literals and property keys.
- `completion.dfy` (`Completion`): `chatWithAzure`. It builds the request URL
  (with `ParseRequestUrl` as its inverse) and a two-turn request body. The
  optional chain `res.data?.choices?.[0]?.message?.content ?? '(no response)'`
  becomes `ExtractReply`. The HTTP exchange is a parameter
  `post: Request -> Outcome`.
- `dispatch.dfy` (`Dispatch`): the two event handlers. Each returns a
  `Handled` value: the completion request it makes, the `chat.postMessage`
  arguments it would send, and the error it would throw.

Behaviour of the code that is easy to misread; the model follows the code:

- The mention pattern has no anchor. The code removes the first `<@…>` token
  anywhere in the text, not only a leading one (`StripMidText`).
- `storeInstallation` throws a TypeError when the `enterprise` or `team` object
  it reads is missing. So a store can fail (`MissingScope`).
- A missing `enterpriseId`/`teamId` in a query is not an error. It becomes the
  property key `"undefined"` (`QueryKey`).
- `thread_ts` set to the empty string falls back to `ts`, because `||` treats
  `""` as false.

## Model

| member | source | states |
|---|---|---|
| `InstallationStore.ScopeId` | index.js:22-32 | the one choice all three operations make: the enterprise id for an enterprise install and the team id otherwise; `ScopeKeyAgrees` ties the store's and the queries' keys together |
| `InstallationStore.InstallationKey` | index.js:22 | the key is the enterprise id for an enterprise install and the team id otherwise; a missing one of the two is a MissingScope error |
| `InstallationStore.QueryKey` | index.js:26 | fetch and delete choose the enterprise id or the team id by the same rule; a missing id gives the key "undefined" |
| `InstallationStore.ScopeKeyAgrees` | index.js:22-26 | the query for an installation reads the key its store wrote |
| `InstallationStore.Put` | index.js:23 | a store fails exactly when the key cannot be read; otherwise the table's keys gain that one key |
| `InstallationStore.Get` | index.js:27-29 | a fetch succeeds exactly when the key is present and returns that entry; otherwise NotFound |
| `InstallationStore.Remove` | index.js:33 | after a delete the key is absent and every other key is kept |
| `InstallationStore.PutThenGet` | index.js:21-29 | storing a record and fetching with a matching query returns exactly that record |
| `InstallationStore.PutFrame` | index.js:23 | a store leaves every other key as it was |
| `InstallationStore.PutOverwrites` | index.js:23 | a second store under the same key replaces the first; records are never merged |
| `InstallationStore.GetAfterRemove` | index.js:27-33 | fetching a deleted key throws NotFound |
| `InstallationStore.RemoveFrameAndIdempotent` | index.js:31-33 | a delete changes only its own key, and a second delete is a no-op that does not fail |
| `InstallationStore.InMemoryStore.constructor` | index.js:8 | the store starts empty |
| `InstallationStore.InMemoryStore.StoreInstallation` | index.js:21-24 | the new table is `Put` of the old one; on a missing scope object it throws and the table is unchanged |
| `InstallationStore.InMemoryStore.FetchInstallation` | index.js:25-30 | returns the entry under the query's key, or NotFound when there is none |
| `InstallationStore.InMemoryStore.DeleteInstallation` | index.js:31-34 | the new table is the old one without the query's key |
| `InstallationStore.InstallLifecycle` | index.js:20-35 | store, fetch, delete, delete, fetch on a fresh store: the first fetch returns the record, the second throws NotFound |
| `JsText.Trim` | index.js:55 | `trim` never lengthens its input; `TrimSlice`, `TrimEmpty` and `TrimIdempotent` specify it |
| `JsText.TrimStartSpec` | index.js:55 | the leading part that trim removes is all white space, and what is left is a suffix that does not start with white space |
| `JsText.TrimEndSpec` | index.js:55 | the trailing part removed is all white space, and what is left is a prefix that does not end with white space |
| `JsText.TrimSlice` | index.js:55 | `trim` returns a slice of its input whose ends are not white space, with only white space cut off on either side |
| `JsText.TrimOfTrimmed` | index.js:55 | `trim` leaves a string alone when neither end is white space |
| `JsText.TrimIdempotent` | index.js:55 | trimming twice is the same as trimming once |
| `JsText.TrimEmpty` | index.js:55 | `trim` gives the empty string exactly when its input is all white space |
| `Mention.StripFirstMention` | index.js:55 | `replace` without `g`: the text is unchanged or shorter by at least four characters; `StripLeftmost` and `StripNoMatch` specify which characters go |
| `Mention.TokenCloseUnique` | index.js:55 | at a given start, `<@[^>]+>` can close at one index only |
| `Mention.FindClose` | index.js:55 | a reported close is a `>` at or after the start |
| `Mention.FindCloseSpec` | index.js:55 | the reported `>` is the first one, and None means there is no `>` left |
| `Mention.FindToken` | index.js:55 | a reported token starts at or after the scan start and has at least one id character |
| `Mention.FindTokenSpec` | index.js:55 | the scan reports the leftmost start where the pattern matches; None means it matches nowhere |
| `Mention.StripNoMatch` | index.js:55 | text with no match is returned unchanged |
| `Mention.StripLeftmost` | index.js:55 | with a match, exactly the leftmost one and at most one white-space character after it are removed |
| `Mention.FoundTokenMatches` | index.js:55 | a token the scan reports is a place where the pattern matches |
| `Mention.StripMidText` | index.js:55 | a mention in the middle of the text is removed too |
| `Mention.StripOnlyFirst` | index.js:55 | only the first of two mentions is removed |
| `Mention.StripSkipsEmptyId` | index.js:55 | `<@>` is not a mention; the next real one is removed |
| `Completion.Conversation` | index.js:56-69 | exactly two turns: the fixed system prompt, then the user's text; `MentionRequestShape` and `MessageRequestShape` state it of both handlers |
| `Completion.RequestUrl` | index.js:44 | the URL starts with the endpoint and the deployments path and ends with the API version; `RequestUrlRoundTrip` shows the deployment and version can be read back |
| `Completion.MakeRequest` | index.js:45-47 | the request is posted to `RequestUrl` with the given messages and max_tokens 800 |
| `Completion.RequestUrlRoundTrip` | index.js:44 | the deployment and API version can be read back from the URL after the endpoint, when the deployment has no `/` |
| `Completion.FirstChoiceContent` | index.js:50 | the optional chain yields a value exactly when every link is present and the array is non-empty, and that value is the first choice's content; `ExtractReply` adds the fallback |
| `Completion.ExtractReply` | index.js:50 | the first choice's content when every link of the path is present, and "(no response)" when any link is missing |
| `Completion.EmptyContentKept` | index.js:50 | an empty content string is returned as it is, not replaced by the fallback |
| `Completion.ChatWithAzure` | index.js:43-51 | a response yields its extracted text; a timeout or HTTP failure yields an error, with no retry |
| `Dispatch.ReplyThread` | index.js:54 | the reply thread is `thread_ts` when it is a non-empty string, and the event's `ts` when it is missing or empty |
| `Dispatch.MentionText` | index.js:55-58 | the user turn of a mention is never empty; `MentionTextSpec` states what it is |
| `Dispatch.MentionTextSpec` | index.js:55-58 | the mention's user turn is never empty and has no white space at either end; it is the default "Hello" when only white space is left after the mention is removed, and otherwise the trimmed remainder |
| `Dispatch.LeadingMentionRemoved` | index.js:55 | text that opens with `<@id>` loses that token and at most one following white-space character |
| `Dispatch.MentionTextOfLeadingMention` | index.js:55-58 | for text opening with a mention, the user turn is the trimmed remainder, or "Hello" if that is empty |
| `Dispatch.StripExample` | index.js:55 | `"<@U123> hello there"` loses `"<@U123> "` |
| `Dispatch.MentionTextExample` | index.js:55-58 | `"<@U123> hello there"` gives the user turn `"hello there"` |
| `Dispatch.MentionTextDefaults` | index.js:55-58 | `"<@U123>"` and a missing text both give `"Hello"` |
| `Dispatch.HandleMention` | index.js:53-62 | one request with the processed text; a post to the event's channel and reply thread only when the call responds; otherwise the call's error and no post |
| `Dispatch.MentionThreadTargeting` | index.js:54-61 | a mention's reply goes to its channel and to `thread_ts` when set, or to `ts` when `thread_ts` is missing |
| `Dispatch.IgnoredMessage` | index.js:65 | an event is ignored exactly when `channel_type` is not `"im"` or `subtype` is a non-empty string; `DirectMessageFilter` states its effect on the handler |
| `Dispatch.HandleMessage` | index.js:64-72 | an ignored event makes no request, no post and no error; otherwise one request with the raw text and, on a response, a post to the same channel with no thread and no error, and on a failed call no post and the call's error (Timeout for a timeout, Upstream otherwise) |
| `Dispatch.DirectMessageFilter` | index.js:65 | no request is made exactly when `channel_type` is not `"im"` or `subtype` is a non-empty string |
| `Dispatch.DirectMessageRawText` | index.js:66-69 | a direct message's user turn is its text unchanged, or `""` when it has none |
| `Dispatch.MentionRequestShape` | index.js:56-59 | a mention's request has two turns, the fixed system prompt and then the user, at the configured URL with max_tokens 800 |
| `Dispatch.MessageRequestShape` | index.js:66-69 | a direct message's request, when made, has the same two-turn shape |
| `Dispatch.FailureSendsNothing` | index.js:60-71 | in both handlers, a timed-out completion call posts nothing and surfaces Timeout, and a failed one posts nothing and surfaces Upstream |
| `Dispatch.MissingContentFallsBack` | index.js:50-61 | a response without first-choice content is answered with "(no response)" |

## Left out

- The Bolt `App` and `ExpressReceiver` wiring, request-signature checks, the OAuth install and redirect routes and the scope list (index.js:10-19, 38). These are framework code that is not part of this model.
- The HTTP POST itself: the `api-key` and content-type headers and the 60-second timeout (index.js:45-49). The call is the parameter `post`, and a timeout is its `TimedOut` outcome.
- `temperature: 0.3` (index.js:47). It is a floating-point constant passed through unchanged.
- `client.chat.postMessage` (index.js:61, 71). The model returns its arguments instead of sending them.
- Environment-variable reads, the health route, the server start and its log line (index.js:1, 41, 74-78). Configuration becomes the `Config` value.
- async/await and the interleaving of concurrent events. Each handler is modelled as one sequential step.
- Durability of the store. Like the source, the model keeps installations in memory only.
- The store is a plain map. Keys that an object literal inherits from `Object.prototype` (such as `"constructor"` or `"__proto__"`) are not modelled. A real fetch under such a key would find the inherited property instead of throwing.
- InstallationKey: an `enterprise` or `team` object that is present but has no `id` is not modelled. That case would give the key "undefined"; only an absent object (a TypeError) is modelled.
- ExtractReply: a `content` that is not a string (a number or an object) is passed on unchanged by the source; the model's content is always a string. A `null` element of `choices` is modelled as a choice with no message, which has the same result.
- Strings are sequences of Unicode scalar values, not UTF-16 code units. This changes nothing here: separators `<`, `@`, `>` and all white-space characters are single code units, and `[^>]+` matches any non-empty run either way.
- Dispatch.ReplyThread: `ts` is taken to be always present on an `app_mention` event, as Slack sends it.
- Completion.RequestUrlRoundTrip: stated for deployment names without `/`. With a `/` in the name, the URL cannot be split back apart unambiguously.
