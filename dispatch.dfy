/**
 * The two event handlers. `app_mention` replies in a thread with the mention
 * stripped from the text; `message` answers direct messages in the same
 * channel with the raw text. Instead of calling Slack, a handler returns what
 * it does: the completion request it makes, the message it posts, and the
 * error it throws.
 */
module Dispatch {
  import opened JsValues
  import JsText
  import Mention
  import opened Completion

  /** The `app_mention` event fields the handler reads. */
  datatype MentionEvent = MentionEvent(channel: string, ts: string, threadTs: Option<string>, text: Option<string>)

  /** The `message` event fields the handler reads. */
  datatype MessageEvent = MessageEvent(channel: string, channelType: Option<string>, subtype: Option<string>, text: Option<string>)

  /** The arguments of `client.chat.postMessage`. */
  datatype PostMessage = PostMessage(channel: string, text: string, threadTs: Option<string>)

  /** What handling one event amounts to. */
  datatype Handled = Handled(request: Option<Request>, post: Option<PostMessage>, failure: Option<CallError>)

  // ---- app_mention ----

  /** `event.thread_ts || event.ts`. */
  function ReplyThread(ev: MentionEvent): (t: string)
    ensures ev.threadTs.Some? && ev.threadTs.value != "" ==> t == ev.threadTs.value
    ensures (ev.threadTs.None? || ev.threadTs.value == "") ==> t == ev.ts
  {
    Or(ev.threadTs, ev.ts)
  }

  const DefaultMentionText := "Hello"

  /** `(event.text || '').replace(/<@[^>]+>\s?/, '').trim()`, then `text || 'Hello'`. */
  function MentionText(text: Option<string>): (r: string)
    ensures r != ""
  {
    Or(Some(JsText.Trim(Mention.StripFirstMention(Or(text, "")))), DefaultMentionText)
  }

  /** The user turn of a mention is never empty and never padded with white space:
      it is the trimmed text left after removing the mention, or "Hello" when
      nothing but white space is left. */
  lemma MentionTextSpec(text: Option<string>)
    ensures var stripped := Mention.StripFirstMention(Or(text, ""));
      && MentionText(text) != ""
      && JsText.IsTrimmed(MentionText(text))
      && (JsText.AllWhiteSpace(stripped) ==> MentionText(text) == DefaultMentionText)
      && (!JsText.AllWhiteSpace(stripped) ==> MentionText(text) == JsText.Trim(stripped))
  {
    var stripped := Mention.StripFirstMention(Or(text, ""));
    JsText.TrimEmpty(stripped);
    JsText.TrimSlice(stripped);
  }

  /** A message that opens with a mention loses the mention and at most one
      white-space character after it. */
  lemma LeadingMentionRemoved(id: string, rest: string)
    requires id != [] && '>' !in id
    ensures Mention.StripFirstMention("<@" + id + ">" + rest)
      == if rest != [] && JsText.IsWhiteSpace(rest[0]) then rest[1..] else rest
  {
    var s := "<@" + id + ">" + rest;
    var k := |id| + 2;
    assert s[k] == '>';
    forall m | 2 <= m < k ensures s[m] != '>' {
      assert s[m] == id[m - 2];
    }
    assert Mention.TokenAt(s, 0, k);
    Mention.StripLeftmost(s, 0, k);
    if rest != [] {
      assert s[k + 1] == rest[0];
    }
    assert s[Mention.MatchEnd(s, k)..] == if rest != [] && JsText.IsWhiteSpace(rest[0]) then rest[1..] else rest;
  }

  /** The user turn in terms of the text left after the mention is removed. */
  lemma MentionTextOfStripped(text: Option<string>, stripped: string)
    requires Mention.StripFirstMention(Or(text, "")) == stripped
    ensures MentionText(text) == Or(Some(JsText.Trim(stripped)), DefaultMentionText)
  {
  }

  /** The user turn of a mention that opens the message: its remainder, less
      one separating white-space character, trimmed; "Hello" if that is empty. */
  lemma MentionTextOfLeadingMention(id: string, rest: string)
    requires id != [] && '>' !in id
    ensures MentionText(Some("<@" + id + ">" + rest))
      == Or(Some(JsText.Trim(if rest != [] && JsText.IsWhiteSpace(rest[0]) then rest[1..] else rest)), DefaultMentionText)
  {
    LeadingMentionRemoved(id, rest);
    assert Or(Some("<@" + id + ">" + rest), "") == "<@" + id + ">" + rest;
    MentionTextOfStripped(Some("<@" + id + ">" + rest), if rest != [] && JsText.IsWhiteSpace(rest[0]) then rest[1..] else rest);
  }

  /** In `"<@U123> hello there"` the mention and the space after it are removed. */
  lemma StripExample(s: string, t: string)
    requires s == "<@U123> hello there" && t == "hello there"
    ensures Mention.StripFirstMention(Or(Some(s), "")) == t
  {
    var id, rest := "U123", " hello there";
    assert Or(Some(s), "") == s == "<@" + id + ">" + rest;
    LeadingMentionRemoved(id, rest);
    assert JsText.IsWhiteSpace(rest[0]) && rest[1..] == t;
  }

  /** `"<@U123> hello there"` becomes `"hello there"`. */
  lemma MentionTextExample(s: string)
    requires s == "<@U123> hello there"
    ensures MentionText(Some(s)) == "hello there"
  {
    var t := "hello there";
    StripExample(s, t);
    MentionTextOfStripped(Some(s), t);
    JsText.TrimOfTrimmed(t);
    assert Or(Some(t), DefaultMentionText) == t;
  }

  /** A bare mention becomes `"Hello"`, and so does a missing text. */
  lemma MentionTextDefaults(s: string)
    requires s == "<@U123>"
    ensures MentionText(Some(s)) == DefaultMentionText
    ensures MentionText(None) == DefaultMentionText
  {
    assert s == "<@" + "U123" + ">" + "";
    MentionTextOfLeadingMention("U123", "");
    Mention.StripNoMatch("");
  }

  /** The `app_mention` handler. */
  function HandleMention(ev: MentionEvent, cfg: Config, post: Request -> Outcome): (h: Handled)
    ensures h.request == Some(MakeRequest(cfg, Conversation(MentionText(ev.text))))
    ensures h.post.Some? <==> post(h.request.value).Responded?
    ensures h.post.Some? ==> h.post.value == PostMessage(ev.channel, ExtractReply(post(h.request.value).response), Some(ReplyThread(ev)))
    ensures h.post.None? ==> h.failure == Some(if post(h.request.value) == TimedOut then Timeout else Upstream)
    ensures h.post.Some? ==> h.failure.None?
  {
    var messages := Conversation(MentionText(ev.text));
    match ChatWithAzure(cfg, messages, post)
    case Answer(text) => Handled(Some(MakeRequest(cfg, messages)), Some(PostMessage(ev.channel, text, Some(ReplyThread(ev)))), None)
    case Error(e) => Handled(Some(MakeRequest(cfg, messages)), None, Some(e))
  }

  /** A mention's reply lands in `thread_ts` when there is one, and otherwise in
      a new thread under the mention itself. */
  lemma MentionThreadTargeting(ev: MentionEvent, cfg: Config, post: Request -> Outcome)
    requires HandleMention(ev, cfg, post).post.Some?
    ensures var p := HandleMention(ev, cfg, post).post.value;
      && p.channel == ev.channel
      && (ev.threadTs.None? ==> p.threadTs == Some(ev.ts))
      && (ev.threadTs.Some? && ev.threadTs.value != "" ==> p.threadTs == ev.threadTs)
  {
  }

  // ---- message (direct messages) ----

  /** `event.channel_type !== 'im' || event.subtype`: not a direct message, or an
      edit, deletion or other non-original message. */
  predicate IgnoredMessage(ev: MessageEvent): (b: bool)
    ensures b <==> ev.channelType != Some("im") || (ev.subtype.Some? && ev.subtype.value != "")
  {
    ev.channelType != Some("im") || Truthy(ev.subtype)
  }

  /** The `message` handler. */
  function HandleMessage(ev: MessageEvent, cfg: Config, post: Request -> Outcome): (h: Handled)
    ensures IgnoredMessage(ev) ==> h == Handled(None, None, None)
    ensures !IgnoredMessage(ev) ==> h.request == Some(MakeRequest(cfg, Conversation(Or(ev.text, ""))))
    ensures h.post.Some? <==> !IgnoredMessage(ev) && post(h.request.value).Responded?
    ensures h.post.Some? ==> h.post.value == PostMessage(ev.channel, ExtractReply(post(h.request.value).response), None)
    ensures !IgnoredMessage(ev) && h.post.None? ==> h.failure == Some(if post(h.request.value) == TimedOut then Timeout else Upstream)
    ensures h.post.Some? ==> h.failure.None?
  {
    if IgnoredMessage(ev) then
      Handled(None, None, None)
    else
      var messages := Conversation(Or(ev.text, ""));
      match ChatWithAzure(cfg, messages, post)
      case Answer(text) => Handled(Some(MakeRequest(cfg, messages)), Some(PostMessage(ev.channel, text, None)), None)
      case Error(e) => Handled(Some(MakeRequest(cfg, messages)), None, Some(e))
  }

  /** A direct message is answered only when it is an original message in an
      `im` channel; otherwise nothing is requested or posted. */
  lemma DirectMessageFilter(ev: MessageEvent, cfg: Config, post: Request -> Outcome)
    ensures HandleMessage(ev, cfg, post).request.None?
      <==> (ev.channelType != Some("im") || (ev.subtype.Some? && ev.subtype.value != ""))
  {
  }

  /** A direct message goes to the model as it is: no mention stripping, no
      trimming, and a missing text is sent as the empty string, not "Hello". */
  lemma DirectMessageRawText(ev: MessageEvent, cfg: Config, post: Request -> Outcome)
    requires !IgnoredMessage(ev)
    ensures var r := HandleMessage(ev, cfg, post).request.value;
      && (ev.text.Some? ==> r.messages[1].content == ev.text.value)
      && (ev.text.None? ==> r.messages[1].content == "")
  {
  }

  // ---- both handlers ----

  /** The request both handlers make: exactly two turns, the fixed system prompt
      first and then the user's text, posted to the configured URL with the
      800-token budget. */
  ghost predicate TwoTurnRequest(r: Request, cfg: Config)
  {
    && |r.messages| == 2
    && r.messages[0] == Turn(System, SystemPrompt)
    && r.messages[1].role == User
    && r.url == RequestUrl(cfg)
    && r.maxTokens == 800
  }

  /** The request a mention leads to has that shape. */
  lemma MentionRequestShape(m: MentionEvent, cfg: Config, post: Request -> Outcome)
    ensures TwoTurnRequest(HandleMention(m, cfg, post).request.value, cfg)
  {
  }

  /** So has the request a direct message leads to, when it leads to one. */
  lemma MessageRequestShape(d: MessageEvent, cfg: Config, post: Request -> Outcome)
    ensures HandleMessage(d, cfg, post).request.Some? ==> TwoTurnRequest(HandleMessage(d, cfg, post).request.value, cfg)
  {
  }

  /** A failed or timed-out completion call posts nothing and surfaces the error. */
  lemma FailureSendsNothing(m: MentionEvent, d: MessageEvent, cfg: Config, post: Request -> Outcome)
    ensures var h := HandleMention(m, cfg, post);
      post(h.request.value) == TimedOut ==> h.post.None? && h.failure == Some(Timeout)
    ensures var h := HandleMention(m, cfg, post);
      post(h.request.value) == Failed ==> h.post.None? && h.failure == Some(Upstream)
    ensures var h := HandleMessage(d, cfg, post);
      h.request.Some? && post(h.request.value) == TimedOut ==> h.post.None? && h.failure == Some(Timeout)
    ensures var h := HandleMessage(d, cfg, post);
      h.request.Some? && post(h.request.value) == Failed ==> h.post.None? && h.failure == Some(Upstream)
  {
  }

  /** A response without a first-choice message text is answered with "(no response)". */
  lemma MissingContentFallsBack(ev: MentionEvent, cfg: Config, post: Request -> Outcome)
    requires var h := HandleMention(ev, cfg, post);
      post(h.request.value).Responded? && FirstChoiceContent(post(h.request.value).response).None?
    ensures HandleMention(ev, cfg, post).post.value.text == NoResponse
  {
  }
}
