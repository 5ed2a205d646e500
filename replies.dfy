/** The bot's event handlers as reply plans: for each inbound event, the
    ordered list of outbound actions the handler performs (bot.rb:19-31,
    67-77, 80-159, 166-195). Logging is not an action. */
module Replies {
  import opened Results
  import opened Text
  import opened Uuid
  import opened ImageUrl
  import opened Classifier

  /** An event from the real-time connection. */
  datatype Event =
    | Hello
    | ChannelJoined(channel: string, latestText: Option<string>)  // None: `latest` or its `text` is nil
    | MessagePosted(channel: string, user: Option<string>, text: Option<string>)

  /** The `data` object of a fetched badge template, reduced to the fields
      `template_to_attachment` reads. */
  datatype TemplateRecord = TemplateRecord(name: string, url: string, description: string, imageUrl: Url)

  /** One attachment of a `chat_postMessage` payload. */
  datatype Attachment = Attachment(
    fallback: Option<string>,
    pretext: Option<string>,
    title: string,
    imageUrl: Url,
    titleLink: string,
    text: string,
    color: Option<string>)

  /** An outbound effect, in the order the handler performs them. */
  datatype Action =
    | Typing(channel: string)                                     // client.typing
    | Message(channel: string, text: string)                      // client.message
    | PostAttachments(channel: string, asUser: bool, attachments: seq<Attachment>)  // web_client.chat_postMessage
    | FetchTemplate(uuid: string)                                 // the GET of badge_templates/<uuid>

  const HelpText: string :=
    "I will respond to the following messages: \n\n"
    + "      `bot hi` for a simple message.\n\n"
    + "      `bot attachment` to see a Slack attachment message.\n\n"
    + "      `@<your bot's name>` to demonstrate detecting a mention.\n\n"
    + "      `bot help` to see this again."

  const WelcomeText: string := "Thanks for the invite! I don't do much yet, but " + HelpText
  const DirectMessageLine: string := "It's nice to talk to you directly."
  const MentionReply: string := "You really do care about me. :heart:"
  const UnderConstruction: string := "under construction"

  /** `#{data['user']}`: Ruby interpolates nil as the empty string. */
  function UserRef(user: Option<string>): string {
    match user
    case Some(u) => u
    case None => ""
  }

  function GreetingText(user: Option<string>): string {
    "Hello <@" + UserRef(user) + ">."
  }

  function SorryText(user: Option<string>): string {
    "Sorry <@" + UserRef(user) + ">, I don't understand. \n" + HelpText
  }

  /** The static attachment of `post_message_payload`. */
  const MainMessage: string := "Beep Beep Boop is a ridiculously simple hosting platform for your Slackbots."
  const PromoAttachment: Attachment := Attachment(
    Some(MainMessage),
    Some("We bring bots to life. :sunglasses: :thumbsup:"),
    "Host, deploy and share your bot in seconds.",
    Url("https", "storage.googleapis.com", "/beepboophq/_assets/bot-1.22f6fb.png", None),
    "https://beepboophq.com/",
    MainMessage,
    Some("#7CD197"))

  /** `direct_message?`: direct-message channel ids start with 'D'; the first
      character of an empty id is nil, which is not 'D'. */
  predicate IsDirectMessage(channel: string)
    ensures channel == "" ==> !IsDirectMessage(channel)
  {
    |channel| > 0 && channel[0] == 'D'
  }

  /** `joiner_is_bot?`: the latest message of the joined channel has the
      bot's mention token at the start of a line. A nil `latest['text']`
      matches nothing, and a nil `latest` raises at `nil['text']`; either way
      nothing is sent, so both are `None` here. */
  predicate JoinerIsBot(latestText: Option<string>, selfId: string)
    ensures latestText.None? ==> !JoinerIsBot(latestText, selfId)
  {
    latestText.Some? && AtSomeLineStart(latestText.value, MentionToken(selfId))
  }

  /** `template_to_attachment` given the fetched record: one attachment whose
      image is the standard-size rewrite of the record's image URL. */
  function TemplateToAttachment(rec: TemplateRecord): (r: Result<seq<Attachment>>)
    ensures r.Fail? <==> StandardSizeUrl(rec.imageUrl).Fail?
    ensures r.Success? ==>
      && |r.value| == 1
      && r.value[0].title == rec.name
      && r.value[0].titleLink == rec.url
      && r.value[0].text == rec.description
      && Success(r.value[0].imageUrl) == StandardSizeUrl(rec.imageUrl)
  {
    match StandardSizeUrl(rec.imageUrl)
    case Success(image) => Success([Attachment(None, None, rec.name, image, rec.url, rec.description, None)])
    case Fail(e) => Fail(e)
  }

  /** The template branch: extract the id, fetch the record, post the
      attachment. Any step that raises in Ruby ends the handler silently. */
  function TemplateReply(channel: string, text: string, fetch: string -> Option<TemplateRecord>): (r: seq<Action>)
    ensures r != [] <==> MatchUuid(text).Success?
    ensures r != [] ==> r[0] == FetchTemplate(MatchUuid(text).value) && |r| <= 2
  {
    match MatchUuid(text)
    case Fail(_) => []
    case Success(id) =>
      [FetchTemplate(id)] +
      match fetch(id)
      case None => []
      case Some(rec) =>
        match TemplateToAttachment(rec)
        case Success(attachments) => [PostAttachments(channel, true, attachments)]
        case Fail(_) => []
  }

  /** What the message handler does for each branch of the `case`. */
  function MessagePlan(channel: string, user: Option<string>, text: Option<string>, selfId: string,
                       fetch: string -> Option<TemplateRecord>): (r: seq<Action>)
    ensures text.None? ==> r == []
    ensures |r| <= 3
  {
    match Classify(text, selfId)
    case Greeting =>
      [Typing(channel), Message(channel, GreetingText(user))]
      + (if IsDirectMessage(channel) then [Message(channel, DirectMessageLine)] else [])
    case AttachmentDemo => [PostAttachments(channel, true, [PromoAttachment])]
    case Mention => [Message(channel, MentionReply)]
    case Help => [Message(channel, HelpText)]
    case BadgeUnderConstruction => [Message(channel, UnderConstruction)]
    case BadgeTemplate => TemplateReply(channel, text.value, fetch)
    case UnknownBotCommand => [Message(channel, SorryText(user))]
    case Ignored => []
  }

  /** The actions of the handler registered for `event`; `fetch` stands for
      the HTTP lookup of a badge template by id. */
  function Plan(event: Event, selfId: string, fetch: string -> Option<TemplateRecord>): (r: seq<Action>)
    ensures event.Hello? ==> r == []
    ensures event.ChannelJoined? ==> (r != [] <==> JoinerIsBot(event.latestText, selfId))
  {
    match event
    case Hello => []
    case ChannelJoined(channel, latest) =>
      if JoinerIsBot(latest, selfId) then [Message(channel, WelcomeText)] else []
    case MessagePosted(channel, user, text) => MessagePlan(channel, user, text, selfId, fetch)
  }

  /** 'hi' or 'bot hi': typing, the greeting addressed to the sender, and the
      direct-message line exactly when the channel is a direct message. */
  lemma PlanGreeting(channel: string, user: Option<string>, t: string, selfId: string,
                     fetch: string -> Option<TemplateRecord>)
    requires t == "hi" || t == "bot hi"
    ensures var plan := Plan(MessagePosted(channel, user, Some(t)), selfId, fetch);
      && |plan| >= 2
      && plan[0] == Typing(channel)
      && plan[1] == Message(channel, "Hello <@" + UserRef(user) + ">.")
      && (|plan| == 3 <==> |channel| > 0 && channel[0] == 'D')
      && (|plan| == 3 ==> plan[2] == Message(channel, "It's nice to talk to you directly."))
      && |plan| <= 3
  {
    ClassifyGreeting(t, selfId);
  }

  /** 'attachment' or 'bot attachment': one post of the static promotional attachment. */
  lemma PlanAttachmentDemo(channel: string, user: Option<string>, t: string, selfId: string,
                           fetch: string -> Option<TemplateRecord>)
    requires t == "attachment" || t == "bot attachment"
    ensures Plan(MessagePosted(channel, user, Some(t)), selfId, fetch) == [PostAttachments(channel, true, [PromoAttachment])]
  {
    ClassifyAttachmentDemo(t, selfId);
  }

  /** A mention that is not a fixed phrase gets the one affectionate reply,
      even when the text starts with "bot" or holds a badge id. */
  lemma PlanMention(channel: string, user: Option<string>, t: string, selfId: string,
                    fetch: string -> Option<TemplateRecord>)
    requires Contains(t, MentionToken(selfId)) && !IsFixedPhrase(t)
    ensures Plan(MessagePosted(channel, user, Some(t)), selfId, fetch) == [Message(channel, MentionReply)]
  {
    ClassifyMention(t, selfId);
  }

  /** 'bot help' or 'help': one message with the help text. */
  lemma PlanHelp(channel: string, user: Option<string>, t: string, selfId: string,
                 fetch: string -> Option<TemplateRecord>)
    requires t == "bot help" || t == "help"
    ensures Plan(MessagePosted(channel, user, Some(t)), selfId, fetch) == [Message(channel, HelpText)]
  {
    ClassifyHelp(t, selfId);
  }

  /** "badge " followed by a UUID, without a mention: only the placeholder
      message, and no lookup is made. */
  lemma PlanBadgeNoLookup(channel: string, user: Option<string>, t: string, selfId: string,
                          fetch: string -> Option<TemplateRecord>)
    requires HasBadgeId(t) && !Contains(t, MentionToken(selfId))
    ensures var plan := Plan(MessagePosted(channel, user, Some(t)), selfId, fetch);
      && plan == [Message(channel, "under construction")]
      && forall k | 0 <= k < |plan| :: !plan[k].FetchTemplate?
  {
    ClassifyBadge(t, selfId);
  }

  /** "badge template " followed by a UUID, with no "badge " followed by a
      UUID and no mention: the template named by `match_uuid` is fetched
      first; if the record arrives and its image URL has a file segment, one
      post follows carrying one attachment built from the record; otherwise
      nothing more happens. */
  lemma PlanBadgeTemplate(channel: string, user: Option<string>, t: string, selfId: string,
                          fetch: string -> Option<TemplateRecord>)
    requires HasBadgeTemplateId(t) && !HasBadgeId(t) && !Contains(t, MentionToken(selfId))
    ensures MatchUuid(t).Success? && IsUuid(MatchUuid(t).value)
    ensures var id := MatchUuid(t).value;
      var plan := Plan(MessagePosted(channel, user, Some(t)), selfId, fetch);
      && 1 <= |plan| <= 2
      && plan[0] == FetchTemplate(id)
      && (|plan| == 2 <==> fetch(id).Some? && StandardSizeUrl(fetch(id).value.imageUrl).Success?)
      && (|plan| == 2 ==>
            var rec := fetch(id).value;
            plan[1] == PostAttachments(channel, true, [
              Attachment(None, None, rec.name, StandardSizeUrl(rec.imageUrl).value, rec.url, rec.description, None)]))
  {
    ClassifyBadgeTemplate(t, selfId);
    BadgeTemplateHasUuid(t, selfId);
  }

  /** "bot" at a line start when nothing earlier fires: an apology to the
      sender followed by the help text. */
  lemma PlanUnknownBotCommand(channel: string, user: Option<string>, t: string, selfId: string,
                              fetch: string -> Option<TemplateRecord>)
    requires AtSomeLineStart(t, "bot") && !IsFixedPhrase(t)
    requires !Contains(t, MentionToken(selfId)) && !HasBadgeId(t) && !HasBadgeTemplateId(t)
    ensures Plan(MessagePosted(channel, user, Some(t)), selfId, fetch)
      == [Message(channel, "Sorry <@" + UserRef(user) + ">, I don't understand. \n" + HelpText)]
  {
    ClassifyUnknownBotCommand(t, selfId);
  }

  /** A nil text, and a text no clause fires on, produce no action. */
  lemma PlanIgnored(channel: string, user: Option<string>, text: Option<string>, selfId: string,
                    fetch: string -> Option<TemplateRecord>)
    requires text.Some? ==>
      && !IsFixedPhrase(text.value) && !Contains(text.value, MentionToken(selfId))
      && !HasBadgeId(text.value) && !HasBadgeTemplateId(text.value)
      && !AtSomeLineStart(text.value, "bot")
    ensures Plan(MessagePosted(channel, user, text), selfId, fetch) == []
  {
    ClassifyIgnored(text, selfId);
  }

  /** On a channel join the welcome is sent exactly when the latest message
      starts a line with the bot's mention token, and then it is the only
      action; the connection event produces none. */
  lemma PlanChannelJoined(channel: string, latest: Option<string>, selfId: string,
                          fetch: string -> Option<TemplateRecord>)
    ensures var plan := Plan(ChannelJoined(channel, latest), selfId, fetch);
      && (plan != [] <==> latest.Some? && AtSomeLineStart(latest.value, "<@" + selfId + ">"))
      && (plan != [] ==> plan == [Message(channel, WelcomeText)])
    ensures Plan(Hello, selfId, fetch) == []
  {
  }

  /** The template branch makes its lookup first and then posts, if at all,
      to the channel. */
  lemma TemplateReplyShape(channel: string, t: string, fetch: string -> Option<TemplateRecord>)
    ensures var plan := TemplateReply(channel, t, fetch);
      && |plan| <= 2
      && (forall k | 0 <= k < |plan| :: plan[k].FetchTemplate? <==> k == 0)
      && (forall k | 1 <= k < |plan| :: plan[k] == PostAttachments(channel, true, plan[k].attachments))
  {
  }

  /** Every reply goes to the channel the event came from, and the only
      branch that makes a lookup is the template branch, which makes at most
      one and makes it first. */
  lemma PlanRepliesToOrigin(event: Event, selfId: string, fetch: string -> Option<TemplateRecord>)
    ensures var plan := Plan(event, selfId, fetch);
      && (event.Hello? ==> plan == [])
      && (!event.Hello? ==> forall k | 0 <= k < |plan| && !plan[k].FetchTemplate? :: plan[k].channel == event.channel)
      && (forall k | 0 <= k < |plan| && plan[k].FetchTemplate? ::
            k == 0 && event.MessagePosted? && Classify(event.text, selfId) == BadgeTemplate)
  {
    match event
    case Hello =>
    case ChannelJoined(_, _) =>
    case MessagePosted(channel, user, text) =>
      var plan := MessagePlan(channel, user, text, selfId, fetch);
      match Classify(text, selfId)
      case BadgeTemplate =>
        TemplateReplyShape(channel, text.value, fetch);
      case Greeting =>
        assert forall k | 0 <= k < |plan| :: plan[k].channel == channel && !plan[k].FetchTemplate?;
      case _ =>
        assert |plan| <= 1;
  }
}
