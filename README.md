# starter-ruby-bot: message routing and string logic, in Dafny

The bot (`bot.rb`) listens on a Slack real-time connection. It answers fixed
phrases, mentions and `bot …` commands. It also turns a badge-template id
found in a message into a chat attachment, using a record fetched from a
credentialing API. This project models the pure logic inside those handlers:

- `Classifier`: the message handler's `case data['text']` dispatch. It is an
  ordered list of `when` clauses (`Cases`). Ruby's `===` decides whether a
  clause fires, and the first clause that fires wins (`FirstArm`, `Classify`).
  The regexes are written as string predicates. The mention regex becomes
  "`<@id>` occurs in the text" (`>+` adds nothing beyond one `>`). The badge
  regex becomes "`badge ` directly followed by a lowercase UUID", the template
  regex becomes "`badge template ` directly followed by a lowercase UUID", and
  `^bot` becomes "`bot` at the start of a line". A nil text fires no clause.
- `Uuid`: `match_uuid`. It implements the Ruby semantics of
  `/.*(UUID).*/`: the match that starts leftmost wins, and then the greedy
  `.*` picks the rightmost group. The result is the last UUID on the first
  line that holds one. With no UUID, Ruby evaluates `nil[1]` and raises; the
  model returns `Fail(UuidNotFound)`.
- `PathSegments`: Ruby's `split('/')` and `join('/')` as
  `standard_size_image_url` uses them. `split` keeps a leading empty field and
  empty fields in the middle, and drops the empty fields at the end.
- `ImageUrl`: `standard_size_image_url`, written as a method that pops the
  file name, pushes `standard_` + that name and joins again. It is proved
  equal to the function `StandardSizeUrl`, and the lemmas state what that
  function does.
- `Replies`: each event handler as a pure function (`Plan`) from the event to
  the ordered list of outbound actions: typing, plain message, attachment post,
  and the badge-template lookup. `template_to_attachment` takes the fetched
  record as an argument, and the HTTP lookup is a function parameter `fetch`.

Behaviour that follows the code rather than looser descriptions of the bot:

- UUIDs are lowercase hexadecimal only (`[0-9a-f]`). An uppercase UUID fires
  neither badge clause.
- The image rewrite keeps the directory. `/b/img.png` becomes
  `/b/standard_img.png` (`StandardSizeKeepsDirectoryExample`), and
  applying the rewrite twice gives `standard_standard_…`.
- The template that is looked up is the one `match_uuid` picks in the whole
  text. That need not be the UUID right after `badge template `: a second UUID
  later on the same line is looked up instead (`TemplateBranchUsesLastUuid`).
- A greeting in a direct-message channel sends a typing signal and then two
  messages, so one event can produce more than one reply.

## Model

| member | source | states |
|---|---|---|
| `Uuid.MatchUuid` | bot.rb:33-35 | a success is a lowercase 8-4-4-4-12 UUID that occurs in the text; a failure is `UuidNotFound`, the case where Ruby raises on `nil[1]` |
| `Uuid.MatchUuidIsRubyMatch` | bot.rb:33-35 | fails exactly when no UUID occurs anywhere; otherwise returns the group of the match Ruby reports (leftmost start, then greedy `.*`) |
| `Uuid.MatchFromLeftmostGreedy` | bot.rb:34 | the line-by-line scan finds no match starting earlier and no group further right for its start; `None` means no match at all |
| `Uuid.MatchUuidSingleLineLast` | bot.rb:34 | on a text without newlines that ends in a UUID, that final UUID is returned, whatever UUIDs precede it |
| `PathSegments.Join` | bot.rb:62 | the join starts with the first field and puts `/` right after it; `JoinFields`, `JoinAppend` and `SplitJoin` relate it to `split` |
| `PathSegments.Split` | bot.rb:59 | every field is slash-free and the last one is non-empty; `SplitJoin`, `SplitDropsOnlyTrailingSlashes` and `SplitEmptyIffSlashes` state what it keeps |
| `PathSegments.JoinFields` | bot.rb:59-62 | joining the fields of a string with `/` gives the string back |
| `PathSegments.SplitJoin` | bot.rb:59-62 | `split('/')` undoes `join('/')` on slash-free fields whose last one is non-empty |
| `PathSegments.SplitDropsOnlyTrailingSlashes` | bot.rb:59 | the path is the join of its split followed by slashes only: `split` loses only trailing slashes |
| `PathSegments.SplitEmptyIffSlashes` | bot.rb:59-60 | the split is empty exactly when the path is empty or made only of slashes |
| `ImageUrl.StandardSizePath` | bot.rb:59-62 | fails, with `NoFileSegment`, exactly when the split path is empty; the `StandardSize…` lemmas state the new path |
| `ImageUrl.StandardSizeUrl` | bot.rb:57-65 | scheme, host and query are unchanged; the new path is the rewritten path; fails exactly when the path rewrite fails |
| `ImageUrl.StandardSizeImageUrl` | bot.rb:57-65 | the pop/push/join steps compute `StandardSizeUrl`, and they fail exactly when the path is empty or all slashes |
| `ImageUrl.StandardSizeFailsIffNoSegment` | bot.rb:59-61 | the rewrite raises (`NoFileSegment`) exactly when the path has no segment (`""`, `"/"`, `"//"`, …) |
| `ImageUrl.StandardSizeChangesOnlyLastSegment` | bot.rb:59-63 | splitting the new path gives the old segments, with only the last one prefixed by `standard_` |
| `ImageUrl.StandardSizeKeepsDirectory` | bot.rb:59-63 | the old path is `dir + file` plus trailing slashes, and the new path is `dir + "standard_" + file`: the directory is kept character for character |
| `ImageUrl.StandardSizeNotIdempotent` | bot.rb:57-65 | a second rewrite succeeds, gives `standard_standard_` + the file name, and differs from the first result |
| `ImageUrl.StandardSizeKeepsDirectoryExample` | bot.rb:57-65 | `/dir/file` becomes `/dir/standard_file` for slash-free `dir` and non-empty `file`, so `/b/img.png` becomes `/b/standard_img.png` |
| `Classifier.FirstArm` | bot.rb:82-153 | returns the first clause that fires and none before it fires; `None` means no clause fires |
| `Classifier.MentionToken` | bot.rb:161-164 | the token is `<@`, then the bot id, then `>`; `ClassifyMention` states when it fires |
| `Classifier.CaseEq` | bot.rb:82-150 | Ruby's `case` equality: a nil text matches no pattern; `FiresCases` states what each pattern means |
| `Classifier.Classify` | bot.rb:82-153 | a nil text is ignored; any other intent is that of a clause that fires; `ClassifyFirstMatch` and the `Classify…` lemmas give each branch exactly |
| `Classifier.ClassifyFirstMatch` | bot.rb:82-153 | clause `k` is taken exactly when it fires and no earlier clause does; the text is ignored exactly when no clause fires |
| `Classifier.FiresCases` | bot.rb:83-150 | what each `when` means for a text: exact equality for the string patterns, occurrence for the regexes |
| `Classifier.ClassifyGreeting` | bot.rb:83 | Greeting exactly for the texts `hi` and `bot hi` (case-sensitive, no padding) |
| `Classifier.ClassifyAttachmentDemo` | bot.rb:93 | AttachmentDemo exactly for the texts `attachment` and `bot attachment` |
| `Classifier.ClassifyMention` | bot.rb:98 | Mention exactly when the text contains `<@selfId>` and is not a fixed phrase, even if it starts with `bot` or holds a badge id |
| `Classifier.ClassifyHelp` | bot.rb:102 | Help exactly for the texts `bot help` and `help` |
| `Classifier.ClassifyBadge` | bot.rb:106 | the under-construction branch exactly when `badge ` is directly followed by a lowercase UUID and there is no mention |
| `Classifier.ClassifyBadgeTemplate` | bot.rb:106-114 | the template branch exactly when `badge template <uuid>` occurs, no `badge <uuid>` occurs, and there is no mention |
| `Classifier.ClassifyUnknownBotCommand` | bot.rb:150 | UnknownBotCommand exactly when `bot` starts some line and no earlier clause fires |
| `Classifier.ClassifyIgnored` | bot.rb:82-153 | a nil text is ignored; a text is ignored exactly when no clause fires |
| `Classifier.BadgeTemplateHasUuid` | bot.rb:114-119 | on the template branch `match_uuid` succeeds, so it cannot raise there |
| `Classifier.TemplateBranchUsesLastUuid` | bot.rb:114-119 | for `badge template <u1> <u2>` the template branch is taken but `match_uuid` yields `u2` |
| `Replies.IsDirectMessage` | bot.rb:156-159 | an empty channel id is not a direct message; `PlanGreeting` uses it for the `D` prefix |
| `Replies.JoinerIsBot` | bot.rb:166-168 | a nil latest text (or a nil latest record, which raises in Ruby) never counts as the bot joining; `PlanChannelJoined` gives the line-start rule |
| `Replies.TemplateReply` | bot.rb:114-121 | a lookup is made exactly when `match_uuid` succeeds, it is the lookup of that id, and at most one action follows it |
| `Replies.MessagePlan` | bot.rb:80-153 | a nil text gives no action, and no message gives more than three; the `Plan…` lemmas give each branch |
| `Replies.Plan` | bot.rb:19-31 | `hello` gives no action; a channel join gives an action exactly when the joiner is the bot; `PlanRepliesToOrigin` covers all events |
| `Replies.TemplateToAttachment` | bot.rb:67-77 | one attachment: title = name, title_link = url, text = description, image = standard-size rewrite of the image URL; fails exactly when that rewrite fails |
| `Replies.TemplateReplyShape` | bot.rb:114-121 | the template branch makes one lookup first and then at most one post, to the message's channel |
| `Replies.PlanGreeting` | bot.rb:83-91 | typing, then `Hello <@user>.`, then `It's nice to talk to you directly.` exactly when the channel id starts with `D` (an empty id is not a DM) |
| `Replies.PlanAttachmentDemo` | bot.rb:93-96 | one post of the static promotional attachment |
| `Replies.PlanMention` | bot.rb:98-100 | one message, `You really do care about me. :heart:` |
| `Replies.PlanHelp` | bot.rb:102-104 | one message holding the help text |
| `Replies.PlanBadgeNoLookup` | bot.rb:106-112 | exactly the `under construction` message, and no lookup |
| `Replies.PlanBadgeTemplate` | bot.rb:114-121 | the lookup of `match_uuid`'s id comes first; one attachment post follows exactly when a record arrives and its image URL can be rewritten |
| `Replies.PlanUnknownBotCommand` | bot.rb:150-152 | one message: `Sorry <@user>, I don't understand. \n` followed by the help text |
| `Replies.PlanIgnored` | bot.rb:82-153 | a nil text, or a text that no clause fires on, produces no action |
| `Replies.PlanChannelJoined` | bot.rb:19-31 | on a join, the welcome with the help text is sent exactly when the latest message has `<@selfId>` at a line start, and then it is the only action; `hello` produces none |
| `Replies.PlanRepliesToOrigin` | bot.rb:19-153 | every reply goes to the event's channel; a lookup happens only on the template branch, at most once, and first |

## Left out

- The Slack real-time client, its event registration and `client.start!`
  (bot.rb:16-31, 80, 197): these are network I/O and a library event loop.
  `Plan` is what each registered block does. The `hello` block only logs, so
  its plan is empty.
- `Slack.configure`, the token check with `exit`, and all logging
  (bot.rb:5-14 and the `logger` calls): process and environment plumbing.
- The HTTP GETs in `acclaim_badge` and `acclaim_badge_template`
  (bot.rb:37-55): these are foreign network calls. The lookup is the parameter
  `fetch`, and the plan records it as the action `FetchTemplate(id)`. A network
  error, a response without `data` or `image`, and a body that is not JSON all
  raise in Ruby; they are all `fetch` returning `None`. `acclaim_badge` is not
  modelled, because its only call site is commented out.
- JSON values of the fetched record that are not strings (a nil `name`, for
  example): `TemplateRecord` holds strings only.
- Exceptions raised inside a handler end it. The model ends the plan at that
  point. What the client library then does with the exception is not modelled.
- `URI()` parsing and `to_s`: this is library code. The image URL arrives
  already split into scheme, host, path and query. An attachment's image is
  that `Url` value, not its printed string. Port, user info and fragment are
  not modelled. A malformed image URL makes `URI()` raise, and
  an opaque URI (such as `mailto:x`) has a nil path, so `split` raises on nil
  (bot.rb:58-59). Both end the template branch after the lookup with no post,
  the same plan as a `fetch` that returns `None`; the model has no value for
  such a URL.
- The bot id goes into the mention regexes unescaped (bot.rb:163, 167). The
  model treats it as literal text, so an id containing regex metacharacters is
  not modelled (Slack ids are alphanumeric).
- A message event whose `channel` is nil (Ruby raises at `client.typing` or
  `direct_message?`): the channel is a string here.
- The text of `help` and `post_message_payload` (bot.rb:170-195) is copied as
  constants. Nothing is proved about it.
- All commented-out code (bot.rb:108-112, 123-148).
