/** The `case data['text']` dispatch of the message handler (bot.rb:82-153),
    its helper `bot_mentioned` (bot.rb:161-164), and the ordered arms that
    make it first-match-wins.

    Ruby's `case` compares with `===`: for a String pattern that is exact,
    case-sensitive equality, for a Regexp it is "matches somewhere", and
    neither fires on a nil text. */
module Classifier {
  import opened Results
  import opened Text
  import opened Uuid

  /** Which `when` branch the message handler takes. */
  datatype Intent =
    | Greeting                // 'hi', 'bot hi'
    | AttachmentDemo          // 'attachment', 'bot attachment'
    | Mention                 // the bot's mention token anywhere
    | Help                    // 'bot help', 'help'
    | BadgeUnderConstruction  // "badge " directly followed by a UUID
    | BadgeTemplate           // "badge template " directly followed by a UUID
    | UnknownBotCommand       // "bot" at the start of a line
    | Ignored                 // no branch fires

  /** A pattern of a `when` clause. */
  datatype Pattern =
    | Literal(word: string)  // a String pattern
    | MentionOfSelf          // the regex built by bot_mentioned
    | BadgeId                // the regex `.*badge (UUID).*`
    | BadgeTemplateId        // the regex `.*badge template (UUID).*`
    | BotAtLineStart         // the regex `^bot`

  /** A `when` clause: it fires when any of its patterns does. */
  datatype When = When(patterns: seq<Pattern>, intent: Intent)

  /** `<@id>`: the bot's mention token. The regex of bot_mentioned ends in
      `>+`, which matches wherever a single `>` does. */
  function MentionToken(selfId: string): (r: string)
    ensures |r| == |selfId| + 3 && r[..2] == "<@" && r[2..|r| - 1] == selfId && r[|r| - 1] == '>'
  {
    "<@" + selfId + ">"
  }

  predicate HasBadgeId(t: string) {
    exists i | 0 <= i <= |t| :: OccursAt(t, i, "badge ") && UuidAt(t, i + 6)
  }

  predicate HasBadgeTemplateId(t: string) {
    exists i | 0 <= i <= |t| :: OccursAt(t, i, "badge template ") && UuidAt(t, i + 15)
  }

  /** `pattern === text`. */
  predicate CaseEq(pattern: Pattern, text: Option<string>, selfId: string)
    ensures text.None? ==> !CaseEq(pattern, text, selfId)
  {
    match text
    case None => false
    case Some(t) =>
      match pattern
      case Literal(w) => t == w
      case MentionOfSelf => Contains(t, MentionToken(selfId))
      case BadgeId => HasBadgeId(t)
      case BadgeTemplateId => HasBadgeTemplateId(t)
      case BotAtLineStart => AtSomeLineStart(t, "bot")
  }

  predicate Fires(w: When, text: Option<string>, selfId: string) {
    exists p | p in w.patterns :: CaseEq(p, text, selfId)
  }

  /** The `when` clauses in source order. */
  const Cases: seq<When> := [
    When([Literal("hi"), Literal("bot hi")], Greeting),
    When([Literal("attachment"), Literal("bot attachment")], AttachmentDemo),
    When([MentionOfSelf], Mention),
    When([Literal("bot help"), Literal("help")], Help),
    When([BadgeId], BadgeUnderConstruction),
    When([BadgeTemplateId], BadgeTemplate),
    When([BotAtLineStart], UnknownBotCommand)
  ]

  /** The index of the first clause at or after `from` that fires. */
  function FirstArm(arms: seq<When>, text: Option<string>, selfId: string, from: nat): (r: Option<nat>)
    requires from <= |arms|
    ensures r.Some? ==> from <= r.value < |arms| && Fires(arms[r.value], text, selfId)
    ensures r.Some? ==> forall j | from <= j < r.value :: !Fires(arms[j], text, selfId)
    ensures r.None? ==> forall j | from <= j < |arms| :: !Fires(arms[j], text, selfId)
    decreases |arms| - from
  {
    if from == |arms| then None
    else if Fires(arms[from], text, selfId) then Some(from)
    else FirstArm(arms, text, selfId, from + 1)
  }

  /** The branch `case data['text']` takes for a message from a bot whose
      user id is `selfId`. */
  function Classify(text: Option<string>, selfId: string): (r: Intent)
    ensures text.None? ==> r == Ignored
    ensures r != Ignored ==> exists k | 0 <= k < |Cases| :: Cases[k].intent == r && Fires(Cases[k], text, selfId)
  {
    match FirstArm(Cases, text, selfId, 0)
    case Some(k) => Cases[k].intent
    case None => Ignored
  }

  /** The six exact phrases of the String patterns. */
  predicate IsFixedPhrase(t: string) {
    t == "hi" || t == "bot hi" || t == "attachment" || t == "bot attachment" || t == "bot help" || t == "help"
  }

  /** First match wins: clause `k` is taken exactly when it fires and no
      earlier clause does, and the text is ignored exactly when none fires. */
  lemma ClassifyFirstMatch(text: Option<string>, selfId: string, k: nat)
    requires k < |Cases|
    ensures Classify(text, selfId) == Cases[k].intent <==>
      Fires(Cases[k], text, selfId) && forall j | 0 <= j < k :: !Fires(Cases[j], text, selfId)
    ensures Classify(text, selfId) == Ignored <==>
      forall j | 0 <= j < |Cases| :: !Fires(Cases[j], text, selfId)
  {
    var r := FirstArm(Cases, text, selfId, 0);
    assert forall i, j | 0 <= i < j < |Cases| :: Cases[i].intent != Cases[j].intent;
    assert forall i | 0 <= i < |Cases| :: Cases[i].intent != Ignored;
  }

  /** What each clause's firing means for a non-nil text. */
  lemma FiresCases(t: string, selfId: string)
    ensures Fires(Cases[0], Some(t), selfId) <==> t == "hi" || t == "bot hi"
    ensures Fires(Cases[1], Some(t), selfId) <==> t == "attachment" || t == "bot attachment"
    ensures Fires(Cases[2], Some(t), selfId) <==> Contains(t, MentionToken(selfId))
    ensures Fires(Cases[3], Some(t), selfId) <==> t == "bot help" || t == "help"
    ensures Fires(Cases[4], Some(t), selfId) <==> HasBadgeId(t)
    ensures Fires(Cases[5], Some(t), selfId) <==> HasBadgeTemplateId(t)
    ensures Fires(Cases[6], Some(t), selfId) <==> AtSomeLineStart(t, "bot")
  {
    var text := Some(t);
    assert CaseEq(Literal(t), text, selfId);
    assert CaseEq(MentionOfSelf, text, selfId) <==> Contains(t, MentionToken(selfId));
    assert CaseEq(BadgeId, text, selfId) <==> HasBadgeId(t);
    assert CaseEq(BadgeTemplateId, text, selfId) <==> HasBadgeTemplateId(t);
    assert CaseEq(BotAtLineStart, text, selfId) <==> AtSomeLineStart(t, "bot");
    assert Cases[0].patterns[0] == Literal("hi") && Cases[0].patterns[1] == Literal("bot hi");
    assert Cases[1].patterns[0] == Literal("attachment") && Cases[1].patterns[1] == Literal("bot attachment");
    assert Cases[2].patterns[0] == MentionOfSelf;
    assert Cases[3].patterns[0] == Literal("bot help") && Cases[3].patterns[1] == Literal("help");
    assert Cases[4].patterns[0] == BadgeId;
    assert Cases[5].patterns[0] == BadgeTemplateId;
    assert Cases[6].patterns[0] == BotAtLineStart;
  }

  /** A text containing a pattern contains the pattern's first character. */
  lemma ContainsFirstChar(t: string, p: string)
    requires Contains(t, p) && p != []
    ensures p[0] in t
  {
    var i :| 0 <= i <= |t| && OccursAt(t, i, p);
    OccurrenceChars(t, i, p, 0);
  }

  /** A fixed phrase holds no mention token, since it has no `<`. */
  lemma FixedPhraseHasNoMention(t: string, selfId: string)
    requires IsFixedPhrase(t)
    ensures !Contains(t, MentionToken(selfId))
  {
    if Contains(t, MentionToken(selfId)) {
      ContainsFirstChar(t, MentionToken(selfId));
    }
  }

  /** A fixed phrase is too short to hold "badge " and a UUID. */
  lemma FixedPhraseHasNoBadgeId(t: string)
    requires IsFixedPhrase(t)
    ensures !HasBadgeId(t) && !HasBadgeTemplateId(t)
  {
  }

  /** Exact, case-sensitive 'hi' or 'bot hi' and nothing else is a greeting. */
  lemma ClassifyGreeting(t: string, selfId: string)
    ensures Classify(Some(t), selfId) == Greeting <==> t == "hi" || t == "bot hi"
  {
    ClassifyFirstMatch(Some(t), selfId, 0);
    FiresCases(t, selfId);
  }

  /** Exact 'attachment' or 'bot attachment' and nothing else asks for the demo attachment. */
  lemma ClassifyAttachmentDemo(t: string, selfId: string)
    ensures Classify(Some(t), selfId) == AttachmentDemo <==> t == "attachment" || t == "bot attachment"
  {
    ClassifyFirstMatch(Some(t), selfId, 1);
    FiresCases(t, selfId);
  }

  /** Any text holding the mention token that is not one of the fixed
      phrases is a mention, whatever else it holds (a leading "bot", a
      badge id). */
  lemma ClassifyMention(t: string, selfId: string)
    ensures Classify(Some(t), selfId) == Mention <==>
      Contains(t, MentionToken(selfId)) && !IsFixedPhrase(t)
  {
    ClassifyFirstMatch(Some(t), selfId, 2);
    FiresCases(t, selfId);
    if IsFixedPhrase(t) {
      FixedPhraseHasNoMention(t, selfId);
    }
  }

  /** Exact 'bot help' or 'help' and nothing else is a call for help. */
  lemma ClassifyHelp(t: string, selfId: string)
    ensures Classify(Some(t), selfId) == Help <==> t == "bot help" || t == "help"
  {
    ClassifyFirstMatch(Some(t), selfId, 3);
    FiresCases(t, selfId);
    if t == "bot help" || t == "help" {
      FixedPhraseHasNoMention(t, selfId);
    }
  }

  /** "badge " directly followed by a lowercase UUID, with no mention token,
      takes the under-construction branch. */
  lemma ClassifyBadge(t: string, selfId: string)
    ensures Classify(Some(t), selfId) == BadgeUnderConstruction <==>
      HasBadgeId(t) && !Contains(t, MentionToken(selfId))
  {
    ClassifyFirstMatch(Some(t), selfId, 4);
    FiresCases(t, selfId);
    if IsFixedPhrase(t) {
      FixedPhraseHasNoBadgeId(t);
    }
  }

  /** "badge template " directly followed by a lowercase UUID takes the
      template branch only when no "badge " is directly followed by a UUID
      and there is no mention token. */
  lemma ClassifyBadgeTemplate(t: string, selfId: string)
    ensures Classify(Some(t), selfId) == BadgeTemplate <==>
      HasBadgeTemplateId(t) && !HasBadgeId(t) && !Contains(t, MentionToken(selfId))
  {
    ClassifyFirstMatch(Some(t), selfId, 5);
    FiresCases(t, selfId);
    if IsFixedPhrase(t) {
      FixedPhraseHasNoBadgeId(t);
    }
  }

  /** "bot" at the start of a line, when no earlier clause fires, is an
      unknown command. */
  lemma ClassifyUnknownBotCommand(t: string, selfId: string)
    ensures Classify(Some(t), selfId) == UnknownBotCommand <==>
      && AtSomeLineStart(t, "bot") && !IsFixedPhrase(t)
      && !Contains(t, MentionToken(selfId)) && !HasBadgeId(t) && !HasBadgeTemplateId(t)
  {
    ClassifyFirstMatch(Some(t), selfId, 6);
    FiresCases(t, selfId);
  }

  /** A nil text and a text no clause fires on are ignored. */
  lemma ClassifyIgnored(text: Option<string>, selfId: string)
    ensures text.None? ==> Classify(text, selfId) == Ignored
    ensures text.Some? ==> (Classify(text, selfId) == Ignored <==>
      && !IsFixedPhrase(text.value) && !Contains(text.value, MentionToken(selfId))
      && !HasBadgeId(text.value) && !HasBadgeTemplateId(text.value)
      && !AtSomeLineStart(text.value, "bot"))
  {
    ClassifyFirstMatch(text, selfId, 0);
    if text.Some? {
      FiresCases(text.value, selfId);
    }
  }

  /** On the template branch `match_uuid` cannot fail: the text holds a UUID. */
  lemma BadgeTemplateHasUuid(t: string, selfId: string)
    requires Classify(Some(t), selfId) == BadgeTemplate
    ensures MatchUuid(t).Success?
  {
    ClassifyBadgeTemplate(t, selfId);
    var i :| 0 <= i <= |t| && OccursAt(t, i, "badge template ") && UuidAt(t, i + 15);
    MatchUuidIsRubyMatch(t);
  }

  /** Every character of a UUID is a lowercase hex digit or a hyphen. */
  lemma UuidChar(u: string, k: int)
    requires IsUuid(u) && 0 <= k < 36
    ensures IsLowerHex(u[k]) || u[k] == '-'
  {
  }

  /** The id looked up is the one `match_uuid` picks, not necessarily the one
      after "badge template ": with a second UUID later on the same line the
      template branch is still taken, and `match_uuid` yields the second. */
  lemma {:induction false} TemplateBranchUsesLastUuid(u1: string, u2: string, selfId: string)
    requires IsUuid(u1) && IsUuid(u2)
    ensures var t := "badge template " + u1 + " " + u2;
      Classify(Some(t), selfId) == BadgeTemplate && MatchUuid(t) == Success(u2)
  {
    var prefix := "badge template ";
    var t := prefix + u1 + " " + u2;
    assert |t| == 88;
    assert t[..15] == prefix && t[15..51] == u1 && t[51] == ' ' && t[52..] == u2;
    forall k | 0 <= k < 88
      ensures t[k] != '\n' && t[k] != '<' && (t[k] == 'g' ==> k == 3)
    {
      if k < 15 {
        assert t[k] == prefix[k];
      } else if k < 51 {
        assert t[k] == u1[k - 15];
        UuidChar(u1, k - 15);
      } else if k > 51 {
        assert t[k] == u2[k - 52];
        UuidChar(u2, k - 52);
      }
    }
    assert OccursAt(t, 0, prefix) && UuidAt(t, 15);
    assert HasBadgeTemplateId(t);
    forall i | 0 <= i <= |t| && OccursAt(t, i, "badge ")
      ensures !UuidAt(t, i + 6)
    {
      OccurrenceChars(t, i, "badge ", 3);
      assert i == 0 && t[6] == 't';
      assert t[6..42][0] == 't';
    }
    if Contains(t, MentionToken(selfId)) {
      ContainsFirstChar(t, MentionToken(selfId));
      assert false;
    }
    ClassifyBadgeTemplate(t, selfId);
    MatchUuidSingleLineLast(t);
  }
}
