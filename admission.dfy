/**
 The inbound admission rule of the Telegram channel: for every incoming
 message it decides whether the message reaches the message handler or is
 silently dropped. The decision depends only on the chat type, the channel's
 configured group policy and the bot's own identity (its username and id).
 */
module Admission {

  datatype Option<+T> = None | Some(value: T)

  /** The kind of chat a message was posted in. */
  datatype ChatType = Private | Group

  /** The configured `group_policy`: `"open"` or `"mention"`. */
  datatype Policy = Open | Mention

  /** A Telegram username, which is never empty. */
  type Username = s: string | |s| > 0 witness "x"

  /** The bot's own identity, as the channel holds it. */
  datatype BotIdentity = BotIdentity(username: Username, id: int)

  /**
   The part of an incoming update the rule looks at: the message text, the
   chat type, the sender, and the author id of the message it replies to
   (None when it is not a reply).
   */
  datatype Message = Message(
    text: string,
    chatType: ChatType,
    senderId: int,
    senderUsername: string,
    replyToUserId: Option<int>)

  /** Reference definition of "pat occurs in text" at some position. */
  ghost predicate OccursAt(text: string, pat: string, i: int)
  {
    0 <= i && i + |pat| <= |text| && text[i..i + |pat|] == pat
  }

  ghost predicate Occurs(text: string, pat: string)
  {
    exists i :: OccursAt(text, pat, i)
  }

  /** Substring containment, `pat in text`, by scanning from the left. */
  function Contains(text: string, pat: string): (r: bool)
    ensures r ==> |pat| <= |text|
    ensures |pat| == 0 ==> r
    decreases |text|
  {
    if |text| < |pat| then false
    else if text[..|pat|] == pat then true
    else Contains(text[1..], pat)
  }

  lemma SliceOfTail(s: string, i: int, j: int)
    requires 0 <= i <= j < |s|
    ensures s[1..][i..j] == s[i + 1..j + 1]
  {
  }

  /** The left-to-right scan agrees with the reference definition, both ways. */
  lemma {:induction false} ContainsIff(text: string, pat: string)
    ensures Contains(text, pat) <==> Occurs(text, pat)
    decreases |text|
  {
    if |text| < |pat| {
    } else if text[..|pat|] == pat {
      assert OccursAt(text, pat, 0);
    } else {
      ContainsIff(text[1..], pat);
      if Occurs(text[1..], pat) {
        var i :| OccursAt(text[1..], pat, i);
        SliceOfTail(text, i, i + |pat|);
        assert OccursAt(text, pat, i + 1);
      }
      if Occurs(text, pat) {
        var i :| OccursAt(text, pat, i);
        assert i != 0;
        SliceOfTail(text, i - 1, i - 1 + |pat|);
        assert OccursAt(text[1..], pat, i - 1);
      }
    }
  }

  /** The handle the bot is addressed by: `@` followed by its username. */
  function Handle(username: string): string
  {
    "@" + username
  }

  /** The text addresses the bot: it contains `@<username>` anywhere. */
  function Mentions(text: string, username: string): (r: bool)
    ensures r <==> Occurs(text, Handle(username))
    ensures r ==> |username| < |text|
  {
    ContainsIff(text, Handle(username));
    Contains(text, Handle(username))
  }

  /**
   The admission rule: admit (true) or drop (false). The whole decision table,
   stated against the reference definition of containment.
   */
  function ShouldAdmit(msg: Message, policy: Policy, bot: BotIdentity): (r: bool)
    ensures r <==>
      msg.chatType == Private || policy == Open ||
      Occurs(msg.text, Handle(bot.username)) || msg.replyToUserId == Some(bot.id)
  {
    match msg.chatType
    case Private => true
    case Group =>
      match policy
      case Open => true
      case Mention => Mentions(msg.text, bot.username) || msg.replyToUserId == Some(bot.id)
  }

  /** A private message is admitted whatever the policy, text or reply. */
  lemma PrivateAlwaysAdmitted(msg: Message, policy: Policy, bot: BotIdentity)
    requires msg.chatType == Private
    ensures ShouldAdmit(msg, policy, bot)
  {
  }

  /** Under the open policy every group message is admitted. */
  lemma OpenGroupAdmitted(msg: Message, bot: BotIdentity)
    requires msg.chatType == Group
    ensures ShouldAdmit(msg, Open, bot)
  {
  }

  /**
   Under the mention policy a group message is admitted exactly when its text
   holds `@<bot username>` at some position or it replies to the bot's id.
   */
  lemma MentionGroupIff(msg: Message, bot: BotIdentity)
    requires msg.chatType == Group
    ensures ShouldAdmit(msg, Mention, bot) <==>
      (Occurs(msg.text, Handle(bot.username)) || msg.replyToUserId == Some(bot.id))
  {
  }

  /** Every occurrence of the handle starts with `@`, so a text without `@` mentions nobody. */
  lemma NoAtSignNoMention(text: string, username: string)
    requires '@' !in text
    ensures !Mentions(text, username)
  {
    var h := Handle(username);
    ContainsIff(text, h);
    forall i | 0 <= i && i + |h| <= |text|
      ensures !OccursAt(text, h, i)
    {
      assert text[i..i + |h|][0] == text[i];
    }
  }

  /** A mention is found anywhere in the text, not only as a prefix. */
  lemma MentionAnywhere(before: string, after: string, username: string)
    ensures Mentions(before + Handle(username) + after, username)
  {
    var h := Handle(username);
    var text := before + h + after;
    assert text[|before|..|before| + |h|] == h;
    assert OccursAt(text, h, |before|);
    ContainsIff(text, h);
  }

  /** A reply to one of the bot's messages is admitted under either policy. */
  lemma ReplyToBotAdmitted(msg: Message, policy: Policy, bot: BotIdentity)
    requires msg.replyToUserId == Some(bot.id)
    ensures ShouldAdmit(msg, policy, bot)
  {
  }

  /**
   Under the mention policy a group message that neither mentions the bot nor
   replies to it is dropped.
   */
  lemma MentionGroupDropped(msg: Message, bot: BotIdentity)
    requires msg.chatType == Group
    requires !Occurs(msg.text, Handle(bot.username))
    requires msg.replyToUserId != Some(bot.id)
    ensures !ShouldAdmit(msg, Mention, bot)
  {
  }

  /**
   Only the bot's identity is matched: who sent the message never changes the
   decision, even a sender whose name or id equals the bot's.
   */
  lemma SenderIrrelevant(msg: Message, policy: Policy, bot: BotIdentity, id: int, name: string)
    ensures ShouldAdmit(msg.(senderId := id, senderUsername := name), policy, bot)
        == ShouldAdmit(msg, policy, bot)
  {
  }
}
