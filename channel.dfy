/**
 The Telegram channel as its message callback sees it: the configured group
 policy, the bot identity it learned at startup, and the message handler it
 forwards admitted messages to. The handler is represented by what it has
 received: how often it was called and with which messages.
 */
module Channel {
  import opened Admission

  class TelegramChannel {
    const policy: Policy
    const botUsername: Username
    const botId: int
    /** Number of times the message handler was called. */
    var handlerCalls: nat
    /** The messages handed to the handler, in arrival order. */
    var forwarded: seq<Message>

    constructor (groupPolicy: Policy, username: Username, id: int)
      ensures policy == groupPolicy && botUsername == username && botId == id
      ensures handlerCalls == 0 && forwarded == []
    {
      policy := groupPolicy;
      botUsername := username;
      botId := id;
      handlerCalls := 0;
      forwarded := [];
    }

    /**
     The message callback: the handler is called once, with the message as
     received, when the admission rule admits it, and not at all otherwise.
     */
    method OnMessage(msg: Message) returns (admitted: bool)
      modifies this
      ensures admitted == ShouldAdmit(msg, policy, BotIdentity(botUsername, botId))
      ensures handlerCalls == old(handlerCalls) + (if admitted then 1 else 0)
      ensures forwarded == old(forwarded) + (if admitted then [msg] else [])
    {
      admitted := ShouldAdmit(msg, policy, BotIdentity(botUsername, botId));
      if admitted {
        HandleMessage(msg);
      }
    }

    /** The message handler, observed through its calls. */
    method HandleMessage(msg: Message)
      modifies this
      ensures handlerCalls == old(handlerCalls) + 1
      ensures forwarded == old(forwarded) + [msg]
    {
      handlerCalls := handlerCalls + 1;
      forwarded := forwarded + [msg];
    }
  }

  /** A channel with the given policy whose bot is `testbot` with id 999. */
  method MakeChannel(groupPolicy: Policy := Open) returns (ch: TelegramChannel)
    ensures fresh(ch)
    ensures ch.policy == groupPolicy
    ensures ch.botUsername == "testbot" && ch.botId == 999
    ensures ch.handlerCalls == 0 && ch.forwarded == []
  {
    ch := new TelegramChannel(groupPolicy, "testbot", 999);
  }

  /**
   An incoming message; when `replyToBot` holds it replies to a message
   authored by `botId`, otherwise it is not a reply.
   */
  function MakeUpdate(
    text: string := "hello",
    chatType: ChatType := Private,
    userId: int := 123,
    username: string := "alice",
    replyToBot: bool := false,
    botId: int := 999): Message
  {
    Message(text, chatType, userId, username,
      if replyToBot then Some(botId) else None)
  }
}
