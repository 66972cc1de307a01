# Telegram group-policy admission

A model of the inbound admission rule of nanobot's Telegram channel. For every
incoming message the channel's message callback decides whether the message is
forwarded to the message handler or silently dropped. The decision depends on
the chat type (private or group), the configured `group_policy` (`open` or
`mention`) and the bot's own identity (its username and numeric id):

- a private chat always passes;
- a group chat under `open` always passes;
- a group chat under `mention` passes only when the text contains `@` followed
  by the bot's username, anywhere in the text, or when the message replies to a
  message authored by the bot's id.

nanobot/channels/telegram.py is not part of this model. The rule is
reconstructed from tests/test_telegram_group_policy.py: its fixtures
`_make_channel` and `_make_update` and its five scenarios, each of which runs
the message callback once and asserts that the handler was called once or not
at all.

Files:

- `admission.dfy` (module `Admission`): the message, policy and identity
  values; substring containment (`Contains`, as the docstring "containing @botusername" of the mention scenario says) proved
  equal to a reference definition; the rule `ShouldAdmit` and the lemmas that
  state the decision table.
- `channel.dfy` (module `Channel`): the class `TelegramChannel` holding the
  policy and bot identity, a handler-call counter and the messages the handler
  received; `OnMessage` is the message callback. `MakeChannel` and
  `MakeUpdate` are the two fixtures.
- `group_policy_tests.dfy` (module `GroupPolicyTests`): the five scenarios, each
  returning how many times the handler was called.

## Model

| member | source | states |
|---|---|---|
| `Admission.Contains` | tests/test_telegram_group_policy.py:101-104 | substring containment, as the docstring at :102 ("containing @botusername") says: a match needs a pattern no longer than the text, and the empty pattern is always contained; `Admission.ContainsIff` ties it to the reference definition |
| `Admission.Mentions` | tests/test_telegram_group_policy.py:101-104 | the text mentions the bot exactly when its handle (`Handle`, which abbreviates `"@" + username`) occurs at some position of the text (so the text is longer than the username); `Admission.MentionAnywhere` and `Admission.NoAtSignNoMention` state its properties |
| `Admission.ShouldAdmit` | tests/test_telegram_group_policy.py:67-119 | the message is admitted exactly when the chat is private, or the policy is `open`, or the handle occurs in the text, or it replies to the bot's id; the lemmas below state each row of this table |
| `Admission.ContainsIff` | tests/test_telegram_group_policy.py:101-108 | the left-to-right scan for the handle answers true exactly when the handle occurs at some position of the text (both directions) |
| `Admission.PrivateAlwaysAdmitted` | tests/test_telegram_group_policy.py:68-75 | every private-chat message is admitted, whatever the policy, text or reply |
| `Admission.OpenGroupAdmitted` | tests/test_telegram_group_policy.py:79-86 | under `open`, every group message is admitted, whatever its text or reply |
| `Admission.MentionGroupIff` | tests/test_telegram_group_policy.py:89-119 | under `mention`, a group message is admitted if and only if `@<bot username>` occurs somewhere in its text or it replies to a message authored by the bot's id |
| `Admission.MentionGroupDropped` | tests/test_telegram_group_policy.py:90-97 | under `mention`, a group message with no occurrence of the handle and no reply to the bot is dropped |
| `Admission.NoAtSignNoMention` | tests/test_telegram_group_policy.py:93 | a text without any `@` character never mentions the bot, whatever its username |
| `Admission.MentionAnywhere` | tests/test_telegram_group_policy.py:101-104 | the handle counts as a mention wherever it stands in the text, with any text before and after it |
| `Admission.ReplyToBotAdmitted` | tests/test_telegram_group_policy.py:112-119 | a message replying to a message authored by the bot's id is admitted under either policy |
| `Admission.SenderIrrelevant` | tests/test_telegram_group_policy.py:25-37 | changing the sender's id or username never changes the decision; only the channel's bot identity is matched |
| `Channel.TelegramChannel.constructor` | tests/test_telegram_group_policy.py:13-22 | a new channel holds the given policy and bot identity and has called the handler zero times |
| `Channel.TelegramChannel.OnMessage` | tests/test_telegram_group_policy.py:73-75 | the callback returns the rule's decision for the channel's policy and identity; the handler call count grows by exactly one when admitted and stays the same when dropped; the recorded handler inputs grow by this message when admitted and are unchanged when dropped |
| `Channel.TelegramChannel.HandleMessage` | tests/test_telegram_group_policy.py:73 | one handler call records the message and increments the call count by one |
| `Channel.MakeChannel` | tests/test_telegram_group_policy.py:13-22 | the fixture channel has the requested policy (default `open`), bot username `testbot`, bot id 999 and no handler calls |
| `GroupPolicyTests.PrivateMessageAlwaysPasses` | tests/test_telegram_group_policy.py:68-75 | a private `hello` under `mention` (built with the `MakeUpdate` fixture, `_make_update` at :25-64) calls the handler exactly once |
| `GroupPolicyTests.GroupOpenPolicyAlwaysPasses` | tests/test_telegram_group_policy.py:79-86 | a group `hello everyone` under `open` (built with the `MakeUpdate` fixture, `_make_update` at :25-64) calls the handler exactly once |
| `GroupPolicyTests.GroupMentionPolicySkipsWithoutMention` | tests/test_telegram_group_policy.py:90-97 | a group `hello everyone` under `mention` that is not a reply (built with the `MakeUpdate` fixture, `_make_update` at :25-64) never calls the handler |
| `GroupPolicyTests.MentionsMidText` | tests/test_telegram_group_policy.py:104 | `hey @testbot what do you think?` mentions `testbot` |
| `GroupPolicyTests.GroupMentionPolicyPassesWithAtMention` | tests/test_telegram_group_policy.py:101-108 | a group message mentioning `@testbot` mid-text under `mention` (built with the `MakeUpdate` fixture, `_make_update` at :25-64) calls the handler exactly once |
| `GroupPolicyTests.GroupMentionPolicyPassesWithReplyToBot` | tests/test_telegram_group_policy.py:112-119 | a group `I agree` under `mention` that replies to the bot's message (built with the `MakeUpdate` fixture, `_make_update` at :25-64) calls the handler exactly once |

## Left out

- The implementation file nanobot/channels/telegram.py is not part of this model, so the rule is the one the tests pin down; branches it may have beyond them are not modelled.
- Chat types other than private and group (Telegram's `supergroup` and `channel`): no scenario uses them.
- An unset bot identity and unrecognised policy strings: no scenario asserts their outcome, and the model cannot represent them (the identity is always set, the policy is one of the two values). The bot username is a non-empty `Username`, as Telegram usernames are never empty, so an empty username, which the channel might treat like an unset one, cannot be represented either.
- Case variants of the handle and replies to users other than the bot: the model chooses exact, case-sensitive matching of `@<username>` and drops, under `mention`, a group reply to anyone but the bot. No scenario fixes either outcome (the only mention and reply inputs are the texts and reply of the five scenarios), so the "only if" half of Admission.MentionGroupIff, the drop in Admission.MentionGroupDropped and the corresponding direction of Admission.ShouldAdmit's contract rest on that choice.
- What the handler is called with: the scenarios check only how many times it is called. The model forwards the message value itself and records it, which no scenario confirms.
- Parsing the `group_policy` string of the configuration (`TelegramConfig`): the configuration schema is not part of this model; the channel takes the policy as a value.
- Publishing to the message bus, the running-application flag, the bot token, and the asynchronous test machinery (mocks, patching, event loop): transport and test scaffolding, not admission behaviour.
- Media fields (photo, voice, audio, document, media groups) and the caption fallback for text: the scenarios set them empty and never exercise them.
- The sender's first name (`Alice`), the chat id (1001) and the message id (42) that the update fixture sets: the admission rule never reads them, so `Message` has no such fields.
- The handler's own processing: the model records only that it was called and with which message.
