/**
 The five group-policy scenarios: each builds a channel and a message, runs the
 message callback, and returns how often the handler was called.
 */
module GroupPolicyTests {
  import opened Admission
  import opened Channel

  /** A direct message passes even under the mention policy. */
  method PrivateMessageAlwaysPasses() returns (calls: nat)
    ensures calls == 1
  {
    var channel := MakeChannel(groupPolicy := Mention);
    var update := MakeUpdate(text := "hello", chatType := Private);
    var _ := channel.OnMessage(update);
    calls := channel.handlerCalls;
  }

  /** The open policy forwards a group message that addresses nobody. */
  method GroupOpenPolicyAlwaysPasses() returns (calls: nat)
    ensures calls == 1
  {
    var channel := MakeChannel(groupPolicy := Open);
    var update := MakeUpdate(text := "hello everyone", chatType := Group);
    var _ := channel.OnMessage(update);
    calls := channel.handlerCalls;
  }

  /** The mention policy drops a group message with no mention and no reply. */
  method GroupMentionPolicySkipsWithoutMention() returns (calls: nat)
    ensures calls == 0
  {
    var channel := MakeChannel(groupPolicy := Mention);
    var update := MakeUpdate(text := "hello everyone", chatType := Group);
    assert '@' !in update.text;
    NoAtSignNoMention(update.text, "testbot");
    var _ := channel.OnMessage(update);
    calls := channel.handlerCalls;
  }

  /** The mention policy forwards a message that holds `@testbot` mid-text. */
  method GroupMentionPolicyPassesWithAtMention() returns (calls: nat)
    ensures calls == 1
  {
    var channel := MakeChannel(groupPolicy := Mention);
    var update := MakeUpdate(text := "hey @testbot what do you think?", chatType := Group);
    MentionsMidText();
    var _ := channel.OnMessage(update);
    calls := channel.handlerCalls;
  }

  /** `@testbot` occurs in the middle of the scenario's text. */
  lemma MentionsMidText()
    ensures Mentions("hey @testbot what do you think?", "testbot")
  {
    var before, after := "hey ", " what do you think?";
    assert "hey @testbot what do you think?" == before + Handle("testbot") + after;
    MentionAnywhere(before, after, "testbot");
  }

  /** The mention policy forwards a reply to one of the bot's messages. */
  method GroupMentionPolicyPassesWithReplyToBot() returns (calls: nat)
    ensures calls == 1
  {
    var channel := MakeChannel(groupPolicy := Mention);
    var update := MakeUpdate(text := "I agree", chatType := Group, replyToBot := true);
    var _ := channel.OnMessage(update);
    calls := channel.handlerCalls;
  }
}
