/** The AI assistant's chat log: sending appends the user's message and a loading placeholder,
    then the placeholder is settled with the service's answer or an error text; messages can be
    cleared, deleted by id, and the last question retried. The remote service and its health
    check are answers passed in; `Date.now()` readings are parameters. */
module Chat {
  import opened Common
  import opened Decimal
  import opened Types

  const UnavailableMessage: string := "AI Assistant is currently unavailable. Please try again later."
  const FallbackError: string := "Something went wrong"

  /** What the service call did: resolved with a text, or threw (`Some(message)` when the
      thrown value is an `Error`). */
  datatype Reply = Answer(text: string) | Threw(message: Option<string>)

  /** Whether a call completed or its promise rejected with a message. */
  datatype Outcome = Done | Rejected(message: string)

  predicate IsUser(m: ChatMessage) { m.role == User }

  function UserMessage(content: string, now: nat): ChatMessage {
    ChatMessage(NatToString(now), content, User, now, false)
  }

  /** The assistant placeholder; its id is the clock reading plus one, as text. */
  function Placeholder(now: nat): ChatMessage {
    ChatMessage(NatToString(now + 1), "", Assistant, now, true)
  }

  /** The text that replaces the placeholder: the answer, or an error line. */
  function ReplyText(reply: Reply): (t: string)
    ensures reply.Answer? ==> t == reply.text
    ensures reply.Threw? ==> |t| >= 7 && t[..7] == "Error: "
    ensures reply == Threw(None) ==> t == "Error: " + FallbackError
  {
    match reply
    case Answer(text) => text
    case Threw(Some(m)) => "Error: " + m
    case Threw(None) => "Error: " + FallbackError
  }

  /** `prev.map(msg => msg.id === id ? { ...msg, content, isLoading: false } : msg)`. */
  function Settle(msgs: seq<ChatMessage>, id: string, content: string): (r: seq<ChatMessage>)
    ensures |r| == |msgs|
    ensures forall i :: 0 <= i < |msgs| && msgs[i].id == id ==>
      r[i] == msgs[i].(content := content, isLoading := false)
    ensures forall i :: 0 <= i < |msgs| && msgs[i].id != id ==> r[i] == msgs[i]
  {
    seq(|msgs|, i requires 0 <= i < |msgs| =>
      if msgs[i].id == id then msgs[i].(content := content, isLoading := false) else msgs[i])
  }

  /** `sendMessage` on the log: unavailable leaves it as it was; otherwise the user message
      and the placeholder are appended and the placeholder is settled with the reply. */
  function SendSpec(msgs: seq<ChatMessage>, available: bool, content: string, t1: nat, t2: nat, reply: Reply): (r: seq<ChatMessage>)
    ensures !available ==> r == msgs
    ensures available ==> |r| == |msgs| + 2
    // the settled reply is last; every older message with another id is kept as it was
    ensures available ==> r[|msgs| + 1] == Placeholder(t2).(content := ReplyText(reply), isLoading := false)
    ensures available ==> forall i :: 0 <= i < |msgs| && msgs[i].id != NatToString(t2 + 1) ==> r[i] == msgs[i]
    // the question is appended unless its id collides with the placeholder's
    ensures available && NatToString(t1) != NatToString(t2 + 1) ==> r[|msgs|] == UserMessage(content, t1)
  {
    if !available then msgs
    else Settle(msgs + [UserMessage(content, t1), Placeholder(t2)], NatToString(t2 + 1), ReplyText(reply))
  }

  predicate IdFree(msgs: seq<ChatMessage>, id: string) {
    forall i :: 0 <= i < |msgs| ==> msgs[i].id != id
  }

  /** With the clock not running backwards and a fresh placeholder id, a send appends exactly
      two messages: the user's, then the assistant's with the reply text and no longer
      loading; every earlier message is unchanged. */
  lemma SendAppendsExchange(msgs: seq<ChatMessage>, content: string, t1: nat, t2: nat, reply: Reply)
    requires t1 <= t2 && IdFree(msgs, NatToString(t2 + 1))
    ensures SendSpec(msgs, true, content, t1, t2, reply) ==
      msgs + [UserMessage(content, t1), Placeholder(t2).(content := ReplyText(reply), isLoading := false)]
  {
    NatToStringInjective(t1, t2 + 1);
    var appended := msgs + [UserMessage(content, t1), Placeholder(t2)];
    var r := SendSpec(msgs, true, content, t1, t2, reply);
    assert appended[|msgs|] == UserMessage(content, t1);
    assert appended[|msgs| + 1] == Placeholder(t2);
    assert forall i :: 0 <= i < |msgs| ==> appended[i] == msgs[i];
  }

  /** If the placeholder id repeats an earlier message's id (two sends within the same
      millisecond), the earlier message is overwritten as well: the update is by id. */
  lemma SettleOverwritesSameId(msgs: seq<ChatMessage>, content: string, t1: nat, t2: nat, reply: Reply, k: nat)
    requires k < |msgs| && msgs[k].id == NatToString(t2 + 1)
    ensures SendSpec(msgs, true, content, t1, t2, reply)[k] == msgs[k].(content := ReplyText(reply), isLoading := false)
  {
    var appended := msgs + [UserMessage(content, t1), Placeholder(t2)];
    assert appended[k] == msgs[k];
  }

  /** `deleteMessage`: `prev.filter(msg => msg.id !== id)`. */
  function Delete(msgs: seq<ChatMessage>, id: string): (r: seq<ChatMessage>)
    ensures forall m :: m in r <==> m in msgs && m.id != id
  {
    Filter(msgs, (m: ChatMessage) => m.id != id)
  }

  /** Deleting keeps every other message as many times as before, in the same relative order
      (deleting distributes over any split of the log), and a second delete changes nothing. */
  lemma DeleteKeepsOthers(msgs: seq<ChatMessage>, id: string, m: ChatMessage)
    requires m.id != id
    ensures multiset(Delete(msgs, id))[m] == multiset(msgs)[m]
  {
    FilterMultiset(msgs, (x: ChatMessage) => x.id != id, m);
  }

  lemma DeleteSplits(a: seq<ChatMessage>, b: seq<ChatMessage>, id: string)
    ensures Delete(a + b, id) == Delete(a, id) + Delete(b, id)
  {
    FilterConcat(a, b, (m: ChatMessage) => m.id != id);
  }

  lemma DeleteIdempotent(msgs: seq<ChatMessage>, id: string)
    ensures Delete(Delete(msgs, id), id) == Delete(msgs, id)
  {
    FilterAll(Delete(msgs, id), (m: ChatMessage) => m.id != id);
  }

  /** `msgs.map(msg => msg.role).lastIndexOf(role)`. */
  function LastIndexOfRole(msgs: seq<ChatMessage>, role: Role): (i: int)
    ensures -1 <= i < |msgs|
    ensures i == -1 <==> forall j :: 0 <= j < |msgs| ==> msgs[j].role != role
    ensures i >= 0 ==> msgs[i].role == role && forall j :: i < j < |msgs| ==> msgs[j].role != role
  {
    if msgs == [] then -1
    else if msgs[|msgs| - 1].role == role then |msgs| - 1
    else LastIndexOfRole(msgs[..|msgs| - 1], role)
  }

  /** `messages.filter(msg => msg.role === 'user').pop()`, as its content. */
  function LastUserContent(msgs: seq<ChatMessage>): (c: Option<string>)
    ensures c.None? <==> forall j :: 0 <= j < |msgs| ==> msgs[j].role != User
    ensures c.Some? ==> exists i :: (0 <= i < |msgs| && msgs[i].role == User && msgs[i].content == c.value &&
                                     forall j :: i < j < |msgs| ==> msgs[j].role != User)
  {
    var i := LastIndexOfRole(msgs, User);
    if i == -1 then None else Some(msgs[i].content)
  }

  /** The retry truncation AS WRITTEN: cut the log just before the last assistant message. */
  function RetryTruncateAsWritten(msgs: seq<ChatMessage>): (r: seq<ChatMessage>)
    ensures r <= msgs
    ensures |r| == (if LastIndexOfRole(msgs, Assistant) == -1 then |msgs| else LastIndexOfRole(msgs, Assistant))
    ensures (forall j :: 0 <= j < |msgs| ==> msgs[j].role != Assistant) ==> r == msgs
    ensures |r| < |msgs| ==>
      msgs[|r|].role == Assistant && forall j :: |r| < j < |msgs| ==> msgs[j].role != Assistant
  {
    var i := LastIndexOfRole(msgs, Assistant);
    if i != -1 then msgs[..i] else msgs
  }

  /** `retryLastMessage` AS WRITTEN: with a user message in the log, truncate before the last
      assistant message, then send the last user message's content again. */
  function RetrySpecAsWritten(msgs: seq<ChatMessage>, available: bool, t1: nat, t2: nat, reply: Reply): (r: seq<ChatMessage>)
    ensures LastUserContent(msgs).None? ==> r == msgs
    // the truncation stays even when the re-send is rejected
    ensures LastUserContent(msgs).Some? && !available ==> r == RetryTruncateAsWritten(msgs)
    ensures LastUserContent(msgs).Some? && available ==>
      && |r| == |RetryTruncateAsWritten(msgs)| + 2
      && r[|r| - 1] == Placeholder(t2).(content := ReplyText(reply), isLoading := false)
      && forall i :: 0 <= i < |RetryTruncateAsWritten(msgs)| && msgs[i].id != NatToString(t2 + 1) ==> r[i] == msgs[i]
  {
    match LastUserContent(msgs)
    case None => msgs
    case Some(c) => SendSpec(RetryTruncateAsWritten(msgs), available, c, t1, t2, reply)
  }

  /** The retry truncation as the retry needs it: cut the log just before the last user
      message, which the re-send appends again. */
  function RetryTruncate(msgs: seq<ChatMessage>): (r: seq<ChatMessage>)
    ensures r <= msgs
    ensures |r| == (if LastIndexOfRole(msgs, User) == -1 then |msgs| else LastIndexOfRole(msgs, User))
    ensures (forall j :: 0 <= j < |msgs| ==> msgs[j].role != User) ==> r == msgs
    ensures |r| < |msgs| ==> msgs[|r|].role == User && forall j :: |r| < j < |msgs| ==> msgs[j].role != User
  {
    var i := LastIndexOfRole(msgs, User);
    if i != -1 then msgs[..i] else msgs
  }

  /** `retryLastMessage` with the corrected truncation. */
  function RetrySpec(msgs: seq<ChatMessage>, available: bool, t1: nat, t2: nat, reply: Reply): (r: seq<ChatMessage>)
    ensures LastUserContent(msgs).None? ==> r == msgs
    ensures LastUserContent(msgs).Some? && !available ==> r == RetryTruncate(msgs)
    ensures LastUserContent(msgs).Some? && available ==>
      && |r| == |RetryTruncate(msgs)| + 2
      && r[|r| - 1] == Placeholder(t2).(content := ReplyText(reply), isLoading := false)
      && forall i :: 0 <= i < |RetryTruncate(msgs)| && msgs[i].id != NatToString(t2 + 1) ==> r[i] == msgs[i]
  {
    match LastUserContent(msgs)
    case None => msgs
    case Some(c) => SendSpec(RetryTruncate(msgs), available, c, t1, t2, reply)
  }

  /** Without a user message there is nothing to retry, on either version. */
  lemma RetryWithoutQuestion(msgs: seq<ChatMessage>, available: bool, t1: nat, t2: nat, reply: Reply)
    requires forall j :: 0 <= j < |msgs| ==> msgs[j].role != User
    ensures RetrySpecAsWritten(msgs, available, t1, t2, reply) == msgs
    ensures RetrySpec(msgs, available, t1, t2, reply) == msgs
  {
  }

  lemma {:induction false} CountUserPrefix(msgs: seq<ChatMessage>, i: nat)
    requires i < |msgs| && msgs[i].role == User
    requires forall j :: i < j < |msgs| ==> msgs[j].role != User
    ensures CountWhere(msgs, IsUser) == CountWhere(msgs[..i], IsUser) + 1
  {
    assert msgs == msgs[..i] + [msgs[i]] + msgs[i + 1..];
    CountConcat(msgs[..i] + [msgs[i]], msgs[i + 1..], IsUser);
    CountConcat(msgs[..i], [msgs[i]], IsUser);
    CountNone(msgs[i + 1..], IsUser);
  }

  /** The count of user messages after a send of fresh ids: one more than before. */
  lemma CountAfterSend(msgs: seq<ChatMessage>, content: string, t1: nat, t2: nat, reply: Reply)
    requires t1 <= t2 && IdFree(msgs, NatToString(t2 + 1))
    ensures CountWhere(SendSpec(msgs, true, content, t1, t2, reply), IsUser) == CountWhere(msgs, IsUser) + 1
  {
    SendAppendsExchange(msgs, content, t1, t2, reply);
    var user := UserMessage(content, t1);
    var answered := Placeholder(t2).(content := ReplyText(reply), isLoading := false);
    CountConcat(msgs, [user, answered], IsUser);
    CountCons(user, [answered], IsUser);
    CountCons(answered, [], IsUser);
  }

  /** AS WRITTEN, retrying after an answer to question `q` asks `q` twice in the log: the
      truncation keeps the question, the re-send appends it again, so the number of user
      messages grows by one and the two last ones carry the same text. */
  lemma RetryAsWrittenDuplicatesQuestion(
    prefix: seq<ChatMessage>, q: ChatMessage, answer: ChatMessage, t1: nat, t2: nat, reply: Reply)
    requires q.role == User && answer.role == Assistant
    requires t1 <= t2 && IdFree(prefix + [q], NatToString(t2 + 1))
    ensures var msgs := prefix + [q, answer];
      var r := RetrySpecAsWritten(msgs, true, t1, t2, reply);
      && CountWhere(r, IsUser) == CountWhere(msgs, IsUser) + 1
      && r[|prefix|] == q && r[|prefix| + 1] == UserMessage(q.content, t1)
  {
    var msgs := prefix + [q, answer];
    assert msgs[|prefix|] == q && msgs[|prefix| + 1] == answer;
    assert LastIndexOfRole(msgs, Assistant) == |prefix| + 1;
    assert LastIndexOfRole(msgs, User) == |prefix|;
    assert LastUserContent(msgs) == Some(q.content);
    assert RetryTruncateAsWritten(msgs) == prefix + [q];
    SendAppendsExchange(prefix + [q], q.content, t1, t2, reply);
    CountAfterSend(prefix + [q], q.content, t1, t2, reply);
    assert prefix + [q, answer] == (prefix + [q]) + [answer];
    CountConcat(prefix + [q], [answer], IsUser);
    CountCons(answer, [], IsUser);
  }

  /** With the corrected truncation a retry re-asks the last question exactly once: the user
      messages are as many as before, the log up to the question is kept, and the question
      is followed by the new answer. */
  lemma RetryAsksOnce(msgs: seq<ChatMessage>, t1: nat, t2: nat, reply: Reply)
    requires exists j :: 0 <= j < |msgs| && msgs[j].role == User
    requires t1 <= t2 && IdFree(msgs, NatToString(t2 + 1))
    ensures var i := LastIndexOfRole(msgs, User);
      var r := RetrySpec(msgs, true, t1, t2, reply);
      && CountWhere(r, IsUser) == CountWhere(msgs, IsUser)
      && r == msgs[..i] + [UserMessage(msgs[i].content, t1),
                           Placeholder(t2).(content := ReplyText(reply), isLoading := false)]
  {
    var i := LastIndexOfRole(msgs, User);
    var kept := msgs[..i];
    assert IdFree(kept, NatToString(t2 + 1));
    SendAppendsExchange(kept, msgs[i].content, t1, t2, reply);
    CountAfterSend(kept, msgs[i].content, t1, t2, reply);
    CountUserPrefix(msgs, i);
  }

  /** The hook's state. */
  class Assistant {
    var messages: seq<ChatMessage>
    var isLoading: bool
    var isAvailable: bool

    constructor ()
      ensures messages == [] && !isLoading && !isAvailable
    {
      messages := [];
      isLoading := false;
      isAvailable := false;
    }

    /** One health check: the service's answer, or `None` when the check threw. */
    method CheckHealth(answer: Option<bool>)
      modifies this`isAvailable
      ensures isAvailable == (answer == Some(true))
    {
      if answer.Some? {
        isAvailable := answer.value;
      } else {
        isAvailable := false;
      }
    }

    /** `sendMessage(content)`: `t1` and `t2` are the clock readings for the user message and
        for the placeholder; `reply` is what the service did. */
    method SendMessage(content: string, t1: nat, t2: nat, reply: Reply) returns (outcome: Outcome)
      modifies this`messages, this`isLoading
      ensures messages == SendSpec(old(messages), isAvailable, content, t1, t2, reply)
      ensures isAvailable ==> outcome == Done && !isLoading
      ensures !isAvailable ==> outcome == Rejected(UnavailableMessage) && isLoading == old(isLoading)
    {
      if !isAvailable {
        return Rejected(UnavailableMessage);
      }
      var user := UserMessage(content, t1);
      var loading := Placeholder(t2);
      messages := messages + [user, loading];
      isLoading := true;
      messages := Settle(messages, loading.id, ReplyText(reply));
      isLoading := false;
      outcome := Done;
    }

    method ClearMessages()
      modifies this`messages
      ensures messages == []
    {
      messages := [];
    }

    method DeleteMessage(id: string)
      modifies this`messages
      ensures messages == Delete(old(messages), id)
    {
      messages := Delete(messages, id);
    }

    /** `retryLastMessage` as written: cut before the last assistant message, then re-send the
        last question. When the service is unavailable the truncation stays and the re-send's
        rejection propagates. */
    method RetryLastMessage(t1: nat, t2: nat, reply: Reply) returns (outcome: Outcome)
      modifies this`messages, this`isLoading
      ensures messages == RetrySpecAsWritten(old(messages), isAvailable, t1, t2, reply)
      ensures old(LastUserContent(messages)).None? ==> outcome == Done && isLoading == old(isLoading)
      ensures old(LastUserContent(messages)).Some? ==>
        outcome == (if isAvailable then Done else Rejected(UnavailableMessage))
    {
      var last := LastUserContent(messages);
      if last.None? {
        return Done;
      }
      messages := RetryTruncateAsWritten(messages);
      outcome := SendMessage(last.value, t1, t2, reply);
    }

    /** The corrected retry: cut before the last question, so that the re-send asks it once. */
    method RetryLastMessageCorrected(t1: nat, t2: nat, reply: Reply) returns (outcome: Outcome)
      modifies this`messages, this`isLoading
      ensures messages == RetrySpec(old(messages), isAvailable, t1, t2, reply)
      ensures old(LastUserContent(messages)).None? ==> outcome == Done && isLoading == old(isLoading)
      ensures old(LastUserContent(messages)).Some? ==>
        outcome == (if isAvailable then Done else Rejected(UnavailableMessage))
    {
      var last := LastUserContent(messages);
      if last.None? {
        return Done;
      }
      messages := RetryTruncate(messages);
      outcome := SendMessage(last.value, t1, t2, reply);
    }
  }
}
