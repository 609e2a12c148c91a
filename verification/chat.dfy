/**
 The chat box: a transcript of user and AI messages, the input field and a
 loading flag. `Send` is the synchronous half of sendMessage (it emits the
 question to ask); `Resolve` is its asynchronous end, fed with the reply or
 a failure.
 */
module Chat {
  import opened Wrappers
  import JsText

  datatype Sender = User | Ai

  datatype Message = Message(sender: Sender, text: string)

  /**
   `pending` counts the sendMessage calls still awaiting their reply: each
   accepted send starts one request and each reply ends one.
   */
  datatype ChatState = ChatState(messages: seq<Message>, input: string, loading: bool, pending: nat)

  /** Shown when the reply carries no answer, or an empty one. */
  const NoResponseText: string := "No response from AI."

  /** Shown when the request fails. */
  const ErrorText: string := "⚠️ Error contacting server."

  /** How the question request ends: a reply body whose `answer` may be absent, or a failure. */
  datatype Reply = Answered(answer: Option<string>) | Unreachable

  /** The state of a fresh chat box. */
  function Init(): (c: ChatState)
    ensures c.messages == [] && c.input == "" && !c.loading && c.pending == 0
  {
    ChatState([], "", false, 0)
  }

  /** Typing into the input field. */
  function Edit(c: ChatState, text: string): (r: ChatState)
    ensures r.input == text && r.messages == c.messages && r.loading == c.loading && r.pending == c.pending
  {
    c.(input := text)
  }

  /** The state after sendMessage's synchronous part, and the question it asks, if any. */
  datatype Sent = Sent(chat: ChatState, question: Option<string>)

  /**
   sendMessage up to the request: blank input is ignored; otherwise the raw
   input becomes a user message, the field is cleared and loading is raised.
   */
  function Send(c: ChatState): (r: Sent)
    ensures JsText.Blank(c.input) ==> r == Sent(c, None)
    ensures !JsText.Blank(c.input) ==>
              && r.chat.messages == c.messages + [Message(User, c.input)]
              && r.chat.input == "" && r.chat.loading
              && r.question == Some(c.input)
              && r.chat.pending == c.pending + 1
  {
    JsText.TrimEmptyIffBlank(c.input);
    if JsText.Trim(c.input) == "" then Sent(c, None)
    else Sent(ChatState(c.messages + [Message(User, c.input)], "", true, c.pending + 1), Some(c.input))
  }

  /** The text of the AI message for a reply: the answer when non-empty, else a fixed text. */
  function AiText(reply: Reply): (t: string)
    ensures |t| > 0
    ensures reply.Answered? && reply.answer.Some? && reply.answer.value != "" ==> t == reply.answer.value
    ensures reply.Answered? && (reply.answer.None? || reply.answer.value == "") ==> t == NoResponseText
    ensures reply.Unreachable? ==> t == ErrorText
  {
    match reply
    case Answered(Some(a)) => if a != "" then a else NoResponseText
    case Answered(None) => NoResponseText
    case Unreachable => ErrorText
  }

  /**
   The end of one outstanding sendMessage: exactly one AI message is appended,
   loading drops (even if other requests are still out) and the request is done.
   */
  function Resolve(c: ChatState, reply: Reply): (r: ChatState)
    requires c.pending > 0
    ensures r.messages == c.messages + [Message(Ai, AiText(reply))]
    ensures r.input == c.input && !r.loading && r.pending == c.pending - 1
  {
    c.(messages := c.messages + [Message(Ai, AiText(reply))], loading := false, pending := c.pending - 1)
  }

  /** The question sent is the text of the user message just appended. */
  lemma QuestionIsLastUserMessage(c: ChatState)
    requires Send(c).question.Some?
    ensures var m := Send(c).chat.messages;
            |m| > 0 && m[|m| - 1] == Message(User, Send(c).question.value)
  {
  }

  /** A send that goes through grows the transcript by exactly one user and one AI message. */
  lemma ExchangeAppendsTwo(c: ChatState, reply: Reply)
    requires !JsText.Blank(c.input)
    ensures var r := Resolve(Send(c).chat, reply);
            && r.messages == c.messages + [Message(User, c.input), Message(Ai, AiText(reply))]
            && |r.messages| == |c.messages| + 2
            && !r.loading && r.input == ""
  {
  }

  /** There is no busy guard: a non-blank send is accepted even while a reply is pending. */
  lemma SendWhileLoadingIsAccepted(c: ChatState)
    requires c.loading && !JsText.Blank(c.input)
    ensures Send(c).question == Some(c.input)
    ensures |Send(c).chat.messages| == |c.messages| + 1
  {
  }

  /** One event on the chat box. */
  datatype Event = Typed(text: string) | Pressed | Returned(reply: Reply)

  /** One event; a reply only arrives for a request that is still outstanding. */
  function Step(c: ChatState, e: Event): (r: ChatState)
    ensures |c.messages| <= |r.messages| && r.messages[..|c.messages|] == c.messages
    ensures e.Typed? ==> r.messages == c.messages
    ensures e.Pressed? ==> |r.messages| - |c.messages| == r.pending - c.pending
    ensures e.Returned? ==> |r.messages| - |c.messages| == c.pending - r.pending
    ensures |r.messages| <= |c.messages| + 1
  {
    match e
    case Typed(text) => Edit(c, text)
    case Pressed => Send(c).chat
    case Returned(reply) => if c.pending == 0 then c else Resolve(c, reply)
  }

  /** The state after a sequence of events. */
  function Run(c: ChatState, events: seq<Event>): ChatState
    decreases |events|
  {
    if |events| == 0 then c else Run(Step(c, events[0]), events[1..])
  }

  /** The number of messages the events add: one per accepted send and one per reply. */
  function Added(c: ChatState, events: seq<Event>): nat
    decreases |events|
  {
    if |events| == 0 then 0
    else
      var one := match events[0]
        case Typed(_) => 0
        case Pressed => if JsText.Blank(c.input) then 0 else 1
        case Returned(_) => if c.pending == 0 then 0 else 1;
      one + Added(Step(c, events[0]), events[1..])
  }

  /**
   The transcript is append-only: whatever happens, the earlier messages stay
   a prefix, unmodified and in order, and it grows by one message per accepted
   send and one per reply.
   */
  lemma {:induction false} TranscriptAppendOnly(c: ChatState, events: seq<Event>)
    ensures var r := Run(c, events);
            |r.messages| == |c.messages| + Added(c, events) && r.messages[..|c.messages|] == c.messages
    decreases |events|
  {
    if |events| > 0 {
      var c' := Step(c, events[0]);
      TranscriptAppendOnly(c', events[1..]);
      var r := Run(c, events);
      assert r.messages[..|c'.messages|] == c'.messages;
      assert c'.messages[..|c.messages|] == c.messages;
      assert r.messages[..|c.messages|] == r.messages[..|c'.messages|][..|c.messages|];
    }
  }

  /** The number of messages in `ms` from `who`. */
  function Count(ms: seq<Message>, who: Sender): nat
    decreases |ms|
  {
    if |ms| == 0 then 0
    else Count(ms[..|ms| - 1], who) + (if ms[|ms| - 1].sender == who then 1 else 0)
  }

  /** Every user message is answered by one AI message or still has its request outstanding. */
  predicate Balanced(c: ChatState)
  {
    Count(c.messages, Ai) + c.pending == Count(c.messages, User)
  }

  /** Each event keeps the user messages matched by replies and outstanding requests. */
  lemma StepKeepsBalance(c: ChatState, e: Event)
    requires Balanced(c)
    ensures Balanced(Step(c, e))
  {
    var r := Step(c, e);
    match e
    case Typed(_) =>
    case Pressed =>
      if !JsText.Blank(c.input) {
        assert r.messages[..|r.messages| - 1] == c.messages;
      }
    case Returned(reply) =>
      if c.pending > 0 {
        assert r.messages[..|r.messages| - 1] == c.messages;
      }
  }

  /**
   From a fresh chat box, whatever the events, the AI messages plus the
   requests still outstanding number exactly the user messages: one AI
   message per accepted send, never one without a send.
   */
  lemma {:induction false} RepliesMatchSends(c: ChatState, events: seq<Event>)
    requires Balanced(c)
    ensures Balanced(Run(c, events))
    decreases |events|
  {
    if |events| > 0 {
      StepKeepsBalance(c, events[0]);
      RepliesMatchSends(Step(c, events[0]), events[1..]);
    }
  }

  /** A fresh chat box is balanced, so every run from it is. */
  lemma FreshChatReplies(events: seq<Event>)
    ensures var r := Run(Init(), events);
            Count(r.messages, Ai) + r.pending == Count(r.messages, User)
  {
    RepliesMatchSends(Init(), events);
  }
}
