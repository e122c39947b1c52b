/** The assistant chat window (Chatbot.tsx): an append-only transcript, an
    input field and a busy flag. `handleSend` is split into its synchronous
    start and the step that runs once the gateway's promise settles. */
module Chatbot {
  import opened Types
  import opened Text
  import Gemini

  const Greeting :=
    "Hello! I'm your SAFECLICK Assistant. I can help you with questions about social engineering, cyber laws, or how to report a security incident. How can I help you today?"

  /** Shown in place of an empty answer text. */
  const EmptyAnswerText := "I'm sorry, I couldn't process that request."

  /** How many links of a message are rendered. */
  const MaxShownLinks := 3

  datatype ChatState = ChatState(isOpen: bool, input: string, messages: seq<ChatMessage>, isTyping: bool)

  /** The component's first render: closed, empty input, idle, and a
      transcript holding exactly the assistant's greeting. */
  function Initial(now: Time): (s: ChatState)
    ensures !s.isOpen && s.input == "" && !s.isTyping
    ensures |s.messages| == 1
    ensures s.messages[0].role == ModelTurn && s.messages[0].content == Greeting
  {
    ChatState(false, "", [ChatMessage(ModelTurn, Greeting, None, now)], false)
  }

  /** The submit button's enabling rule, `!(!input.trim() || isTyping)`. */
  predicate CanSend(s: ChatState) {
    !IsBlank(s.input) && !s.isTyping
  }

  /** The submit button is enabled exactly when no reply is pending and the
      input has at least one non-whitespace character. */
  lemma CanSendIff(s: ChatState)
    ensures CanSend(s) <==> !s.isTyping && exists i :: 0 <= i < |s.input| && !IsWhitespace(s.input[i])
  {
    BlankIffAllWhitespace(s.input);
  }

  /** The gateway call an accepted send makes: the raw input and the transcript
      as it stood before the user's message was added. */
  datatype Outgoing = Outgoing(message: string, history: seq<ChatMessage>)

  datatype SendStart = SendStart(state: ChatState, outgoing: Option<Outgoing>)

  /** The synchronous part of `handleSend`. A blank input or a pending reply
      makes it a no-op that calls nothing; otherwise the raw, untrimmed input
      is appended as a user message, the field is cleared and the busy flag
      raised. */
  function BeginSend(s: ChatState, now: Time): (r: SendStart)
    ensures !CanSend(s) ==> r.state == s && r.outgoing.None?
    ensures CanSend(s) ==>
              && r.outgoing == Some(Outgoing(s.input, s.messages))
              && r.state.messages == s.messages + [ChatMessage(UserTurn, s.input, None, now)]
              && r.state.input == ""
              && r.state.isTyping
              && r.state.isOpen == s.isOpen
  {
    if IsBlank(s.input) || s.isTyping then SendStart(s, None)
    else
      var userMessage := ChatMessage(UserTurn, s.input, None, now);
      SendStart(s.(messages := s.messages + [userMessage], input := "", isTyping := true),
                Some(Outgoing(s.input, s.messages)))
  }

  /** The text of the assistant's message: `result.text || fallback`. */
  function AnswerContent(reply: Gemini.ChatReply): (c: string)
    ensures c != ""
    ensures reply.text != "" ==> c == reply.text
    ensures reply.text == "" ==> c == EmptyAnswerText
  {
    if reply.text == "" then EmptyAnswerText else reply.text
  }

  /** The rest of `handleSend`, once the gateway promise settled: a resolved
      reply appends one assistant message carrying all its links; a rejected
      one appends nothing. Either way the busy flag drops. */
  function CompleteSend(s: ChatState, reply: Option<Gemini.ChatReply>, now: Time): (r: ChatState)
    ensures !r.isTyping && r.input == s.input && r.isOpen == s.isOpen
    ensures reply.None? ==> r.messages == s.messages
    ensures reply.Some? ==>
              && |r.messages| == |s.messages| + 1
              && r.messages[..|s.messages|] == s.messages
              && r.messages[|s.messages|].role == ModelTurn
              && r.messages[|s.messages|].content != ""
              && r.messages[|s.messages|].links == Some(reply.value.links)
  {
    match reply
    case None => s.(isTyping := false)
    case Some(result) =>
      var botMessage := ChatMessage(ModelTurn, AnswerContent(result), Some(result.links), now);
      s.(messages := s.messages + [botMessage], isTyping := false)
  }

  /** The links rendered under a message: at most the first three. */
  function ShownLinks(m: ChatMessage): (r: seq<Link>)
    ensures |r| <= MaxShownLinks
    ensures m.links.None? ==> r == []
    ensures m.links.Some? ==> |r| == if |m.links.value| < MaxShownLinks then |m.links.value| else MaxShownLinks
    ensures m.links.Some? ==> r == m.links.value[..|r|]
  {
    match m.links
    case None => []
    case Some(links) => if |links| <= MaxShownLinks then links else links[..MaxShownLinks]
  }

  /** One full exchange with a visible input and no pending reply: the gateway
      is asked with the earlier transcript, and the transcript grows by the
      user's raw message followed by the assistant's answer. */
  lemma SendExchange(s: ChatState, now: Time, later: Time, reply: Gemini.ChatReply)
    requires !AllWhitespace(s.input) && !s.isTyping
    ensures BeginSend(s, now).outgoing == Some(Outgoing(s.input, s.messages))
    ensures var r := CompleteSend(BeginSend(s, now).state, Some(reply), later);
              && r.messages == s.messages + [ChatMessage(UserTurn, s.input, None, now),
                                              ChatMessage(ModelTurn, AnswerContent(reply), Some(reply.links), later)]
              && !r.isTyping && r.input == ""
  {
    BlankIffAllWhitespace(s.input);
  }

  /** What an accepted send hands to the SDK: the raw input as the message,
      and one replayed turn per message of the transcript as it stood before
      the user's message was added, with its content and role. */
  lemma SendReplaysEarlierTranscript(s: ChatState, now: Time)
    requires !AllWhitespace(s.input) && !s.isTyping
    ensures var start := BeginSend(s, now);
            && start.outgoing.Some?
            && var req := Gemini.BuildChatRequest(start.outgoing.value.message, start.outgoing.value.history);
            && req.message == s.input
            && |req.history| == |start.state.messages| - 1
            && forall i :: 0 <= i < |s.messages| ==>
                 req.history[i].text == start.state.messages[i].content
                 && (req.history[i].role == UserTurn <==> start.state.messages[i].role == UserTurn)
  {
    BlankIffAllWhitespace(s.input);
  }

  /** Everything that can happen to the chat window. */
  datatype Event =
    | ToggleOpen
    | Type(text: string)
    | Submit(now: Time)
    | Settle(reply: Option<Gemini.ChatReply>, now: Time)

  /** One event. A reply can only settle while one is pending; otherwise the
      event changes nothing. */
  function Step(s: ChatState, e: Event): ChatState {
    match e
    case ToggleOpen => s.(isOpen := !s.isOpen)
    case Type(text) => s.(input := text)
    case Submit(now) => BeginSend(s, now).state
    case Settle(reply, now) => if s.isTyping then CompleteSend(s, reply, now) else s
  }

  function Run(s: ChatState, events: seq<Event>): ChatState
    decreases |events|
  {
    if |events| == 0 then s else Run(Step(s, events[0]), events[1..])
  }

  /** What every reachable transcript satisfies: it opens with the greeting,
      and while a reply is pending its last message is the user's. */
  predicate Good(s: ChatState) {
    && |s.messages| >= 1
    && s.messages[0].role == ModelTurn && s.messages[0].content == Greeting
    && (s.isTyping ==> s.messages[|s.messages| - 1].role == UserTurn)
  }

  /** Any sequence of events from the initial window only ever appends to the
      transcript, and keeps it well formed. */
  lemma {:induction false} RunAppendOnly(s: ChatState, events: seq<Event>)
    requires Good(s)
    ensures Good(Run(s, events))
    ensures |s.messages| <= |Run(s, events).messages|
    ensures Run(s, events).messages[..|s.messages|] == s.messages
    decreases |events|
  {
    if |events| > 0 {
      var t := Step(s, events[0]);
      assert |s.messages| <= |t.messages| && t.messages[..|s.messages|] == s.messages;
      assert Good(t);
      RunAppendOnly(t, events[1..]);
      var u := Run(t, events[1..]);
      assert u.messages[..|s.messages|] == u.messages[..|t.messages|][..|s.messages|];
    }
  }

  /** The greeting stays first forever. */
  lemma GreetingStaysFirst(now: Time, events: seq<Event>)
    ensures var s := Run(Initial(now), events);
              |s.messages| >= 1 && s.messages[0] == ChatMessage(ModelTurn, Greeting, None, now)
  {
    RunAppendOnly(Initial(now), events);
  }
}
