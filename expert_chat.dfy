/** The expert chat screen (ExpertChatInterface.tsx): free text only. Each
    non-blank send appends the user's message and schedules one expert reply
    that is drawn at random, when it fires, from four fixed texts.

    `Math.random()` is the parameter `draw`, a real in [0, 1); the reply is
    `expertResponses[Math.floor(draw * 4)]` as in the source. */
module ExpertChat {
  import opened Text
  import Timers

  datatype Sender = User | Expert

  /** A chat message; the timestamp of the source is not modelled. */
  datatype Message = Message(id: nat, text: string, sender: Sender)

  /** The expert's canned texts: the greeting and the four entries of
      `expertResponses`, by position. */
  datatype ExpertLine = GreetingLine | ResponseLine(index: nat)

  /** Number of entries in `expertResponses`. */
  const ResponseCount: nat := 4

  /** A line that exists: a response index lies within the list. */
  predicate IsLine(line: ExpertLine) {
    line.ResponseLine? ==> line.index < ResponseCount
  }

  /** The text of each canned line, written as a concatenation of short
      pieces. */
  function ExpertText(line: ExpertLine): string
    requires IsLine(line)
  {
    match line
    case GreetingLine =>
      "Hello! I'm Dr. " + "Anna, a licensed " + "psychology specialist. " +
      "I'm here to " + "provide you " + "with professional " +
      "guidance and " + "support. How " + "can I help you " +
      "today?"
    case ResponseLine(0) =>
      "Thank you for " + "sharing that " + "with me. I understand " +
      "how challenging " + "this must be " + "for you. Let's " +
      "explore this " + "together. Can " + "you tell me " +
      "more about when " + "these feelings " + "started?"
    case ResponseLine(1) =>
      "I appreciate " + "your openness. " + "What you're " +
      "experiencing " + "is valid, and " + "it's important " +
      "that you're " + "seeking support. " + "Let me help " +
      "you work through " + "this step by " + "step."
    case ResponseLine(2) =>
      "That's a very " + "common concern, " + "and you're not " +
      "alone in feeling " + "this way. From " + "a professional " +
      "perspective, " + "there are several " + "approaches we " +
      "can explore " + "together. What " + "would you like " +
      "to focus on " + "first?"
    case ResponseLine(_) =>
      "I hear you, " + "and I want you " + "to know that " +
      "seeking help " + "is a sign of " + "strength. Let's " +
      "work on some " + "strategies that " + "can help you " +
      "manage these " + "feelings. Have " + "you tried any " +
      "coping techniques " + "before?"
  }

  /** One of the four entries of `expertResponses`. */
  ghost predicate IsExpertResponse(text: string) {
    exists i :: 0 <= i < ResponseCount && text == ExpertText(ResponseLine(i))
  }

  /** setTimeout delay of an expert reply, in milliseconds. */
  const ExpertDelay: nat := 2000

  /** `Math.floor(draw * expertResponses.length)`: for every draw that
      Math.random can return, a valid index into the list. */
  function ResponseIndex(draw: real): (i: int)
    requires 0.0 <= draw < 1.0
    ensures 0 <= i < ResponseCount
    ensures i as real <= draw * ResponseCount as real < i as real + 1.0
  {
    (draw * ResponseCount as real).Floor
  }

  /** The text of the reply for a given draw. */
  function ExpertReply(draw: real): (text: string)
    requires 0.0 <= draw < 1.0
    ensures IsExpertResponse(text)
  {
    ExpertText(ResponseLine(ResponseIndex(draw)))
  }

  /** Each of the four responses is the reply for some draw: the one at
      `i / 4`, the start of its quarter of [0, 1). */
  lemma EveryResponseReachable(i: nat)
    requires i < ResponseCount
    ensures var draw := i as real / ResponseCount as real;
      0.0 <= draw < 1.0 && ResponseIndex(draw) == i && ExpertReply(draw) == ExpertText(ResponseLine(i))
  {
  }

  /** A reply scheduled with setTimeout and not yet delivered. */
  datatype Pending = Pending(snapshotLen: nat, due: nat)

  /** The component's state, plus the pending timers and the clock. */
  datatype ChatState = ChatState(messages: seq<Message>, input: string, pending: seq<Pending>, now: nat)

  /** When a pending reply is due. */
  function DueTime(p: Pending): nat {
    p.due
  }

  function Initial(): ChatState {
    ChatState([Message(1, ExpertText(GreetingLine), Expert)], "", [], 0)
  }

  /** The text field's onChange. */
  function AfterInput(st: ChatState, text: string): ChatState {
    st.(input := text)
  }

  /** handleSendMessage. */
  function AfterSendMessage(st: ChatState): ChatState {
    if IsBlank(st.input) then st
    else
      st.(messages := st.messages + [Message(|st.messages| + 1, st.input, User)],
          input := "",
          pending := st.pending + [Pending(|st.messages|, st.now + ExpertDelay)])
  }

  /** handleKeyPress. */
  function AfterKeyPress(st: ChatState, key: string, shiftKey: bool): ChatState {
    if key == "Enter" && !shiftKey then AfterSendMessage(st) else st
  }

  /** Time passes without a timer firing. */
  function AfterElapse(st: ChatState, ms: nat): ChatState {
    st.(now := st.now + ms)
  }

  /** The earliest pending timer fires with random draw `draw`: the expert
      message's id comes from the list length captured at send time. */
  function AfterFire(st: ChatState, draw: real): ChatState
    requires st.pending != [] && 0.0 <= draw < 1.0
  {
    var k := Timers.Next(st.pending, DueTime);
    var p := st.pending[k];
    st.(messages := st.messages + [Message(p.snapshotLen + 2, ExpertReply(draw), Expert)],
        pending := Timers.RemoveAt(st.pending, k),
        now := if st.now < p.due then p.due else st.now)
  }

  /** A timer tick: the earliest pending reply fires, if there is one. */
  function FireNextIfAny(st: ChatState, draw: real): ChatState
    requires 0.0 <= draw < 1.0
  {
    if st.pending == [] then st else AfterFire(st, draw)
  }

  /** The send button's `disabled` attribute. */
  predicate SendDisabled(st: ChatState) {
    IsBlank(st.input)
  }

  /** The component instance. */
  class ExpertChatInterface {
    var messages: seq<Message>
    var inputValue: string
    var pending: seq<Pending>
    var now: nat

    function Model(): ChatState
      reads this
    {
      ChatState(messages, inputValue, pending, now)
    }

    constructor ()
      ensures Model() == Initial()
      ensures messages == [Message(1, ExpertText(GreetingLine), Expert)] && inputValue == "" && pending == []
    {
      messages := [Message(1, ExpertText(GreetingLine), Expert)];
      inputValue := "";
      pending := [];
      now := 0;
    }

    method HandleInputChange(text: string)
      modifies this
      ensures Model() == AfterInput(old(Model()), text)
      ensures inputValue == text && messages == old(messages) && pending == old(pending)
    {
      inputValue := text;
    }

    method HandleSendMessage()
      modifies this
      ensures Model() == AfterSendMessage(old(Model()))
      ensures IsBlank(old(inputValue)) ==> Model() == old(Model())
      ensures !IsBlank(old(inputValue)) ==>
        messages == old(messages) + [Message(|old(messages)| + 1, old(inputValue), User)] &&
        inputValue == "" &&
        pending == old(pending) + [Pending(|old(messages)|, now + ExpertDelay)]
    {
      if !IsBlank(inputValue) {
        var userMessage := Message(|messages| + 1, inputValue, User);
        var snapshotLen := |messages|;
        messages := messages + [userMessage];
        inputValue := "";
        pending := pending + [Pending(snapshotLen, now + ExpertDelay)];
      }
    }

    method HandleKeyPress(key: string, shiftKey: bool)
      modifies this
      ensures Model() == AfterKeyPress(old(Model()), key, shiftKey)
    {
      if key == "Enter" && !shiftKey {
        HandleSendMessage();
      }
    }

    /** Lets `ms` milliseconds pass. */
    method Elapse(ms: nat)
      modifies this
      ensures Model() == AfterElapse(old(Model()), ms)
    {
      now := now + ms;
    }

    /** Runs the next timer callback, if any is pending, with `draw` standing
        for the value Math.random returns inside it. */
    method FireNext(draw: real) returns (fired: bool)
      requires 0.0 <= draw < 1.0
      modifies this
      ensures fired <==> old(pending) != []
      ensures fired ==> Model() == AfterFire(old(Model()), draw)
      ensures fired ==> messages[|messages| - 1].sender == Expert && IsExpertResponse(messages[|messages| - 1].text)
      ensures !fired ==> Model() == old(Model())
    {
      fired := pending != [];
      if fired {
        var k := Timers.Next(pending, DueTime);
        var p := pending[k];
        var expertMessage := Message(p.snapshotLen + 2, ExpertReply(draw), Expert);
        messages := messages + [expertMessage];
        pending := Timers.RemoveAt(pending, k);
        if now < p.due {
          now := p.due;
        }
      }
    }
  }
}
