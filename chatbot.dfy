/** The MindCare chatbot screen (ChatbotInterface.tsx): an append-only message
    list, the text field, two flags that decide which quick-reply panel is
    shown, and the bot replies that the handlers schedule with setTimeout.

    A scheduled reply is a `Pending` record. It keeps the length of the
    message list that the handler saw (`snapshotLen`), because the callback
    computes its id from that captured list and not from the list it appends
    to. Pure transition functions (`After...`) give the meaning of each
    handler and of a timer firing; the class `ChatbotInterface` performs the
    same updates on its fields. */
module Chatbot {
  import opened Text
  import Timers

  datatype Emotion = Happy | Stressed | Sad | Angry

  datatype Sender = User | Bot

  /** A chat message; the timestamp of the source is not modelled. */
  datatype Message = Message(id: nat, text: string, sender: Sender)

  /** `emotionTexts`: what the user "says" when picking an emotion. */
  function EmotionText(e: Emotion): string {
    match e
    case Happy => "I'm feeling happy!"
    case Stressed => "I'm feeling stressed"
    case Sad => "I'm feeling sad"
    case Angry => "I'm feeling angry"
  }

  /** The three follow-up buttons, in display order. */
  datatype FollowUp = BreathingExercise | TalkAboutFeelings | DailyMotivation

  /** A follow-up button's label, which is also the text it sends. */
  function FollowUpLabel(f: FollowUp): string {
    match f
    case BreathingExercise => "Breathing exercise"
    case TalkAboutFeelings => "Talk about your feelings"
    case DailyMotivation => "Daily motivation"
  }

  /** The bot's canned texts: the greeting, the `botResponses` entries, the
      `responses` entries, the `||` fallback of that lookup and the fixed
      acknowledgement of free text. */
  datatype BotLine =
    | GreetingLine
    | EmotionLine(emotion: Emotion)
    | FollowUpLine(followUp: FollowUp)
    | FallbackLine
    | AcknowledgementLine

  /** The text of each canned line, written as a concatenation of short
      pieces. Where the source has an emoji, the characters are the ones the
      source file holds (the emoji's UTF-8 bytes read as Windows-1252). */
  function BotText(line: BotLine): string {
    match line
    case GreetingLine =>
      "Hi, I'm MindCare. " + "How are you " + "feeling today?"
    case EmotionLine(Happy) =>
      "That's wonderful " + "to hear! \U{F0}\U{178}\U{2DC}\U{160} " + "I'm so glad " +
      "you're feeling " + "positive today. " + "What's bringing " +
      "you joy?"
    case EmotionLine(Stressed) =>
      "I understand " + "that stress " + "can be overwhelming. " +
      "You're not alone " + "in this. Would " + "you like to " +
      "try a breathing " + "exercise, or " + "would you prefer " +
      "to talk about " + "what's on your " + "mind?"
    case EmotionLine(Sad) =>
      "I'm here for " + "you. Your feelings " + "are valid, and " +
      "it's okay to " + "feel sad sometimes. " + "Would you like " +
      "to share what's " + "bothering you? " + "I'm listening."
    case EmotionLine(Angry) =>
      "It's completely " + "natural to feel " + "angry. Let's " +
      "work through " + "this together. " + "Would you like " +
      "to talk about " + "it or try some " + "calming techniques?"
    case FollowUpLine(BreathingExercise) =>
      "Great choice! " + "Let's practice " + "together:\n\n\U{F0}\U{178}\U{152}\U{AC}\U{EF}\U{B8} " +
      "Box Breathing " + "Technique:\n1. " + "Breathe in slowly " +
      "for 4 seconds\n2. " + "Hold your breath " + "for 4 seconds\n3. " +
      "Exhale slowly " + "for 4 seconds\n4. " + "Hold for 4 seconds\n5. " +
      "Repeat 3-5 times\n\nTake " + "your time. How " + "do you feel now?"
    case FollowUpLine(TalkAboutFeelings) =>
      "I'm here to " + "listen without " + "judgment. This " +
      "is a safe space " + "for you. Take " + "your time and " +
      "share whatever " + "is on your mind. " + "What would you " +
      "like to talk " + "about?"
    case FollowUpLine(DailyMotivation) =>
      "Here's something " + "to inspire you:\n\n\U{E2}\U{153}\U{A8} " + "'You are stronger " +
      "than you know. " + "Every step forward, " + "no matter how " +
      "small, is progress. " + "Be proud of " + "yourself.'\n\n\U{F0}\U{178}\U{2019}\U{AA} " +
      "Remember: It's " + "okay to have " + "difficult days. " +
      "What matters " + "is that you're " + "here, and you're " +
      "trying. That " + "takes courage."
    case FallbackLine =>
      "Thank you for " + "sharing. How " + "else can I support " +
      "you today?"
    case AcknowledgementLine =>
      "Thank you for " + "sharing that " + "with me. I hear " +
      "you, and your " + "feelings are " + "important. Remember, " +
      "you're taking " + "a positive step " + "by talking about " +
      "how you feel. " + "Is there anything " + "specific you'd " +
      "like help with " + "today?"
  }

  /** `responses[option] || fallback`: which line answers a follow-up text. */
  function FollowUpResponse(option: string): BotLine {
    if option == FollowUpLabel(BreathingExercise) then FollowUpLine(BreathingExercise)
    else if option == FollowUpLabel(TalkAboutFeelings) then FollowUpLine(TalkAboutFeelings)
    else if option == FollowUpLabel(DailyMotivation) then FollowUpLine(DailyMotivation)
    else FallbackLine
  }

  /** setTimeout delays in milliseconds. */
  const EmotionDelay: nat := 1000
  const FollowUpDelay: nat := 1200
  const TextDelay: nat := 1000

  /** What a scheduled callback will reply to. */
  datatype Reply = EmotionReply(emotion: Emotion) | FollowUpReply(option: string) | TextReply

  /** A reply scheduled with setTimeout and not yet delivered. */
  datatype Pending = Pending(reply: Reply, snapshotLen: nat, due: nat)

  /** The component's state, plus the pending timers and the clock. */
  datatype ChatState = ChatState(
    messages: seq<Message>,
    input: string,
    showEmotionButtons: bool,
    showFollowUpOptions: bool,
    pending: seq<Pending>,
    now: nat)

  /** The three phases of the conversation, read off the two flags. */
  datatype Phase = AwaitingEmotion | AwaitingFollowUp | Freeform

  function PhaseOf(st: ChatState): Phase {
    if st.showEmotionButtons then AwaitingEmotion
    else if st.showFollowUpOptions then AwaitingFollowUp
    else Freeform
  }

  /** The canned line a fired reply carries. */
  function ReplyLine(reply: Reply): BotLine {
    match reply
    case EmotionReply(e) => EmotionLine(e)
    case FollowUpReply(option) => FollowUpResponse(option)
    case TextReply => AcknowledgementLine
  }

  /** The message a fired reply appends: its id comes from the list length
      captured when the handler ran. */
  function ReplyMessage(p: Pending): Message {
    Message(p.snapshotLen + 2, BotText(ReplyLine(p.reply)), Bot)
  }

  /** The user message a handler appends to `messages`. */
  function UserMessage(messages: seq<Message>, text: string): Message {
    Message(|messages| + 1, text, User)
  }

  /** When a pending reply is due. */
  function DueTime(p: Pending): nat {
    p.due
  }

  function Initial(): ChatState {
    ChatState([Message(1, BotText(GreetingLine), Bot)], "", true, false, [], 0)
  }

  /** The text field's onChange. */
  function AfterInput(st: ChatState, text: string): ChatState {
    st.(input := text)
  }

  /** handleEmotionSelect. */
  function AfterEmotionSelect(st: ChatState, e: Emotion): ChatState {
    st.(messages := st.messages + [UserMessage(st.messages, EmotionText(e))],
        showEmotionButtons := false,
        pending := st.pending + [Pending(EmotionReply(e), |st.messages|, st.now + EmotionDelay)])
  }

  /** handleFollowUpOption. */
  function AfterFollowUpOption(st: ChatState, option: string): ChatState {
    st.(messages := st.messages + [UserMessage(st.messages, option)],
        showFollowUpOptions := false,
        pending := st.pending + [Pending(FollowUpReply(option), |st.messages|, st.now + FollowUpDelay)])
  }

  /** handleSendMessage. */
  function AfterSendMessage(st: ChatState): ChatState {
    if IsBlank(st.input) then st
    else
      st.(messages := st.messages + [UserMessage(st.messages, st.input)],
          input := "",
          pending := st.pending + [Pending(TextReply, |st.messages|, st.now + TextDelay)])
  }

  /** handleKeyPress. */
  function AfterKeyPress(st: ChatState, key: string, shiftKey: bool): ChatState {
    if key == "Enter" && !shiftKey then AfterSendMessage(st) else st
  }

  /** Time passes without a timer firing. */
  function AfterElapse(st: ChatState, ms: nat): ChatState {
    st.(now := st.now + ms)
  }

  /** The earliest pending timer fires: its reply is appended and, for an
      emotion reply, the follow-up options are revealed. */
  function AfterFire(st: ChatState): ChatState
    requires st.pending != []
  {
    var k := Timers.Next(st.pending, DueTime);
    var p := st.pending[k];
    st.(messages := st.messages + [ReplyMessage(p)],
        showFollowUpOptions := if p.reply.EmotionReply? then true else st.showFollowUpOptions,
        pending := Timers.RemoveAt(st.pending, k),
        now := if st.now < p.due then p.due else st.now)
  }

  /** A timer tick: the earliest pending reply fires, if there is one. */
  function FireNextIfAny(st: ChatState): ChatState {
    if st.pending == [] then st else AfterFire(st)
  }

  /** The send button's `disabled` attribute. */
  predicate SendDisabled(st: ChatState) {
    IsBlank(st.input)
  }

  /** The panels never overlap: at most one quick-reply set is visible, and
      once an emotion reply is scheduled the emotion buttons are gone. */
  ghost predicate PanelsConsistent(st: ChatState) {
    !(st.showEmotionButtons && st.showFollowUpOptions) &&
    (forall i :: 0 <= i < |st.pending| && st.pending[i].reply.EmotionReply? ==> !st.showEmotionButtons)
  }

  /** Firing a reply keeps the panels consistent: an emotion reply can only
      be pending once the emotion buttons are hidden. */
  lemma FirePreservesPanels(st: ChatState)
    requires PanelsConsistent(st) && st.pending != []
    ensures PanelsConsistent(AfterFire(st))
  {
    var k := Timers.Next(st.pending, DueTime);
    var r := AfterFire(st);
    forall i | 0 <= i < |r.pending| && r.pending[i].reply.EmotionReply?
      ensures !r.showEmotionButtons
    {
      assert r.pending[i] == st.pending[if i < k then i else i + 1];
    }
    if st.pending[k].reply.EmotionReply? {
      assert !st.showEmotionButtons;
    }
  }

  /** The component instance. Each handler updates the fields as the source
      does and ends in the state given by the matching `After...` function. */
  class ChatbotInterface {
    var messages: seq<Message>
    var inputValue: string
    var showEmotionButtons: bool
    var showFollowUpOptions: bool
    var pending: seq<Pending>
    var now: nat

    function Model(): ChatState
      reads this
    {
      ChatState(messages, inputValue, showEmotionButtons, showFollowUpOptions, pending, now)
    }

    ghost predicate Valid()
      reads this
    {
      PanelsConsistent(Model())
    }

    constructor ()
      ensures Valid() && Model() == Initial()
      ensures messages == [Message(1, BotText(GreetingLine), Bot)] && inputValue == ""
      ensures showEmotionButtons && !showFollowUpOptions && pending == []
    {
      messages := [Message(1, BotText(GreetingLine), Bot)];
      inputValue := "";
      showEmotionButtons := true;
      showFollowUpOptions := false;
      pending := [];
      now := 0;
    }

    method HandleInputChange(text: string)
      requires Valid()
      modifies this
      ensures Valid() && Model() == AfterInput(old(Model()), text)
      ensures inputValue == text && messages == old(messages) && pending == old(pending)
    {
      inputValue := text;
    }

    method HandleEmotionSelect(e: Emotion)
      requires Valid()
      modifies this
      ensures Valid() && Model() == AfterEmotionSelect(old(Model()), e)
      ensures messages == old(messages) + [Message(|old(messages)| + 1, EmotionText(e), User)]
      ensures !showEmotionButtons && showFollowUpOptions == old(showFollowUpOptions)
      ensures pending == old(pending) + [Pending(EmotionReply(e), |old(messages)|, now + EmotionDelay)]
      ensures inputValue == old(inputValue) && now == old(now)
    {
      var userMessage := Message(|messages| + 1, EmotionText(e), User);
      var snapshotLen := |messages|;
      messages := messages + [userMessage];
      showEmotionButtons := false;
      pending := pending + [Pending(EmotionReply(e), snapshotLen, now + EmotionDelay)];
    }

    method HandleFollowUpOption(option: string)
      requires Valid()
      modifies this
      ensures Valid() && Model() == AfterFollowUpOption(old(Model()), option)
      ensures messages == old(messages) + [Message(|old(messages)| + 1, option, User)]
      ensures !showFollowUpOptions && showEmotionButtons == old(showEmotionButtons)
      ensures pending == old(pending) + [Pending(FollowUpReply(option), |old(messages)|, now + FollowUpDelay)]
      ensures inputValue == old(inputValue) && now == old(now)
    {
      var userMessage := Message(|messages| + 1, option, User);
      var snapshotLen := |messages|;
      messages := messages + [userMessage];
      showFollowUpOptions := false;
      pending := pending + [Pending(FollowUpReply(option), snapshotLen, now + FollowUpDelay)];
    }

    method HandleSendMessage()
      requires Valid()
      modifies this
      ensures Valid() && Model() == AfterSendMessage(old(Model()))
      ensures IsBlank(old(inputValue)) ==> Model() == old(Model())
      ensures !IsBlank(old(inputValue)) ==>
        messages == old(messages) + [Message(|old(messages)| + 1, old(inputValue), User)] &&
        inputValue == "" &&
        pending == old(pending) + [Pending(TextReply, |old(messages)|, now + TextDelay)]
      ensures showEmotionButtons == old(showEmotionButtons) && showFollowUpOptions == old(showFollowUpOptions)
    {
      if !IsBlank(inputValue) {
        var userMessage := Message(|messages| + 1, inputValue, User);
        var snapshotLen := |messages|;
        messages := messages + [userMessage];
        inputValue := "";
        pending := pending + [Pending(TextReply, snapshotLen, now + TextDelay)];
      }
    }

    method HandleKeyPress(key: string, shiftKey: bool)
      requires Valid()
      modifies this
      ensures Valid() && Model() == AfterKeyPress(old(Model()), key, shiftKey)
    {
      if key == "Enter" && !shiftKey {
        HandleSendMessage();
      }
    }

    /** Lets `ms` milliseconds pass. */
    method Elapse(ms: nat)
      requires Valid()
      modifies this
      ensures Valid() && Model() == AfterElapse(old(Model()), ms)
    {
      now := now + ms;
    }

    /** Runs the next timer callback, if any is pending. */
    method FireNext() returns (fired: bool)
      requires Valid()
      modifies this
      ensures Valid()
      ensures fired <==> old(pending) != []
      ensures Model() == FireNextIfAny(old(Model()))
    {
      fired := pending != [];
      if fired {
        ghost var before := Model();
        FirePreservesPanels(before);
        var k := Timers.Next(pending, DueTime);
        var p := pending[k];
        messages := messages + [ReplyMessage(p)];
        if p.reply.EmotionReply? {
          showFollowUpOptions := true;
        }
        pending := Timers.RemoveAt(pending, k);
        if now < p.due {
          now := p.due;
        }
        assert Model() == AfterFire(before);
      }
    }
  }
}
