/** Properties of the chatbot screen over whole sessions: any interleaving of
    user events, passing time and timer callbacks. */
module ChatbotProperties {
  import opened Text
  import Timers
  import opened Chatbot

  /** One event the component can see. */
  datatype Action =
    | TypeText(text: string)
    | ChooseEmotion(emotion: Emotion)
    | ChooseFollowUp(option: string)
    | ClickSend
    | PressKey(key: string, shiftKey: bool)
    | Wait(ms: nat)
    | FireTimer

  function Step(st: ChatState, a: Action): ChatState {
    match a
    case TypeText(text) => AfterInput(st, text)
    case ChooseEmotion(e) => AfterEmotionSelect(st, e)
    case ChooseFollowUp(option) => AfterFollowUpOption(st, option)
    case ClickSend => AfterSendMessage(st)
    case PressKey(key, shiftKey) => AfterKeyPress(st, key, shiftKey)
    case Wait(ms) => AfterElapse(st, ms)
    case FireTimer => FireNextIfAny(st)
  }

  function Run(st: ChatState, actions: seq<Action>): ChatState
    decreases |actions|
  {
    if actions == [] then st else Run(Step(st, actions[0]), actions[1..])
  }

  /** The event appends a user message and schedules a reply. */
  predicate StartsExchange(st: ChatState, a: Action) {
    a.ChooseEmotion? || a.ChooseFollowUp? ||
    (a.ClickSend? && !IsBlank(st.input)) ||
    (a.PressKey? && a.key == "Enter" && !a.shiftKey && !IsBlank(st.input))
  }

  /** The event delivers a scheduled reply. */
  predicate DeliversReply(st: ChatState, a: Action) {
    a.FireTimer? && st.pending != []
  }

  ghost predicate IsPrefix(p: seq<Message>, s: seq<Message>) {
    |p| <= |s| && p == s[..|p|]
  }

  ghost predicate IdsArePositions(messages: seq<Message>) {
    forall i :: 0 <= i < |messages| ==> messages[i].id == i + 1
  }

  ghost predicate HasDuplicateIds(messages: seq<Message>) {
    exists i, j :: 0 <= i < j < |messages| && messages[i].id == messages[j].id
  }

  /** No exchange overlaps another: at most one reply is pending, and it
      belongs to the user message at the end of the list. */
  ghost predicate Sequential(st: ChatState) {
    IdsArePositions(st.messages) &&
    (st.pending == [] ||
     (|st.pending| == 1 &&
      st.pending[0].snapshotLen + 1 == |st.messages| &&
      st.messages[st.pending[0].snapshotLen].sender == User))
  }

  /** Each exchange is started only after the previous reply was delivered. */
  ghost predicate NonOverlapping(st: ChatState, actions: seq<Action>)
    decreases |actions|
  {
    actions == [] ||
    ((st.pending == [] || !StartsExchange(st, actions[0])) &&
     NonOverlapping(Step(st, actions[0]), actions[1..]))
  }

  /** A new session: the greeting with id 1, emotion buttons shown,
      follow-ups hidden, an empty field and nothing scheduled. */
  lemma InitialSession()
    ensures Initial().messages == [Message(1, BotText(GreetingLine), Bot)]
    ensures PhaseOf(Initial()) == AwaitingEmotion && !Initial().showFollowUpOptions
    ensures Initial().input == "" && Initial().pending == []
    ensures Sequential(Initial()) && PanelsConsistent(Initial())
  {
  }

  /** The send button is disabled exactly when clicking it would change
      nothing (no message, no reply scheduled, the field kept). */
  lemma SendDisabledIffNoOp(st: ChatState)
    ensures SendDisabled(st) <==> AfterSendMessage(st) == st
  {
    if !SendDisabled(st) {
      assert |AfterSendMessage(st).messages| == |st.messages| + 1;
    }
  }

  /** Enter without Shift is a click on send; every other key does nothing. */
  lemma EnterActsAsSend(st: ChatState, key: string, shiftKey: bool)
    ensures key == "Enter" && !shiftKey ==> AfterKeyPress(st, key, shiftKey) == AfterSendMessage(st)
    ensures key != "Enter" || shiftKey ==> AfterKeyPress(st, key, shiftKey) == st
  {
  }

  /** Every event only appends: the old list stays a prefix and grows by one
      message exactly when an exchange starts or a reply is delivered. */
  lemma StepAppendsOnly(st: ChatState, a: Action)
    ensures IsPrefix(st.messages, Step(st, a).messages)
    ensures |Step(st, a).messages| ==
      |st.messages| + (if StartsExchange(st, a) || DeliversReply(st, a) then 1 else 0)
  {
  }

  lemma {:induction false} RunAppendsOnly(st: ChatState, actions: seq<Action>)
    ensures IsPrefix(st.messages, Run(st, actions).messages)
    decreases |actions|
  {
    if actions != [] {
      var next := Step(st, actions[0]);
      StepAppendsOnly(st, actions[0]);
      RunAppendsOnly(next, actions[1..]);
      var fin := Run(next, actions[1..]).messages;
      assert st.messages == next.messages[..|st.messages|];
      assert next.messages == fin[..|next.messages|];
      assert fin[..|next.messages|][..|st.messages|] == fin[..|st.messages|];
    }
  }

  /** No event brings the emotion buttons back once they are hidden. */
  lemma StepNeverRestoresEmotionButtons(st: ChatState, a: Action)
    ensures Step(st, a).showEmotionButtons ==> st.showEmotionButtons
  {
  }

  lemma SendKeepsPanels(st: ChatState)
    requires PanelsConsistent(st)
    ensures PanelsConsistent(AfterSendMessage(st))
  {
    if !IsBlank(st.input) {
      var r := AfterSendMessage(st);
      assert r.pending == st.pending + [Pending(TextReply, |st.messages|, st.now + TextDelay)];
      assert forall i :: 0 <= i < |st.pending| ==> r.pending[i] == st.pending[i];
    }
  }

  lemma StepKeepsPanels(st: ChatState, a: Action)
    requires PanelsConsistent(st)
    ensures PanelsConsistent(Step(st, a))
  {
    var r := Step(st, a);
    match a
    case FireTimer =>
      if st.pending != [] {
        FirePreservesPanels(st);
      }
    case ChooseEmotion(e) =>
    case ChooseFollowUp(option) =>
      assert forall i :: 0 <= i < |st.pending| ==> r.pending[i] == st.pending[i];
    case ClickSend =>
      SendKeepsPanels(st);
    case PressKey(key, shiftKey) =>
      SendKeepsPanels(st);
    case TypeText(text) =>
    case Wait(ms) =>
  }

  /** At most one quick-reply panel is ever visible. */
  lemma {:induction false} RunKeepsPanels(st: ChatState, actions: seq<Action>)
    requires PanelsConsistent(st)
    ensures PanelsConsistent(Run(st, actions))
    ensures !(Run(st, actions).showEmotionButtons && Run(st, actions).showFollowUpOptions)
    decreases |actions|
  {
    if actions != [] {
      StepKeepsPanels(st, actions[0]);
      RunKeepsPanels(Step(st, actions[0]), actions[1..]);
    }
  }

  /** Choosing an emotion hides the emotion buttons at once and leaves the
      follow-ups hidden; when the reply fires it carries that emotion's
      scripted text and only then are the follow-up options shown. */
  lemma EmotionExchange(st: ChatState, e: Emotion)
    requires PanelsConsistent(st) && PhaseOf(st) == AwaitingEmotion && st.pending == []
    ensures var s1 := AfterEmotionSelect(st, e);
      PhaseOf(s1) == Freeform &&
      s1.messages == st.messages + [Message(|st.messages| + 1, EmotionText(e), User)] &&
      s1.pending != [] &&
      var s2 := AfterFire(s1);
      PhaseOf(s2) == AwaitingFollowUp &&
      s2.messages == s1.messages + [Message(|st.messages| + 2, BotText(EmotionLine(e)), Bot)]
  {
    var s1 := AfterEmotionSelect(st, e);
    assert s1.pending == [Pending(EmotionReply(e), |st.messages|, st.now + EmotionDelay)];
    assert Timers.Next(s1.pending, DueTime) == 0;
  }

  /** Choosing a follow-up hides the follow-ups; its reply is the scripted
      text for a known label and the fallback for any other text. */
  lemma FollowUpExchange(st: ChatState, option: string)
    requires st.pending == []
    ensures var s1 := AfterFollowUpOption(st, option);
      !s1.showFollowUpOptions &&
      s1.messages == st.messages + [Message(|st.messages| + 1, option, User)] &&
      s1.pending != [] &&
      var s2 := AfterFire(s1);
      !s2.showFollowUpOptions && s2.showEmotionButtons == st.showEmotionButtons &&
      s2.messages == s1.messages + [Message(|st.messages| + 2, BotText(FollowUpResponse(option)), Bot)]
  {
    var s1 := AfterFollowUpOption(st, option);
    assert s1.pending == [Pending(FollowUpReply(option), |st.messages|, st.now + FollowUpDelay)];
    assert Timers.Next(s1.pending, DueTime) == 0;
  }

  /** A non-blank send appends the text as typed (untrimmed), clears the
      field, keeps both panels as they were, and its reply is the fixed
      acknowledgement. */
  lemma TextExchange(st: ChatState)
    requires !IsBlank(st.input) && st.pending == []
    ensures var s1 := AfterSendMessage(st);
      s1.messages == st.messages + [Message(|st.messages| + 1, st.input, User)] &&
      s1.input == "" &&
      s1.showEmotionButtons == st.showEmotionButtons &&
      s1.showFollowUpOptions == st.showFollowUpOptions &&
      s1.pending != [] &&
      var s2 := AfterFire(s1);
      s2.messages == s1.messages + [Message(|st.messages| + 2, BotText(AcknowledgementLine), Bot)] &&
      s2.showEmotionButtons == st.showEmotionButtons &&
      s2.showFollowUpOptions == st.showFollowUpOptions
  {
    var s1 := AfterSendMessage(st);
    assert s1.pending == [Pending(TextReply, |st.messages|, st.now + TextDelay)];
    assert Timers.Next(s1.pending, DueTime) == 0;
  }

  /** The follow-up table is total: each of the three labels gets its own
      script, and the fallback text is the reply to exactly the other texts. */
  lemma FollowUpLookup(option: string)
    ensures forall f :: FollowUpResponse(FollowUpLabel(f)) == FollowUpLine(f)
    ensures FollowUpResponse(option) == FallbackLine <==> forall f :: option != FollowUpLabel(f)
  {
    assert |FollowUpLabel(BreathingExercise)| != |FollowUpLabel(TalkAboutFeelings)|;
    assert |FollowUpLabel(BreathingExercise)| != |FollowUpLabel(DailyMotivation)|;
    assert |FollowUpLabel(TalkAboutFeelings)| != |FollowUpLabel(DailyMotivation)|;
  }

  lemma StepKeepsSequential(st: ChatState, a: Action)
    requires Sequential(st)
    requires st.pending == [] || !StartsExchange(st, a)
    ensures Sequential(Step(st, a))
  {
    if DeliversReply(st, a) {
      assert Timers.Next(st.pending, DueTime) == 0;
    }
  }

  lemma {:induction false} RunKeepsSequential(st: ChatState, actions: seq<Action>)
    requires Sequential(st) && NonOverlapping(st, actions)
    ensures Sequential(Run(st, actions))
    decreases |actions|
  {
    if actions != [] {
      StepKeepsSequential(st, actions[0]);
      RunKeepsSequential(Step(st, actions[0]), actions[1..]);
    }
  }

  /** When every reply is delivered before the next exchange starts, every
      message id is its 1-based position, so no two ids collide. */
  lemma IdsArePositionsWithoutOverlap(actions: seq<Action>)
    requires NonOverlapping(Initial(), actions)
    ensures IdsArePositions(Run(Initial(), actions).messages)
    ensures !HasDuplicateIds(Run(Initial(), actions).messages)
  {
    RunKeepsSequential(Initial(), actions);
  }

  /** An event that starts an exchange appends one user message, whose id
      is its position, and queues one more reply behind the pending ones. */
  lemma ExchangeAppendsUserMessage(st: ChatState, a: Action)
    requires StartsExchange(st, a)
    ensures var s1 := Step(st, a);
      |s1.messages| == |st.messages| + 1 &&
      s1.messages[..|st.messages|] == st.messages &&
      s1.messages[|st.messages|].id == |st.messages| + 1 &&
      s1.messages[|st.messages|].sender == User &&
      |s1.pending| == |st.pending| + 1 &&
      s1.pending[..|st.pending|] == st.pending
  {
    if a.ClickSend? || a.PressKey? {
      assert Step(st, a) == AfterSendMessage(st);
    }
  }

  /** With two replies pending, one of which carries the id of message `m`,
      both fire in some order and leave two messages with that id. */
  lemma BothRepliesFire(s1: ChatState, m: nat)
    requires |s1.pending| == 2 && m < |s1.messages|
    requires s1.messages[m].id == ReplyMessage(s1.pending[0]).id
    ensures AfterFire(s1).pending != []
    ensures HasDuplicateIds(AfterFire(AfterFire(s1)).messages)
  {
    var n := |s1.messages|;
    var p := s1.pending[0];
    var k := Timers.Next(s1.pending, DueTime);
    var s2 := AfterFire(s1);
    assert s2.pending == [s1.pending[1 - k]];
    assert Timers.Next(s2.pending, DueTime) == 0;
    var s3 := AfterFire(s2);
    assert s3.messages[m] == s1.messages[m];
    if k == 0 {
      assert s3.messages[n] == ReplyMessage(p);
      assert s3.messages[m].id == s3.messages[n].id;
    } else {
      assert s3.messages[n + 1] == ReplyMessage(p);
      assert s3.messages[m].id == s3.messages[n + 1].id;
    }
  }

  /** Starting an exchange while a reply is still pending: the new user
      message takes the id that the pending reply will also use, and after
      both replies fire (in whichever order their timers run) the list holds
      two messages with the same id. */
  lemma OverlapDuplicatesId(st: ChatState, a: Action)
    requires Sequential(st) && |st.pending| == 1 && StartsExchange(st, a)
    ensures var s1 := Step(st, a);
      s1.messages[|st.messages|].id == ReplyMessage(st.pending[0]).id &&
      |s1.pending| == 2 &&
      var s2 := AfterFire(s1);
      s2.pending != [] &&
      HasDuplicateIds(AfterFire(s2).messages)
  {
    var s1 := Step(st, a);
    ExchangeAppendsUserMessage(st, a);
    assert s1.pending[0] == st.pending[0];
    BothRepliesFire(s1, |st.messages|);
  }

  /** A run of five events is the five steps in order. */
  lemma RunOfFive(st: ChatState, a: Action, b: Action, c: Action, d: Action, e: Action)
    ensures Run(st, [a, b, c, d, e]) == Step(Step(Step(Step(Step(st, a), b), c), d), e)
  {
    var s1 := Step(st, a);
    var s2 := Step(s1, b);
    var s3 := Step(s2, c);
    var s4 := Step(s3, d);
    assert Run(s4, [e]) == Step(s4, e);
    assert Run(s3, [d, e]) == Run(s4, [e]) by { assert [d, e][1..] == [e]; }
    assert Run(s2, [c, d, e]) == Run(s3, [d, e]) by { assert [c, d, e][1..] == [d, e]; }
    assert Run(s1, [b, c, d, e]) == Run(s2, [c, d, e]) by { assert [b, c, d, e][1..] == [c, d, e]; }
    assert [a, b, c, d, e][1..] == [b, c, d, e];
  }

  /** Two sends in a row queue two acknowledgements, each remembering the
      list length its handler saw, both due at the same time. */
  lemma TwoSendsQueueTwoReplies(st: ChatState, first: string, second: string)
    requires st.pending == [] && !IsBlank(first) && !IsBlank(second)
    ensures var n := |st.messages|;
      var s4 := Step(Step(Step(Step(st, TypeText(first)), ClickSend), TypeText(second)), ClickSend);
      s4.messages == st.messages + [Message(n + 1, first, User), Message(n + 2, second, User)] &&
      s4.pending == [Pending(TextReply, n, st.now + TextDelay), Pending(TextReply, n + 1, st.now + TextDelay)]
  {
    var n := |st.messages|;
    var s2 := AfterSendMessage(AfterInput(st, first));
    assert s2.messages == st.messages + [Message(n + 1, first, User)];
    assert s2.pending == [Pending(TextReply, n, st.now + TextDelay)];
  }

  /** Two sends in a row, before the first acknowledgement arrives: the
      second user message and the first reply carry the same id. */
  lemma TwoQuickSendsCollide(st: ChatState, first: string, second: string)
    requires st.pending == [] && !IsBlank(first) && !IsBlank(second)
    ensures var n := |st.messages|;
      Run(st, [TypeText(first), ClickSend, TypeText(second), ClickSend, FireTimer]).messages ==
      st.messages + [Message(n + 1, first, User), Message(n + 2, second, User), Message(n + 2, BotText(AcknowledgementLine), Bot)]
  {
    var n := |st.messages|;
    TwoSendsQueueTwoReplies(st, first, second);
    var s4 := Step(Step(Step(Step(st, TypeText(first)), ClickSend), TypeText(second)), ClickSend);
    assert Timers.Next(s4.pending, DueTime) == 0;
    var s5 := AfterFire(s4);
    assert s5.messages == s4.messages + [Message(n + 2, BotText(AcknowledgementLine), Bot)];
    assert Step(s4, FireTimer) == FireNextIfAny(s4) == s5;
    RunOfFive(st, TypeText(first), ClickSend, TypeText(second), ClickSend, FireTimer);
  }
}
