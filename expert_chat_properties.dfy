/** Properties of the expert chat screen over whole sessions. */
module ExpertChatProperties {
  import opened Text
  import Timers
  import opened ExpertChat

  /** One event the component can see; a timer firing carries the value
      Math.random returns inside its callback. */
  datatype Action =
    | TypeText(text: string)
    | ClickSend
    | PressKey(key: string, shiftKey: bool)
    | Wait(ms: nat)
    | FireTimer(draw: real)

  /** Every draw is one Math.random can return. */
  predicate DrawsInRange(actions: seq<Action>) {
    forall i :: 0 <= i < |actions| && actions[i].FireTimer? ==> 0.0 <= actions[i].draw < 1.0
  }

  function Step(st: ChatState, a: Action): ChatState
    requires a.FireTimer? ==> 0.0 <= a.draw < 1.0
  {
    match a
    case TypeText(text) => AfterInput(st, text)
    case ClickSend => AfterSendMessage(st)
    case PressKey(key, shiftKey) => AfterKeyPress(st, key, shiftKey)
    case Wait(ms) => AfterElapse(st, ms)
    case FireTimer(draw) => FireNextIfAny(st, draw)
  }

  function Run(st: ChatState, actions: seq<Action>): ChatState
    requires DrawsInRange(actions)
    decreases |actions|
  {
    if actions == [] then st else Run(Step(st, actions[0]), actions[1..])
  }

  /** The event appends a user message and schedules a reply. */
  predicate StartsExchange(st: ChatState, a: Action) {
    (a.ClickSend? && !IsBlank(st.input)) ||
    (a.PressKey? && a.key == "Enter" && !a.shiftKey && !IsBlank(st.input))
  }

  ghost predicate IsPrefix(p: seq<Message>, s: seq<Message>) {
    |p| <= |s| && p == s[..|p|]
  }

  ghost predicate IdsArePositions(messages: seq<Message>) {
    forall i :: 0 <= i < |messages| ==> messages[i].id == i + 1
  }

  /** Every expert message is the greeting or one of the four replies. */
  ghost predicate ExpertTextsKnown(messages: seq<Message>) {
    forall i :: 0 <= i < |messages| && messages[i].sender == Expert ==>
      messages[i].text == ExpertText(GreetingLine) || IsExpertResponse(messages[i].text)
  }

  /** No exchange overlaps another: at most one reply is pending, and it
      belongs to the user message at the end of the list. */
  ghost predicate Sequential(st: ChatState) {
    IdsArePositions(st.messages) &&
    (st.pending == [] ||
     (|st.pending| == 1 &&
      st.pending[0].snapshotLen + 1 == |st.messages| &&
      st.messages[st.pending[0].snapshotLen].sender == User))
  }

  /** Each send happens only after the previous reply was delivered. */
  ghost predicate NonOverlapping(st: ChatState, actions: seq<Action>)
    requires DrawsInRange(actions)
    decreases |actions|
  {
    actions == [] ||
    ((st.pending == [] || !StartsExchange(st, actions[0])) &&
     NonOverlapping(Step(st, actions[0]), actions[1..]))
  }

  /** A new session: the expert's greeting with id 1 and an empty field. */
  lemma InitialSession()
    ensures Initial().messages == [Message(1, ExpertText(GreetingLine), Expert)]
    ensures Initial().input == "" && Initial().pending == []
    ensures Sequential(Initial()) && ExpertTextsKnown(Initial().messages)
  {
  }

  /** The send button is disabled exactly when clicking it would change
      nothing (no message, no reply scheduled, the field kept). */
  lemma SendDisabledIffNoOp(st: ChatState)
    ensures SendDisabled(st) <==> AfterSendMessage(st) == st
  {
    if !SendDisabled(st) {
      assert |AfterSendMessage(st).messages| == |st.messages| + 1;
    }
  }

  /** Enter without Shift is a click on send; every other key does nothing. */
  lemma EnterActsAsSend(st: ChatState, key: string, shiftKey: bool)
    ensures key == "Enter" && !shiftKey ==> AfterKeyPress(st, key, shiftKey) == AfterSendMessage(st)
    ensures key != "Enter" || shiftKey ==> AfterKeyPress(st, key, shiftKey) == st
  {
  }

  /** A non-blank send appends the text as typed and clears the field; its
      reply, whatever the draw, is appended after it and is one of the four
      fixed texts. */
  lemma SendExchange(st: ChatState, draw: real)
    requires !IsBlank(st.input) && st.pending == [] && 0.0 <= draw < 1.0
    ensures var s1 := AfterSendMessage(st);
      s1.messages == st.messages + [Message(|st.messages| + 1, st.input, User)] &&
      s1.input == "" && |s1.pending| == 1 &&
      var s2 := AfterFire(s1, draw);
      |s2.messages| == |st.messages| + 2 &&
      s2.messages[..|st.messages| + 1] == s1.messages &&
      s2.messages[|st.messages| + 1].sender == Expert &&
      s2.messages[|st.messages| + 1].id == |st.messages| + 2 &&
      IsExpertResponse(s2.messages[|st.messages| + 1].text) &&
      s2.pending == []
  {
    var s1 := AfterSendMessage(st);
    assert Timers.Next(s1.pending, DueTime) == 0;
  }

  /** Every event only appends at the end of the list. */
  lemma StepAppendsOnly(st: ChatState, a: Action)
    requires a.FireTimer? ==> 0.0 <= a.draw < 1.0
    ensures IsPrefix(st.messages, Step(st, a).messages)
    ensures |Step(st, a).messages| <= |st.messages| + 1
  {
  }

  lemma {:induction false} RunAppendsOnly(st: ChatState, actions: seq<Action>)
    requires DrawsInRange(actions)
    ensures IsPrefix(st.messages, Run(st, actions).messages)
    decreases |actions|
  {
    if actions != [] {
      var next := Step(st, actions[0]);
      StepAppendsOnly(st, actions[0]);
      assert DrawsInRange(actions[1..]);
      RunAppendsOnly(next, actions[1..]);
      var fin := Run(next, actions[1..]).messages;
      assert st.messages == next.messages[..|st.messages|];
      assert next.messages == fin[..|next.messages|];
      assert fin[..|next.messages|][..|st.messages|] == fin[..|st.messages|];
    }
  }

  lemma StepKeepsTextsKnown(st: ChatState, a: Action)
    requires a.FireTimer? ==> 0.0 <= a.draw < 1.0
    requires ExpertTextsKnown(st.messages)
    ensures ExpertTextsKnown(Step(st, a).messages)
  {
    var r := Step(st, a);
    assert forall i :: 0 <= i < |st.messages| ==> r.messages[i] == st.messages[i];
  }

  /** However many messages are sent and whatever the draws, every expert
      message is the greeting or one of the four fixed replies. */
  lemma {:induction false} RunKeepsTextsKnown(st: ChatState, actions: seq<Action>)
    requires DrawsInRange(actions) && ExpertTextsKnown(st.messages)
    ensures ExpertTextsKnown(Run(st, actions).messages)
    decreases |actions|
  {
    if actions != [] {
      StepKeepsTextsKnown(st, actions[0]);
      assert DrawsInRange(actions[1..]);
      RunKeepsTextsKnown(Step(st, actions[0]), actions[1..]);
    }
  }

  lemma StepKeepsSequential(st: ChatState, a: Action)
    requires a.FireTimer? ==> 0.0 <= a.draw < 1.0
    requires Sequential(st)
    requires st.pending == [] || !StartsExchange(st, a)
    ensures Sequential(Step(st, a))
  {
    if a.FireTimer? && st.pending != [] {
      assert Timers.Next(st.pending, DueTime) == 0;
    }
  }

  lemma {:induction false} RunKeepsSequential(st: ChatState, actions: seq<Action>)
    requires DrawsInRange(actions)
    requires Sequential(st) && NonOverlapping(st, actions)
    ensures Sequential(Run(st, actions))
    decreases |actions|
  {
    if actions != [] {
      StepKeepsSequential(st, actions[0]);
      assert DrawsInRange(actions[1..]);
      RunKeepsSequential(Step(st, actions[0]), actions[1..]);
    }
  }

  /** When every reply arrives before the next send, every message id is its
      1-based position. */
  lemma IdsArePositionsWithoutOverlap(actions: seq<Action>)
    requires DrawsInRange(actions) && NonOverlapping(Initial(), actions)
    ensures IdsArePositions(Run(Initial(), actions).messages)
  {
    RunKeepsSequential(Initial(), actions);
  }

  /** A second send while a reply is pending takes the id that the pending
      reply will also carry. */
  lemma OverlapReusesReplyId(st: ChatState, a: Action)
    requires Sequential(st) && |st.pending| == 1 && StartsExchange(st, a)
    ensures var s1 := Step(st, a);
      |s1.messages| == |st.messages| + 1 &&
      s1.messages[|st.messages|].sender == User &&
      s1.messages[|st.messages|].id == st.pending[0].snapshotLen + 2 &&
      s1.pending[0] == st.pending[0]
  {
  }
}
