# MindCare: verified model of the chat screens and the screen router

MindCare is a single-page React app. It has a landing page and two scripted
chat screens: an automated "chatbot" driven by emotion-keyed canned replies,
and an "expert chat" that answers with one of four canned texts picked at
random. This project models the logic under the markup:

- **Chatbot session** (`Chatbot`, `ChatbotProperties`). The
  `ChatbotInterface` class holds the component's state: the append-only
  message list, the text field, the `showEmotionButtons` and
  `showFollowUpOptions` flags, the replies scheduled with `setTimeout`, and a
  millisecond clock. Its handlers `HandleEmotionSelect`,
  `HandleFollowUpOption`, `HandleSendMessage` and `HandleKeyPress` append the
  user's message at once and queue one `Pending` reply. A pending reply
  records what it answers, the message-list length the handler saw, and its
  due time. `FireNext` delivers the pending reply that is due first. Ties go
  to the one scheduled first. Each method's new state is given by a pure
  transition function (`AfterEmotionSelect`, `AfterFire`, ...). The
  properties are proved over those functions and over any sequence of events
  (`Run`).
- **Expert chat session** (`ExpertChat`, `ExpertChatProperties`). This is
  the same structure with free text only. The reply is entry
  `floor(draw * 4)` of `expertResponses`, where `draw` is the value
  `Math.random()` returns inside the timer callback.
- **Screen router** (`App`, `Navigation`). The `App` class holds
  `currentScreen` and the chat component that is currently mounted.
  Navigation sets the screen. Switching to a different screen unmounts the
  old chat and mounts a fresh one, which starts from its greeting.
  Navigation also has the static table of nav items and the "highlighted"
  rule.
- **Input guard** (`Text`). `inputValue.trim()` is truthy. Trim is modelled
  over ECMAScript's whitespace and line-terminator characters. Blank input is
  proved to mean "only whitespace".

Message ids follow the source. A user message's id is the list length at
handler time plus 1. A reply's id is the length captured when its handler
ran plus 2. The model proves that ids equal 1-based positions when each
reply arrives before the next exchange starts (`IdsArePositionsWithoutOverlap`).
It also proves that a second exchange started while a reply is pending makes
two messages share an id, whichever timer fires first (`OverlapDuplicatesId`,
`TwoQuickSendsCollide`). The source uses `message.id` as the React list key,
so those keys collide.

Three behaviours of the code worth knowing:

- A text send leaves both quick-reply flags as they were, so the emotion
  buttons stay visible after free text (`TextExchange`).
- Ids are derived from a captured list length and can repeat.
- The timers cannot be cancelled.

The canned texts are `Chatbot.BotText` and `ExpertChat.ExpertText`, keyed
by which line they are. Three of them (`BotText(EmotionLine(Happy))` and the
breathing and motivation scripts) contain emoji that the source file
stores mis-decoded: UTF-8 bytes read as Windows-1252. The model keeps exactly the characters the file holds.

## Model

| member | source | states |
|---|---|---|
| `Text.TrimStartShape` | src/app/components/ChatbotInterface.tsx:111 | trimming the start leaves a suffix, drops only whitespace, and leaves a result that is empty or starts with non-whitespace; empty iff the input is all whitespace |
| `Text.TrimEndShape` | src/app/components/ChatbotInterface.tsx:111 | trimming the end leaves a prefix, drops only whitespace, and leaves a result that is empty or ends with non-whitespace; empty iff the input is all whitespace |
| `Text.BlankIffAllWhitespace` | src/app/components/ChatbotInterface.tsx:111 | `trim()` gives the empty string exactly when every character is whitespace |
| `Text.TrimIsCore` | src/app/components/ExpertChatInterface.tsx:38 | the trimmed text is a contiguous slice of the input, everything cut off at either end is whitespace, and its first and last characters are not whitespace |
| `Timers.Earliest` | src/app/components/ChatbotInterface.tsx:60-77 | the timer that fires next has the least due time of all pending timers, and no earlier-scheduled timer has the same due time |
| `Timers.Next` | src/app/components/ChatbotInterface.tsx:60-77 | of the pending timers, the one that fires next is due no later than any other and strictly earlier than every timer scheduled before it |
| `Timers.RemoveAt` | src/app/components/ChatbotInterface.tsx:60-77 | a fired timer leaves the queue; the others keep their order |
| `Chatbot.FirePreservesPanels` | src/app/components/ChatbotInterface.tsx:57-76 | firing any reply keeps the panels consistent: the follow-ups are revealed only when the emotion buttons are already hidden |
| `Chatbot.ChatbotInterface.constructor` | src/app/components/ChatbotInterface.tsx:20-30 | one bot greeting with id 1, emotion buttons shown, follow-ups hidden, empty input, nothing pending |
| `Chatbot.ChatbotInterface.HandleInputChange` | src/app/components/ChatbotInterface.tsx:297 | the field takes the typed text; messages and timers unchanged |
| `Chatbot.ChatbotInterface.HandleEmotionSelect` | src/app/components/ChatbotInterface.tsx:41-78 | appends the emotion's user text with id length+1, hides the emotion buttons, leaves follow-ups as they were, queues the emotion reply due in 1000 ms with the captured length |
| `Chatbot.ChatbotInterface.HandleFollowUpOption` | src/app/components/ChatbotInterface.tsx:80-108 | appends the option verbatim with id length+1, hides the follow-ups, queues its reply due in 1200 ms |
| `Chatbot.ChatbotInterface.HandleSendMessage` | src/app/components/ChatbotInterface.tsx:110-133 | blank input changes nothing; otherwise appends the untrimmed input, clears the field, keeps both flags and queues the acknowledgement due in 1000 ms |
| `Chatbot.ChatbotInterface.HandleKeyPress` | src/app/components/ChatbotInterface.tsx:135-140 | Enter without Shift is a send; any other key leaves the state unchanged |
| `Chatbot.ChatbotInterface.Elapse` | src/app/components/ChatbotInterface.tsx:77 | time passes; only the clock changes |
| `Chatbot.ChatbotInterface.FireNext` | src/app/components/ChatbotInterface.tsx:60-131 | fires exactly when a reply is pending; the new state is that of the earliest reply firing: its message with id captured length+2 appended, follow-ups revealed after an emotion reply; the panels stay consistent |
| `ChatbotProperties.InitialSession` | src/app/components/ChatbotInterface.tsx:20-30 | the initial session is the greeting alone, in the awaiting-emotion phase, with no ids out of place |
| `ChatbotProperties.SendDisabledIffNoOp` | src/app/components/ChatbotInterface.tsx:305 | the send button is disabled exactly when a send would change nothing |
| `ChatbotProperties.EnterActsAsSend` | src/app/components/ChatbotInterface.tsx:135-140 | Enter without Shift equals clicking send; other keys do nothing |
| `ChatbotProperties.StepAppendsOnly` | src/app/components/ChatbotInterface.tsx:41-133 | every event keeps the old list as a prefix and adds one message exactly when an exchange starts or a reply is delivered |
| `ChatbotProperties.RunAppendsOnly` | src/app/components/ChatbotInterface.tsx:41-133 | over any sequence of events the initial list stays a prefix |
| `ChatbotProperties.StepNeverRestoresEmotionButtons` | src/app/components/ChatbotInterface.tsx:29-57 | no event shows the emotion buttons again once they are hidden |
| `ChatbotProperties.StepKeepsPanels` | src/app/components/ChatbotInterface.tsx:41-108 | every event keeps at most one quick-reply panel visible |
| `ChatbotProperties.RunKeepsPanels` | src/app/components/ChatbotInterface.tsx:204-276 | over any sequence of events, the emotion and follow-up panels are never shown together |
| `ChatbotProperties.EmotionExchange` | src/app/components/ChatbotInterface.tsx:41-78 | choosing an emotion hides the buttons immediately; its reply carries that emotion's text with id length+2 and only then shows the follow-ups |
| `ChatbotProperties.FollowUpExchange` | src/app/components/ChatbotInterface.tsx:80-108 | choosing a follow-up hides the follow-ups; its reply is the table entry or the fallback |
| `ChatbotProperties.TextExchange` | src/app/components/ChatbotInterface.tsx:110-133 | a non-blank send appends the untrimmed text and clears the field; the fixed acknowledgement follows; neither step touches the panels |
| `ChatbotProperties.FollowUpLookup` | src/app/components/ChatbotInterface.tsx:93-101 | each of the three labels gets its own script, and the fallback is returned exactly for texts outside the three labels |
| `ChatbotProperties.StepKeepsSequential` | src/app/components/ChatbotInterface.tsx:50-69 | an event that does not start an exchange while one is pending keeps ids equal to positions |
| `ChatbotProperties.RunKeepsSequential` | src/app/components/ChatbotInterface.tsx:50-125 | over a non-overlapping sequence of events, ids stay equal to positions |
| `ChatbotProperties.IdsArePositionsWithoutOverlap` | src/app/components/ChatbotInterface.tsx:110-131 | from a fresh session, when no exchange overlaps another, every id is its 1-based position and no id repeats |
| `ChatbotProperties.OverlapDuplicatesId` | src/app/components/ChatbotInterface.tsx:113-125 | starting an exchange while a reply is pending gives the new user message the pending reply's id; after both replies fire, in either order, two messages share an id |
| `ChatbotProperties.TwoSendsQueueTwoReplies` | src/app/components/ChatbotInterface.tsx:110-131 | two sends in a row append both texts with ids length+1 and length+2 and queue two acknowledgements due at the same time, capturing lengths n and n+1 |
| `ChatbotProperties.TwoQuickSendsCollide` | src/app/components/ChatbotInterface.tsx:110-131 | after two sends in a row and one timer tick, the list ends with the two user texts and the acknowledgement, and the second user message and the acknowledgement both have id length+2 |
| `ExpertChat.ResponseIndex` | src/app/components/ExpertChatInterface.tsx:58 | for any draw in [0, 1), `floor(draw * 4)` is an index in [0, 4) and is the floor of draw × 4 |
| `ExpertChat.ExpertReply` | src/app/components/ExpertChatInterface.tsx:51-58 | every reply text is one of the four fixed responses |
| `ExpertChat.EveryResponseReachable` | src/app/components/ExpertChatInterface.tsx:51-58 | each of the four responses is the reply for the draw at the start of its quarter of [0, 1) |
| `ExpertChat.ExpertChatInterface.constructor` | src/app/components/ExpertChatInterface.tsx:18-26 | one expert greeting with id 1, empty input, nothing pending |
| `ExpertChat.ExpertChatInterface.HandleInputChange` | src/app/components/ExpertChatInterface.tsx:180 | the field takes the typed text; messages and timers unchanged |
| `ExpertChat.ExpertChatInterface.HandleSendMessage` | src/app/components/ExpertChatInterface.tsx:37-69 | blank input changes nothing; otherwise appends the input verbatim with id length+1, clears the field and queues one reply due in 2000 ms |
| `ExpertChat.ExpertChatInterface.HandleKeyPress` | src/app/components/ExpertChatInterface.tsx:71-76 | Enter without Shift is a send; any other key leaves the state unchanged |
| `ExpertChat.ExpertChatInterface.Elapse` | src/app/components/ExpertChatInterface.tsx:67 | time passes; only the clock changes |
| `ExpertChat.ExpertChatInterface.FireNext` | src/app/components/ExpertChatInterface.tsx:50-67 | fires exactly when a reply is pending; appends an expert message whose text is one of the four responses and whose id is captured length+2 |
| `ExpertChatProperties.InitialSession` | src/app/components/ExpertChatInterface.tsx:18-26 | the initial session is the greeting alone, with an empty field and nothing scheduled |
| `ExpertChatProperties.SendDisabledIffNoOp` | src/app/components/ExpertChatInterface.tsx:188 | the send button is disabled exactly when a send would change nothing |
| `ExpertChatProperties.EnterActsAsSend` | src/app/components/ExpertChatInterface.tsx:71-76 | Enter without Shift equals clicking send; other keys do nothing |
| `ExpertChatProperties.SendExchange` | src/app/components/ExpertChatInterface.tsx:37-67 | a non-blank send appends the verbatim text; for any draw, the reply comes after it with id length+2 and a text from the list |
| `ExpertChatProperties.StepAppendsOnly` | src/app/components/ExpertChatInterface.tsx:46-66 | every event keeps the old list as a prefix and adds at most one message |
| `ExpertChatProperties.RunAppendsOnly` | src/app/components/ExpertChatInterface.tsx:46-66 | over any sequence of events the initial list stays a prefix |
| `ExpertChatProperties.StepKeepsTextsKnown` | src/app/components/ExpertChatInterface.tsx:51-66 | every event keeps each expert message equal to the greeting or one of the four replies |
| `ExpertChatProperties.RunKeepsTextsKnown` | src/app/components/ExpertChatInterface.tsx:51-66 | for any number of sends and any draws, every expert message is the greeting or one of the four replies |
| `ExpertChatProperties.StepKeepsSequential` | src/app/components/ExpertChatInterface.tsx:40-61 | an event that does not start an exchange while one is pending keeps ids equal to positions |
| `ExpertChatProperties.RunKeepsSequential` | src/app/components/ExpertChatInterface.tsx:40-61 | over a non-overlapping sequence of events, ids stay equal to positions |
| `ExpertChatProperties.IdsArePositionsWithoutOverlap` | src/app/components/ExpertChatInterface.tsx:40-61 | from a fresh session, when each reply arrives before the next send, every id is its 1-based position |
| `ExpertChatProperties.OverlapReusesReplyId` | src/app/components/ExpertChatInterface.tsx:40-61 | a send while a reply is pending takes the id that the pending reply will carry |
| `Navigation.ItemTarget` | src/app/components/Navigation.tsx:38 | clicking an item navigates to a screen on which that item's label is among the highlighted labels |
| `Navigation.ActiveLabels` | src/app/components/Navigation.tsx:35-43 | an item's label is listed as highlighted iff its screen equals the current screen |
| `Navigation.HighlightedItems` | src/app/components/Navigation.tsx:11-16 | Home and Support are highlighted on the landing page; only Chatbot or only Expert Chat on the chat screens |
| `Navigation.EveryScreenHasItem` | src/app/components/Navigation.tsx:11-16 | every screen is the target of at least one nav item |
| `Navigation.LogoLeadsHome` | src/app/components/Navigation.tsx:24 | the logo goes to the landing page, where Home and Support are highlighted |
| `App.ViewFor` | src/app/App.tsx:20-31 | exactly one view is rendered for each screen: the matching one |
| `App.LastRequestWins` | src/app/App.tsx:12-14 | after any non-empty sequence of navigations the screen, and the view rendered, are the last one requested |
| `App.App.Shown` | src/app/App.tsx:20-31 | the view on display is the one whose guard matches `currentScreen` |
| `App.App.constructor` | src/app/App.tsx:10 | the app starts on the landing page with no chat mounted |
| `App.App.HandleNavigate` | src/app/App.tsx:12-14 | sets the screen with no precondition; navigating to the current screen keeps the mounted chat; entering a chat from another screen mounts a fresh session at its greeting |
| `App.App.ClickNavItem` | src/app/components/Navigation.tsx:38 | a nav-item click navigates to that item's screen and leaves the item highlighted; clicking the current screen's item keeps the mounted chat, and entering a chat from another screen mounts a fresh session at its greeting |
| `App.App.ClickLogo` | src/app/components/Navigation.tsx:24 | a logo click always shows the landing page |
| `App.App.StartChatbot` | src/app/App.tsx:22 | goes to the chatbot screen; coming from elsewhere, the chatbot starts afresh |
| `App.App.ChatWithExpert` | src/app/App.tsx:23 | goes to the expert chat screen; coming from elsewhere, the expert chat starts afresh |
| `App.App.Back` | src/app/App.tsx:26-31 | either chat's back button shows the landing page and unmounts both chats |

## Left out

- Message timestamps (`new Date()`, `toLocaleTimeString`) are left out. They are wall-clock reads and locale formatting, and no logic depends on them.
- The markup is left out: layout, CSS classes, icons, `motion` animations, the `EmotionButton`/`FollowUpOption` colour maps, `ExpertProfileCard`, and the mobile menu button, which has no handler. These are presentational.
- `scrollToBottom`, `useRef` and `useEffect` are left out. They are DOM side effects.
- src/app/components/LandingPage.tsx is not part of this model beyond its two callbacks, which are `App.App.StartChatbot` and `App.App.ChatWithExpert`.
- `setTimeout` timing is an abstract millisecond clock. `Elapse` may move the clock past a due time without firing, which matches timers that run late. Real scheduling and event-loop priorities are not modelled.
- The model keeps no callbacks of a chat that has been unmounted. The source's timers still run after the chat is left and call `setMessages` on an unmounted component, which React ignores. The model simply drops that component.
- The handlers are modelled without the on-screen condition for their buttons. In the UI, emotion buttons exist only while `showEmotionButtons` is true and follow-up buttons only while `showFollowUpOptions` is true. The model accepts a call in any phase, so its properties cover more than the UI allows.
- Each handler runs against the latest render, so the user message's id uses the current length. Only the timer callbacks see a stale list. Two clicks processed before React re-renders are not modelled.
- The follow-up table is a closed lookup over the three labels with the fallback. A JavaScript object lookup of a key inherited from `Object.prototype` (such as `"toString"`) would return a function rather than the fallback. Only the three labels reach the handler from the UI.
- `Math.random()` is the real parameter `draw` in [0, 1). Floating-point rounding of `draw * 4` is not modelled; multiplying by a power of two is exact in IEEE 754 doubles.
- Ids are unbounded naturals. JavaScript's number precision limit is not reached by any realistic session.
