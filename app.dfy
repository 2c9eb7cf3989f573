/** The screen router (App.tsx): one `currentScreen` value, changed by the
    navigation bar, the landing page's two buttons and each chat's back
    button. Exactly the view matching `currentScreen` is mounted. A chat
    component lives only while its screen is current, so switching to a chat
    screen from another screen creates a new component with its initial
    state. Switching to the screen already shown changes nothing, so the
    mounted component and its conversation stay. */
module App {
  import opened Navigation
  import Chatbot
  import ExpertChat

  datatype View = LandingPageView | ChatbotView | ExpertChatView

  /** The three `currentScreen === ... &&` guards of App's markup. */
  predicate Renders(currentScreen: Screen, v: View) {
    (currentScreen == LandingScreen && v == LandingPageView) ||
    (currentScreen == ChatbotScreen && v == ChatbotView) ||
    (currentScreen == ExpertChatScreen && v == ExpertChatView)
  }

  /** The one view rendered for a screen. */
  function ViewFor(currentScreen: Screen): (v: View)
    ensures Renders(currentScreen, v)
    ensures forall w :: Renders(currentScreen, w) ==> w == v
  {
    match currentScreen
    case LandingScreen => LandingPageView
    case ChatbotScreen => ChatbotView
    case ExpertChatScreen => ExpertChatView
  }

  /** The screen after a sequence of navigation requests: each one is a
      `handleNavigate(screen)` call, which sets `currentScreen` to the
      requested screen (`App.HandleNavigate` below). */
  function NavigateAll(currentScreen: Screen, requests: seq<Screen>): Screen
    decreases |requests|
  {
    if requests == [] then currentScreen else NavigateAll(requests[0], requests[1..])
  }

  /** Whatever the sequence of requests, the last one decides the screen. */
  lemma {:induction false} LastRequestWins(currentScreen: Screen, requests: seq<Screen>)
    requires requests != []
    ensures NavigateAll(currentScreen, requests) == requests[|requests| - 1]
    ensures Renders(NavigateAll(currentScreen, requests), ViewFor(requests[|requests| - 1]))
    decreases |requests|
  {
    if |requests| > 1 {
      LastRequestWins(requests[0], requests[1..]);
    }
  }

  class App {
    var currentScreen: Screen
    /** The mounted chatbot component, if its screen is current. */
    var chatbot: Chatbot.ChatbotInterface?
    /** The mounted expert chat component, if its screen is current. */
    var expertChat: ExpertChat.ExpertChatInterface?

    ghost predicate Valid()
      reads this, chatbot
    {
      (chatbot != null <==> currentScreen == ChatbotScreen) &&
      (expertChat != null <==> currentScreen == ExpertChatScreen) &&
      (chatbot != null ==> chatbot.Valid())
    }

    /** The view on display. */
    function Shown(): (v: View)
      reads this
      ensures Renders(currentScreen, v)
    {
      ViewFor(currentScreen)
    }

    constructor ()
      ensures Valid() && currentScreen == LandingScreen
      ensures Shown() == LandingPageView
    {
      currentScreen := LandingScreen;
      chatbot := null;
      expertChat := null;
    }

    /** `handleNavigate(screen)`: `setCurrentScreen(screen)` followed by
        React's re-render, which unmounts the old view and mounts the new
        one when they differ. The landing and back callbacks make the same
        `setCurrentScreen` call. */
    method HandleNavigate(screen: Screen)
      requires Valid()
      modifies this
      ensures Valid() && currentScreen == screen && Shown() == ViewFor(screen)
      ensures screen == old(currentScreen) ==>
        chatbot == old(chatbot) && expertChat == old(expertChat)
      ensures screen != old(currentScreen) && screen == ChatbotScreen ==>
        fresh(chatbot) && chatbot.Model() == Chatbot.Initial()
      ensures screen != old(currentScreen) && screen == ExpertChatScreen ==>
        fresh(expertChat) && expertChat.Model() == ExpertChat.Initial()
    {
      if screen != currentScreen {
        currentScreen := screen;
        chatbot := null;
        expertChat := null;
        if screen == ChatbotScreen {
          chatbot := new Chatbot.ChatbotInterface();
        } else if screen == ExpertChatScreen {
          expertChat := new ExpertChat.ExpertChatInterface();
        }
      }
    }

    /** A click on nav item `i`. */
    method ClickNavItem(i: nat)
      requires Valid() && i < |NavItems|
      modifies this
      ensures Valid() && currentScreen == NavItems[i].screen
      ensures NavItems[i].caption in ActiveLabels(currentScreen, NavItems)
      ensures NavItems[i].screen == old(currentScreen) ==>
        chatbot == old(chatbot) && expertChat == old(expertChat)
      ensures NavItems[i].screen != old(currentScreen) && NavItems[i].screen == ChatbotScreen ==>
        fresh(chatbot) && chatbot.Model() == Chatbot.Initial()
      ensures NavItems[i].screen != old(currentScreen) && NavItems[i].screen == ExpertChatScreen ==>
        fresh(expertChat) && expertChat.Model() == ExpertChat.Initial()
    {
      HandleNavigate(ItemTarget(i));
    }

    /** A click on the logo. */
    method ClickLogo()
      requires Valid()
      modifies this
      ensures Valid() && currentScreen == LandingScreen && Shown() == LandingPageView
    {
      HandleNavigate(LogoTarget);
    }

    /** The landing page's `onStartChatbot`. */
    method StartChatbot()
      requires Valid()
      modifies this
      ensures Valid() && currentScreen == ChatbotScreen && Shown() == ChatbotView
      ensures old(currentScreen) != ChatbotScreen ==> fresh(chatbot) && chatbot.Model() == Chatbot.Initial()
    {
      HandleNavigate(ChatbotScreen);
    }

    /** The landing page's `onChatWithExpert`. */
    method ChatWithExpert()
      requires Valid()
      modifies this
      ensures Valid() && currentScreen == ExpertChatScreen && Shown() == ExpertChatView
      ensures old(currentScreen) != ExpertChatScreen ==> fresh(expertChat) && expertChat.Model() == ExpertChat.Initial()
    {
      HandleNavigate(ExpertChatScreen);
    }

    /** Either chat's `onBack`: back to the landing page; the chat that was
        shown is unmounted. */
    method Back()
      requires Valid()
      modifies this
      ensures Valid() && currentScreen == LandingScreen && Shown() == LandingPageView
      ensures chatbot == null && expertChat == null
    {
      HandleNavigate(LandingScreen);
    }
  }
}
