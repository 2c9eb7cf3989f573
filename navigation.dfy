/** The top navigation bar (Navigation.tsx): a fixed table of labelled
    buttons, each targeting a screen, a logo that targets the landing page,
    and the rule that an item is highlighted when its screen is current.
    The `Screen` type is the one App.tsx switches on. */
module Navigation {

  datatype Screen = LandingScreen | ChatbotScreen | ExpertChatScreen

  /** A button of the bar; `caption` is the source's `label`. */
  datatype NavItem = NavItem(caption: string, screen: Screen)

  /** `navItems`, in display order. */
  const NavItems: seq<NavItem> := [
    NavItem("Home", LandingScreen),
    NavItem("Chatbot", ChatbotScreen),
    NavItem("Expert Chat", ExpertChatScreen),
    NavItem("Support", LandingScreen)
  ]

  /** The screen the logo button passes to onNavigate. */
  const LogoTarget: Screen := LandingScreen

  /** The screen passed to onNavigate when item `i` is clicked: once the
      router shows it, the clicked item's label is among the highlighted
      ones. */
  function ItemTarget(i: nat): (s: Screen)
    requires i < |NavItems|
    ensures NavItems[i].caption in ActiveLabels(s, NavItems)
  {
    NavItems[i].screen
  }

  /** `currentScreen === item.screen`: the item is drawn highlighted. */
  predicate IsActive(currentScreen: Screen, item: NavItem) {
    currentScreen == item.screen
  }

  /** The labels of the highlighted items, in display order. */
  function ActiveLabels(currentScreen: Screen, items: seq<NavItem>): (r: seq<string>)
    ensures |r| <= |items|
    ensures forall j :: 0 <= j < |items| && IsActive(currentScreen, items[j]) ==> items[j].caption in r
    ensures forall l :: l in r ==> exists j :: 0 <= j < |items| && items[j].caption == l && IsActive(currentScreen, items[j])
  {
    if items == [] then []
    else
      var rest := ActiveLabels(currentScreen, items[1..]);
      assert forall j :: 1 <= j < |items| ==> items[j] == items[1..][j - 1];
      if IsActive(currentScreen, items[0]) then [items[0].caption] + rest else rest
  }

  /** Exactly which items are highlighted on each screen: Home and Support
      on the landing page, and only the matching item on either chat. */
  lemma HighlightedItems(currentScreen: Screen)
    ensures ActiveLabels(currentScreen, NavItems) ==
      match currentScreen
      case LandingScreen => ["Home", "Support"]
      case ChatbotScreen => ["Chatbot"]
      case ExpertChatScreen => ["Expert Chat"]
    ensures |ActiveLabels(currentScreen, NavItems)| == if currentScreen == LandingScreen then 2 else 1
  {
    assert NavItems[1..] == [NavItem("Chatbot", ChatbotScreen), NavItem("Expert Chat", ExpertChatScreen), NavItem("Support", LandingScreen)];
    assert NavItems[1..][1..] == [NavItem("Expert Chat", ExpertChatScreen), NavItem("Support", LandingScreen)];
    assert NavItems[1..][1..][1..] == [NavItem("Support", LandingScreen)];
    assert NavItems[1..][1..][1..][1..] == [];
  }

  /** Every screen can be reached from the bar. */
  lemma EveryScreenHasItem(s: Screen)
    ensures exists i :: 0 <= i < |NavItems| && NavItems[i].screen == s
  {
    match s
    case LandingScreen => assert NavItems[0].screen == s;
    case ChatbotScreen => assert NavItems[1].screen == s;
    case ExpertChatScreen => assert NavItems[2].screen == s;
  }

  /** The logo leads to the landing page, where Home and Support are the
      highlighted items. */
  lemma LogoLeadsHome()
    ensures LogoTarget == LandingScreen
    ensures ActiveLabels(LogoTarget, NavItems) == ["Home", "Support"]
  {
    HighlightedItems(LogoTarget);
  }
}
