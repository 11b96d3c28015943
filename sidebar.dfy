/** `components/Sidebar.tsx`: the navigation column, used on the desktop and inside the
    mobile menu. It holds no state: each button forwards to a callback prop, and a button
    whose optional prop was not given does nothing. `isLoggedIn` and `darkMode` default to
    true when not passed. */
module Sidebar {
  import opened Wrappers
  import opened Constants

  /** The callback props a click reaches, with their arguments. */
  datatype SidebarCall = SetActiveTab(tab: string) | SettingsClick | LogoutClick | AuthRequired | ToggleDarkMode(isDark: bool)

  /** Which optional callback props were passed. */
  datatype Handlers = Handlers(settings: bool, logout: bool, authRequired: bool, toggleDarkMode: bool)

  /** A boolean prop with default `true`. */
  function PropOrTrue(p: Option<bool>): (b: bool)
    ensures b <==> p != Some(false)
  {
    p.GetOr(true)
  }

  /** A menu entry: one `setActiveTab` call, whose tab makes that entry the highlighted one. */
  function MenuClick(item: MenuItem): (calls: seq<SidebarCall>)
    ensures |calls| == 1 && calls[0].SetActiveTab?
    ensures MenuHighlighted(calls[0].tab, item)
  {
    [SetActiveTab(item.text)]
  }

  /** The menu entry drawn as active. */
  predicate MenuHighlighted(activeTab: string, item: MenuItem) {
    activeTab == item.text
  }

  /** The menu labels are distinct, so at most one entry is drawn as active. */
  lemma AtMostOneHighlighted(activeTab: string)
    ensures forall i, j :: 0 <= i < j < |MENU_ITEMS| ==>
              !(MenuHighlighted(activeTab, MENU_ITEMS[i]) && MenuHighlighted(activeTab, MENU_ITEMS[j]))
  {
  }

  /** Once the tab a menu click asks for is active, the clicked entry is the only one drawn
      as active. */
  lemma {:induction false} MenuClickHighlightsOnlyClicked(i: nat)
    requires i < |MENU_ITEMS|
    ensures forall j :: 0 <= j < |MENU_ITEMS| ==>
              (MenuHighlighted(MenuClick(MENU_ITEMS[i])[0].tab, MENU_ITEMS[j]) <==> j == i)
  {
    AtMostOneHighlighted(MenuClick(MENU_ITEMS[i])[0].tab);
  }

  /** The "LIGHT" and "DARK" halves of the theme switch ask for that theme explicitly. */
  function ThemeClick(h: Handlers, dark: bool): (calls: seq<SidebarCall>)
    ensures h.toggleDarkMode ==> calls == [ToggleDarkMode(dark)]
    ensures !h.toggleDarkMode ==> calls == []
  {
    if h.toggleDarkMode then [ToggleDarkMode(dark)] else []
  }

  /** "Setting". */
  function SettingClick(h: Handlers): (calls: seq<SidebarCall>)
    ensures calls == [] <==> !h.settings
    ensures calls != [] ==> calls == [SettingsClick]
  {
    if h.settings then [SettingsClick] else []
  }

  /** The bottom button: "Logout" when logged in, "Sign In" otherwise. */
  function BottomClick(isLoggedIn: Option<bool>, h: Handlers): (calls: seq<SidebarCall>)
    ensures |calls| <= 1
    ensures LogoutClick in calls <==> PropOrTrue(isLoggedIn) && h.logout
    ensures AuthRequired in calls <==> !PropOrTrue(isLoggedIn) && h.authRequired
  {
    if PropOrTrue(isLoggedIn) then (if h.logout then [LogoutClick] else [])
    else (if h.authRequired then [AuthRequired] else [])
  }

  function BottomLabel(isLoggedIn: Option<bool>): (text: string)
    ensures text == "Logout" <==> PropOrTrue(isLoggedIn)
    ensures text == "Sign In" <==> !PropOrTrue(isLoggedIn)
  {
    if PropOrTrue(isLoggedIn) then "Logout" else "Sign In"
  }

  /** The friends list is drawn only for a logged-in visitor. */
  function ShownFriends(isLoggedIn: Option<bool>): (fs: seq<Friend>)
    ensures fs == FRIENDS <==> PropOrTrue(isLoggedIn)
    ensures fs == [] <==> !PropOrTrue(isLoggedIn)
  {
    if PropOrTrue(isLoggedIn) then FRIENDS else []
  }

  /** The half of the theme switch drawn as selected. */
  function SelectedTheme(darkMode: Option<bool>): (t: string)
    ensures t == "DARK" <==> PropOrTrue(darkMode)
    ensures t == "LIGHT" <==> !PropOrTrue(darkMode)
  {
    if PropOrTrue(darkMode) then "DARK" else "LIGHT"
  }
}
