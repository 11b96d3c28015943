/** `app/page.tsx`: the `Home` page. It owns the routing state, the session flags
    (`isLoggedIn`, `isPremium`), the open/closed flag of every overlay and the theme. The
    overlays that are always rendered (login, join, settings, chat, notifications) keep their
    own state across openings and are children of `Home`; the content panels (tasks, groups,
    lessons, store, inbox) are modelled by their own classes, one instance per mounting.
    localStorage is the map `storage` and the root element's class list the set
    `rootClasses`. */
module Page {
  import opened Wrappers
  import Constants
  import Theme
  import AuthGate
  import DashboardContent
  import CourseDetailModal
  import Sidebar
  import LoginModal
  import JoinModal
  import SettingsModal
  import ChatWidget
  import NotificationsPanel

  /** The panel `renderContent` puts in the main area. The two dashboard cases differ in the
      tab handed to `DashboardContent` and in whether `onCourseClick` is passed. */
  datatype Panel =
    | TaskPanel
    | InboxPanel
    | LessonPanel
    | GroupPanel
    | StorePanel
    | DashboardPanel(tab: string, courseClickable: bool)

  /** `renderContent`'s switch on `activeTab`. */
  function Route(activeTab: string): (p: Panel)
    ensures p == TaskPanel <==> activeTab == "Task"
    ensures p == InboxPanel <==> activeTab == "Inbox"
    ensures p == LessonPanel <==> activeTab == "Lesson"
    ensures p == GroupPanel <==> activeTab == "Group"
    ensures p == StorePanel <==> activeTab == "Courses"
    ensures p.DashboardPanel? ==> (p.courseClickable <==> activeTab != "Settings")
    ensures p.DashboardPanel? ==> p.tab == if activeTab == "Settings" then "Overview" else activeTab
  {
    if activeTab == "Task" then TaskPanel
    else if activeTab == "Inbox" then InboxPanel
    else if activeTab == "Lesson" then LessonPanel
    else if activeTab == "Group" then GroupPanel
    else if activeTab == "Courses" then StorePanel
    else if activeTab == "Settings" then DashboardPanel("Overview", false)
    else DashboardPanel(activeTab, true)
  }

  predicate IsMenuLabel(tab: string) {
    exists i :: 0 <= i < |Constants.MENU_ITEMS| && Constants.MENU_ITEMS[i].text == tab
  }

  /** Every menu entry leads to a real panel: the only one routed to `DashboardContent` is
      "Overview", which shows the overview and not the placeholder; no entry leads to the
      inbox. */
  lemma {:induction false} MenuRoutes(tab: string, query: string)
    requires IsMenuLabel(tab)
    ensures Route(tab) != InboxPanel
    ensures Route(tab).DashboardPanel? ==> tab == "Overview" && Route(tab).courseClickable
    ensures Route(tab).DashboardPanel? ==> DashboardContent.Render(Route(tab).tab, query).Overview?
  {
    var i :| 0 <= i < |Constants.MENU_ITEMS| && Constants.MENU_ITEMS[i].text == tab;
    assert i == 0 || i == 1 || i == 2 || i == 3 || i == 4;
  }

  /** The `DashboardContent` element survives a route change exactly when both routes render
      it (React keeps a component of the same type in the same place); otherwise it is
      unmounted and its search box starts empty next time. */
  function QueryAfterRoute(oldTab: string, newTab: string, query: string): (q: string)
    ensures q == query || q == ""
    ensures Route(oldTab).DashboardPanel? && Route(newTab).DashboardPanel? ==> q == query
    ensures !Route(newTab).DashboardPanel? || !Route(oldTab).DashboardPanel? ==> q == ""
  {
    if Route(oldTab).DashboardPanel? && Route(newTab).DashboardPanel? then query else ""
  }

  /** The callback props each `Sidebar` instance receives: the mobile one gets neither
      `onSettingsClick` nor `onLogoutClick`. */
  const DESKTOP_HANDLERS: Sidebar.Handlers := Sidebar.Handlers(true, true, true, true)
  const MOBILE_HANDLERS: Sidebar.Handlers := Sidebar.Handlers(false, false, true, true)

  /** The page's own state as one value, except the browser's storage and class list. */
  datatype Snapshot = Snapshot(
    isMobileMenuOpen: bool,
    activeTab: string,
    isJoinModalOpen: bool,
    isPremium: bool,
    isLoggedIn: bool,
    isLoginModalOpen: bool,
    isSettingsOpen: bool,
    settingsInitialTab: string,
    isProfileOpen: bool,
    isChatOpen: bool,
    isNotificationsOpen: bool,
    selectedCourse: Option<Constants.ProgressCard>,
    darkMode: bool,
    searchQuery: string)

  class Home {
    var isMobileMenuOpen: bool
    var activeTab: string
    var isJoinModalOpen: bool
    var isPremium: bool
    var isLoggedIn: bool
    var isLoginModalOpen: bool
    var isSettingsOpen: bool
    var settingsInitialTab: string
    var isProfileOpen: bool
    var isChatOpen: bool
    var isNotificationsOpen: bool
    var selectedCourse: Option<Constants.ProgressCard>
    var darkMode: bool
    var storage: map<string, string>
    var rootClasses: set<string>
    /** `searchQuery` of the mounted `DashboardContent`. */
    var searchQuery: string

    const login: LoginModal.Form
    const join: JoinModal.Form
    const settings: SettingsModal.Settings
    const chat: ChatWidget.Widget
    const notifications: NotificationsPanel.Panel

    function State(): Snapshot
      reads this
    {
      Snapshot(isMobileMenuOpen, activeTab, isJoinModalOpen, isPremium, isLoggedIn, isLoginModalOpen,
               isSettingsOpen, settingsInitialTab, isProfileOpen, isChatOpen, isNotificationsOpen,
               selectedCourse, darkMode, searchQuery)
    }

    /** The theme is persisted and applied. The children's invariants are their own
        `Valid` predicates. */
    ghost predicate Valid()
      reads this
    {
      Theme.Synced(darkMode, storage, rootClasses)
    }

    /** The first render with the browser's `storage` and root classes, followed by the
        effects in React's order: the mount effect reads the stored theme, the sync effect
        runs for the initial `darkMode` (true), and runs again when the mount effect changed
        it. The page ends up in the stored theme, or dark when none is stored. */
    constructor (storage0: map<string, string>, rootClasses0: set<string>)
      ensures Valid() && join.Valid() && chat.Valid() && notifications.Valid()
      ensures fresh(login) && fresh(join) && fresh(settings) && fresh(chat) && fresh(notifications)
      ensures darkMode == Theme.ResolveDarkMode(Theme.StoredTheme(storage0))
      ensures storage == storage0[Theme.THEME_KEY := Theme.ThemeValue(darkMode)]
      ensures rootClasses == if darkMode then rootClasses0 + {Theme.DARK_CLASS} else rootClasses0 - {Theme.DARK_CLASS}
      ensures State() == Snapshot(false, "Overview", false, false, false, false, false, SettingsModal.DEFAULT_TAB,
                                  false, false, false, None, darkMode, "")
      ensures settings.activeTab == SettingsModal.DEFAULT_TAB
      ensures !login.loading && login.mode == LoginModal.SignIn
      ensures join.Phase() == JoinModal.Idle
      ensures chat.messages == [ChatWidget.GREETING] && chat.selectedFriend == None
      ensures notifications.notifications == NotificationsPanel.INITIAL_NOTIFICATIONS
    {
      isMobileMenuOpen := false;
      activeTab := "Overview";
      isJoinModalOpen := false;
      isPremium := false;
      isLoggedIn := false;
      isLoginModalOpen := false;
      isSettingsOpen := false;
      settingsInitialTab := SettingsModal.DEFAULT_TAB;
      isProfileOpen := false;
      isChatOpen := false;
      isNotificationsOpen := false;
      selectedCourse := None;
      darkMode := true;
      storage := storage0;
      rootClasses := rootClasses0;
      searchQuery := "";
      login := new LoginModal.Form();
      join := new JoinModal.Form();
      settings := new SettingsModal.Settings(false, SettingsModal.DEFAULT_TAB);
      chat := new ChatWidget.Widget();
      notifications := new NotificationsPanel.Panel();
      new;
      RunMountSequence();
    }

    /** The effects after the first render, which has `darkMode` true. */
    method RunMountSequence()
      requires darkMode
      modifies this
      ensures Valid()
      ensures (darkMode, storage, rootClasses) == Theme.AfterMount(old(storage), old(rootClasses))
      ensures State() == old(State()).(darkMode := darkMode)
    {
      var scheduled := RunMountEffect();
      RunSyncEffect();
      if scheduled != darkMode {
        darkMode := scheduled;
        RunSyncEffect();
      }
    }

    /** The mount effect: returns the value it passes to `setDarkMode`, which takes effect at
        the next render. */
    method RunMountEffect() returns (scheduled: bool)
      modifies this
      ensures (scheduled, rootClasses) == Theme.MountEffect(old(storage), old(rootClasses))
      ensures State() == old(State()) && storage == old(storage)
    {
      var r := Theme.MountEffect(storage, rootClasses);
      scheduled := r.0;
      rootClasses := r.1;
    }

    /** The sync effect for the current `darkMode`. */
    method RunSyncEffect()
      modifies this
      ensures (storage, rootClasses) == Theme.SyncEffect(darkMode, old(storage), old(rootClasses))
      ensures Theme.Synced(darkMode, storage, rootClasses)
      ensures State() == old(State())
    {
      var r := Theme.SyncEffect(darkMode, storage, rootClasses);
      storage := r.0;
      rootClasses := r.1;
    }

    /** `toggleDarkMode(isDark?)`; the sync effect runs when the value changed, and would
        change nothing otherwise. */
    method ToggleDarkMode(isDark: Option<bool>)
      requires Valid()
      modifies this
      ensures Valid()
      ensures darkMode == Theme.NextDarkMode(old(darkMode), isDark)
      ensures (storage, rootClasses) == Theme.SyncEffect(darkMode, old(storage), old(rootClasses))
      ensures State() == old(State()).(darkMode := darkMode)
    {
      var next := Theme.NextDarkMode(darkMode, isDark);
      if next != darkMode {
        darkMode := next;
        RunSyncEffect();
      } else {
        Theme.SyncEffectIdempotent(darkMode, storage, rootClasses);
      }
    }

    /** `handleLogout`: the session and premium flag end and the overview is shown. */
    method HandleLogout()
      modifies this
      ensures State() == old(State()).(isPremium := false, isLoggedIn := false, activeTab := "Overview",
                                       searchQuery := QueryAfterRoute(old(activeTab), "Overview", old(searchQuery)))
      ensures storage == old(storage) && rootClasses == old(rootClasses)
    {
      searchQuery := QueryAfterRoute(activeTab, "Overview", searchQuery);
      isPremium := false;
      isLoggedIn := false;
      activeTab := "Overview";
    }

    /** `handleActionRequired`, the `onAuthRequired` of every content panel: without a
        session it opens the login modal and answers true. */
    method HandleActionRequired() returns (authRequired: bool)
      modifies this
      ensures authRequired <==> !old(isLoggedIn)
      ensures State() == old(State()).(isLoginModalOpen := old(isLoginModalOpen) || !old(isLoggedIn))
      ensures storage == old(storage) && rootClasses == old(rootClasses)
    {
      if !isLoggedIn {
        isLoginModalOpen := true;
        return true;
      }
      return false;
    }

    /** A gated button of a content panel: the panel's `handleAction` with this page's
        `isLoggedIn` and `handleActionRequired`. The action runs exactly when logged in;
        otherwise the login modal opens. */
    method PanelAction() returns (runs: bool)
      modifies this
      ensures runs <==> old(isLoggedIn)
      ensures State() == old(State()).(isLoginModalOpen := old(isLoginModalOpen) || !old(isLoggedIn))
      ensures storage == old(storage) && rootClasses == old(rootClasses)
    {
      var calls := AuthGate.HandleAction(isLoggedIn, true);
      runs := AuthGate.CallbackRan(calls);
      if AuthGate.CallAuthRequired in calls {
        var _ := HandleActionRequired();
      }
    }

    /** `openSettings(tab)`. The dialog's tab was fixed when it was first rendered, so the
        requested tab is stored but not shown. */
    method OpenSettings(tab: string)
      modifies this
      ensures State() == old(State()).(settingsInitialTab := tab, isSettingsOpen := true)
      ensures settings.activeTab == old(settings.activeTab)
      ensures storage == old(storage) && rootClasses == old(rootClasses)
    {
      settingsInitialTab := tab;
      isSettingsOpen := true;
    }

    method CloseSettings()
      modifies this
      ensures State() == old(State()).(isSettingsOpen := false)
      ensures storage == old(storage) && rootClasses == old(rootClasses)
    {
      isSettingsOpen := false;
    }

    /** The dark-mode switch on the settings dialog's Preferences tab calls `toggleDarkMode`
        with no argument, which flips the theme. */
    method SettingsDarkModeClick()
      requires Valid() && isSettingsOpen && settings.Shown() == SettingsModal.PreferencesContent
      modifies this
      ensures Valid() && darkMode == !old(darkMode)
      ensures State() == old(State()).(darkMode := darkMode)
      ensures (storage, rootClasses) == Theme.SyncEffect(darkMode, old(storage), old(rootClasses))
    {
      ToggleDarkMode(None);
    }

    /** A desktop menu entry: its `setActiveTab` call switches the tab. */
    method DesktopMenuClick(i: nat)
      requires i < |Constants.MENU_ITEMS|
      modifies this
      ensures activeTab == Sidebar.MenuClick(Constants.MENU_ITEMS[i])[0].tab && IsMenuLabel(activeTab)
      ensures State() == old(State()).(activeTab := activeTab, searchQuery := QueryAfterRoute(old(activeTab), activeTab, old(searchQuery)))
      ensures storage == old(storage) && rootClasses == old(rootClasses)
    {
      var calls := Sidebar.MenuClick(Constants.MENU_ITEMS[i]);
      var tab := calls[0].tab;
      searchQuery := QueryAfterRoute(activeTab, tab, searchQuery);
      activeTab := tab;
    }

    method OpenMobileMenu()
      modifies this
      ensures State() == old(State()).(isMobileMenuOpen := true)
      ensures storage == old(storage) && rootClasses == old(rootClasses)
    {
      isMobileMenuOpen := true;
    }

    /** The backdrop or the close button of the mobile drawer. */
    method CloseMobileMenu()
      modifies this
      ensures State() == old(State()).(isMobileMenuOpen := false)
      ensures storage == old(storage) && rootClasses == old(rootClasses)
    {
      isMobileMenuOpen := false;
    }

    /** A drawer menu entry: the drawer's `setActiveTab` switches the tab and closes the
        drawer. */
    method MobileMenuClick(i: nat)
      requires isMobileMenuOpen && i < |Constants.MENU_ITEMS|
      modifies this
      ensures activeTab == Sidebar.MenuClick(Constants.MENU_ITEMS[i])[0].tab && IsMenuLabel(activeTab)
      ensures State() == old(State()).(activeTab := activeTab, isMobileMenuOpen := false,
                                       searchQuery := QueryAfterRoute(old(activeTab), activeTab, old(searchQuery)))
      ensures storage == old(storage) && rootClasses == old(rootClasses)
    {
      var calls := Sidebar.MenuClick(Constants.MENU_ITEMS[i]);
      var tab := calls[0].tab;
      searchQuery := QueryAfterRoute(activeTab, tab, searchQuery);
      activeTab := tab;
      isMobileMenuOpen := false;
    }

    /** "LIGHT" or "DARK" on either sidebar. */
    method SidebarThemeClick(dark: bool)
      requires Valid()
      modifies this
      ensures Valid() && darkMode == dark
      ensures State() == old(State()).(darkMode := darkMode)
      ensures (storage, rootClasses) == Theme.SyncEffect(darkMode, old(storage), old(rootClasses))
    {
      var calls := Sidebar.ThemeClick(DESKTOP_HANDLERS, dark);
      ToggleDarkMode(Some(calls[0].isDark));
    }

    /** "Setting" on the desktop sidebar opens the dialog asking for Preferences; on the
        mobile sidebar it has no handler. */
    method SidebarSettingClick(mobile: bool)
      requires mobile ==> isMobileMenuOpen
      modifies this
      ensures mobile ==> State() == old(State())
      ensures !mobile ==> State() == old(State()).(settingsInitialTab := SettingsModal.DEFAULT_TAB, isSettingsOpen := true)
      ensures storage == old(storage) && rootClasses == old(rootClasses)
    {
      var calls := Sidebar.SettingClick(if mobile then MOBILE_HANDLERS else DESKTOP_HANDLERS);
      if Sidebar.SettingsClick in calls {
        OpenSettings(SettingsModal.DEFAULT_TAB);
      }
    }

    /** The bottom button of either sidebar: "Logout" logs out on the desktop and does
        nothing on the mobile drawer; "Sign In" opens the login modal on both. */
    method SidebarBottomClick(mobile: bool)
      requires mobile ==> isMobileMenuOpen
      modifies this
      ensures old(isLoggedIn) && !mobile ==>
                State() == old(State()).(isPremium := false, isLoggedIn := false, activeTab := "Overview",
                                         searchQuery := QueryAfterRoute(old(activeTab), "Overview", old(searchQuery)))
      ensures old(isLoggedIn) && mobile ==> State() == old(State())
      ensures !old(isLoggedIn) ==> State() == old(State()).(isLoginModalOpen := true)
      ensures storage == old(storage) && rootClasses == old(rootClasses)
    {
      var calls := Sidebar.BottomClick(Some(isLoggedIn), if mobile then MOBILE_HANDLERS else DESKTOP_HANDLERS);
      if Sidebar.LogoutClick in calls {
        HandleLogout();
      } else if Sidebar.AuthRequired in calls {
        isLoginModalOpen := true;
      }
    }

    /** The chat button of the right sidebar. */
    method OpenChat()
      modifies this
      ensures State() == old(State()).(isChatOpen := true)
      ensures storage == old(storage) && rootClasses == old(rootClasses)
    {
      isChatOpen := true;
    }

    method CloseChat()
      modifies this
      ensures State() == old(State()).(isChatOpen := false)
      ensures storage == old(storage) && rootClasses == old(rootClasses)
    {
      isChatOpen := false;
    }

    /** The bell of the right sidebar. */
    method OpenNotifications()
      modifies this
      ensures State() == old(State()).(isNotificationsOpen := true)
      ensures storage == old(storage) && rootClasses == old(rootClasses)
    {
      isNotificationsOpen := true;
    }

    method CloseNotifications()
      modifies this
      ensures State() == old(State()).(isNotificationsOpen := false)
      ensures storage == old(storage) && rootClasses == old(rootClasses)
    {
      isNotificationsOpen := false;
    }

    /** The avatar of the right sidebar. */
    method OpenProfile()
      modifies this
      ensures State() == old(State()).(isProfileOpen := true)
      ensures storage == old(storage) && rootClasses == old(rootClasses)
    {
      isProfileOpen := true;
    }

    method CloseProfile()
      modifies this
      ensures State() == old(State()).(isProfileOpen := false)
      ensures storage == old(storage) && rootClasses == old(rootClasses)
    {
      isProfileOpen := false;
    }

    /** The dashboard currently rendered, if the route renders one. */
    function Dashboard(): (v: Option<DashboardContent.DashboardView>)
      reads this
      ensures v.Some? <==> Route(activeTab).DashboardPanel?
    {
      match Route(activeTab)
      case DashboardPanel(tab, _) => Some(DashboardContent.Render(tab, searchQuery))
      case _ => None
    }

    /** The route renders the dashboard's overview (progress cards, hero, lists). */
    predicate ShowsOverview()
      reads this
    {
      Route(activeTab).DashboardPanel? && Route(activeTab).tab == "Overview"
    }

    /** Typing in the dashboard's search box. */
    method SetSearchQuery(q: string)
      requires Route(activeTab).DashboardPanel?
      modifies this
      ensures State() == old(State()).(searchQuery := q)
      ensures storage == old(storage) && rootClasses == old(rootClasses)
    {
      searchQuery := q;
    }

    /** A progress card of the overview: it opens the course detail only on the route that
        passes `onCourseClick`; under "Settings" the click does nothing. */
    method ProgressCardClick(card: Constants.ProgressCard)
      requires ShowsOverview() && card in Constants.PROGRESS_CARDS
      modifies this
      ensures Route(old(activeTab)).courseClickable ==> State() == old(State()).(selectedCourse := Some(card))
      ensures !Route(old(activeTab)).courseClickable ==> State() == old(State())
      ensures storage == old(storage) && rootClasses == old(rootClasses)
    {
      if Route(activeTab).courseClickable {
        selectedCourse := Some(card);
      }
    }

    /** The course detail dialog is open exactly while a course is selected. */
    function CourseDetail(): (v: Option<CourseDetailModal.DetailView>)
      reads this
      ensures v.Some? <==> selectedCourse.Some?
    {
      CourseDetailModal.Render(selectedCourse, selectedCourse.Some?)
    }

    method CloseCourseDetail()
      modifies this
      ensures State() == old(State()).(selectedCourse := None)
      ensures storage == old(storage) && rootClasses == old(rootClasses)
    {
      selectedCourse := None;
    }

    /** The hero button of the overview: members who are not premium get the join modal,
        premium members are scrolled to "Continue Watching" (no state changes). */
    method HeroClick()
      requires ShowsOverview()
      modifies this
      ensures State() == old(State()).(isJoinModalOpen := old(isJoinModalOpen) || !old(isPremium))
      ensures storage == old(storage) && rootClasses == old(rootClasses)
    {
      if DashboardContent.HeroButton(isPremium) == DashboardContent.JoinClick {
        isJoinModalOpen := true;
      }
    }

    /** Submitting the login form. */
    method LoginSubmit()
      requires isLoginModalOpen && !login.loading
      modifies login
      ensures login.loading && login.mode == old(login.mode)
    {
      login.Submit();
    }

    /** The login timer: `onLoginSuccess` starts the session, `onClose` hides the modal. */
    method LoginTimerFires()
      requires login.loading
      modifies this, login
      ensures !login.loading
      ensures State() == old(State()).(isLoggedIn := true, isLoginModalOpen := false)
      ensures storage == old(storage) && rootClasses == old(rootClasses)
    {
      var calls := login.TimerFires();
      if LoginModal.OnLoginSuccess in calls {
        isLoggedIn := true;
      }
      if LoginModal.OnClose in calls {
        isLoginModalOpen := false;
      }
    }

    method CloseLogin()
      modifies this
      ensures State() == old(State()).(isLoginModalOpen := false)
      ensures storage == old(storage) && rootClasses == old(rootClasses)
    {
      isLoginModalOpen := false;
    }

    /** Submitting the join form. */
    method JoinSubmit()
      requires isJoinModalOpen && join.Valid() && join.Phase() == JoinModal.Idle
      modifies join
      ensures join.Valid() && join.Phase() == JoinModal.Loading
    {
      join.Submit();
    }

    method JoinFirstTimerFires()
      requires join.Valid() && join.Phase() == JoinModal.Loading
      modifies join
      ensures join.Valid() && join.Phase() == JoinModal.Succeeded
    {
      join.FirstTimerFires();
    }

    /** The second join timer: `onJoin` makes the visitor premium (the name it passes is not
        used) and `onClose` hides the modal. */
    method JoinSecondTimerFires()
      requires join.Valid() && join.Phase() == JoinModal.Succeeded
      modifies this, join
      ensures join.Valid() && join.Phase() == JoinModal.Idle
      ensures State() == old(State()).(isPremium := true, isJoinModalOpen := false)
      ensures storage == old(storage) && rootClasses == old(rootClasses)
    {
      var calls := join.SecondTimerFires();
      if JoinModal.OnJoin(JoinModal.NEW_MEMBER_NAME) in calls {
        isPremium := true;
      }
      if JoinModal.OnClose in calls {
        isJoinModalOpen := false;
      }
    }

    method CloseJoin()
      modifies this
      ensures State() == old(State()).(isJoinModalOpen := false)
      ensures storage == old(storage) && rootClasses == old(rootClasses)
    {
      isJoinModalOpen := false;
    }

    /** Sending in the chat, whose form exists only while the widget is open on a friend. */
    method ChatSend()
      requires chat.Valid() && isChatOpen && chat.selectedFriend.Some?
      modifies chat
      ensures chat.Valid()
      ensures chat.messages == ChatWidget.AfterSend(old(chat.messages), old(chat.inputText))
    {
      chat.Send();
    }

    /** "Mark all as read" in the open notifications panel. */
    method MarkAllNotificationsRead()
      requires notifications.Valid() && isNotificationsOpen
      modifies notifications
      ensures notifications.Valid()
      ensures notifications.notifications == NotificationsPanel.MarkedAllRead(old(notifications.notifications))
    {
      notifications.MarkAllRead();
    }
  }
}
