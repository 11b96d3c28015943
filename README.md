# Coursue dashboard — a Dafny model

Coursue is a single-page course dashboard written as React components. It has:

- a left sidebar with a menu (Overview, Lesson, Task, Group, Courses);
- a light/dark theme switch, a settings entry and a logout / sign-in button;
- a right sidebar with mentors to follow, plus chat, notification and profile buttons;
- a content area that shows one panel for the active tab:
  - the dashboard overview, with search, progress cards and a premium hero button;
  - the lesson list with filters;
  - a three-column task board with an add-task dialog;
  - study groups with a create-group dialog;
  - a course store with a checkout dialog;
  - an inbox;
- overlays: login, join-premium, settings, course detail, chat widget and notifications.

Guest visitors are asked to log in before "protected" actions run.

This project models that behaviour in Dafny. It follows these conventions:

- One module per component file. The repeated `handleAction` guard is the `AuthGate` module, and the theme logic is the `Theme` module. Shared helpers are `Wrappers` (Option), `Seqs` (filter and subsequence) and `Text`. `Text` covers ASCII lower-casing, JavaScript `includes` and `trim`, and decimal rendering.
- Component state that the UI updates in place (`useState`) is a `class` with mutable fields. Each event handler is a `method` that states the component's whole new state.
- `Page.Home` is the top-level page.
  - The overlays that are always mounted are `const` children of `Page.Home`: login, join, settings, chat and notifications.
  - Content panels are separate classes, because switching tabs unmounts them: `TaskContent.Board`, `GroupContent.Community`, `CourseStoreContent.Store`, `LessonContent.Lessons` and `InboxContent.Inbox`. The parent's `isLoggedIn` and the presence of `onAuthRequired` are method parameters.
- A callback prop that a component invokes is returned as a sequence of calls, e.g. `[OnAdd(task), OnClose]`. The order and the number of calls are part of the contract.
- Side effects are modelled as follows:
  - Each `setTimeout` callback is an explicit event method (`TimerFires`, `AutoReply`, ...). Its precondition says that such a timer is pending.
  - `localStorage` is a `map<string, string>`.
  - The root element's class list is a `set<string>`.
  - `Date.now()` becomes a `now: int` parameter, and `Math.random()` becomes a chosen index `pick`.
- Course ratings such as 4.8 are integer tenths (48).

## Model

| member | source | states |
|---|---|---|
| Seqs.Filter | coursue/components/DashboardContent.tsx:42-50 | a filtered list is no longer than its input and every kept element satisfies the predicate |
| Seqs.FilterSpec | coursue/components/DashboardContent.tsx:42-50 | `Array.filter` keeps the input order (its result is a subsequence), and keeps each element exactly as often as the input has it when it matches, never otherwise |
| Seqs.FilterAll | coursue/components/DashboardContent.tsx:42-50 | filtering with a predicate that every element satisfies returns the list unchanged |
| Seqs.FilterEmpty | coursue/components/DashboardContent.tsx:144 | a filter result is empty exactly when no element matches |
| Seqs.FilterAppend | coursue/components/RightSidebar.tsx:20 | filtering a concatenation is the concatenation of the filtered parts, so appending a rejected element changes no filter result |
| Text.LowerChar | coursue/components/DashboardContent.tsx:43 | `toLowerCase` restricted to ASCII: maps `A`-`Z` to `a`-`z`, leaves every other character alone, and never yields an upper-case letter |
| Text.Lower | coursue/components/DashboardContent.tsx:43-49 | lower-casing keeps the length and lower-cases each character in place |
| Text.IncludesIffOccurs | coursue/components/DashboardContent.tsx:43-49 | `includes` holds exactly when the needle occurs at some position of the haystack |
| Text.IncludesEmpty | coursue/components/DashboardContent.tsx:43-49 | every string includes the empty query, so an empty search matches everything |
| Text.TrimStart | coursue/components/ChatWidget.tsx:23 | trimming the front yields a suffix of the input that starts with a non-whitespace character (or is empty) |
| Text.TrimEnd | coursue/components/ChatWidget.tsx:23 | trimming the end yields a prefix of the input that ends with a non-whitespace character (or is empty) |
| Text.TrimEmptyIffBlank | coursue/components/ChatWidget.tsx:23 | `trim()` returns the empty (falsy) string exactly when the input consists only of whitespace |
| Text.TrimStartEmptyIffBlank | coursue/components/ChatWidget.tsx:23 | trimming the front empties the string exactly when it is all whitespace |
| Text.TrimEndKeepsNonBlankHead | coursue/components/ChatWidget.tsx:23 | a string that starts with a non-whitespace character is not emptied by trimming its end |
| Text.DigitChar | coursue/components/CourseDetailModal.tsx:186 | a digit below ten is rendered as a character between `0` and `9` |
| Text.DecimalString | coursue/components/CourseDetailModal.tsx:186 | a number is rendered as a non-empty string of decimal digits with no leading zero |
| Text.DecimalRoundTrip | coursue/components/CourseDetailModal.tsx:186 | reading back the rendered decimal digits gives the original number |
| Theme.StoredTheme | coursue/app/page.tsx:45 | `localStorage.getItem('theme')` is present exactly when the key is stored, and then it is the stored value |
| Theme.ResolveDarkMode | coursue/app/page.tsx:46-47 | the page is light exactly when the saved theme is `"light"`; with nothing saved it is dark |
| Theme.ThemeValue | coursue/app/page.tsx:57-65 | the persisted value is `"dark"` or `"light"`, and resolving it gives back the mode that was written |
| Theme.NextDarkMode | coursue/app/page.tsx:67-69 | `toggleDarkMode(v)` sets the mode to `v`, and `toggleDarkMode()` flips it |
| Theme.ExplicitToggleIdempotent | coursue/app/page.tsx:67-69 | choosing the same explicit mode twice has the effect of choosing it once |
| Theme.PlainToggleInvolutive | coursue/app/page.tsx:67-69 | two plain toggles restore the previous mode |
| Theme.PersistedThemeRoundTrip | coursue/app/page.tsx:44-65 | once storage is synced with a mode, a reload resolves that same mode from storage |
| Theme.MountEffect | coursue/app/page.tsx:44-53 | the mount effect reads the mode from storage, puts `dark` in the class list exactly when that mode is dark, and leaves every other class alone |
| Theme.SyncEffect | coursue/app/page.tsx:57-65 | the sync effect leaves mode, storage and class list in agreement, and touches no other storage key and no other class |
| Theme.SyncEffectIdempotent | coursue/app/page.tsx:57-65 | re-running the sync effect on an already synced state changes nothing |
| Theme.AfterMount | coursue/app/page.tsx:41-65 | after the first render and its effects, the mode is the one stored (dark when none), storage holds exactly that theme under `theme`, `dark` is in the class list exactly when the mode is dark, and all three agree |
| AuthGate.HandleAction | coursue/components/TaskContent.tsx:31-37 | a guarded action makes exactly one call: the callback when logged in or when no `onAuthRequired` is given, otherwise `onAuthRequired` |
| DashboardContent.FilteredWatchList | coursue/components/DashboardContent.tsx:42-45 | the shown watch list keeps the catalogue order and holds exactly the items whose title or category contains the query, case-insensitively |
| DashboardContent.FilteredLessons | coursue/components/DashboardContent.tsx:47-50 | the shown lessons keep the catalogue order and hold exactly those whose title or mentor contains the query, case-insensitively |
| DashboardContent.Render | coursue/components/DashboardContent.tsx:30-50 | a tab other than "Overview" shows a placeholder titled with the tab; "Overview" shows the two filtered lists |
| DashboardContent.NoCoursesMessageIff | coursue/components/DashboardContent.tsx:144-145 | the "No courses found" message is shown exactly when no watch-list item matches the query |
| DashboardContent.EmptyQueryShowsEverything | coursue/components/DashboardContent.tsx:20-50 | with the initial empty search, both lists are shown in full |
| DashboardContent.HeroButton | coursue/components/DashboardContent.tsx:91 | the hero button scrolls to the dashboard for premium users and opens the join dialog for everyone else |
| LessonContent.Insert | coursue/components/LessonContent.tsx:37 | inserting into the sorted list adds exactly that one course |
| LessonContent.SortDescBy | coursue/components/LessonContent.tsx:36-39 | sorting returns a permutation of the courses |
| LessonContent.InsertSorted | coursue/components/LessonContent.tsx:37 | inserting into a list sorted by descending key keeps it sorted |
| LessonContent.SortSorted | coursue/components/LessonContent.tsx:37 | the sorted list is in descending order of the key, as the comparator `b - a` asks |
| LessonContent.InsertStrict | coursue/components/LessonContent.tsx:39 | inserting a new key into a strictly descending list keeps it strictly descending |
| LessonContent.SortStrict | coursue/components/LessonContent.tsx:39 | with distinct keys, the sorted list is strictly descending |
| LessonContent.InsertStable | coursue/components/LessonContent.tsx:37 | the inserted course goes before the existing courses with the same key |
| LessonContent.SortStable | coursue/components/LessonContent.tsx:37 | the sort is stable: courses with equal ratings keep their original relative order, as `Array.sort` guarantees |
| LessonContent.FilterCourses | coursue/components/LessonContent.tsx:33-45 | "Popular" is a stable permutation sorted by descending rating; "Newest" is a stable permutation sorted by descending id, strictly descending when ids are distinct; "Completed" keeps, in order, exactly the courses at 100 %; any other filter shows the list unchanged |
| LessonContent.NewestIsStrictlyById | coursue/components/LessonContent.tsx:38-39 | on the real catalogue, "Newest" lists every course once, newest id first |
| LessonContent.ShownCoursesComeFromCourses | coursue/components/LessonContent.tsx:33-45 | every filter shows only courses from the catalogue |
| LessonContent.FilterCoursesShows | coursue/components/LessonContent.tsx:33-45 | for a list with distinct ids: "All" shows it as listed, "Popular" and "Newest" show every course ordered by descending rating (stable) or strictly descending id, and "Completed" shows exactly the finished courses in list order |
| LessonContent.ShownFilters | coursue/components/LessonContent.tsx:8-45 | the same facts for the real catalogue, whose ids are distinct |
| LessonContent.CourseIdsDistinct | coursue/components/LessonContent.tsx:8-15 | the catalogue's course ids are pairwise distinct |
| LessonContent.Lessons.constructor | coursue/components/LessonContent.tsx:23 | the lesson panel opens on the "All" filter |
| LessonContent.Lessons.SetActiveFilter | coursue/components/LessonContent.tsx:52-55 | clicking a filter chip makes it the active filter |
| LessonContent.Lessons.Shown | coursue/components/LessonContent.tsx:33-45 | "All" shows the catalogue as listed; "Popular" every course by descending rating, equal ratings in catalogue order; "Newest" every course in strictly decreasing id; "Completed" exactly the finished courses, in catalogue order |
| LessonContent.Lessons.PlayClick | coursue/components/LessonContent.tsx:88 | the play button goes through the auth gate, and its action runs exactly when logged in or unguarded |
| AddTaskModal.SubmitCalls | coursue/components/AddTaskModal.tsx:20-29 | submitting does nothing while title, course or time is empty; otherwise it calls `onAdd` with the entered task and then `onClose` |
| AddTaskModal.ClearedFormDoesNotSubmit | coursue/components/AddTaskModal.tsx:15-29 | a freshly cleared form submits nothing |
| AddTaskModal.Form.constructor | coursue/components/AddTaskModal.tsx:15-18 | the form starts empty with priority "medium" |
| AddTaskModal.Form.SetTitle | coursue/components/AddTaskModal.tsx:71 | typing a title changes only the title |
| AddTaskModal.Form.SetCourse | coursue/components/AddTaskModal.tsx:87 | typing a course changes only the course |
| AddTaskModal.Form.SetTime | coursue/components/AddTaskModal.tsx:101 | typing a time changes only the time |
| AddTaskModal.Form.SetPriority | coursue/components/AddTaskModal.tsx:114-118 | clicking a priority button selects that priority and changes nothing else |
| AddTaskModal.Form.Submit | coursue/components/AddTaskModal.tsx:20-29 | a rejected submit leaves the form as it was; an accepted one reports the entered task and resets the form to empty with priority "medium" |
| TaskContent.AddTask | coursue/components/TaskContent.tsx:39-48 | a new task is appended at the end of "To Do" with id `now` and the entered fields; the other columns are unchanged and the board holds one task more |
| TaskContent.AddTaskKeepsOrder | coursue/components/TaskContent.tsx:39-48 | two added tasks appear at the end of "To Do" in the order they were added |
| TaskContent.Board.constructor | coursue/components/TaskContent.tsx:28-29 | the board starts with the initial tasks, the dialog closed and its form empty |
| TaskContent.Board.HeaderAddClick | coursue/components/TaskContent.tsx:31-37 | the header's add button opens the dialog exactly when the auth gate lets it through, and it never changes the tasks |
| TaskContent.Board.DashedAddClick | coursue/components/TaskContent.tsx:114 | the dashed add button opens the dialog without the auth gate |
| TaskContent.Board.CloseModal | coursue/components/TaskContent.tsx:54 | closing the dialog keeps the tasks |
| TaskContent.Board.HandleAddTask | coursue/components/TaskContent.tsx:39-48 | the `onAdd` callback adds the task as `AddTask` describes |
| TaskContent.Board.SubmitModal | coursue/components/TaskContent.tsx:39-56 | submitting the dialog adds the task and closes the dialog exactly when all three fields are filled; otherwise nothing changes and the dialog stays open |
| CreateGroupModal.SubmitCalls | coursue/components/CreateGroupModal.tsx:27-37 | submitting does nothing while the name is empty; otherwise it calls `onCreate` with the name, the category and one of the four default images, then `onClose` |
| CreateGroupModal.SubmitDependsOnDrawOnlyThroughImage | coursue/components/CreateGroupModal.tsx:27-37 | the random draw affects only the chosen image, never whether or what else is submitted |
| CreateGroupModal.Form.constructor | coursue/components/CreateGroupModal.tsx:24-25 | the form starts with an empty name and category "Design" |
| CreateGroupModal.Form.SetName | coursue/components/CreateGroupModal.tsx:82 | typing a name changes only the name |
| CreateGroupModal.Form.SetCategory | coursue/components/CreateGroupModal.tsx:94-98 | clicking a category selects it and keeps the name |
| CreateGroupModal.Form.Submit | coursue/components/CreateGroupModal.tsx:27-37 | a rejected submit leaves the form as it was; an accepted one resets it to an empty name and "Design" |
| GroupContent.CreateGroup | coursue/components/GroupContent.tsx:36-44 | a new group goes in front of the existing groups, with id `now`, one member, one active member and the entered name, category and image |
| GroupContent.CreateGroupNewestFirst | coursue/components/GroupContent.tsx:36-44 | after two creations the later group is first, then the earlier one, then the old list |
| GroupContent.Community.constructor | coursue/components/GroupContent.tsx:25-26 | the panel starts with the initial groups, the dialog closed and its form empty |
| GroupContent.Community.CreateGroupClick | coursue/components/GroupContent.tsx:28-34 | "Create group" opens the dialog exactly when the auth gate lets it through, and it never changes the groups |
| GroupContent.Community.CloseModal | coursue/components/GroupContent.tsx:48-52 | closing the dialog keeps the groups |
| GroupContent.Community.HandleCreateGroup | coursue/components/GroupContent.tsx:36-44 | the `onCreate` callback adds the group as `CreateGroup` describes |
| GroupContent.Community.SubmitModal | coursue/components/GroupContent.tsx:36-52 | submitting the dialog creates the group and closes the dialog exactly when a name is entered; otherwise nothing changes |
| CheckoutModal.SubmitStep | coursue/components/CheckoutModal.tsx:29-31 | submitting the form moves to "processing" and owes exactly one more purchase |
| CheckoutModal.Fire | coursue/components/CheckoutModal.tsx:32-39 | the first timer moves to "success", the second calls `onSuccess` then `onClose` and settles the owed purchase, and the third returns to the form with no timer left |
| CheckoutModal.Run | coursue/components/CheckoutModal.tsx:20-40 | over any sequence of submits and timer firings: `onSuccess` and `onClose` always come in pairs, each accepted submit leads to exactly one pair (done or still owed), and no more submits are accepted than were made |
| CheckoutModal.OnePurchaseCycle | coursue/components/CheckoutModal.tsx:29-40 | a submit followed by the three timers reports one purchase and ends back on the form with nothing pending |
| CheckoutModal.NoSubmitWhileProcessing | coursue/components/CheckoutModal.tsx:29-40 | while a purchase is owed, the form is not shown, so no second purchase can start |
| CheckoutModal.Checkout.constructor | coursue/components/CheckoutModal.tsx:20-25 | the checkout starts on the form with no timer pending |
| CheckoutModal.Checkout.HandleSubmit | coursue/components/CheckoutModal.tsx:29-31 | the submit handler performs `SubmitStep` |
| CheckoutModal.Checkout.TimerFires | coursue/components/CheckoutModal.tsx:32-39 | a timer firing performs `Fire` and reports its calls |
| CourseStoreContent.Store.constructor | coursue/components/CourseStoreContent.tsx:73-74 | the store starts with no course selected and the checkout closed |
| CourseStoreContent.Store.BuyNow | coursue/components/CourseStoreContent.tsx:76-83 | a guest's "Buy now" only asks for login; a logged-in user selects the course and sees the checkout dialog |
| CourseStoreContent.Store.CloseCheckout | coursue/components/CourseStoreContent.tsx:87-89 | closing the checkout keeps the selected course |
| CourseStoreContent.Store.SubmitCheckout | coursue/components/CourseStoreContent.tsx:87-94 | submitting the visible checkout performs its submit step |
| CourseStoreContent.Store.CheckoutTimer | coursue/components/CourseStoreContent.tsx:87-94 | a checkout timer performs `Fire`; the dialog closes exactly when that fire calls `onClose`, and the selection stays |
| NotificationsPanel.MarkedAllRead | coursue/components/NotificationsPanel.tsx:22-24 | "Mark all as read" keeps every notification and its order, and only sets each one's read flag |
| NotificationsPanel.UnreadCount | coursue/components/NotificationsPanel.tsx:89-91 | the number of unread dots is the number of notifications not yet read (the length of the list filtered to the unread ones) |
| NotificationsPanel.UnreadCountZeroIff | coursue/components/NotificationsPanel.tsx:89-91 | no unread marker is shown exactly when every notification is read |
| NotificationsPanel.MarkAllReadClearsAndIsIdempotent | coursue/components/NotificationsPanel.tsx:22-24 | after "Mark all as read" no unread marker remains, and pressing it again changes nothing |
| NotificationsPanel.InitialUnread | coursue/components/NotificationsPanel.tsx:13-17 | the panel starts with two unread notifications |
| NotificationsPanel.NeverEmpty | coursue/components/NotificationsPanel.tsx:20-59 | nothing removes notifications, so the "no notifications" message is never shown |
| NotificationsPanel.Panel.constructor | coursue/components/NotificationsPanel.tsx:20 | the panel starts with the initial notifications |
| NotificationsPanel.Panel.MarkAllRead | coursue/components/NotificationsPanel.tsx:22-24 | the button replaces the list by its all-read version |
| RightSidebar.RemoveAll | coursue/components/RightSidebar.tsx:20 | `prev.filter(n => n !== name)` drops every occurrence of the name and keeps every other name, in its order and with its multiplicity |
| RightSidebar.Toggled | coursue/components/RightSidebar.tsx:18-22 | `toggleFollow` makes the name followed exactly when it was not, and leaves whether any other name is followed unchanged; a name not yet followed is appended at the end |
| RightSidebar.RemoveAbsent | coursue/components/RightSidebar.tsx:20 | removing a name that is not followed changes nothing |
| RightSidebar.RemoveAllAppend | coursue/components/RightSidebar.tsx:20 | following a name and then unfollowing it leaves the other names as they were |
| RightSidebar.RemoveAllIdempotent | coursue/components/RightSidebar.tsx:20 | unfollowing twice equals unfollowing once |
| RightSidebar.RemoveAllKeepsNoDup | coursue/components/RightSidebar.tsx:20 | unfollowing keeps the list free of duplicates |
| RightSidebar.ToggleSpec | coursue/components/RightSidebar.tsx:18-22 | the toggle follows the name exactly when it was not followed and leaves every other name as it was |
| RightSidebar.ToggleKeepsNoDup | coursue/components/RightSidebar.tsx:18-22 | toggling never introduces a duplicate name |
| RightSidebar.ToggleTwice | coursue/components/RightSidebar.tsx:18-22 | two toggles restore the list when the name was not followed, and move it to the end when it was |
| RightSidebar.FollowLabel | coursue/components/RightSidebar.tsx:153-161 | the button reads "Followed" exactly for a followed mentor and "+ Follow" otherwise |
| RightSidebar.Mentors.constructor | coursue/components/RightSidebar.tsx:16 | no mentor is followed at first |
| RightSidebar.Mentors.ToggleFollow | coursue/components/RightSidebar.tsx:18-22 | clicking a mentor's button toggles that mentor, keeps the list duplicate-free and always changes the button's label |
| ChatWidget.AfterSend | coursue/components/ChatWidget.tsx:21-26 | sending a blank input leaves the conversation unchanged; any other input is appended as the user's message |
| ChatWidget.CountFrom | coursue/components/ChatWidget.tsx:16-31 | the count for a sender is the number of messages in the thread whose sender it is (the length of the thread filtered to that sender) |
| ChatWidget.CountFromAppend | coursue/components/ChatWidget.tsx:25-30 | appending a message adds one to its sender's count only |
| ChatWidget.Widget.constructor | coursue/components/ChatWidget.tsx:15-19 | the widget starts with no friend selected, the greeting as the only message, an empty input and no reply pending |
| ChatWidget.Widget.SelectFriend | coursue/components/ChatWidget.tsx:81-84 | choosing a friend opens that conversation and changes nothing else |
| ChatWidget.Widget.Back | coursue/components/ChatWidget.tsx:47 | "Back" returns to the friend list and keeps the conversation |
| ChatWidget.Widget.SetInput | coursue/components/ChatWidget.tsx:110 | typing changes only the input |
| ChatWidget.Widget.Send | coursue/components/ChatWidget.tsx:21-32 | a non-blank send appends the message, clears the input and schedules one auto-reply; a blank send changes nothing; every reply is answered, counting pending ones |
| ChatWidget.Widget.AutoReply | coursue/components/ChatWidget.tsx:29-31 | a pending auto-reply appends the fixed answer and is no longer pending |
| ChatWidget.Widget.AllAnswered | coursue/components/ChatWidget.tsx:16-32 | once no reply is pending, the other side has sent exactly one message more than the user: the greeting plus one answer per sent message |
| InboxContent.Find | coursue/components/InboxContent.tsx:97-99 | `find` returns nothing exactly when no conversation has the id, and otherwise the first one with that id |
| InboxContent.FindById | coursue/components/InboxContent.tsx:97-99 | with distinct ids, looking up a conversation's id finds that conversation |
| InboxContent.OneHighlighted | coursue/components/InboxContent.tsx:56-59 | exactly one conversation in the list is highlighted as active |
| InboxContent.Inbox.constructor | coursue/components/InboxContent.tsx:21-22 | the inbox starts on the list view with the first conversation active |
| InboxContent.Inbox.SelectChat | coursue/components/InboxContent.tsx:24-27 | selecting a conversation makes it active and switches to the chat view |
| InboxContent.Inbox.BackToList | coursue/components/InboxContent.tsx:92 | "back" shows the list and keeps the active conversation |
| InboxContent.Inbox.Active | coursue/components/InboxContent.tsx:97-99 | the chat header always finds the active conversation in the list |
| CourseDetailModal.ModuleTitle | coursue/components/CourseDetailModal.tsx:175-187 | the first titles come from the fixed list; later modules are titled "Lesson" followed by the module number, which reads back as that number |
| CourseDetailModal.Modules | coursue/components/CourseDetailModal.tsx:77-96 | the dialog lists one module per lesson, numbered from 1; exactly those before `watched` are completed and the one at `watched` is current |
| CourseDetailModal.CurrentModule | coursue/components/CourseDetailModal.tsx:77-79 | at most one module is current, and one is current exactly when the course is unfinished |
| CourseDetailModal.Percent | coursue/components/CourseDetailModal.tsx:131 | the progress ring shows `watched / total` as a percentage rounded half up |
| CourseDetailModal.Render | coursue/components/CourseDetailModal.tsx:20-135 | the dialog is shown exactly when open with a course, and then shows that course's title, its `Modules` list and its `Percent` |
| CourseDetailModal.ProgressCardsDetail | coursue/components/CourseDetailModal.tsx:77-135 | for each progress card (2 of 8 lessons), the detail shows 8 modules, module 3 current and 25 % |
| SettingsModal.Settings.constructor | coursue/components/SettingsModal.tsx:34-43 | the dialog starts on the tab given at mount, notifications on, 2FA off, security score 75 |
| SettingsModal.Settings.ClickTab | coursue/components/SettingsModal.tsx:79 | clicking a tab shows it and keeps the toggles |
| SettingsModal.Settings.ToggleNotifications | coursue/components/SettingsModal.tsx:137-142 | the notifications switch flips only the notifications setting |
| SettingsModal.Settings.Toggle2FA | coursue/components/SettingsModal.tsx:238 | the 2FA switch flips only the 2FA setting |
| SettingsModal.Settings.Shown | coursue/components/SettingsModal.tsx:123-181 | the preferences pane shows exactly on "Preferences", the security pane exactly on "Security", and nothing for any other tab |
| Sidebar.PropOrTrue | coursue/components/Sidebar.tsx:28-29 | an omitted `isLoggedIn` or `darkMode` prop defaults to true |
| Sidebar.MenuClick | coursue/components/Sidebar.tsx:43-53 | a menu entry makes exactly one `setActiveTab` call, and its tab is the one that draws that entry as active |
| Sidebar.AtMostOneHighlighted | coursue/components/Sidebar.tsx:43-53 | menu labels are distinct, so at most one menu item is highlighted |
| Sidebar.MenuClickHighlightsOnlyClicked | coursue/components/Sidebar.tsx:43-53 | after a menu click the clicked entry is the only one drawn as active |
| Sidebar.ThemeClick | coursue/components/Sidebar.tsx:110-120 | the LIGHT and DARK buttons call `toggleDarkMode(false)` and `toggleDarkMode(true)` when that prop is given, and do nothing otherwise |
| Sidebar.SettingClick | coursue/components/Sidebar.tsx:134 | the settings button calls `onSettingsClick` exactly when that prop is given |
| Sidebar.BottomClick | coursue/components/Sidebar.tsx:141 | the bottom button calls `onLogoutClick` when logged in and `onAuthRequired` otherwise, each only if given, and never both |
| Sidebar.BottomLabel | coursue/components/Sidebar.tsx:147-150 | the bottom button reads "Logout" when logged in and "Sign In" otherwise |
| Sidebar.ShownFriends | coursue/components/Sidebar.tsx:75-81 | the friends list is shown in full to logged-in users and hidden from guests |
| Sidebar.SelectedTheme | coursue/components/Sidebar.tsx:104 | the theme slider sits on DARK exactly in dark mode |
| LoginModal.OtherMode | coursue/components/LoginModal.tsx:64-129 | the sign-in / sign-up link always switches the mode, and with it both the heading and the submit button text |
| LoginModal.OtherModeInvolutive | coursue/components/LoginModal.tsx:124-129 | switching twice returns to the original mode |
| LoginModal.Form.constructor | coursue/components/LoginModal.tsx:15-16 | the form starts in sign-in mode, not loading |
| LoginModal.Form.Submit | coursue/components/LoginModal.tsx:18-20 | submitting starts loading and keeps the mode |
| LoginModal.Form.TimerFires | coursue/components/LoginModal.tsx:21-25 | when the timer fires, loading stops and the modal calls `onLoginSuccess` then `onClose` |
| LoginModal.Form.ToggleMode | coursue/components/LoginModal.tsx:126 | the switch link flips the mode and keeps the loading flag |
| JoinModal.PhaseOf | coursue/components/JoinModal.tsx:14-15 | the dialog is idle exactly when it is neither loading nor showing success |
| JoinModal.Form.constructor | coursue/components/JoinModal.tsx:14-15 | the dialog starts idle |
| JoinModal.Form.Submit | coursue/components/JoinModal.tsx:17-19 | joining starts loading |
| JoinModal.Form.FirstTimerFires | coursue/components/JoinModal.tsx:20-23 | the first timer ends loading and shows success |
| JoinModal.Form.SecondTimerFires | coursue/components/JoinModal.tsx:24-29 | the second timer calls `onJoin` with the new member's name then `onClose`, and resets the dialog to idle |
| Page.Route | coursue/app/page.tsx:98-124 | each of "Task", "Inbox", "Lesson", "Group" and "Courses" shows its own panel; "Settings" shows the overview without course clicks; any other tab shows the dashboard for that tab |
| Page.MenuRoutes | coursue/app/page.tsx:98-124 | no menu item leads to the inbox, and the only menu item that shows the dashboard is "Overview", which shows the full overview |
| Page.QueryAfterRoute | coursue/app/page.tsx:98-124 | the dashboard's search survives a tab change only while the dashboard stays mounted, and is reset otherwise |
| Page.Home.constructor | coursue/app/page.tsx:25-65 | the page starts on "Overview", logged out, not premium, with every overlay closed; the theme is resolved from storage and storage and classes are synced to it |
| Page.Home.RunMountSequence | coursue/app/page.tsx:41-65 | the mount effect followed by the sync effects yields exactly the state `Theme.AfterMount` describes |
| Page.Home.RunMountEffect | coursue/app/page.tsx:44-53 | the mount effect schedules the stored mode and updates only the `dark` class |
| Page.Home.RunSyncEffect | coursue/app/page.tsx:57-65 | the sync effect brings storage and classes in line with the mode and changes no page state |
| Page.Home.ToggleDarkMode | coursue/app/page.tsx:57-69 | toggling sets the mode as `NextDarkMode` says and keeps storage and classes synced with it |
| Page.Home.HandleLogout | coursue/app/page.tsx:78-82 | logging out clears login and premium and returns to "Overview", changing nothing else |
| Page.Home.HandleActionRequired | coursue/app/page.tsx:84-90 | a guest is shown the login dialog and told auth is required; a logged-in user is not, and nothing changes |
| Page.Home.PanelAction | coursue/app/page.tsx:84-104 | a guarded panel action runs exactly when logged in, and otherwise opens the login dialog |
| Page.Home.OpenSettings | coursue/app/page.tsx:92-95 | opening settings records the tab and opens the dialog, but the dialog keeps the tab it had (see Left out) |
| Page.Home.CloseSettings | coursue/app/page.tsx:143 | closing settings changes only its open flag |
| Page.Home.SettingsDarkModeClick | coursue/components/SettingsModal.tsx:150 | the settings dark-mode switch flips the mode and keeps storage and classes synced |
| Page.Home.DesktopMenuClick | coursue/app/page.tsx:167-177 | a desktop menu click applies the entry's `setActiveTab` call, so the new tab is a menu label, and the search survives only as `QueryAfterRoute` says |
| Page.Home.OpenMobileMenu | coursue/app/page.tsx:185 | the menu button opens the mobile drawer |
| Page.Home.CloseMobileMenu | coursue/app/page.tsx:210-221 | the backdrop and the close button close the drawer |
| Page.Home.MobileMenuClick | coursue/app/page.tsx:226-237 | a drawer menu click applies the entry's `setActiveTab` call, switching to a menu label and closing the drawer |
| Page.Home.SidebarThemeClick | coursue/app/page.tsx:176-236 | either sidebar's theme buttons set the chosen mode and keep storage and classes synced |
| Page.Home.SidebarSettingClick | coursue/app/page.tsx:171-237 | the desktop settings button opens settings on "Preferences"; the drawer's does nothing, because no handler is passed to it |
| Page.Home.SidebarBottomClick | coursue/app/page.tsx:172-233 | a guest's bottom button opens login; a logged-in user's logs out on desktop and does nothing in the drawer |
| Page.Home.OpenChat | coursue/app/page.tsx:197 | the chat button opens the chat widget |
| Page.Home.CloseChat | coursue/app/page.tsx:159 | closing the chat widget changes only its flag |
| Page.Home.OpenNotifications | coursue/app/page.tsx:198 | the bell opens the notifications panel |
| Page.Home.CloseNotifications | coursue/app/page.tsx:163 | closing the notifications panel changes only its flag |
| Page.Home.OpenProfile | coursue/app/page.tsx:199 | the avatar opens the profile dialog |
| Page.Home.CloseProfile | coursue/app/page.tsx:150 | closing the profile dialog changes only its flag |
| Page.Home.Dashboard | coursue/app/page.tsx:105-122 | the dashboard is shown exactly when the route is a dashboard route |
| Page.Home.SetSearchQuery | coursue/components/DashboardContent.tsx:20 | typing in the dashboard search changes only the query |
| Page.Home.ProgressCardClick | coursue/app/page.tsx:105-121 | clicking a progress card selects it on the real "Overview" tab and does nothing on the "Settings" route, which passes no `onCourseClick` |
| Page.Home.CourseDetail | coursue/app/page.tsx:152-156 | the course detail dialog is shown exactly while a course is selected |
| Page.Home.CloseCourseDetail | coursue/app/page.tsx:155 | closing the course detail clears the selection |
| Page.Home.HeroClick | coursue/app/page.tsx:108-112 | the hero button opens the join dialog exactly for non-premium users |
| Page.Home.LoginSubmit | coursue/components/LoginModal.tsx:18-20 | submitting login starts loading |
| Page.Home.LoginTimerFires | coursue/app/page.tsx:133-134 | when the login timer fires the user is logged in and the login dialog closes, and nothing else changes |
| Page.Home.CloseLogin | coursue/app/page.tsx:133 | closing login changes only its open flag |
| Page.Home.JoinSubmit | coursue/components/JoinModal.tsx:17-19 | joining starts the join dialog's loading phase |
| Page.Home.JoinFirstTimerFires | coursue/components/JoinModal.tsx:20-23 | the first join timer shows success |
| Page.Home.JoinSecondTimerFires | coursue/app/page.tsx:138-139 | the second join timer makes the user premium and closes the join dialog |
| Page.Home.CloseJoin | coursue/app/page.tsx:138 | closing the join dialog changes only its open flag |
| Page.Home.ChatSend | coursue/components/ChatWidget.tsx:21-32 | sending in the open chat updates its conversation as `AfterSend` says and keeps the chat's invariant |
| Page.Home.MarkAllNotificationsRead | coursue/components/NotificationsPanel.tsx:22-24 | "Mark all as read" in the open panel marks every notification read |

## Left out

- Rendering, styling, animation (framer-motion), icons, images, the statistics chart and its `STATS_DATA` are not modelled. Only state, callbacks and the data that is shown are.
- `ProfileModal`, `LoginScreen` and the root layout are not part of this model. For the profile dialog, only its open flag in `Page.Home` is modelled.
- Timer durations (500 ms, 1000 ms, 1500 ms, 2000 ms) are not modelled. Timers are events that fire in the order they were scheduled, and unmounting a component does not cancel its timers.
- Unmounting content panels is not modelled as a state reset. Each panel class is a fresh instance per mount.
- `alert`, `scrollIntoView`, `e.preventDefault()` and the browser's `required` form validation are left out. In particular, the checkout form's `required` inputs are not modelled, so the checkout submits with any field values.
- CourseDetailModal.Percent: rounds an exact rational half up instead of JavaScript floating point. For `total == 0` it returns no value, where the page shows "NaN%" (when `watched == 0`) or "Infinity%" (when `watched > 0`).
- Text.LowerChar: lower-cases ASCII letters only, not the full Unicode mapping of `toLowerCase`. The catalogue strings are ASCII, but the search query is user input: a query holding a non-ASCII capital (for example U+212A KELVIN SIGN, which `toLowerCase` turns into "k", or "É") can match a title on the page and not in the model.
- CreateGroupModal.SubmitCalls: `Math.random()` is replaced by a chosen image index `pick`, so the contract states only that some default image is used.
- TaskContent.AddTask: ids come from `Date.now()`, passed as `now`. Two tasks or groups created in the same millisecond would share an id, and the model does not exclude this.
- Page.Home.OpenSettings: the settings dialog's lazy `useState` initializer (coursue/components/SettingsModal.tsx:41-43) runs only once, while the dialog is closed. So `openSettings(tab)` never changes the tab the dialog shows, although the comment at coursue/components/SettingsModal.tsx:40 says the active tab should follow `initialTab` when the dialog opens. The model keeps the behaviour as written.
- Page.Route: the "Inbox" tab has a route but no menu item, so the inbox is unreachable from the menus. `Page.MenuRoutes` states this.
- Sidebar.BottomClick: the mobile drawer passes no `onLogoutClick` and no `onSettingsClick`, so those buttons do nothing there. This is modelled as written in `Page.Home.SidebarBottomClick` and `Page.Home.SidebarSettingClick`.
- The notification bell's red dot in the right sidebar is unconditional and is not modelled.
- The inbox's message list (`MESSAGES`) is static and is not modelled.
- The inbox's unread badge (coursue/components/InboxContent.tsx:66) is drawn from the constant conversation list. No handler changes it, so it is not modelled.
- Page.Home.Valid: states only the theme invariant. The children's invariants (chat, join, notifications) are stated by each method that touches them, not as one page-wide predicate.
