/** `components/DashboardContent.tsx`: the overview panel. Its logic is the placeholder
    shown for any other tab, the case-insensitive search over the watch list and the
    lessons, the hero button's dispatch, and the auth gate (module AuthGate). */
module DashboardContent {
  import opened Seqs
  import opened Text
  import opened Constants

  /** A watch-list card matches when its title or category contains the query,
      both lower-cased. */
  predicate WatchMatches(query: string, item: WatchItem) {
    Includes(Lower(item.title), Lower(query)) || Includes(Lower(item.category), Lower(query))
  }

  /** A lesson matches when its title or mentor contains the query, both lower-cased. */
  predicate LessonMatches(query: string, lesson: Lesson) {
    Includes(Lower(lesson.title), Lower(query)) || Includes(Lower(lesson.mentor), Lower(query))
  }

  /** `filteredWatchList`: the order-preserving subsequence of WATCH_LIST that keeps
      exactly the matching cards. */
  function FilteredWatchList(query: string): (r: seq<WatchItem>)
    ensures IsSubsequence(r, WATCH_LIST)
    ensures forall i :: 0 <= i < |r| ==> WatchMatches(query, r[i])
    ensures forall x :: multiset(r)[x] == if WatchMatches(query, x) then multiset(WATCH_LIST)[x] else 0
  {
    FilterSpec(WATCH_LIST, x => WatchMatches(query, x));
    Filter(WATCH_LIST, x => WatchMatches(query, x))
  }

  /** `filteredLessons`: the order-preserving subsequence of LESSONS that keeps exactly
      the matching lessons. */
  function FilteredLessons(query: string): (r: seq<Lesson>)
    ensures IsSubsequence(r, LESSONS)
    ensures forall i :: 0 <= i < |r| ==> LessonMatches(query, r[i])
    ensures forall x :: multiset(r)[x] == if LessonMatches(query, x) then multiset(LESSONS)[x] else 0
  {
    FilterSpec(LESSONS, x => LessonMatches(query, x));
    Filter(LESSONS, x => LessonMatches(query, x))
  }

  /** What the panel shows. */
  datatype DashboardView =
    | Placeholder(title: string)
    | Overview(watchList: seq<WatchItem>, lessons: seq<Lesson>)

  /** The panel for `activeTab` and the current `searchQuery`. */
  function Render(activeTab: string, query: string): (v: DashboardView)
    ensures v.Placeholder? <==> activeTab != "Overview"
    ensures v.Placeholder? ==> v.title == activeTab
    ensures v.Overview? ==> v.watchList == FilteredWatchList(query) && v.lessons == FilteredLessons(query)
  {
    if activeTab != "Overview" then Placeholder(activeTab)
    else Overview(FilteredWatchList(query), FilteredLessons(query))
  }

  /** The "No courses found" line is shown. */
  predicate ShowsNoCoursesMessage(v: DashboardView) {
    v.Overview? && v.watchList == []
  }

  /** The message appears exactly when no card of the watch list matches the query. */
  lemma {:induction false} NoCoursesMessageIff(query: string)
    ensures ShowsNoCoursesMessage(Render("Overview", query))
        <==> forall i :: 0 <= i < |WATCH_LIST| ==> !WatchMatches(query, WATCH_LIST[i])
  {
    FilterEmpty(WATCH_LIST, x => WatchMatches(query, x));
  }

  /** With an empty search box both lists are shown whole and in order. */
  lemma {:induction false} EmptyQueryShowsEverything()
    ensures FilteredWatchList("") == WATCH_LIST
    ensures FilteredLessons("") == LESSONS
  {
    forall i | 0 <= i < |WATCH_LIST| ensures WatchMatches("", WATCH_LIST[i]) {
      IncludesEmpty(Lower(WATCH_LIST[i].title));
    }
    FilterAll(WATCH_LIST, x => WatchMatches("", x));
    forall i | 0 <= i < |LESSONS| ensures LessonMatches("", LESSONS[i]) {
      IncludesEmpty(Lower(LESSONS[i].title));
    }
    FilterAll(LESSONS, x => LessonMatches("", x));
  }

  /** The callback the hero button invokes. */
  datatype HeroCall = DashboardClick | JoinClick

  /** The hero button: premium members go to the dashboard, everyone else is offered the
      join modal; there is no auth gate on this button. */
  function HeroButton(isPremium: bool): (c: HeroCall)
    ensures c == DashboardClick <==> isPremium
    ensures c == JoinClick <==> !isPremium
  {
    if isPremium then DashboardClick else JoinClick
  }
}
