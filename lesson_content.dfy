/** `components/LessonContent.tsx`: the course grid with its four filter buttons.
    `filteredCourses` copies COURSES and, depending on the active filter, sorts the copy
    with the stable `Array.prototype.sort` or filters it. Ratings are kept as integer
    tenths (4.8 is 48), which orders them exactly as the floating-point values. */
module LessonContent {
  import opened Seqs
  import AuthGate

  datatype Course = Course(id: int, title: string, category: string, author: string, image: string,
                           progress: int, duration: string, rating: int)

  const COURSES: seq<Course> := [
    Course(1, "UI Design Principles", "Design", "Jason Ranti",
           "https://images.unsplash.com/photo-1586717791821-3f44a5638d28?auto=format&fit=crop&q=80&w=300&h=200", 75, "3h 20m", 48),
    Course(2, "Advanced Prototyping", "UX Design", "Sarah Johnson",
           "https://images.unsplash.com/photo-1559028012-481c04fa702d?auto=format&fit=crop&q=80&w=300&h=200", 30, "5h 45m", 49),
    Course(3, "Design Systems 101", "System", "Mike Chen",
           "https://images.unsplash.com/photo-1550751827-4bd374c3f58b?auto=format&fit=crop&q=80&w=300&h=200", 0, "4h 15m", 47),
    Course(4, "Figma Mastery", "Tools", "Emily Davis",
           "https://images.unsplash.com/photo-1611162617474-5b21e879e113?auto=format&fit=crop&q=80&w=300&h=200", 100, "2h 30m", 50),
    Course(5, "Web Typography", "Typography", "David Wilson",
           "https://images.unsplash.com/photo-1558655146-d09347e92766?auto=format&fit=crop&q=80&w=300&h=200", 45, "1h 50m", 46),
    Course(6, "Color Theory", "Design", "Jessica Lee",
           "https://images.unsplash.com/photo-1507925921958-8a62f3d1a50d?auto=format&fit=crop&q=80&w=300&h=200", 10, "2h 45m", 48)
  ]

  /** The labels of the filter buttons. */
  const FILTERS: seq<string> := ["All", "Popular", "Newest", "Completed"]

  function Rating(c: Course): int { c.rating }
  function Id(c: Course): int { c.id }
  predicate IsCompleted(c: Course) { c.progress == 100 }

  /** Non-increasing by `key`. */
  ghost predicate SortedDescBy<T>(s: seq<T>, key: T -> int) {
    forall i, j :: 0 <= i < j < |s| ==> key(s[i]) >= key(s[j])
  }

  /** Strictly decreasing by `key`. */
  ghost predicate StrictlyDescBy<T>(s: seq<T>, key: T -> int) {
    forall i, j :: 0 <= i < j < |s| ==> key(s[i]) > key(s[j])
  }

  /** No two elements share a key. */
  predicate DistinctKeys<T>(s: seq<T>, key: T -> int) {
    forall i, j :: 0 <= i < j < |s| ==> key(s[i]) != key(s[j])
  }

  /** The elements whose key is `k`, in order: the relative order a stable sort keeps. */
  function WithKey<T>(s: seq<T>, key: T -> int, k: int): seq<T> {
    Filter(s, x => key(x) == k)
  }

  /** One step of a stable descending insertion sort: `x`, which came before every element
      of `s`, goes in front of the first element whose key is not greater than its own. */
  function Insert<T>(x: T, s: seq<T>, key: T -> int): (r: seq<T>)
    ensures multiset(r) == multiset(s) + multiset{x}
    ensures |r| == |s| + 1
  {
    if s == [] || key(s[0]) <= key(x) then [x] + s
    else
      assert s == [s[0]] + s[1..];
      [s[0]] + Insert(x, s[1..], key)
  }

  /** What `result.sort((a, b) => key(b) - key(a))` leaves in `result`. */
  function SortDescBy<T>(s: seq<T>, key: T -> int): (r: seq<T>)
    ensures multiset(r) == multiset(s)
    ensures |r| == |s|
  {
    if s == [] then []
    else
      assert s == [s[0]] + s[1..];
      Insert(s[0], SortDescBy(s[1..], key), key)
  }

  lemma {:induction false} InsertSorted<T>(x: T, s: seq<T>, key: T -> int)
    requires SortedDescBy(s, key)
    ensures SortedDescBy(Insert(x, s, key), key)
  {
    if s != [] && key(s[0]) > key(x) {
      InsertSorted(x, s[1..], key);
      var t := Insert(x, s[1..], key);
      forall j | 0 <= j < |t| ensures key(s[0]) >= key(t[j]) {
        assert t[j] in multiset(t);
        assert t[j] == x || t[j] in multiset(s[1..]);
        if t[j] != x {
          var m :| 0 <= m < |s[1..]| && s[1..][m] == t[j];
          assert s[m + 1] == t[j];
        }
      }
    }
  }

  /** The sort orders by key, non-increasing. */
  lemma {:induction false} SortSorted<T>(s: seq<T>, key: T -> int)
    ensures SortedDescBy(SortDescBy(s, key), key)
  {
    if s != [] {
      SortSorted(s[1..], key);
      InsertSorted(s[0], SortDescBy(s[1..], key), key);
    }
  }

  lemma {:induction false} InsertStrict<T>(x: T, s: seq<T>, key: T -> int)
    requires StrictlyDescBy(s, key)
    requires forall i :: 0 <= i < |s| ==> key(s[i]) != key(x)
    ensures StrictlyDescBy(Insert(x, s, key), key)
  {
    if s != [] && key(s[0]) > key(x) {
      InsertStrict(x, s[1..], key);
      var t := Insert(x, s[1..], key);
      forall j | 0 <= j < |t| ensures key(s[0]) > key(t[j]) {
        assert t[j] in multiset(t);
        if t[j] != x {
          assert t[j] in multiset(s[1..]);
          var m :| 0 <= m < |s[1..]| && s[1..][m] == t[j];
          assert s[m + 1] == t[j];
        }
      }
    }
  }

  /** With pairwise distinct keys the sorted order is strictly decreasing. */
  lemma {:induction false} SortStrict<T>(s: seq<T>, key: T -> int)
    requires DistinctKeys(s, key)
    ensures StrictlyDescBy(SortDescBy(s, key), key)
  {
    if s != [] {
      SortStrict(s[1..], key);
      var t := SortDescBy(s[1..], key);
      forall i | 0 <= i < |t| ensures key(t[i]) != key(s[0]) {
        assert t[i] in multiset(s[1..]);
        var m :| 0 <= m < |s[1..]| && s[1..][m] == t[i];
        assert s[m + 1] == t[i];
      }
      InsertStrict(s[0], t, key);
    }
  }

  lemma {:induction false} InsertStable<T>(x: T, s: seq<T>, key: T -> int, k: int)
    ensures WithKey(Insert(x, s, key), key, k) == (if key(x) == k then [x] else []) + WithKey(s, key, k)
  {
    var p := y => key(y) == k;
    if s == [] || key(s[0]) <= key(x) {
      assert ([x] + s)[1..] == s;
    } else {
      InsertStable(x, s[1..], key, k);
      assert ([s[0]] + Insert(x, s[1..], key))[1..] == Insert(x, s[1..], key);
      if key(x) == k {
        assert !p(s[0]);
      }
    }
  }

  /** The sort is stable: for every key, the elements carrying it keep their relative order. */
  lemma {:induction false} SortStable<T>(s: seq<T>, key: T -> int, k: int)
    ensures WithKey(SortDescBy(s, key), key, k) == WithKey(s, key, k)
  {
    if s != [] {
      SortStable(s[1..], key, k);
      InsertStable(s[0], SortDescBy(s[1..], key), key, k);
    }
  }

  /** The body of `filteredCourses`, over any course list: "Popular" sorts a copy by rating,
      "Newest" by id, both descending; "Completed" keeps the finished courses; any other
      label (only "All" is offered) shows the list as it is. */
  function FilterCourses(courses: seq<Course>, activeFilter: string): (r: seq<Course>)
    ensures activeFilter == "Popular" ==>
              && multiset(r) == multiset(courses)
              && SortedDescBy(r, Rating)
              && forall k :: WithKey(r, Rating, k) == WithKey(courses, Rating, k)
    ensures activeFilter == "Newest" ==>
              && multiset(r) == multiset(courses)
              && SortedDescBy(r, Id)
              && (forall k :: WithKey(r, Id, k) == WithKey(courses, Id, k))
              && (DistinctKeys(courses, Id) ==> StrictlyDescBy(r, Id))
    ensures activeFilter == "Completed" ==>
              && IsSubsequence(r, courses)
              && (forall i :: 0 <= i < |r| ==> r[i].progress == 100)
              && forall c :: multiset(r)[c] == if c.progress == 100 then multiset(courses)[c] else 0
    ensures activeFilter !in {"Popular", "Newest", "Completed"} ==> r == courses
  {
    if activeFilter == "Popular" then
      SortSorted(courses, Rating);
      forall k ensures WithKey(SortDescBy(courses, Rating), Rating, k) == WithKey(courses, Rating, k) {
        SortStable(courses, Rating, k);
      }
      SortDescBy(courses, Rating)
    else if activeFilter == "Newest" then
      SortSorted(courses, Id);
      forall k ensures WithKey(SortDescBy(courses, Id), Id, k) == WithKey(courses, Id, k) {
        SortStable(courses, Id, k);
      }
      if DistinctKeys(courses, Id) then
        SortStrict(courses, Id);
        SortDescBy(courses, Id)
      else
        SortDescBy(courses, Id)
    else if activeFilter == "Completed" then
      FilterSpec(courses, IsCompleted);
      Filter(courses, IsCompleted)
    else
      courses
  }

  /** What a filter shows of a course list: "All" the list as it is; every filter but
      "Completed" the same courses; "Popular" highest rating first, equal ratings in list
      order; "Newest" strictly decreasing id; "Completed" exactly the finished courses, in
      list order. */
  ghost predicate Shows(r: seq<Course>, courses: seq<Course>, activeFilter: string) {
    && (activeFilter == "All" ==> r == courses)
    && (activeFilter != "Completed" ==> multiset(r) == multiset(courses))
    && (activeFilter == "Popular" ==>
          SortedDescBy(r, Rating) && forall k :: WithKey(r, Rating, k) == WithKey(courses, Rating, k))
    && (activeFilter == "Newest" ==> StrictlyDescBy(r, Id))
    && (activeFilter == "Completed" ==>
          && IsSubsequence(r, courses)
          && (forall i :: 0 <= i < |r| ==> r[i].progress == 100)
          && forall c :: c in r <==> c in courses && c.progress == 100)
  }

  /** Each filter shows what `Shows` says of any course list whose ids are distinct. */
  lemma FilterCoursesShows(courses: seq<Course>, activeFilter: string)
    requires DistinctKeys(courses, Id)
    ensures Shows(FilterCourses(courses, activeFilter), courses, activeFilter)
  {
    var r := FilterCourses(courses, activeFilter);
    if activeFilter == "Completed" {
      forall c ensures c in r <==> c in courses && c.progress == 100 {
        assert c in r <==> c in multiset(r);
        assert c in courses <==> c in multiset(courses);
      }
    }
  }

  /** `filteredCourses` for the active filter. */
  function FilteredCourses(activeFilter: string): seq<Course> {
    FilterCourses(COURSES, activeFilter)
  }

  /** What each filter shows of the catalogue. */
  lemma ShownFilters(activeFilter: string)
    ensures Shows(FilteredCourses(activeFilter), COURSES, activeFilter)
  {
    CourseIdsDistinct();
    FilterCoursesShows(COURSES, activeFilter);
  }

  /** Under "Newest" the course ids come out strictly decreasing, since COURSES has no
      repeated id. */
  lemma NewestIsStrictlyById()
    ensures StrictlyDescBy(FilteredCourses("Newest"), Id)
    ensures multiset(FilteredCourses("Newest")) == multiset(COURSES)
  {
    CourseIdsDistinct();
  }

  /** The panel's state: the active filter button. COURSES itself is a constant, so
      sorting the copy can never change it. */
  class Lessons {
    var activeFilter: string

    ghost predicate Valid()
      reads this
    {
      activeFilter in FILTERS
    }

    constructor ()
      ensures Valid() && activeFilter == "All"
    {
      activeFilter := "All";
    }

    /** A filter button: makes that button's label the active filter. */
    method SetActiveFilter(filter: string)
      requires filter in FILTERS
      modifies this
      ensures Valid() && activeFilter == filter
    {
      activeFilter := filter;
    }

    /** The courses shown, as `Shows` describes them for the catalogue. */
    function Shown(): (r: seq<Course>)
      reads this
      requires Valid()
      ensures Shows(r, COURSES, activeFilter)
    {
      ShownFilters(activeFilter);
      FilteredCourses(activeFilter)
    }

    /** The play button: `handleAction(() => {})`; it reports whether the (empty) action ran. */
    method PlayClick(isLoggedIn: bool, hasAuthRequired: bool) returns (calls: seq<AuthGate.GateCall>)
      ensures calls == AuthGate.HandleAction(isLoggedIn, hasAuthRequired)
      ensures AuthGate.RunCallback in calls <==> isLoggedIn || !hasAuthRequired
    {
      calls := AuthGate.HandleAction(isLoggedIn, hasAuthRequired);
    }
  }

  /** The copy shown under every filter is drawn from COURSES only. */
  lemma ShownCoursesComeFromCourses(activeFilter: string)
    ensures forall c :: c in FilteredCourses(activeFilter) ==> c in COURSES
  {
    var r := FilteredCourses(activeFilter);
    forall c | c in r ensures c in COURSES {
      assert c in multiset(r);
    }
  }

  /** The ids of COURSES are pairwise distinct, so "Newest" orders them strictly. */
  lemma CourseIdsDistinct()
    ensures DistinctKeys(COURSES, Id)
  {
  }
}
