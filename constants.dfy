/** The static mock data of `lib/constants.ts` that the modelled operations read.
    Icon components are left out; every other field is transcribed. */
module Constants {

  /** A sidebar menu entry; `text` is the source's `label` (a reserved word in Dafny). */
  datatype MenuItem = MenuItem(text: string, active: bool)

  const MENU_ITEMS: seq<MenuItem> := [
    MenuItem("Overview", true),
    MenuItem("Lesson", false),
    MenuItem("Task", false),
    MenuItem("Group", false),
    MenuItem("Courses", false)
  ]

  datatype Friend = Friend(name: string, status: string, avatar: string)

  const FRIENDS: seq<Friend> := [
    Friend("Samantha", "Friend", "https://i.pravatar.cc/150?u=samantha"),
    Friend("Karen", "Friend", "https://i.pravatar.cc/150?u=karen"),
    Friend("Peter", "Old Friend", "https://i.pravatar.cc/150?u=peter")
  ]

  /** A "progress card": the record the course-detail modal is opened with. */
  datatype ProgressCard = ProgressCard(title: string, watched: nat, total: nat, color: string, iconColor: string)

  const PROGRESS_CARDS: seq<ProgressCard> := [
    ProgressCard("UI/UX Design", 2, 8, "bg-purple-100 text-purple-600", "text-purple-600"),
    ProgressCard("Branding", 2, 8, "bg-pink-100 text-pink-600", "text-pink-600"),
    ProgressCard("Front End", 2, 8, "bg-blue-100 text-blue-600", "text-blue-600")
  ]

  datatype WatchItem = WatchItem(category: string, title: string, mentor: string, avatar: string, color: string, image: string)

  const WATCH_LIST: seq<WatchItem> := [
    WatchItem("Front End", "Beginner's Guide to becoming a pro Frontend Dev", "Dianne Russell",
              "https://i.pravatar.cc/150?u=dianne", "bg-orange-100", "https://picsum.photos/seed/frontend/400/250"),
    WatchItem("Design", "Optimizing User Experience in a big product", "Cody Fisher",
              "https://i.pravatar.cc/150?u=cody", "bg-blue-100", "https://picsum.photos/seed/ux/400/250")
  ]

  datatype Lesson = Lesson(mentor: string, avatar: string, date: string, tag: string, title: string)

  const LESSONS: seq<Lesson> := [
    Lesson("Ronald Richards", "https://i.pravatar.cc/150?u=ronald", "Sep 24", "UI/UX", "Wireframing for easy to understand"),
    Lesson("Wade Warren", "https://i.pravatar.cc/150?u=wade", "Sep 21", "Branding", "Sketching for beginner can be pro")
  ]

  datatype Mentor = Mentor(name: string, role: string, avatar: string)

  const MENTORS: seq<Mentor> := [
    Mentor("Theresa Webb", "UI Designer", "https://i.pravatar.cc/150?u=theresa"),
    Mentor("Albert Flores", "WP Developer", "https://i.pravatar.cc/150?u=albert"),
    Mentor("Savannah Nguyen", "Scrum Master", "https://i.pravatar.cc/150?u=savannah")
  ]
}
