/** `components/CourseDetailModal.tsx`: the syllabus dialog opened from a progress card.
    With no course it renders nothing at all; otherwise, while open, it lists one module per
    lesson of the course, marks the watched ones completed and the next one current, and
    shows the rounded percentage watched. */
module CourseDetailModal {
  import opened Wrappers
  import opened Text
  import opened Constants

  datatype Status = Completed | Current | Upcoming

  datatype ModuleRow = ModuleRow(number: nat, title: string, status: Status)

  datatype DetailView = DetailView(title: string, modules: seq<ModuleRow>, percent: Option<nat>,
                                   watched: nat, total: nat)

  const MODULE_TITLES: seq<string> := [
    "Introduction & Overview",
    "Core Principles Deep Dive",
    "Tools of the Trade",
    "Advanced Techniques",
    "Case Study Analysis",
    "Practical Application",
    "Industry Best Practices",
    "Final Project Brief"
  ]

  /** `getModuleTitle`: one of the eight stock titles, and past them (where the array lookup
      gives `undefined`) "Lesson " and the one-based number. */
  function ModuleTitle(index: nat): (r: string)
    ensures index < |MODULE_TITLES| ==> r == MODULE_TITLES[index]
    ensures index >= |MODULE_TITLES| ==>
              && |r| > 7 && r[..7] == "Lesson "
              && (forall k :: 0 <= k < |r[7..]| ==> '0' <= r[7..][k] <= '9')
              && ParseDecimal(r[7..]) == index + 1
  {
    if index < |MODULE_TITLES| && MODULE_TITLES[index] != "" then MODULE_TITLES[index]
    else
      var digits := DecimalString(index + 1);
      DecimalRoundTrip(index + 1);
      assert ("Lesson " + digits)[7..] == digits;
      "Lesson " + digits
  }

  /** The row for module `i` of a course with `watched` lessons watched. */
  function Row(i: nat, watched: nat): ModuleRow {
    ModuleRow(i + 1, ModuleTitle(i),
              if i < watched then Completed else if i == watched then Current else Upcoming)
  }

  /** `Array.from({ length: total }).map(...)`. */
  function Modules(watched: nat, total: nat): (r: seq<ModuleRow>)
    ensures |r| == total
    ensures forall i :: 0 <= i < total ==> r[i].number == i + 1 && r[i].title == ModuleTitle(i)
    ensures forall i :: 0 <= i < total ==> (r[i].status == Completed <==> i < watched)
    ensures forall i :: 0 <= i < total ==> (r[i].status == Current <==> i == watched)
  {
    seq(total, i requires 0 <= i => Row(i, watched))
  }

  /** At most one module is current, and there is one exactly when some lesson is unwatched. */
  lemma CurrentModule(watched: nat, total: nat)
    ensures forall i, j :: 0 <= i < j < total ==>
              !(Modules(watched, total)[i].status == Current && Modules(watched, total)[j].status == Current)
    ensures (exists i :: 0 <= i < total && Modules(watched, total)[i].status == Current) <==> watched < total
  {
    if watched < total {
      assert Modules(watched, total)[watched].status == Current;
    }
  }

  /** `Math.round(watched / total * 100)` over exact rationals: the nearest whole percent,
      halves rounding up. With no lessons the page shows "NaN%" when nothing is watched and
      "Infinity%" otherwise; neither is a whole percent, so the model gives no value. */
  function Percent(watched: nat, total: nat): (p: Option<nat>)
    ensures p.None? <==> total == 0
    ensures p.Some? ==> 2 * p.value * total <= 200 * watched + total < 2 * (p.value + 1) * total
  {
    if total == 0 then None else Some((200 * watched + total) / (2 * total))
  }

  /** The dialog's content, or `None` when it shows nothing: no course, or closed. */
  function Render(course: Option<ProgressCard>, isOpen: bool): (r: Option<DetailView>)
    ensures r.Some? <==> course.Some? && isOpen
    ensures r.Some? ==> && r.value.title == course.value.title
                        && r.value.modules == Modules(course.value.watched, course.value.total)
                        && |r.value.modules| == course.value.total
                        && r.value.percent == Percent(course.value.watched, course.value.total)
                        && r.value.watched == course.value.watched && r.value.total == course.value.total
  {
    match course
    case None => None
    case Some(c) =>
      if isOpen then Some(DetailView(c.title, Modules(c.watched, c.total), Percent(c.watched, c.total), c.watched, c.total))
      else None
  }

  /** Every progress card opens on 8 modules, the first two completed, the third current,
      at 25 percent. */
  lemma ProgressCardsDetail(i: nat)
    requires i < |PROGRESS_CARDS|
    ensures var v := Render(Some(PROGRESS_CARDS[i]), true).value;
            && |v.modules| == 8 && v.percent == Some(25)
            && v.modules[0].status == Completed && v.modules[1].status == Completed
            && v.modules[2].status == Current
  {
  }
}
