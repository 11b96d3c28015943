/** `components/AddTaskModal.tsx`: the form that creates a to-do task. The component stays
    mounted while the board is shown, so what was typed survives closing the modal; a
    successful submit hands the task to `onAdd`, clears the form and closes the modal. */
module AddTaskModal {
  /** The object handed to `onAdd`. */
  datatype NewTask = NewTask(title: string, course: string, time: string, priority: string)

  /** The callbacks the modal invokes, in order. */
  datatype ModalCall = OnAdd(task: NewTask) | OnClose

  /** The three priority buttons. */
  const PRIORITIES: seq<string> := ["low", "medium", "high"]
  const DEFAULT_PRIORITY: string := "medium"

  /** `handleSubmit`: an empty title, course or time is falsy and stops the submit;
      otherwise `onAdd` receives exactly what was entered and `onClose` follows. */
  function SubmitCalls(title: string, course: string, time: string, priority: string): (calls: seq<ModalCall>)
    ensures calls == [] <==> title == "" || course == "" || time == ""
    ensures calls != [] ==> |calls| == 2 && calls[0] == OnAdd(NewTask(title, course, time, priority)) && calls[1] == OnClose
  {
    if title == "" || course == "" || time == "" then []
    else [OnAdd(NewTask(title, course, time, priority)), OnClose]
  }

  /** A form that has just been cleared cannot be submitted again without typing. */
  lemma ClearedFormDoesNotSubmit(priority: string)
    ensures SubmitCalls("", "", "", priority) == []
  {
  }

  class Form {
    var title: string
    var course: string
    var time: string
    var priority: string

    ghost predicate Valid()
      reads this
    {
      priority in PRIORITIES
    }

    predicate IsCleared()
      reads this
    {
      title == "" && course == "" && time == "" && priority == DEFAULT_PRIORITY
    }

    constructor ()
      ensures Valid() && IsCleared()
    {
      title, course, time, priority := "", "", "", DEFAULT_PRIORITY;
    }

    method SetTitle(v: string)
      modifies this
      ensures title == v && course == old(course) && time == old(time) && priority == old(priority)
    {
      title := v;
    }

    method SetCourse(v: string)
      modifies this
      ensures course == v && title == old(title) && time == old(time) && priority == old(priority)
    {
      course := v;
    }

    method SetTime(v: string)
      modifies this
      ensures time == v && title == old(title) && course == old(course) && priority == old(priority)
    {
      time := v;
    }

    /** A priority button. */
    method SetPriority(p: string)
      requires p in PRIORITIES
      modifies this
      ensures Valid()
      ensures priority == p && title == old(title) && course == old(course) && time == old(time)
    {
      priority := p;
    }

    /** `handleSubmit`: a rejected submit changes nothing; an accepted one reports the
        entered task and leaves the form cleared. */
    method Submit() returns (calls: seq<ModalCall>)
      requires Valid()
      modifies this
      ensures Valid()
      ensures calls == SubmitCalls(old(title), old(course), old(time), old(priority))
      ensures calls == [] ==> title == old(title) && course == old(course) && time == old(time) && priority == old(priority)
      ensures calls != [] ==> IsCleared()
    {
      calls := SubmitCalls(title, course, time, priority);
      if calls != [] {
        title, course, time, priority := "", "", "", DEFAULT_PRIORITY;
      }
    }
  }
}
