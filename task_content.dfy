/** `components/TaskContent.tsx`: the three-column task board. New tasks are appended to
    the to-do column with `Date.now()` as their id; the clock reading is a parameter. */
module TaskContent {
  import opened AddTaskModal
  import AuthGate

  datatype TodoTask = TodoTask(id: int, title: string, course: string, time: string, priority: string)
  datatype InProgressTask = InProgressTask(id: int, title: string, course: string, progress: int, priority: string)
  datatype DoneTask = DoneTask(id: int, title: string, course: string, score: string, priority: string)
  datatype Tasks = Tasks(todo: seq<TodoTask>, inProgress: seq<InProgressTask>, done: seq<DoneTask>)

  const INITIAL_TASKS: Tasks := Tasks(
    [ TodoTask(1, "Watch \"UI Design Principles\"", "UI/UX Design", "20 mins", "high"),
      TodoTask(2, "Read \"Color Theory\" Article", "Graphic Design", "10 mins", "medium") ],
    [ InProgressTask(3, "Complete \"Wireframing\" Assignment", "UI/UX Design", 65, "high") ],
    [ DoneTask(4, "Introduction Quiz", "Design Systems", "100%", "low") ])

  /** Number of tasks on the board, over the three column counters. */
  function TaskCount(t: Tasks): nat {
    |t.todo| + |t.inProgress| + |t.done|
  }

  /** `handleAddTask`: the new task, with id `now`, goes to the end of the to-do column;
      the earlier tasks and the other two columns are kept. */
  function AddTask(tasks: Tasks, t: NewTask, now: int): (r: Tasks)
    ensures r.inProgress == tasks.inProgress && r.done == tasks.done
    ensures |r.todo| == |tasks.todo| + 1 && r.todo[..|tasks.todo|] == tasks.todo
    ensures r.todo[|tasks.todo|] == TodoTask(now, t.title, t.course, t.time, t.priority)
    ensures TaskCount(r) == TaskCount(tasks) + 1
  {
    tasks.(todo := tasks.todo + [TodoTask(now, t.title, t.course, t.time, t.priority)])
  }

  /** Tasks added one after another appear in the order they were added. */
  lemma {:induction false} AddTaskKeepsOrder(tasks: Tasks, a: NewTask, n1: int, b: NewTask, n2: int)
    ensures AddTask(AddTask(tasks, a, n1), b, n2).todo ==
            tasks.todo + [TodoTask(n1, a.title, a.course, a.time, a.priority),
                          TodoTask(n2, b.title, b.course, b.time, b.priority)]
  {
    var r := AddTask(AddTask(tasks, a, n1), b, n2).todo;
    var want := tasks.todo + [TodoTask(n1, a.title, a.course, a.time, a.priority),
                              TodoTask(n2, b.title, b.course, b.time, b.priority)];
    assert |r| == |want|;
    forall i | 0 <= i < |r| ensures r[i] == want[i] {
      if i < |tasks.todo| {
        assert r[i] == r[..|tasks.todo| + 1][i];
      }
    }
  }

  class Board {
    var tasks: Tasks
    var isAddModalOpen: bool
    /** The add-task form; it is rendered (but hidden) all the time the board is. */
    const modal: Form

    ghost predicate Valid()
      reads this, modal
    {
      modal.Valid()
    }

    constructor ()
      ensures Valid() && fresh(modal) && modal.IsCleared()
      ensures tasks == INITIAL_TASKS && !isAddModalOpen
    {
      tasks := INITIAL_TASKS;
      isAddModalOpen := false;
      modal := new Form();
    }

    /** The header "Add Task" button goes through `handleAction`: a logged-out visitor is
        sent to `onAuthRequired` (when given) and the modal stays as it was. */
    method HeaderAddClick(isLoggedIn: bool, hasAuthRequired: bool) returns (calls: seq<AuthGate.GateCall>)
      modifies this
      ensures calls == AuthGate.HandleAction(isLoggedIn, hasAuthRequired)
      ensures isAddModalOpen == (old(isAddModalOpen) || isLoggedIn || !hasAuthRequired)
      ensures tasks == old(tasks)
    {
      calls := AuthGate.HandleAction(isLoggedIn, hasAuthRequired);
      if AuthGate.CallbackRan(calls) {
        isAddModalOpen := true;
      }
    }

    /** The dashed "Add New Task" button at the foot of the to-do column opens the modal
        with no log-in check. */
    method DashedAddClick()
      modifies this
      ensures isAddModalOpen && tasks == old(tasks)
    {
      isAddModalOpen := true;
    }

    /** `onClose` (backdrop, close button, or after a submit). */
    method CloseModal()
      modifies this
      ensures !isAddModalOpen && tasks == old(tasks)
    {
      isAddModalOpen := false;
    }

    /** `onAdd`. */
    method HandleAddTask(t: NewTask, now: int)
      modifies this
      ensures tasks == AddTask(old(tasks), t, now) && isAddModalOpen == old(isAddModalOpen)
    {
      tasks := AddTask(tasks, t, now);
    }

    /** Submitting the open form at time `now`: when the form is complete the entered task is
        appended and the modal closes; otherwise nothing changes. */
    method SubmitModal(now: int) returns (added: bool)
      requires Valid() && isAddModalOpen
      modifies this, modal
      ensures Valid()
      ensures added <==> old(modal.title) != "" && old(modal.course) != "" && old(modal.time) != ""
      ensures added ==> tasks == AddTask(old(tasks), NewTask(old(modal.title), old(modal.course), old(modal.time), old(modal.priority)), now)
                        && !isAddModalOpen && modal.IsCleared()
      ensures !added ==> tasks == old(tasks) && isAddModalOpen
    {
      var calls := modal.Submit();
      added := calls != [];
      if added {
        HandleAddTask(calls[0].task, now);
        CloseModal();
      }
    }
  }
}
