/** `components/JoinModal.tsx`: the premium sign-up dialog. Submitting starts two chained
    timers: the first ends loading and shows the success view, the second calls
    `onJoin("New Student")`, hides the success view and calls `onClose`. The form is replaced
    by the success view and its button is disabled while loading, so one chain runs at a time
    and the flags say which timer is scheduled. */
module JoinModal {
  datatype JoinCall = OnJoin(name: string) | OnClose

  const NEW_MEMBER_NAME: string := "New Student"

  /** Where the dialog is in its sequence. */
  datatype Phase = Idle | Loading | Succeeded

  function PhaseOf(loading: bool, success: bool): (p: Phase)
    requires !(loading && success)
    ensures p == Idle <==> !loading && !success
  {
    if loading then Loading else if success then Succeeded else Idle
  }

  /** The form is drawn except in the success view. */
  predicate FormShown(success: bool) {
    !success
  }

  class Form {
    var loading: bool
    var success: bool

    /** Loading and the success view never coincide. */
    ghost predicate Valid()
      reads this
    {
      !(loading && success)
    }

    function Phase(): Phase
      reads this
      requires Valid()
    {
      PhaseOf(loading, success)
    }

    constructor ()
      ensures Valid() && Phase() == Idle
    {
      loading, success := false, false;
    }

    /** `handleSubmit`: the form is on screen and its button enabled. */
    method Submit()
      requires Valid() && FormShown(success) && !loading
      modifies this
      ensures Valid() && Phase() == Loading
    {
      loading := true;
    }

    /** The first timer: loading ends and the success view appears. No callback yet. */
    method FirstTimerFires()
      requires Valid() && Phase() == Loading
      modifies this
      ensures Valid() && Phase() == Succeeded
    {
      loading := false;
      success := true;
    }

    /** The second timer: `onJoin("New Student")`, then `onClose`; the dialog is idle again. */
    method SecondTimerFires() returns (calls: seq<JoinCall>)
      requires Valid() && Phase() == Succeeded
      modifies this
      ensures Valid() && Phase() == Idle
      ensures calls == [OnJoin(NEW_MEMBER_NAME), OnClose]
    {
      success := false;
      calls := [OnJoin(NEW_MEMBER_NAME), OnClose];
    }
  }
}
