/** `components/CheckoutModal.tsx`: the three-step payment dialog. Submitting the form moves
    to "processing" and starts a chain of three timers: the first shows "success", the
    second calls `onSuccess` and `onClose` and schedules the third, which returns the
    dialog to the form. The timer durations (2000, 2000 and 500 ms) are not modelled, only
    their order; `Pending` records which timer of the chain is scheduled. */
module CheckoutModal {
  datatype Step = Form | Processing | Success

  datatype Pending = NoTimer | SuccessTimer | FinishTimer | ResetTimer

  datatype Machine = Machine(step: Step, pending: Pending)

  datatype CheckoutCall = OnSuccess | OnClose

  /** Something that can happen to the dialog: a submit of its form, or the scheduled
      timer firing. */
  datatype Event = Submit | TimerFires

  /** The four reachable combinations of step and scheduled timer. */
  predicate Valid(m: Machine) {
    || m == Machine(Form, NoTimer)
    || m == Machine(Processing, SuccessTimer)
    || m == Machine(Success, FinishTimer)
    || m == Machine(Success, ResetTimer)
  }

  const INITIAL: Machine := Machine(Form, NoTimer)

  /** The form, and with it the submit button, is rendered only in the "form" step. */
  predicate CanSubmit(m: Machine) {
    m.step == Form
  }

  /** 1 while a submitted payment has not yet reached `onSuccess`. */
  function Owed(m: Machine): nat {
    if m.pending == SuccessTimer || m.pending == FinishTimer then 1 else 0
  }

  /** `handleSubmit`. */
  function SubmitStep(m: Machine): (r: Machine)
    requires Valid(m) && CanSubmit(m)
    ensures Valid(r) && r.step == Processing && Owed(r) == Owed(m) + 1
  {
    Machine(Processing, SuccessTimer)
  }

  /** The scheduled timer fires, with the callbacks it invokes. Only the second timer calls
      back, `onSuccess` then `onClose`; the last one brings back the empty form. */
  function Fire(m: Machine): (r: (Machine, seq<CheckoutCall>))
    requires Valid(m) && m.pending != NoTimer
    ensures Valid(r.0)
    ensures r.1 == [] || r.1 == [OnSuccess, OnClose]
    ensures r.1 != [] <==> m.pending == FinishTimer
    ensures Owed(r.0) + |r.1| / 2 == Owed(m)
    ensures r.0.pending == NoTimer <==> m.pending == ResetTimer
    ensures r.0.step == Form <==> m.pending == ResetTimer
  {
    match m.pending
    case SuccessTimer => (Machine(Success, FinishTimer), [])
    case FinishTimer => (Machine(m.step, ResetTimer), [OnSuccess, OnClose])
    case ResetTimer => (Machine(Form, NoTimer), [])
  }

  /** The outcome of a run of events: the final machine, the callbacks invoked in order, and
      how many submits were accepted. */
  datatype Trace = Trace(final: Machine, calls: seq<CheckoutCall>, accepted: nat)

  /** The callbacks come in `onSuccess`, `onClose` pairs. */
  ghost predicate Paired(calls: seq<CheckoutCall>) {
    |calls| % 2 == 0 &&
    forall i :: 0 <= i < |calls| ==> calls[i] == if i % 2 == 0 then OnSuccess else OnClose
  }

  function CountSubmits(evs: seq<Event>): nat {
    if evs == [] then 0 else (if evs[0] == Submit then 1 else 0) + CountSubmits(evs[1..])
  }

  lemma PairedConcat(a: seq<CheckoutCall>, b: seq<CheckoutCall>)
    requires Paired(a) && Paired(b)
    ensures Paired(a + b)
  {
    forall i | 0 <= i < |a + b| ensures (a + b)[i] == if i % 2 == 0 then OnSuccess else OnClose {
      if i >= |a| {
        assert (a + b)[i] == b[i - |a|];
        assert (i - |a|) % 2 == i % 2;
      }
    }
  }

  /** Feeds events to the dialog in order. A submit while no form is shown and a timer when
      none is scheduled cannot happen, and are passed over. Every accepted submit is paid for
      by exactly one `onSuccess`/`onClose` pair, either already invoked or still owed by the
      pending timers, and no pair is invoked without a submit. */
  function Run(m: Machine, evs: seq<Event>): (t: Trace)
    requires Valid(m)
    ensures Valid(t.final)
    ensures Paired(t.calls)
    ensures |t.calls| / 2 + Owed(t.final) == Owed(m) + t.accepted
    ensures t.accepted <= CountSubmits(evs)
    decreases |evs|
  {
    if evs == [] then Trace(m, [], 0)
    else if evs[0] == Submit && CanSubmit(m) then
      var rest := Run(SubmitStep(m), evs[1..]);
      Trace(rest.final, rest.calls, rest.accepted + 1)
    else if evs[0] == TimerFires && m.pending != NoTimer then
      var (m', calls) := Fire(m);
      var rest := Run(m', evs[1..]);
      assert Paired(calls);
      PairedConcat(calls, rest.calls);
      Trace(rest.final, calls + rest.calls, rest.accepted)
    else
      Run(m, evs[1..])
  }

  /** One purchase: a submit and the three timers bring the dialog back to the empty form
      having invoked `onSuccess` and `onClose` once each. */
  lemma OnePurchaseCycle()
    ensures Run(INITIAL, [Submit, TimerFires, TimerFires, TimerFires]) == Trace(INITIAL, [OnSuccess, OnClose], 1)
  {
  }

  /** While a payment is being processed, a second submit is impossible: no form is shown. */
  lemma NoSubmitWhileProcessing(m: Machine)
    requires Valid(m) && Owed(m) == 1
    ensures !CanSubmit(m)
  {
  }

  /** The dialog's state. The form fields are uncontrolled inputs (their `formData` state is
      never written), so only the step and the scheduled timer matter. */
  class Checkout {
    var step: Step
    var pending: Pending

    function State(): Machine
      reads this
    {
      Machine(step, pending)
    }

    constructor ()
      ensures State() == INITIAL
    {
      step, pending := Form, NoTimer;
    }

    method HandleSubmit()
      requires Valid(State()) && CanSubmit(State())
      modifies this
      ensures State() == SubmitStep(old(State()))
    {
      step, pending := Processing, SuccessTimer;
    }

    method TimerFires() returns (calls: seq<CheckoutCall>)
      requires Valid(State()) && pending != NoTimer
      modifies this
      ensures (State(), calls) == Fire(old(State()))
    {
      match pending
      case SuccessTimer =>
        step, pending := Success, FinishTimer;
        calls := [];
      case FinishTimer =>
        pending := ResetTimer;
        calls := [OnSuccess, OnClose];
      case ResetTimer =>
        step, pending := Form, NoTimer;
        calls := [];
    }
  }
}
