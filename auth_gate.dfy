/** The auth gate that DashboardContent, LessonContent, TaskContent and GroupContent each
    define as `handleAction`: with no session and an `onAuthRequired` handler, the handler
    is called instead of the action; otherwise the action runs. */
module AuthGate {

  /** What one call of `handleAction(callback)` does, in order. */
  datatype GateCall = CallAuthRequired | RunCallback

  /** `handleAction(callback)` for a component whose `isLoggedIn` prop is `isLoggedIn`
      (an absent prop counts as `false`) and whose `onAuthRequired` prop is present
      exactly when `hasAuthRequired`. */
  function HandleAction(isLoggedIn: bool, hasAuthRequired: bool): (calls: seq<GateCall>)
    ensures |calls| == 1
    ensures calls == [RunCallback] <==> isLoggedIn || !hasAuthRequired
    ensures calls == [CallAuthRequired] <==> !isLoggedIn && hasAuthRequired
  {
    if !isLoggedIn && hasAuthRequired then [CallAuthRequired] else [RunCallback]
  }

  /** Whether the gated action ran. */
  predicate CallbackRan(calls: seq<GateCall>) {
    RunCallback in calls
  }
}
