/** `components/LoginModal.tsx`: the sign-in / sign-up dialog. Submitting starts a simulated
    request: the button is disabled while `loading`, and when the timer fires the dialog
    reports success and asks to be closed. The credentials typed are not read. Because the
    submit button is disabled while loading, at most one request is in flight, so `loading`
    also says whether the timer is scheduled. */
module LoginModal {
  datatype LoginCall = OnLoginSuccess | OnClose

  datatype Mode = SignIn | SignUp

  /** The "Sign Up" / "Log In" link under the form: it switches to the other mode, so the
      heading and the submit button change with it. */
  function OtherMode(m: Mode): (r: Mode)
    ensures r != m
    ensures Heading(r) != Heading(m) && SubmitText(r) != SubmitText(m)
  {
    if m == SignIn then SignUp else SignIn
  }

  lemma OtherModeInvolutive(m: Mode)
    ensures OtherMode(OtherMode(m)) == m
  {
  }

  /** The heading above the form. */
  function Heading(m: Mode): string {
    if m == SignIn then "Welcome Back! \U{1F44B}" else "Join the Community! \U{2728}"
  }

  /** The submit button's text. */
  function SubmitText(m: Mode): string {
    if m == SignIn then "Sign In" else "Create Account"
  }

  class Form {
    var loading: bool
    var mode: Mode

    constructor ()
      ensures !loading && mode == SignIn
    {
      loading := false;
      mode := SignIn;
    }

    /** `handleSubmit`, possible only while the button is enabled. */
    method Submit()
      requires !loading
      modifies this
      ensures loading && mode == old(mode)
    {
      loading := true;
    }

    /** The request timer fires: loading ends, and `onLoginSuccess` then `onClose` are
        called, in that order, whatever the mode. */
    method TimerFires() returns (calls: seq<LoginCall>)
      requires loading
      modifies this
      ensures !loading && mode == old(mode)
      ensures calls == [OnLoginSuccess, OnClose]
    {
      loading := false;
      calls := [OnLoginSuccess, OnClose];
    }

    method ToggleMode()
      modifies this
      ensures mode == OtherMode(old(mode)) && loading == old(loading)
    {
      mode := OtherMode(mode);
    }
  }
}
