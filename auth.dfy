/**
 * The entry screen (app/page.tsx): sign-in, registration and one-time-passcode
 * verification. The screen's state slices are the fields of `AuthScreen`;
 * every handler is a method that validates locally, then reacts to the
 * server's reply, which is passed in as a `Response` instead of being fetched.
 * The pure step functions state what each handler does to a snapshot of the
 * state; the methods are proved to perform exactly those steps.
 */
module Auth {
  import opened Wrappers

  /** Which form the screen shows. */
  datatype Mode = SignIn | Register | VerifyOtp

  /** The body posted to the backend, one constructor per endpoint. */
  datatype Request =
    | SignUpRequest(username: string, email: string, password: string)
    | SignInRequest(email: string, password: string)
    | VerifyOtpRequest(email: string, otp: string)

  /**
   * What a request comes back with. `Ok` is a reply with a success status
   * (`requiresOTP` is read only by sign-in); `Rejected` is a reply with an
   * error status and its `message` field ("" when absent); `Threw` is a
   * request or body parse that raised, with the exception's message.
   */
  datatype Response =
    | Ok(requiresOTP: bool)
    | Rejected(message: string)
    | Threw(message: string)

  /** A snapshot of the screen's state slices. */
  datatype AuthState = AuthState(
    isRegister: bool,
    requiresOTP: bool,
    error: Option<string>,
    username: string,
    email: string,
    password: string,
    otp: string)

  /** What one handler run leaves behind: the new state, the request it sent, whether it left for the browse page. */
  datatype Outcome = Outcome(next: AuthState, sent: Option<Request>, navigate: bool)

  /** The user actions the screen reacts to. */
  datatype Event =
    | Submit(response: Response)
    | Toggle
    | EditUsername(username: string)
    | EditEmail(email: string)
    | EditPassword(password: string)
    | EditOtp(otp: string)

  const AllFieldsRequired := "All fields are required."
  const EmailAndPasswordRequired := "Email and password are required."
  const CodeRequired := "Verification code is required."
  const FailedToRegister := "Failed to register."
  const FailedToSignIn := "Failed to sign in."
  const FailedToVerify := "Failed to verify OTP."
  const UnexpectedError := "An unexpected error occurred."

  /** The state the screen mounts with. */
  const Initial := AuthState(false, false, None, "", "", "", "")

  /** The form shown: registration takes precedence over passcode entry. */
  function ModeOf(s: AuthState): (m: Mode)
    ensures m == Register <==> s.isRegister
    ensures m == VerifyOtp <==> !s.isRegister && s.requiresOTP
    ensures m == SignIn <==> !s.isRegister && !s.requiresOTP
  {
    if s.isRegister then Register else if s.requiresOTP then VerifyOtp else SignIn
  }

  /** The heading shown above the form; each form has its own. */
  function Title(m: Mode): (heading: string)
    ensures heading == "Register" <==> m == Register
    ensures heading == "Verify OTP" <==> m == VerifyOtp
    ensures heading == "Sign In" <==> m == SignIn
  {
    match m
    case Register => "Register"
    case VerifyOtp => "Verify OTP"
    case SignIn => "Sign In"
  }

  /** The submit button's caption; each form has its own, and it begins the form's heading. */
  function SubmitLabel(m: Mode): (caption: string)
    ensures caption == "Register" <==> m == Register
    ensures caption == "Verify" <==> m == VerifyOtp
    ensures caption == "Sign In" <==> m == SignIn
    ensures caption <= Title(m)
  {
    match m
    case Register => "Register"
    case VerifyOtp => "Verify"
    case SignIn => "Sign In"
  }

  /** The invariant of the entry screen: registration is not shown with a passcode pending. */
  predicate Consistent(s: AuthState)
  {
    !(s.isRegister && s.requiresOTP)
  }

  /**
   * The buffers a form's handler refuses to send while one of them is empty:
   * one of them is empty exactly when that handler's guard rejects the input.
   */
  function RequiredFields(s: AuthState): (fields: seq<string>)
    ensures "" in fields <==>
      match ModeOf(s)
      case Register => s.username == "" || s.email == "" || s.password == ""
      case SignIn => s.email == "" || s.password == ""
      case VerifyOtp => s.otp == ""
  {
    match ModeOf(s)
    case Register => [s.username, s.email, s.password]
    case SignIn => [s.email, s.password]
    case VerifyOtp => [s.otp]
  }

  /** The message a form's local validation shows: never empty, and different for each form. */
  function ValidationMessage(m: Mode): (msg: string)
    ensures msg != ""
    ensures msg == AllFieldsRequired <==> m == Register
    ensures msg == EmailAndPasswordRequired <==> m == SignIn
    ensures msg == CodeRequired <==> m == VerifyOtp
  {
    match m
    case Register => AllFieldsRequired
    case SignIn => EmailAndPasswordRequired
    case VerifyOtp => CodeRequired
  }

  /** The fallback a form's handler uses when an error reply carries no message: never empty, one per form. */
  function DefaultFailure(m: Mode): (msg: string)
    ensures msg != "" && msg != UnexpectedError
    ensures msg == FailedToRegister <==> m == Register
    ensures msg == FailedToSignIn <==> m == SignIn
    ensures msg == FailedToVerify <==> m == VerifyOtp
  {
    match m
    case Register => FailedToRegister
    case SignIn => FailedToSignIn
    case VerifyOtp => FailedToVerify
  }

  /**
   * The error shown after a failed request: the server's or the exception's
   * message when there is one, otherwise the form's fallback for an error
   * reply and the generic text for an exception.
   */
  function FailureMessage(m: Mode, response: Response): (msg: string)
    requires !response.Ok?
    ensures msg != ""
    ensures response.message != "" ==> msg == response.message
    ensures response.message == "" ==> msg == (if response.Rejected? then DefaultFailure(m) else UnexpectedError)
  {
    var thrown := if response.Rejected? && response.message == "" then DefaultFailure(m) else response.message;
    if thrown != "" then thrown else UnexpectedError
  }

  /** What a handler does once its request has been answered. */
  datatype Settled = Settled(next: AuthState, navigate: bool)

  /**
   * The part of `form`'s handler that runs after its request is answered. It
   * acts on the state the screen is in when the reply arrives: only the error
   * and the two mode flags can change, and leaving for the browse page leaves
   * the state as it is.
   */
  function Settle(form: Mode, s: AuthState, response: Response): (r: Settled)
    ensures r.next.username == s.username && r.next.email == s.email
    ensures r.next.password == s.password && r.next.otp == s.otp
    ensures r.navigate <==> response.Ok? && form != Register && (form == SignIn ==> !response.requiresOTP)
    ensures r.navigate ==> r.next == s
    ensures !response.Ok? ==> r.next == s.(error := Some(FailureMessage(form, response)))
    ensures response.Ok? && form == Register ==> r.next == s.(isRegister := false)
    ensures response == Ok(true) && form == SignIn ==> r.next == s.(requiresOTP := true, error := None)
  {
    match response
    case Ok(needsCode) =>
      (match form
       case Register => Settled(s.(isRegister := false), false)
       case SignIn => if needsCode then Settled(s.(requiresOTP := true, error := None), false) else Settled(s, true)
       case VerifyOtp => Settled(s, true))
    case _ => Settled(s.(error := Some(FailureMessage(form, response))), false)
  }

  /** `handleRegister`. */
  function RegisterStep(s: AuthState, response: Response): (out: Outcome)
    ensures !out.navigate && out.next.requiresOTP == s.requiresOTP
  {
    if s.username == "" || s.email == "" || s.password == "" then
      Outcome(s.(error := Some(AllFieldsRequired)), None, false)
    else
      var settled := Settle(Register, s, response);
      Outcome(settled.next, Some(SignUpRequest(s.username, s.email, s.password)), settled.navigate)
  }

  /** `handleSignIn`. */
  function SignInStep(s: AuthState, response: Response): (out: Outcome)
    ensures out.next.isRegister == s.isRegister
  {
    if s.email == "" || s.password == "" then
      Outcome(s.(error := Some(EmailAndPasswordRequired)), None, false)
    else
      var settled := Settle(SignIn, s, response);
      Outcome(settled.next, Some(SignInRequest(s.email, s.password)), settled.navigate)
  }

  /** `handleOTPVerification`. */
  function VerifyOtpStep(s: AuthState, response: Response): (out: Outcome)
    ensures out.next.isRegister == s.isRegister && out.next.requiresOTP == s.requiresOTP
  {
    if s.otp == "" then
      Outcome(s.(error := Some(CodeRequired)), None, false)
    else
      var settled := Settle(VerifyOtp, s, response);
      Outcome(settled.next, Some(VerifyOtpRequest(s.email, s.otp)), settled.navigate)
  }

  /**
   * The submit button: dispatches on the current form. A request goes out
   * exactly when none of that form's required buffers is empty; otherwise
   * only the validation message changes. A failed request changes only the
   * error, to a non-empty message, so the form stays where it was. Only
   * sign-in and passcode verification can leave the screen, and they leave
   * the state as it was. Submitting never edits a buffer and, from a
   * consistent state, never reaches a state that shows registration with a
   * pending passcode. The passcode
   * request carries the email typed before signing in.
   */
  function SubmitStep(s: AuthState, response: Response): (out: Outcome)
    ensures out.sent.None? <==> "" in RequiredFields(s)
    ensures out.sent.Some? ==>
      out.sent.value == match ModeOf(s)
        case Register => SignUpRequest(s.username, s.email, s.password)
        case SignIn => SignInRequest(s.email, s.password)
        case VerifyOtp => VerifyOtpRequest(s.email, s.otp)
    ensures out.sent.None? ==> !out.navigate && out.next == s.(error := Some(ValidationMessage(ModeOf(s))))
    ensures out.sent.Some? && !response.Ok? ==>
      !out.navigate && out.next == s.(error := Some(FailureMessage(ModeOf(s), response)))
    ensures out.navigate <==>
      out.sent.Some? && response.Ok? && ModeOf(s) != Register && (ModeOf(s) == SignIn ==> !response.requiresOTP)
    ensures out.navigate ==> out.next == s
    ensures out.sent.Some? && response.Ok? && ModeOf(s) == Register ==> out.next == s.(isRegister := false)
    ensures out.sent.Some? && response == Ok(true) && ModeOf(s) == SignIn ==>
      out.next == s.(requiresOTP := true, error := None)
    ensures Consistent(s) ==>
      ModeOf(out.next) ==
        if out.sent.Some? && response.Ok? && ModeOf(s) == Register then SignIn
        else if out.sent.Some? && response == Ok(true) && ModeOf(s) == SignIn then VerifyOtp
        else ModeOf(s)
    ensures out.next.username == s.username && out.next.email == s.email
    ensures out.next.password == s.password && out.next.otp == s.otp
    ensures Consistent(s) ==> Consistent(out.next)
  {
    if s.isRegister then RegisterStep(s, response)
    else if s.requiresOTP then VerifyOtpStep(s, response)
    else SignInStep(s, response)
  }

  /** The "Register" / "Sign In" link under the form: switches form and clears the error and any passcode. */
  function ToggleStep(s: AuthState): (next: AuthState)
    requires !s.requiresOTP
    ensures ModeOf(next) == (if ModeOf(s) == Register then SignIn else Register)
    ensures next.error.None? && next.otp == "" && !next.requiresOTP
    ensures next.username == s.username && next.email == s.email && next.password == s.password
  {
    s.(isRegister := !s.isRegister, error := None, requiresOTP := false, otp := "")
  }

  /** Following the link twice returns to the same form with the error and passcode cleared. */
  lemma ToggleTwice(s: AuthState)
    requires !s.requiresOTP
    ensures ToggleStep(ToggleStep(s)) == s.(error := None, otp := "")
  {
  }

  /**
   * Whether the control an event comes from is on screen in state `s`: the
   * submit button always; on a consistent screen, each form's own inputs,
   * and the form-switching link everywhere but on the passcode form.
   */
  predicate Offered(s: AuthState, e: Event)
    ensures e.Submit? ==> Offered(s, e)
    ensures Consistent(s) ==>
      (Offered(s, e) <==>
        match e
        case Submit(_) => true
        case EditUsername(_) => ModeOf(s) == Register
        case EditOtp(_) => ModeOf(s) == VerifyOtp
        case _ => ModeOf(s) != VerifyOtp)
  {
    match e
    case Submit(_) => true
    case Toggle => !s.requiresOTP
    case EditUsername(_) => s.isRegister
    case EditEmail(_) => !s.requiresOTP
    case EditPassword(_) => !s.requiresOTP
    case EditOtp(_) => s.requiresOTP
  }

  /** One user action on the screen. */
  function Step(s: AuthState, e: Event): (out: Outcome)
    requires Offered(s, e)
    ensures Consistent(s) ==> Consistent(out.next)
  {
    match e
    case Submit(response) => SubmitStep(s, response)
    case Toggle => Outcome(ToggleStep(s), None, false)
    case EditUsername(v) => Outcome(s.(username := v), None, false)
    case EditEmail(v) => Outcome(s.(email := v), None, false)
    case EditPassword(v) => Outcome(s.(password := v), None, false)
    case EditOtp(v) => Outcome(s.(otp := v), None, false)
  }

  /**
   * The screen after a series of user actions. An action whose control is
   * not on screen cannot happen and is skipped; once a handler leaves for the
   * browse page, the screen receives nothing more.
   */
  function Run(s: AuthState, events: seq<Event>): AuthState
    decreases events
  {
    if events == [] then s
    else if !Offered(s, events[0]) then Run(s, events[1..])
    else
      var out := Step(s, events[0]);
      if out.navigate then out.next else Run(out.next, events[1..])
  }

  /** Every run from a consistent state ends in a consistent state. */
  lemma {:induction false} RunKeepsConsistent(s: AuthState, events: seq<Event>)
    requires Consistent(s)
    ensures Consistent(Run(s, events))
    decreases events
  {
    if events != [] {
      if !Offered(s, events[0]) {
        RunKeepsConsistent(s, events[1..]);
      } else {
        var out := Step(s, events[0]);
        if !out.navigate {
          RunKeepsConsistent(out.next, events[1..]);
        }
      }
    }
  }

  /**
   * When each reply arrives before the next user action, no reachable state
   * shows the registration form with a passcode pending.
   */
  lemma ReachableStatesConsistent(events: seq<Event>)
    ensures !(Run(Initial, events).isRegister && Run(Initial, events).requiresOTP)
  {
    RunKeepsConsistent(Initial, events);
  }

  /** Submitting registration with an empty username sends nothing and shows the validation message. */
  lemma RegisterWithoutUsername(email: string, password: string, response: Response)
    ensures var s := Run(Initial, [Toggle, EditEmail(email), EditPassword(password)]);
      ModeOf(s) == Register &&
      SubmitStep(s, response) == Outcome(s.(error := Some(AllFieldsRequired)), None, false)
  {
    var s1 := ToggleStep(Initial);
    assert Run(Initial, [Toggle, EditEmail(email), EditPassword(password)])
        == Run(s1, [EditEmail(email), EditPassword(password)]);
    assert Run(s1, [EditEmail(email), EditPassword(password)])
        == Run(s1.(email := email), [EditPassword(password)]);
    assert Run(s1.(email := email), [EditPassword(password)]) == s1.(email := email, password := password);
  }

  /**
   * Signing in to an account that needs a passcode moves to the passcode
   * form; submitting a code the server accepts then leaves for the browse page.
   */
  lemma SignInWithPasscode(email: string, password: string, code: string)
    requires email != "" && password != "" && code != ""
    ensures var s := Run(Initial, [EditEmail(email), EditPassword(password), Submit(Ok(true))]);
      ModeOf(s) == VerifyOtp && s.error.None?
    ensures var s := Run(Initial, [EditEmail(email), EditPassword(password), Submit(Ok(true)), EditOtp(code)]);
      SubmitStep(s, Ok(false)) == Outcome(s, Some(VerifyOtpRequest(email, code)), true)
  {
    var s0 := Initial.(email := email, password := password);
    assert Run(Initial, [EditEmail(email), EditPassword(password), Submit(Ok(true))])
        == Run(s0, [Submit(Ok(true))]);
    var s1 := s0.(requiresOTP := true, error := None);
    assert Run(Initial, [EditEmail(email), EditPassword(password), Submit(Ok(true)), EditOtp(code)])
        == Run(s0, [Submit(Ok(true)), EditOtp(code)]);
    assert Run(s0, [Submit(Ok(true)), EditOtp(code)]) == Run(s1, [EditOtp(code)]);
    assert Run(s1, [EditOtp(code)]) == s1.(otp := code);
  }

  /**
   * Taking each handler as one step hides an interleaving the screen allows.
   * A sign-in request is pending; the form-switching link is still on screen,
   * so the user follows it to registration; then the reply asks for a
   * passcode. The screen now shows the registration heading together with
   * the passcode input, and no longer offers the link back.
   */
  lemma SwitchDuringSignInBreaksConsistency(email: string, password: string)
    requires email != "" && password != ""
    ensures var pending := Initial.(email := email, password := password);
      var switched := ToggleStep(pending);
      var answered := Settle(SignIn, switched, Ok(true)).next;
      SignInStep(pending, Ok(true)).sent.Some? && Offered(pending, Toggle) &&
      !Consistent(answered) && Title(ModeOf(answered)) == "Register" &&
      answered.requiresOTP && !Offered(answered, Toggle) && Offered(answered, EditOtp(""))
  {
  }

  /** The entry screen's component state and its handlers. */
  class AuthScreen {
    var isRegister: bool
    var requiresOTP: bool
    var error: Option<string>
    var username: string
    var email: string
    var password: string
    var otp: string

    /** The current values of the state slices. */
    function State(): AuthState
      reads this
    {
      AuthState(isRegister, requiresOTP, error, username, email, password, otp)
    }

    ghost predicate Valid()
      reads this
    {
      Consistent(State())
    }

    /** The form currently shown. */
    function CurrentMode(): Mode
      reads this
    {
      ModeOf(State())
    }

    constructor ()
      ensures Valid() && State() == Initial && CurrentMode() == SignIn
    {
      isRegister := false;
      username := "";
      email := "";
      password := "";
      error := None;
      requiresOTP := false;
      otp := "";
    }

    method HandleRegister(response: Response) returns (sent: Option<Request>, navigate: bool)
      modifies this
      ensures Outcome(State(), sent, navigate) == RegisterStep(old(State()), response)
    {
      navigate := false;
      if username == "" || email == "" || password == "" {
        error := Some(AllFieldsRequired);
        sent := None;
        return;
      }
      sent := Some(SignUpRequest(username, email, password));
      if response.Ok? {
        isRegister := false;
      } else {
        error := Some(FailureMessage(Register, response));
      }
    }

    method HandleSignIn(response: Response) returns (sent: Option<Request>, navigate: bool)
      modifies this
      ensures Outcome(State(), sent, navigate) == SignInStep(old(State()), response)
    {
      navigate := false;
      if email == "" || password == "" {
        error := Some(EmailAndPasswordRequired);
        sent := None;
        return;
      }
      sent := Some(SignInRequest(email, password));
      match response {
        case Ok(needsCode) =>
          if needsCode {
            requiresOTP := true;
            error := None;
          } else {
            navigate := true;
          }
        case _ =>
          error := Some(FailureMessage(SignIn, response));
      }
    }

    method HandleOtpVerification(response: Response) returns (sent: Option<Request>, navigate: bool)
      modifies this
      ensures Outcome(State(), sent, navigate) == VerifyOtpStep(old(State()), response)
    {
      navigate := false;
      if otp == "" {
        error := Some(CodeRequired);
        sent := None;
        return;
      }
      sent := Some(VerifyOtpRequest(email, otp));
      if response.Ok? {
        navigate := true;
      } else {
        error := Some(FailureMessage(VerifyOtp, response));
      }
    }

    /** The submit button's click handler, on screen in every state. */
    method Submit(response: Response) returns (sent: Option<Request>, navigate: bool)
      modifies this
      ensures old(Valid()) ==> Valid()
      ensures Outcome(State(), sent, navigate) == SubmitStep(old(State()), response)
    {
      if isRegister {
        sent, navigate := HandleRegister(response);
      } else if requiresOTP {
        sent, navigate := HandleOtpVerification(response);
      } else {
        sent, navigate := HandleSignIn(response);
      }
    }

    /** The form-switching link, shown only while no passcode is pending. */
    method Toggle()
      requires Valid() && !requiresOTP
      modifies this
      ensures Valid()
      ensures State() == ToggleStep(old(State()))
    {
      isRegister := !isRegister;
      error := None;
      requiresOTP := false;
      otp := "";
    }

    /** The username input, shown on the registration form. */
    method EditUsername(v: string)
      requires isRegister
      modifies this`username
      ensures State() == old(State()).(username := v)
    {
      username := v;
    }

    /** The email input, shown unless a passcode is pending. */
    method EditEmail(v: string)
      requires !requiresOTP
      modifies this`email
      ensures State() == old(State()).(email := v)
    {
      email := v;
    }

    /** The password input, shown unless a passcode is pending. */
    method EditPassword(v: string)
      requires !requiresOTP
      modifies this`password
      ensures State() == old(State()).(password := v)
    {
      password := v;
    }

    /** The passcode input, shown while a passcode is pending. */
    method EditOtp(v: string)
      requires requiresOTP
      modifies this`otp
      ensures State() == old(State()).(otp := v)
    {
      otp := v;
    }
  }
}
