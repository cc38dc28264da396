/** The sign-in and sign-up page (src/app/auth/page.tsx): two forms, the
    checks each runs before calling the session's `signIn` or `signUp`, and
    the error and success messages that any edit clears. */
module AuthPage {
  import opened Common
  import opened UserModel
  import opened SignupRoute

  const FillAllFields: string := "Please fill in all fields."
  const PasswordsDiffer: string := "Passwords do not match."
  const PasswordTooShortHere: string := "Password must be at least 6 characters long."
  const SigninRejected: string := "Invalid email or password."
  const SignupFailed: string := "Failed to create account. Please try again."
  const ClientPasswordMinLength: nat := 6

  datatype SignInForm = SignInForm(email: string, password: string)
  datatype SignUpForm = SignUpForm(name: string, email: string, password: string, confirmPassword: string)

  datatype SignInField = SignInEmail | SignInPassword
  datatype SignUpField = SignUpName | SignUpEmail | SignUpPassword | SignUpConfirm

  /** What `signUp` is given: no `confirmPassword`. */
  datatype SignUpData = SignUpData(name: string, email: string, password: string, role: Role)

  const EmptySignIn: SignInForm := SignInForm("", "")
  const EmptySignUp: SignUpForm := SignUpForm("", "", "", "")

  function SetSignIn(f: SignInForm, field: SignInField, value: string): SignInForm
  {
    match field
    case SignInEmail => f.(email := value)
    case SignInPassword => f.(password := value)
  }

  function SetSignUp(f: SignUpForm, field: SignUpField, value: string): SignUpForm
  {
    match field
    case SignUpName => f.(name := value)
    case SignUpEmail => f.(email := value)
    case SignUpPassword => f.(password := value)
    case SignUpConfirm => f.(confirmPassword := value)
  }

  /** The checks of `handleSignIn`; `None` when it calls `signIn`. */
  function SignInCheck(f: SignInForm): (r: Option<string>)
    ensures r.None? <==> f.email != "" && f.password != ""
    ensures r.Some? ==> r.value == FillAllFields
  {
    if f.email == "" || f.password == "" then Some(FillAllFields) else None
  }

  /** The checks of `handleSignUp`, in order; `None` when it calls `signUp`. */
  function SignUpCheck(f: SignUpForm): (r: Option<string>)
    ensures f.name == "" || f.email == "" || f.password == "" || f.confirmPassword == "" ==> r == Some(FillAllFields)
    ensures f.name != "" && f.email != "" && f.password != "" && f.confirmPassword != "" ==>
              (f.password != f.confirmPassword <==> r == Some(PasswordsDiffer))
    ensures f.name != "" && f.email != "" && f.password != "" && f.password == f.confirmPassword ==>
              (|f.password| < ClientPasswordMinLength <==> r == Some(PasswordTooShortHere))
    ensures r.None? <==> && f.name != "" && f.email != "" && f.password == f.confirmPassword
                         && |f.password| >= ClientPasswordMinLength
  {
    if f.name == "" || f.email == "" || f.password == "" || f.confirmPassword == "" then Some(FillAllFields)
    else if f.password != f.confirmPassword then Some(PasswordsDiffer)
    else if |f.password| < ClientPasswordMinLength then Some(PasswordTooShortHere)
    else None
  }

  function SignUpPayload(f: SignUpForm, role: Role): SignUpData
  {
    SignUpData(f.name, f.email, f.password, role)
  }

  /** The body the route receives from that payload. */
  function AsSignupBody(d: SignUpData): SignupBody
  {
    SignupBody(Some(d.name), Some(d.email), Some(d.password), Some(RoleName(d.role)))
  }

  /** The page asks for the same shortest password as the route, and a form it
      sends never meets the route's 400 answers: the route can only refuse it
      for a taken address or a record the schema rejects. */
  lemma SentSignUpPassesServerChecks(f: SignUpForm, role: Role, users: seq<User>, hash: string -> string,
                                     newId: string, now: int)
    requires SignUpCheck(f).None?
    ensures ClientPasswordMinLength == PasswordMinLength
    ensures var d := SignupDecision(Some(AsSignupBody(SignUpPayload(f, role))), users, hash, newId, now);
            d.Registered? || d.status in {409, 500}
  {
  }

  /** The page's state. */
  class AuthPageState {
    var userRole: Role
    var signInForm: SignInForm
    var signUpForm: SignUpForm
    var error: string
    var success: string

    constructor()
      ensures userRole == Seeker && signInForm == EmptySignIn && signUpForm == EmptySignUp
      ensures error == "" && success == ""
    {
      userRole := Seeker;
      signInForm := EmptySignIn;
      signUpForm := EmptySignUp;
      error := "";
      success := "";
    }

    /** `handleSignInChange`: the edited field, and both messages cleared. */
    method SignInChange(field: SignInField, value: string)
      modifies this
      ensures signInForm == SetSignIn(old(signInForm), field, value)
      ensures error == "" && success == ""
      ensures signUpForm == old(signUpForm) && userRole == old(userRole)
    {
      signInForm := SetSignIn(signInForm, field, value);
      error := "";
      success := "";
    }

    /** `handleSignUpChange`: the edited field, and both messages cleared. */
    method SignUpChange(field: SignUpField, value: string)
      modifies this
      ensures signUpForm == SetSignUp(old(signUpForm), field, value)
      ensures error == "" && success == ""
      ensures signInForm == old(signInForm) && userRole == old(userRole)
    {
      signUpForm := SetSignUp(signUpForm, field, value);
      error := "";
      success := "";
    }

    /** `handleSignIn`, with `signIn` answering whether the session's sign-in
        resolved. Returns the form handed to `signIn`, if any, and whether the
        page moved to `/`. */
    method HandleSignIn(signIn: SignInForm -> bool) returns (called: Option<SignInForm>, redirected: bool)
      modifies this
      ensures SignInCheck(old(signInForm)).Some? ==>
                && called.None? && !redirected && error == SignInCheck(old(signInForm)).value
                && signInForm == old(signInForm)
      ensures SignInCheck(old(signInForm)).None? ==> called == Some(old(signInForm))
      ensures SignInCheck(old(signInForm)).None? && signIn(old(signInForm)) ==>
                redirected && signInForm == EmptySignIn && error == old(error)
      ensures SignInCheck(old(signInForm)).None? && !signIn(old(signInForm)) ==>
                !redirected && signInForm == old(signInForm) && error == SigninRejected
      ensures signUpForm == old(signUpForm) && userRole == old(userRole) && success == old(success)
    {
      var refusal := SignInCheck(signInForm);
      if refusal.Some? {
        error := refusal.value;
        return None, false;
      }
      called := Some(signInForm);
      if signIn(signInForm) {
        signInForm := EmptySignIn;
        redirected := true;
      } else {
        error := SigninRejected;
        redirected := false;
      }
    }

    /** `handleSignUp`, with `signUp` answering whether the session's sign-up
        resolved. Returns the payload handed to `signUp`, if any. */
    method HandleSignUp(signUp: SignUpData -> bool) returns (sent: Option<SignUpData>, redirected: bool)
      modifies this
      ensures SignUpCheck(old(signUpForm)).Some? ==>
                && sent.None? && !redirected && error == SignUpCheck(old(signUpForm)).value
                && signUpForm == old(signUpForm)
      ensures SignUpCheck(old(signUpForm)).None? ==> sent == Some(SignUpPayload(old(signUpForm), userRole))
      ensures SignUpCheck(old(signUpForm)).None? && signUp(SignUpPayload(old(signUpForm), userRole)) ==>
                redirected && signUpForm == EmptySignUp && error == old(error)
      ensures SignUpCheck(old(signUpForm)).None? && !signUp(SignUpPayload(old(signUpForm), userRole)) ==>
                !redirected && signUpForm == old(signUpForm) && error == SignupFailed
      ensures signInForm == old(signInForm) && userRole == old(userRole) && success == old(success)
    {
      var refusal := SignUpCheck(signUpForm);
      if refusal.Some? {
        error := refusal.value;
        return None, false;
      }
      var payload := SignUpPayload(signUpForm, userRole);
      sent := Some(payload);
      if signUp(payload) {
        signUpForm := EmptySignUp;
        redirected := true;
      } else {
        error := SignupFailed;
        redirected := false;
      }
    }
  }
}
