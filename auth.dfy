/** The sign-in page (src/pages/Auth.tsx): the form check run before any
    attempt, and the notices shown for the outcome of an attempt.  The
    e-mail format check of the schema library is a parameter `emailOk`; the
    authentication service is left out, its answer being a parameter. */
module Auth {
  import opened Wrappers
  import opened Text

  const EmailMessage: string := "Invalid email address"
  const PasswordMessage: string := "Password must be at least 6 characters"
  const FullNameMessage: string := "Full name is required"
  /** The shortest password the schema accepts. */
  const MinPassword: nat := 6

  /** The `newErrors` object: one optional message per field. */
  datatype Errors = Errors(email: Option<string>, password: Option<string>, fullName: Option<string>)

  /** `Object.keys(newErrors).length`. */
  function KeyCount(e: Errors): (n: nat)
    ensures n <= 3
  {
    (if e.email.Some? then 1 else 0) + (if e.password.Some? then 1 else 0)
    + (if e.fullName.Some? then 1 else 0)
  }

  /** The errors `validateForm` records. */
  function FormErrors(isLogin: bool, email: string, password: string, fullName: string,
                      emailOk: string -> bool): (e: Errors)
    ensures e.email.Some? <==> !emailOk(email)
    ensures e.email.Some? ==> e.email.value == EmailMessage
    ensures e.password.Some? <==> |password| < MinPassword
    ensures e.password.Some? ==> e.password.value == PasswordMessage
    ensures e.fullName.Some? <==> !isLogin && IsBlank(fullName)
    ensures e.fullName.Some? ==> e.fullName.value == FullNameMessage
  {
    var withEmail := Errors(if emailOk(email) then None else Some(EmailMessage), None, None);
    var withPassword := if |password| < MinPassword then withEmail.(password := Some(PasswordMessage)) else withEmail;
    if !isLogin && IsBlank(fullName) then withPassword.(fullName := Some(FullNameMessage)) else withPassword
  }

  /** `validateForm()`'s result. */
  predicate FormValid(isLogin: bool, email: string, password: string, fullName: string, emailOk: string -> bool)
  {
    KeyCount(FormErrors(isLogin, email, password, fullName, emailOk)) == 0
  }

  /** The form passes exactly when the e-mail is well formed, the password
      has at least six characters and, when signing up, a name is given. */
  lemma FormValidIff(isLogin: bool, email: string, password: string, fullName: string, emailOk: string -> bool)
    ensures FormValid(isLogin, email, password, fullName, emailOk)
            <==> emailOk(email) && |password| >= MinPassword && (isLogin || !IsBlank(fullName))
  {
    var e := FormErrors(isLogin, email, password, fullName, emailOk);
    assert KeyCount(e) == 0 <==> e.email.None? && e.password.None? && e.fullName.None?;
  }

  /** The request `handleSubmit` makes. */
  datatype Attempt = NoAttempt | SignIn(email: string, password: string)
                   | SignUp(email: string, password: string, fullName: string)

  function SubmitAttempt(isLogin: bool, email: string, password: string, fullName: string,
                         emailOk: string -> bool): (a: Attempt)
    ensures a.NoAttempt? <==> !FormValid(isLogin, email, password, fullName, emailOk)
    ensures a.SignIn? <==> isLogin && FormValid(isLogin, email, password, fullName, emailOk)
    ensures a.SignIn? ==> a == SignIn(email, password)
    ensures a.SignUp? ==> a == SignUp(email, password, fullName)
  {
    if !FormValid(isLogin, email, password, fullName, emailOk) then NoAttempt
    else if isLogin then SignIn(email, password)
    else SignUp(email, password, fullName)
  }

  datatype Notice = Notice(title: string, description: string, destructive: bool)

  const InvalidCredentials: string := "Invalid login credentials"
  const FriendlyInvalid: string := "Invalid email or password. Please try again."

  /** What the awaited service call gave: a reply carrying an optional
      error message, or a thrown exception, which the `catch` turns into a
      generic notice. */
  datatype Reply = Replied(error: Option<string>) | Threw

  /** The notice of the `catch` branch. */
  const UnexpectedNotice: Notice := Notice("Error", "An unexpected error occurred. Please try again.", true)

  /** The notice after a sign-in. */
  function SignInNotice(reply: Reply): (n: Notice)
    ensures n.destructive <==> !(reply.Replied? && reply.error.None?)
    ensures reply.Threw? ==> n == UnexpectedNotice
    ensures reply.Replied? && reply.error.Some? ==> n.title == "Login failed"
    ensures reply == Replied(Some(InvalidCredentials)) ==> n.description == FriendlyInvalid
    ensures reply.Replied? && reply.error.Some? && reply.error.value != InvalidCredentials ==>
              n.description == reply.error.value
  {
    match reply
    case Threw => UnexpectedNotice
    case Replied(None) => Notice("Welcome back!", "You have successfully logged in.", false)
    case Replied(Some(m)) => Notice("Login failed", if m == InvalidCredentials then FriendlyInvalid else m, true)
  }

  /** The notice after a sign-up. */
  function SignUpNotice(reply: Reply): (n: Notice)
    ensures n.destructive <==> !(reply.Replied? && reply.error.None?)
    ensures reply.Threw? ==> n == UnexpectedNotice
    ensures reply.Replied? && reply.error.Some? && Contains(reply.error.value, "already registered") ==>
              n == Notice("Account exists", "This email is already registered. Please sign in instead.", true)
    ensures reply.Replied? && reply.error.Some? && !Contains(reply.error.value, "already registered") ==>
              n == Notice("Sign up failed", reply.error.value, true)
  {
    match reply
    case Threw => UnexpectedNotice
    case Replied(None) => Notice("Account created!", "Welcome to AKEF Workspace.", false)
    case Replied(Some(m)) =>
      if Contains(m, "already registered") then
        Notice("Account exists", "This email is already registered. Please sign in instead.", true)
      else Notice("Sign up failed", m, true)
  }

  /** The notice `handleSubmit` shows for its attempt and the service's
      reply: none when no attempt is made. */
  function SubmitNotice(attempt: Attempt, reply: Reply): (n: Option<Notice>)
    ensures n.None? <==> attempt.NoAttempt?
    ensures attempt.SignIn? ==> n == Some(SignInNotice(reply))
    ensures attempt.SignUp? ==> n == Some(SignUpNotice(reply))
    ensures reply.Threw? && !attempt.NoAttempt? ==> n == Some(UnexpectedNotice)
  {
    match attempt
    case NoAttempt => None
    case SignIn(_, _) => Some(SignInNotice(reply))
    case SignUp(_, _, _) => Some(SignUpNotice(reply))
  }

  /** A welcome notice comes only from a reply without error; a throw
      never welcomes, whichever mode the form was in. */
  lemma WelcomeOnlyOnSuccess(attempt: Attempt, reply: Reply)
    ensures SubmitNotice(attempt, reply).Some? && !SubmitNotice(attempt, reply).value.destructive
            <==> !attempt.NoAttempt? && reply == Replied(None)
  {
  }

  /** The friendly text replaces only the one service message; every other
      message, and in particular the friendly text itself, is shown as it
      is. */
  lemma SignInKeepsOtherMessages(m: string)
    requires m != InvalidCredentials
    ensures SignInNotice(Replied(Some(m))).description == m
  {
  }

  /** The service's message for a taken address gives the "Account exists"
      notice. */
  lemma TakenAddressNotice()
    ensures SignUpNotice(Replied(Some("User already registered"))).title == "Account exists"
  {
    assert OccursAt("User already registered", "already registered", 5);
  }

  /** The page's state. */
  class AuthPage {
    var isLogin: bool
    var email: string
    var password: string
    var fullName: string
    var errors: Errors

    constructor()
      ensures isLogin && email == "" && password == "" && fullName == ""
      ensures errors == Errors(None, None, None)
    {
      isLogin, email, password, fullName := true, "", "", "";
      errors := Errors(None, None, None);
    }

    /** The mode switch: the mode flips and the errors are cleared. */
    method ToggleMode()
      modifies this
      ensures isLogin == !old(isLogin) && errors == Errors(None, None, None)
      ensures email == old(email) && password == old(password) && fullName == old(fullName)
    {
      isLogin := !isLogin;
      errors := Errors(None, None, None);
    }

    /** Typing in the e-mail field clears its error. */
    method SetEmail(text: string)
      modifies this
      ensures email == text && errors == old(errors).(email := None)
      ensures isLogin == old(isLogin) && password == old(password) && fullName == old(fullName)
    {
      email := text;
      errors := errors.(email := None);
    }

    method SetPassword(text: string)
      modifies this
      ensures password == text && errors == old(errors).(password := None)
      ensures isLogin == old(isLogin) && email == old(email) && fullName == old(fullName)
    {
      password := text;
      errors := errors.(password := None);
    }

    method SetFullName(text: string)
      modifies this
      ensures fullName == text && errors == old(errors).(fullName := None)
      ensures isLogin == old(isLogin) && email == old(email) && password == old(password)
    {
      fullName := text;
      errors := errors.(fullName := None);
    }

    /** `validateForm`: records the errors and reports whether there are
        none. */
    method ValidateForm(emailOk: string -> bool) returns (ok: bool)
      modifies this
      ensures errors == FormErrors(isLogin, email, password, fullName, emailOk)
      ensures ok == FormValid(isLogin, email, password, fullName, emailOk)
      ensures isLogin == old(isLogin) && email == old(email) && password == old(password) && fullName == old(fullName)
    {
      errors := FormErrors(isLogin, email, password, fullName, emailOk);
      ok := KeyCount(errors) == 0;
    }

    /** `handleSubmit`: a form that fails the check makes no attempt. */
    method HandleSubmit(emailOk: string -> bool) returns (attempt: Attempt)
      modifies this
      ensures attempt == SubmitAttempt(isLogin, email, password, fullName, emailOk)
      ensures errors == FormErrors(isLogin, email, password, fullName, emailOk)
      ensures isLogin == old(isLogin) && email == old(email) && password == old(password) && fullName == old(fullName)
    {
      var ok := ValidateForm(emailOk);
      if !ok {
        return NoAttempt;
      }
      attempt := if isLogin then SignIn(email, password) else SignUp(email, password, fullName);
    }
  }
}
