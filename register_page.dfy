/** The sign-up form (client/src/pages/auth/RegisterPage.jsx): the checks it
    makes before sending, the request it sends, and where it goes after
    the server answers. The server call is a function parameter. */
module RegisterPage {
  import opened Common
  import opened Text
  import opened UserModel
  import AuthRoutes

  const NameMessage: string := "Enter your name"
  const EmailMessage: string := "Enter a valid email"
  const PasswordMessage: string := "Password must be at least 8 characters"

  /** `validate()`: the first failing check's message, or "" when all
      pass. */
  function Validate(name: string, email: string, password: string): (err: string)
    ensures err == "" <==> |Trim(name)| >= 2 && '@' in email && |password| >= 8
    ensures |Trim(name)| < 2 ==> err == NameMessage
    ensures |Trim(name)| >= 2 && '@' !in email ==> err == EmailMessage
    ensures |Trim(name)| >= 2 && '@' in email && |password| < 8 ==> err == PasswordMessage
  {
    if |Trim(name)| < 2 then NameMessage
    else if '@' !in email then EmailMessage
    else if |password| < 8 then PasswordMessage
    else ""
  }

  /** The form's fields; the role select offers "user" and "doctor". */
  datatype Form = Form(name: string, username: string, email: string, password: string, role: string)

  /** The body `register` posts: every field as typed. */
  function Body(f: Form): (b: AuthRoutes.RegisterBody)
    ensures b == AuthRoutes.RegisterBody(f.name, Some(f.username), f.email, f.password, Some(f.role))
  {
    AuthRoutes.RegisterBody(f.name, Some(f.username), f.email, f.password, Some(f.role))
  }

  /** What a submit ends with: the request made, if any, the toasts shown
      in order, and the page navigated to, if any. */
  datatype Submitted = Submitted(request: Option<AuthRoutes.RegisterBody>, toasts: seq<string>, goTo: Option<string>)

  /** Where a new account goes: doctors to the login page, anyone else to
      the home page. */
  function Landing(role: Role): (path: string)
    ensures path == "/login" <==> role == DoctorRole
    ensures role != DoctorRole ==> path == "/"
  {
    if role == DoctorRole then "/login" else "/"
  }

  /** `onSubmit`. */
  function Submit(f: Form, register: AuthRoutes.RegisterBody -> Result<AuthRoutes.AuthReply>): Submitted
  {
    var err := Validate(f.name, f.email, f.password);
    if err != "" then Submitted(None, [err], None)
    else match register(Body(f))
      case Ok(u) =>
        Submitted(Some(Body(f)),
          ["Account created!"] + (if u.role == DoctorRole then ["Doctor account pending admin approval."] else []),
          Some(Landing(u.role)))
      case Err(e) => Submitted(Some(Body(f)), [if e.message != "" then e.message else "Registration failed"], None)
  }

  /** No request is made when a check fails, and then only its message is
      shown; when the checks pass the form is sent, and a created account
      goes to its landing page. */
  lemma SubmitSpec(f: Form, register: AuthRoutes.RegisterBody -> Result<AuthRoutes.AuthReply>)
    ensures var s := Submit(f, register);
      (s.request.None? <==> Validate(f.name, f.email, f.password) != "") &&
      (s.request.None? ==> s.toasts == [Validate(f.name, f.email, f.password)] && s.goTo.None?) &&
      (s.request.Some? ==> s.request.value == Body(f)) &&
      (s.goTo.Some? <==> s.request.Some? && register(Body(f)).Ok?) &&
      (s.goTo.Some? ==> s.goTo.value == Landing(register(Body(f)).value.role))
  {
  }

  /** What the form lets through meets the server's length rules for the
      name and the password. */
  lemma PassingFormMeetsServerLengths(f: Form)
    requires Validate(f.name, f.email, f.password) == ""
    ensures |f.name| >= 2 && |f.password| >= 8
  {
  }

  /** A sent form registers a doctor when the role select says "doctor",
      so against the server's rules that account is sent to the login
      page. */
  lemma DoctorFormLandsOnLogin(f: Form, users: map<UserId, User>, nextId: UserId,
                               profiles: map<UserId, DoctorProfile>, isEmail: string -> bool, passwordHash: string)
    requires f.role == "doctor"
    requires AuthRoutes.Register(users, nextId, profiles, Body(f), isEmail, passwordHash).3.Ok?
    ensures Landing(AuthRoutes.Register(users, nextId, profiles, Body(f), isEmail, passwordHash).3.value.role) == "/login"
  {
  }
}
