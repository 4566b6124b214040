/**
 * The registration form: field edits, the two guards checked before
 * `register` is called, the normalised payload, the auth context's own check
 * inside `register`, and what the form does with the outcome of that call.
 */
module Register {
  import opened Wrappers
  import opened Strings

  datatype Form = Form(name: string, email: string, password: string, confirmPassword: string, role: string)

  datatype Field = Name | Email | Password | ConfirmPassword | RoleField

  /** The form's initial state: everything empty, role `mentee`. */
  function InitialForm(): (f: Form)
    ensures f.role == "mentee" && f.name == "" && f.email == "" && f.password == "" && f.confirmPassword == ""
  {
    Form("", "", "", "", "mentee")
  }

  /** `handleChange`: the field named by the input takes its value; the other fields keep theirs. */
  function HandleChange(f: Form, field: Field, value: string): (g: Form)
    ensures field == Name ==> g == f.(name := value)
    ensures field == Email ==> g == f.(email := value)
    ensures field == Password ==> g == f.(password := value)
    ensures field == ConfirmPassword ==> g == f.(confirmPassword := value)
    ensures field == RoleField ==> g == f.(role := value)
  {
    match field
    case Name => f.(name := value)
    case Email => f.(email := value)
    case Password => f.(password := value)
    case ConfirmPassword => f.(confirmPassword := value)
    case RoleField => f.(role := value)
  }

  /** The body passed to `register`: no `confirmPassword`. */
  datatype Payload = Payload(name: string, email: string, password: string, role: string)

  const AllFieldsRequired := "All fields are required"
  const PasswordsDoNotMatch := "Passwords do not match"
  const RegistrationFailed := "Registration failed"

  /** The guards of `handleSubmit`, in order, and the payload they let through. */
  function Validate(f: Form): (r: Result)
    ensures (f.name == "" || f.email == "" || f.password == "" || f.role == "") <==> r == Rejected(AllFieldsRequired)
    ensures r == Rejected(PasswordsDoNotMatch) <==>
              f.name != "" && f.email != "" && f.password != "" && f.role != "" && f.password != f.confirmPassword
    ensures r.Accepted? ==>
              r.payload.name == Trim(f.name) && r.payload.email == ToLower(Trim(f.email)) &&
              r.payload.password == f.password && r.payload.role == f.role
    ensures r.Accepted? <==> f.name != "" && f.email != "" && f.password != "" && f.role != "" && f.password == f.confirmPassword
  {
    if f.name == "" || f.email == "" || f.password == "" || f.role == "" then Rejected(AllFieldsRequired)
    else if f.password != f.confirmPassword then Rejected(PasswordsDoNotMatch)
    else Accepted(Payload(Trim(f.name), ToLower(Trim(f.email)), f.password, f.role))
  }

  datatype Result = Accepted(payload: Payload) | Rejected(message: string)

  /** How the `register` call ends: it returns a truthy or falsy value, or throws with an optional server message. */
  datatype RegisterReply = Returned(success: bool) | Threw(serverMessage: Option<string>)

  /** What one submit leaves behind: the error shown, the payload passed to `register` (if any), and whether the page moved to /dashboard. */
  datatype SubmitOutcome = SubmitOutcome(error: string, sent: Option<Payload>, navigated: bool)

  /**
   * `handleSubmit`: the error is cleared first; a failed guard sets its message
   * and calls nothing; otherwise the payload is passed to `register` and its reply decides
   * between navigating, staying put, and showing the thrown message.
   */
  function HandleSubmit(f: Form, reply: RegisterReply): (o: SubmitOutcome)
    ensures o.sent.Some? <==> Validate(f).Accepted?
    ensures o.sent.Some? ==> o.sent.value == Validate(f).payload
    ensures o.navigated <==> o.sent.Some? && reply == Returned(true)
    ensures Validate(f).Rejected? ==> o.error == Validate(f).message
    ensures Validate(f).Accepted? && reply.Returned? ==> o.error == ""
    ensures Validate(f).Accepted? && reply.Threw? ==>
              o.error == (if reply.serverMessage.Some? && reply.serverMessage.value != "" then reply.serverMessage.value else RegistrationFailed)
  {
    match Validate(f)
    case Rejected(message) => SubmitOutcome(message, None, false)
    case Accepted(payload) =>
      match reply
      case Returned(success) => SubmitOutcome("", Some(payload), success)
      case Threw(serverMessage) =>
        var message := if serverMessage.Some? && serverMessage.value != "" then serverMessage.value else RegistrationFailed;
        SubmitOutcome(message, Some(payload), false)
  }

  /** The emptiness test runs on the untrimmed name: a name of spaces passes the form's guard and is passed to `register` as "". */
  lemma BlankNameSentEmpty(f: Form)
    requires f.name != "" && AllWhitespace(f.name)
    requires f.email != "" && f.password != "" && f.role != "" && f.password == f.confirmPassword
    ensures Validate(f).Accepted? && Validate(f).payload.name == ""
  {
    TrimIsInfix(f.name);
  }

  /** The email passed to `register` is already normalised: trimming and lower-casing it again changes nothing. */
  lemma SentEmailNormalised(f: Form)
    requires Validate(f).Accepted?
    ensures var e := Validate(f).payload.email;
            Trim(e) == e && ToLower(e) == e
  {
    var t := Trim(f.email);
    ToLowerIdempotent(t);
    LowerKeepsTrimmed(t);
  }

  /** Lower-casing a string with no white space at either end keeps it so: its trim is itself. */
  lemma LowerKeepsTrimmed(t: string)
    requires t != [] ==> !IsWhitespace(t[0]) && !IsWhitespace(t[|t| - 1])
    ensures Trim(ToLower(t)) == ToLower(t)
  {
    var e := ToLower(t);
    if t != [] {
      LowerCharWhitespace(t[0]);
      LowerCharWhitespace(t[|t| - 1]);
    }
    TrimNoEdgeWhitespace(e);
  }

  /** How the POST to `/api/auth/register` ends: a response with or without a token, or an error carrying the server's message, if any. */
  datatype PostOutcome = Responded(hasToken: bool) | PostThrew(serverMessage: Option<string>)

  /** True when one of the four fields of the payload is empty. */
  predicate MissingField(p: Payload) {
    p.name == "" || p.email == "" || p.password == "" || p.role == ""
  }

  /**
   * `register` in the auth context, with the POST's outcome as a parameter: a
   * payload with an empty field throws its own error, which carries no server
   * response, and nothing is posted; otherwise it returns whether the
   * response held a token, or rethrows the POST's error.
   */
  function AuthRegister(p: Payload, post: PostOutcome): (r: RegisterReply)
    ensures MissingField(p) ==> r == Threw(None)
    ensures !MissingField(p) && post.Responded? ==> r == Returned(post.hasToken)
    ensures !MissingField(p) && post.PostThrew? ==> r == Threw(post.serverMessage)
    ensures r == Returned(true) <==> !MissingField(p) && post == Responded(true)
  {
    if MissingField(p) then Threw(None)
    else match post
      case Responded(hasToken) => Returned(hasToken)
      case PostThrew(serverMessage) => Threw(serverMessage)
  }

  /** One submit with the auth context's `register` in place: the form's guards, then `register`'s own check, then the POST. */
  function SubmitWithAuth(f: Form, post: PostOutcome): (o: SubmitOutcome)
    ensures o.sent.Some? <==> Validate(f).Accepted?
    ensures o.navigated <==> Validate(f).Accepted? && Trim(f.name) != "" && Trim(f.email) != "" && post == Responded(true)
    ensures Validate(f).Accepted? && (Trim(f.name) == "" || Trim(f.email) == "") ==> o.error == RegistrationFailed
  {
    match Validate(f)
    case Rejected(_) => HandleSubmit(f, Returned(false))
    case Accepted(p) =>
      assert |p.email| == |Trim(f.email)|;
      HandleSubmit(f, AuthRegister(p, post))
  }

  /**
   * A name of spaces passes the form's guard, but the trimmed name is empty,
   * so `register` throws before posting: the form shows "Registration failed"
   * and stays on the page, whatever the server would have answered.
   */
  lemma BlankNameFails(f: Form, post: PostOutcome)
    requires f.name != "" && AllWhitespace(f.name)
    requires f.email != "" && f.password != "" && f.role != "" && f.password == f.confirmPassword
    ensures SubmitWithAuth(f, post).error == RegistrationFailed
    ensures !SubmitWithAuth(f, post).navigated
  {
    BlankNameSentEmpty(f);
  }
}
