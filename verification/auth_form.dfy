/** The sign-in and sign-up form: the validation rules of each mode, the
    message shown under each field, and the payloads the form dispatches. */
module AuthForm {
  import opened Common
  import opened Records
  import AuthSlice

  /** The raw text of the four inputs; sign-in uses only email and password. */
  datatype FormValues = FormValues(name: string, username: string, email: string, password: string)

  datatype Mode = SignIn | SignUp

  const NameRequired: string := "Name is required"
  const UsernameRequired: string := "Username is required"
  const UsernameShort: string := "Username must be at least 3 characters"
  const UsernameChars: string := "Username can only contain letters and numbers, no spaces"
  const EmailRequired: string := "Email is required"
  const EmailInvalid: string := "Invalid email"
  const PasswordRequired: string := "Password is required"
  const PasswordShort: string := "Password must be at least 6 characters"

  /** A character of `[a-zA-Z0-9]`. */
  predicate IsAlnum(c: char) {
    ('a' <= c <= 'z') || ('A' <= c <= 'Z') || ('0' <= c <= '9')
  }

  /** The message under the username field: the value is trimmed, then must be
      present, at least 3 code units long and alphanumeric, the first broken
      rule giving the message. */
  function UsernameError(raw: string): (e: Option<string>)
    ensures e.None? <==> var t := Trim(raw);
      t != "" && JsLength(t) >= 3 && forall i :: 0 <= i < |t| ==> IsAlnum(t[i])
    ensures e == Some(UsernameRequired) <==> Trim(raw) == ""
  {
    var t := Trim(raw);
    if t == "" then Some(UsernameRequired)
    else if JsLength(t) < 3 then Some(UsernameShort)
    else if exists i :: 0 <= i < |t| && !IsAlnum(t[i]) then Some(UsernameChars)
    else None
  }

  /** The message under the password field, in both modes: present and at
      least 6 code units, with no trimming. */
  function PasswordError(raw: string): (e: Option<string>)
    ensures e.None? <==> raw != "" && JsLength(raw) >= 6
    ensures e == Some(PasswordRequired) <==> raw == ""
  {
    if raw == "" then Some(PasswordRequired)
    else if JsLength(raw) < 6 then Some(PasswordShort)
    else None
  }

  /** The message under the email field: the trimmed value must be present and
      pass the email-format test, which is a parameter of the model. */
  function EmailError(raw: string, isEmail: string -> bool): (e: Option<string>)
    ensures e.None? <==> Trim(raw) != "" && isEmail(Trim(raw))
    ensures e == Some(EmailRequired) <==> Trim(raw) == ""
  {
    var t := Trim(raw);
    if t == "" then Some(EmailRequired)
    else if !isEmail(t) then Some(EmailInvalid)
    else None
  }

  /** The message under the name field: present, not trimmed. */
  function NameError(raw: string): (e: Option<string>)
    ensures e.None? <==> raw != ""
  {
    if raw == "" then Some(NameRequired) else None
  }

  /** The form may be submitted: every field of the mode is free of errors. */
  predicate Valid(mode: Mode, v: FormValues, isEmail: string -> bool) {
    && EmailError(v.email, isEmail).None?
    && PasswordError(v.password).None?
    && (mode == SignUp ==> NameError(v.name).None? && UsernameError(v.username).None?)
  }

  /** What sign-in sends to `login`. */
  datatype Credentials = Credentials(email: string, password: string)

  /** The sign-in payload: the email trimmed, the password exactly as typed. */
  function LoginPayload(v: FormValues): (c: Credentials)
    ensures c.password == v.password
    ensures c.email == Trim(v.email)
  {
    Credentials(Trim(v.email), v.password)
  }

  /** The sign-up payload: name, username and email trimmed, the password as
      typed, a new user with no picture, no bio and nobody followed, created at
      `now`. */
  function RegisterPayload(v: FormValues, now: string): (u: AuthSlice.NewUser)
    ensures u.name == Trim(v.name) && u.username == Trim(v.username) && u.email == Trim(v.email)
    ensures u.password == v.password
    ensures u.bio.None? && u.profilePicUrl.None? && u.coverPicUrl.None?
    ensures u.following == [] && u.followers == []
    ensures u.createdAt == now
  {
    AuthSlice.NewUser(Trim(v.name), Trim(v.username), Trim(v.email), v.password, None, None, None, [], [], now)
  }

  /** A sign-up the form lets through always passes the `register` thunk's own
      username length check, so that check only guards other callers. */
  lemma FormImpliesThunkCheck(v: FormValues, now: string, isEmail: string -> bool)
    requires Valid(SignUp, v, isEmail)
    ensures JsLength(RegisterPayload(v, now).username) >= 3
    ensures AuthSlice.RegisterThunk(RegisterPayload(v, now), Outcome.Fulfilled(0), Outcome.Rejected(""), Outcome.Fulfilled(())).calls != []
  {
  }

  /** The username the sign-up form sends is stable under the form's own
      trimming, so what is validated is what is stored. */
  lemma ValidatedIsSent(v: FormValues, now: string)
    ensures Trim(RegisterPayload(v, now).username) == RegisterPayload(v, now).username
    ensures UsernameError(RegisterPayload(v, now).username) == UsernameError(v.username)
  {
    TrimIdempotent(v.username);
  }

  /** A name of only spaces passes the form, because the name rule does not
      trim, and is stored empty, because the payload does. */
  lemma BlankNameStoredEmpty(v: FormValues, now: string)
    requires v.name != "" && forall i :: 0 <= i < |v.name| ==> IsJsSpace(v.name[i])
    ensures NameError(v.name).None?
    ensures RegisterPayload(v, now).name == ""
  {
  }

  /** A valid username holds only ASCII letters and digits, so it has no
      surrounding space and its length in code units is its length in
      characters. */
  lemma ValidUsernameIsPlain(raw: string)
    requires UsernameError(raw).None?
    ensures JsLength(Trim(raw)) == |Trim(raw)| >= 3
  {
  }
}
