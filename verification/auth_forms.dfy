/** The login and registration forms. Both offer email and phone sign-in;
    the phone path is a small one-time-password machine: send a code to the
    number, then "verify", which signs the user in without looking at the
    code. The two forms differ in their rules, their error texts and where
    they go after signing in. */
module AuthForms {
  import opened Common
  import opened Validation

  datatype Form = LoginForm | RegisterForm

  datatype Channel = ByEmail | ByPhone

  /** The form-local state: the chosen channel, whether a code was sent, and
      the number it was sent to. */
  datatype OtpState = OtpState(channel: Channel, otpSent: bool, phoneNumber: string)

  const Start := OtpState(ByEmail, false, "")

  /** What a handler does outside the form's own state, in order. */
  datatype Effect =
    | ReportError(message: string)   // the auth store's `setError`
    | Reinitialize                   // the auth store's `initialize`
    | NavigateTo(path: string)
    | StopSubmitting                 // Formik's `setSubmitting(false)`

  /** Where a form goes once the user is signed in. */
  function Home(form: Form): (path: string)
    ensures path == (if form == LoginForm then "/" else "/profile")
  {
    match form
    case LoginForm => "/"
    case RegisterForm => "/profile"
  }

  /** The values of the email form; `name` and `confirmPassword` exist on
      the registration form only. */
  datatype EmailValues = EmailValues(name: string, email: string, password: string, confirmPassword: string)

  /** The values of the phone form; `name` exists on the registration form
      only. */
  datatype PhoneValues = PhoneValues(name: string, phone: string, otp: string)

  /** The error messages of the email form. */
  function EmailErrors(form: Form, v: EmailValues, isEmail: string -> bool): (errors: map<string, string>)
    ensures errors == map[] <==> EmailValid(form, v, isEmail)
  {
    var shared :=
      Report("email", Check(Present(v.email), isEmail(v.email), "Email is required", "Invalid email address"),
      Report("password", Check(Present(v.password), |v.password| >= 6, "Password is required", "Password must be at least 6 characters"),
      map[]));
    match form
    case LoginForm => shared
    case RegisterForm =>
      Report("name", Check(Present(v.name), |v.name| >= 2, "Name is required", "Name must be at least 2 characters"),
      Report("confirmPassword", Check(Present(v.confirmPassword), v.confirmPassword == v.password, "Confirm password is required", "Passwords must match"),
      shared))
  }

  /** What the email form accepts: a well-formed email and a password of at
      least six characters; to register, also a name of at least two
      characters and the password typed twice. */
  predicate EmailValid(form: Form, v: EmailValues, isEmail: string -> bool)
  {
    && Present(v.email) && isEmail(v.email)
    && |v.password| >= 6
    && (form == RegisterForm ==> |v.name| >= 2 && Present(v.confirmPassword) && v.confirmPassword == v.password)
  }

  /** The error messages of the phone form; the code is required only once
      it has been sent. */
  function PhoneErrors(form: Form, otpSent: bool, v: PhoneValues): (errors: map<string, string>)
    ensures errors == map[] <==> PhoneValid(form, otpSent, v)
  {
    var shared :=
      Report("phone", Check(Present(v.phone), OtpPhone(v.phone), "Phone number is required", "Invalid phone number"),
      Report("otp", Check(!otpSent || Present(v.otp), true, "OTP is required", ""),
      map[]));
    match form
    case LoginForm => shared
    case RegisterForm =>
      Report("name", Check(Present(v.name), |v.name| >= 2, "Name is required", "Name must be at least 2 characters"), shared)
  }

  /** What the phone form accepts: a number of ten to twelve digits with an
      optional leading plus, the code once one was sent, and to register a
      name of at least two characters. */
  predicate PhoneValid(form: Form, otpSent: bool, v: PhoneValues)
  {
    && OtpPhone(v.phone)
    && (otpSent ==> v.otp != "")
    && (form == RegisterForm ==> |v.name| >= 2)
  }

  /** A handler's new form state and its effects. */
  datatype Handled = Handled(state: OtpState, effects: seq<Effect>)

  /** `handleEmailLogin` / `handleEmailRegister`. `reply` answers the
      sign-in or sign-up call: an error, or whether it returned data. */
  function EmailSubmit(form: Form, st: OtpState, reply: Reply<bool>): (h: Handled)
    ensures h.state == st
    ensures |h.effects| > 0 && h.effects[|h.effects| - 1] == StopSubmitting
    ensures NavigateTo(Home(form)) in h.effects <==> reply == Ok(true)
    ensures reply == Ok(true) ==> h.effects == [Reinitialize, NavigateTo(Home(form)), StopSubmitting]
    ensures reply.Err? ==>
      h.effects == [ReportError(ErrorText(reply.message, if form == LoginForm then "Login failed" else "Registration failed")), StopSubmitting]
  {
    match reply
    case Err(message) =>
      var fallback := if form == LoginForm then "Login failed" else "Registration failed";
      Handled(st, [ReportError(ErrorText(message, fallback)), StopSubmitting])
    case Ok(data) =>
      Handled(st, (if data then [Reinitialize, NavigateTo(Home(form))] else []) + [StopSubmitting])
  }

  /** `handleSendOTP`: remember the number, ask for a code, and mark the
      code as sent only when the request returned no error. */
  function SendOtp(st: OtpState, phone: string, reply: Reply<()>): (h: Handled)
    ensures h.state.phoneNumber == phone && h.state.channel == st.channel
    ensures h.state.otpSent == (reply.Ok? || st.otpSent)
    ensures reply.Ok? ==> h.effects == [StopSubmitting]
    ensures reply.Err? ==> h.effects == [ReportError(ErrorText(reply.message, "Failed to send OTP")), StopSubmitting]
  {
    var remembered := st.(phoneNumber := phone);
    match reply
    case Ok(_) => Handled(remembered.(otpSent := true), [StopSubmitting])
    case Err(message) => Handled(remembered, [ReportError(ErrorText(message, "Failed to send OTP")), StopSubmitting])
  }

  /** `handleVerifyOTP`: the code is not checked; the store is
      reinitialized and the form goes home. */
  function VerifyOtp(form: Form, st: OtpState, otp: string): (h: Handled)
    ensures h.state == st
    ensures h.effects == [Reinitialize, NavigateTo(Home(form)), StopSubmitting]
  {
    Handled(st, [Reinitialize, NavigateTo(Home(form)), StopSubmitting])
  }

  /** The user's actions on a form. `SubmitPhone` carries the reply the
      send request would receive. */
  datatype Event =
    | SubmitPhone(values: PhoneValues, sendReply: Reply<()>)
    | ToggleMethod
    | SelectTab(channel: Channel)
    | Resend

  /** One event. The phone form is only on screen for the phone channel;
      Formik runs its handler only when the values pass the rules; the
      handler is the verify handler once a code was sent and the send
      handler before. */
  function Step(form: Form, st: OtpState, e: Event): (h: Handled)
    ensures e.ToggleMethod? ==> h.state == OtpState(if st.channel == ByEmail then ByPhone else ByEmail, false, st.phoneNumber)
    ensures e.SelectTab? ==> h.state == st.(channel := e.channel)
    ensures e.Resend? ==> h.state == st.(otpSent := false)
    ensures e.SubmitPhone? && st.channel == ByPhone && PhoneValid(form, st.otpSent, e.values) && st.otpSent ==>
      h == VerifyOtp(form, st, e.values.otp)
    ensures e.SubmitPhone? && st.channel == ByPhone && PhoneValid(form, st.otpSent, e.values) && !st.otpSent ==>
      h == SendOtp(st, e.values.phone, e.sendReply)
    ensures e.SubmitPhone? && (st.channel == ByEmail || !PhoneValid(form, st.otpSent, e.values)) ==>
      h == Handled(st, [])
  {
    match e
    case ToggleMethod =>
      Handled(st.(channel := if st.channel == ByEmail then ByPhone else ByEmail, otpSent := false), [])
    case SelectTab(m) => Handled(st.(channel := m), [])
    case Resend => Handled(st.(otpSent := false), [])
    case SubmitPhone(values, reply) =>
      if st.channel == ByEmail || PhoneErrors(form, st.otpSent, values) != map[] then Handled(st, [])
      else if st.otpSent then VerifyOtp(form, st, values.otp)
      else SendOtp(st, values.phone, reply)
  }

  /** The state after a sequence of events. */
  function Run(form: Form, st: OtpState, events: seq<Event>): OtpState
    decreases |events|
  {
    if |events| == 0 then st else Run(form, Step(form, st, events[0]).state, events[1..])
  }

  /** The machine's invariant: a code counts as sent only for a number the
      phone rule accepts. */
  predicate SentToValidNumber(st: OtpState)
  {
    st.otpSent ==> OtpPhone(st.phoneNumber)
  }

  /** The only step that marks a code as sent is a successful send of a
      valid number from the phone form. */
  lemma OnlySendMarksSent(form: Form, st: OtpState, e: Event)
    requires !st.otpSent && Step(form, st, e).state.otpSent
    ensures e.SubmitPhone? && e.sendReply.Ok? && st.channel == ByPhone
    ensures PhoneValid(form, false, e.values) && Step(form, st, e).state.phoneNumber == e.values.phone
  {
  }

  /** From the start, every sequence of events keeps the invariant. */
  lemma {:induction false} RunKeepsSentToValidNumber(form: Form, st: OtpState, events: seq<Event>)
    requires SentToValidNumber(st)
    ensures SentToValidNumber(Run(form, st, events))
    decreases |events|
  {
    if |events| > 0 {
      var next := Step(form, st, events[0]).state;
      if next.otpSent && !st.otpSent {
        OnlySendMarksSent(form, st, events[0]);
      }
      RunKeepsSentToValidNumber(form, next, events[1..]);
    }
  }

  /** The tab buttons keep a sent code; the toggle link discards it. */
  lemma TabKeepsToggleResets(form: Form, st: OtpState)
    requires st.otpSent
    ensures Step(form, st, SelectTab(ByEmail)).state.otpSent
    ensures Step(form, Step(form, st, SelectTab(ByEmail)).state, SelectTab(ByPhone)).state == st.(channel := ByPhone)
    ensures !Step(form, st, ToggleMethod).state.otpSent
  {
  }

  /** Verification ignores the code and the number: once a code was sent,
      any two valid submissions lead to the same sign-in and the same
      destination. */
  lemma VerifyIgnoresCode(form: Form, st: OtpState, v1: PhoneValues, v2: PhoneValues, r1: Reply<()>, r2: Reply<()>)
    requires st.channel == ByPhone && st.otpSent
    requires PhoneValid(form, true, v1) && PhoneValid(form, true, v2)
    ensures Step(form, st, SubmitPhone(v1, r1)) == Step(form, st, SubmitPhone(v2, r2))
    ensures Step(form, st, SubmitPhone(v1, r1)).effects == [Reinitialize, NavigateTo(Home(form)), StopSubmitting]
  {
  }
}
