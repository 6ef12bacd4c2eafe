/**
 * What each controller action does to the state, as a function from the state
 * before to the state after and the action's answer. The class in
 * Controller.dfy is proved to follow these functions; the properties of the
 * flow are stated here, one action at a time, and in Scenarios.dfy across
 * several actions.
 */
module AuthFlow {
  import opened Validation
  import opened Accounts

  datatype Transition = Transition(next: State, outcome: Outcome)

  datatype Registration = Registration(
    name: string,
    email: string,
    password: string,
    passwordConfirmation: string,
    phone: string,
    address: Option<string>)

  datatype Credentials = Credentials(email: string, password: string)

  datatype NewPassword = NewPassword(password: string, cpassword: string)

  const RegisteredMessage := "You are registered successfully"
  const IncorrectMessage := "Email or Password is incorrect"
  const UnauthorizedMessage := "Unauthorized Access! Only registered customer can log in."
  const LoginMessage := "Login Successful"
  const OtpSentMessage := "OTP has been sent to your email address"
  const NotFoundMessage := "Email address not found"
  const VerifiedMessage := "OTP verified successfully"
  const InvalidOtpMessage := "Invalid OTP, please try again"
  const ResetMessage := "Password reset successfully"
  const VerifyFirstMessage := "Please verify OTP first"

  /** The value a used code is overwritten with. */
  const UsedCode := "0"

  /** The reset-flow marker VerifyOTP stores and ResetPassword compares against. */
  const Verified := "yes"

  // ---------------------------------------------------------------- registration

  /** The registration rules, uniqueness included. */
  predicate RegistrationRules(isEmail: string -> bool, users: map<string, User>, r: Registration) {
    && Required(r.name)
    && Required(r.email) && isEmail(r.email) && r.email !in users
    && Required(r.password) && MinLength(r.password, 4) && r.password == r.passwordConfirmation
    && PhoneRule(r.phone) && PhoneUnused(users, r.phone)
    && (r.address.Some? ==> MaxLength(r.address.value, 255))
  }

  /** The row `User::create` inserts: role customer, hashed password, no code yet. */
  function NewCustomer(r: Registration): User {
    User(r.name, r.phone, r.address, Hash(r.password), Customer, None)
  }

  /** UserRegistration: validate, then insert one customer. */
  function RegisterStep(isEmail: string -> bool, s: State, r: Registration): (t: Transition)
    ensures !RegistrationRules(isEmail, s.users, r) ==> t == Transition(s, ValidationFailed)
    ensures r.email in s.users || !PhoneUnused(s.users, r.phone)
            || |r.password| < 4 || r.password != r.passwordConfirmation
            ==> t == Transition(s, ValidationFailed)
    ensures RegistrationRules(isEmail, s.users, r) ==>
              && t.outcome == Flash(LoginPage, RegisteredMessage, true)
              && t.next.session == s.session && t.next.outbox == s.outbox
              && r.email !in s.users
              && t.next.users.Keys == s.users.Keys + {r.email}
              && |t.next.users| == |s.users| + 1
              && t.next.users[r.email].role == Customer
              && Matches(r.password, t.next.users[r.email].password)
              && t.next.users[r.email].name == r.name
              && t.next.users[r.email].phone == r.phone
              && t.next.users[r.email].address == r.address
              && t.next.users[r.email].otp == None
              && (forall e :: e in s.users ==> t.next.users[e] == s.users[e])
  {
    if RegistrationRules(isEmail, s.users, r) then
      Transition(s.(users := s.users[r.email := NewCustomer(r)]), Flash(LoginPage, RegisteredMessage, true))
    else
      Transition(s, ValidationFailed)
  }

  // ---------------------------------------------------------------- login

  /** The login rules `email: required|email|max:255`, `password: required|min:4`. */
  predicate LoginRules(isEmail: string -> bool, c: Credentials) {
    && Required(c.email) && isEmail(c.email) && MaxLength(c.email, 255)
    && Required(c.password) && MinLength(c.password, 4)
  }

  /** The guard's attempt: a user with that email exists and the password matches its hash. */
  predicate Attempt(users: map<string, User>, c: Credentials) {
    c.email in users && Matches(c.password, users[c.email].password)
  }

  /**
   * UserLogin: validate, attempt through the customer guard, and log the user
   * out again at once when the role is not customer.
   */
  function LoginStep(isEmail: string -> bool, s: State, c: Credentials): (t: Transition)
    ensures t.next.users == s.users && t.next.outbox == s.outbox
    ensures t.next.session.email == s.session.email && t.next.session.otpVerify == s.session.otpVerify
    ensures Succeeded(t.outcome) <==>
              LoginRules(isEmail, c) && c.email in s.users
              && Matches(c.password, s.users[c.email].password) && s.users[c.email].role == Customer
    ensures Succeeded(t.outcome) ==>
              t.outcome.to == HomePage && t.next.session.customer == Some(c.email)
    ensures !LoginRules(isEmail, c) ==> t == Transition(s, ValidationFailed)
    ensures LoginRules(isEmail, c) && !Attempt(s.users, c) ==>
              t == Transition(s, Flash(Back, IncorrectMessage, false))
    ensures LoginRules(isEmail, c) && Attempt(s.users, c) && s.users[c.email].role != Customer ==>
              t.outcome == Flash(Back, UnauthorizedMessage, false) && t.next.session.customer == None
  {
    if !LoginRules(isEmail, c) then
      Transition(s, ValidationFailed)
    else if !Attempt(s.users, c) then
      Transition(s, Flash(Back, IncorrectMessage, false))
    else if s.users[c.email].role != Customer then
      Transition(s.(session := s.session.(customer := None)), Flash(Back, UnauthorizedMessage, false))
    else
      Transition(s.(session := s.session.(customer := Some(c.email))), Flash(HomePage, LoginMessage, true))
  }

  // ---------------------------------------------------------------- logout

  /** UserLogout: the customer guard forgets its identity; nothing else changes. */
  function LogoutStep(s: State): (t: Transition)
    ensures t.next.session.customer == None
    ensures t.next.users == s.users && t.next.outbox == s.outbox
    ensures t.next.session.email == s.session.email && t.next.session.otpVerify == s.session.otpVerify
    ensures t.outcome == Redirect(HomePage)
  {
    Transition(s.(session := s.session.(customer := None)), Redirect(HomePage))
  }

  // ---------------------------------------------------------------- send code

  /** The rule on the address a code is requested for: `required|email`. */
  predicate SendRules(isEmail: string -> bool, email: string) {
    Required(email) && isEmail(email)
  }

  /**
   * SendOTPCode with the code `rand` drew: when exactly one user has the
   * address, mail the code, store it on that user and put the address in the
   * session; `otp_verify` is left as it was.
   */
  function SendOtpStep(isEmail: string -> bool, s: State, email: string, code: OtpCode): (t: Transition)
    ensures !SendRules(isEmail, email) ==> t == Transition(s, ValidationFailed)
    ensures SendRules(isEmail, email) && email !in s.users ==>
              t == Transition(s, Flash(Back, NotFoundMessage, false))
    ensures SendRules(isEmail, email) && email in s.users ==>
              && t.outcome == Flash(VerifyOtpPage, OtpSentMessage, true)
              && t.next.users.Keys == s.users.Keys
              && t.next.users[email] == s.users[email].(otp := Some(Decimal(code)))
              && (forall e :: e in s.users && e != email ==> t.next.users[e] == s.users[e])
              && t.next.session == s.session.(email := Some(email))
              && t.next.outbox == s.outbox + [OtpMail(email, code)]
  {
    if !SendRules(isEmail, email) then
      Transition(s, ValidationFailed)
    else if email in s.users then
      var users := s.users[email := s.users[email].(otp := Some(Decimal(code)))];
      Transition(State(users, s.session.(email := Some(email)), s.outbox + [OtpMail(email, code)]),
                 Flash(VerifyOtpPage, OtpSentMessage, true))
    else
      Transition(s, Flash(Back, NotFoundMessage, false))
  }

  // ---------------------------------------------------------------- verify code

  /**
   * The lookup `where email = session email and otp = input`. Without a session
   * email the query is `email IS NULL`, which no user matches.
   */
  predicate CodeMatches(s: State, otp: string) {
    s.session.email.Some? && s.session.email.value in s.users
    && s.users[s.session.email.value].otp == Some(otp)
  }

  /**
   * VerifyOTP: when the session's user holds the submitted code, overwrite the
   * code with "0" and set `otp_verify` to "yes".
   */
  function VerifyOtpStep(s: State, otp: string): (t: Transition)
    ensures !OtpInputRule(otp) ==> t == Transition(s, ValidationFailed)
    ensures Succeeded(t.outcome) <==> OtpInputRule(otp) && CodeMatches(s, otp)
    ensures !Succeeded(t.outcome) ==> t.next == s
    ensures OtpInputRule(otp) && !CodeMatches(s, otp) ==> t.outcome == Flash(Back, InvalidOtpMessage, false)
    ensures Succeeded(t.outcome) ==>
              var email := s.session.email.value;
              && t.outcome.to == ResetPasswordPage
              && t.next.users.Keys == s.users.Keys
              && t.next.users[email] == s.users[email].(otp := Some(UsedCode))
              && (forall e :: e in s.users && e != email ==> t.next.users[e] == s.users[e])
              && t.next.session == s.session.(otpVerify := Some(Verified))
              && t.next.outbox == s.outbox
  {
    if !OtpInputRule(otp) then
      Transition(s, ValidationFailed)
    else if CodeMatches(s, otp) then
      var email := s.session.email.value;
      var users := s.users[email := s.users[email].(otp := Some(UsedCode))];
      Transition(s.(users := users, session := s.session.(otpVerify := Some(Verified))),
                 Flash(ResetPasswordPage, VerifiedMessage, true))
    else
      Transition(s, Flash(Back, InvalidOtpMessage, false))
  }

  // ---------------------------------------------------------------- reset password

  /** The reset rules `password: required|min:4|same:cpassword`, `cpassword: required`. */
  predicate ResetRules(p: NewPassword) {
    Required(p.password) && MinLength(p.password, 4) && p.password == p.cpassword && Required(p.cpassword)
  }

  /** The `update` by session email: the row with that email, if any, gets the new hash. */
  function SetPassword(users: map<string, User>, email: Option<string>, password: string): map<string, User> {
    if email.Some? && email.value in users then
      users[email.value := users[email.value].(password := Hash(password))]
    else
      users
  }

  /**
   * ResetPassword: guarded by `otp_verify == "yes"` alone. The row whose email
   * the session holds (if any) gets the new password, then both reset keys are
   * forgotten. A validation failure is caught like any other exception.
   */
  function ResetStep(s: State, p: NewPassword): (t: Transition)
    ensures !ResetRules(p) ==> t == Transition(s, ErrorCaught)
    ensures ResetRules(p) && s.session.otpVerify != Some(Verified) ==>
              t == Transition(s, Flash(SendOtpPage, VerifyFirstMessage, false))
    ensures Succeeded(t.outcome) <==> ResetRules(p) && s.session.otpVerify == Some(Verified)
    ensures Succeeded(t.outcome) ==>
              && t.outcome.to == LoginPage
              && t.next.session == s.session.(email := None, otpVerify := None)
              && t.next.outbox == s.outbox
    ensures t.next.users.Keys == s.users.Keys
    ensures forall e :: e in s.users ==>
              t.next.users[e] == if Succeeded(t.outcome) && s.session.email == Some(e)
                                 then s.users[e].(password := Hash(p.password))
                                 else s.users[e]
    ensures t.next.users != s.users ==>
              Succeeded(t.outcome) && s.session.email.Some? && s.session.email.value in s.users
  {
    if !ResetRules(p) then
      Transition(s, ErrorCaught)
    else if s.session.otpVerify == Some(Verified) then
      Transition(State(SetPassword(s.users, s.session.email, p.password),
                       s.session.(email := None, otpVerify := None), s.outbox),
                 Flash(LoginPage, ResetMessage, true))
    else
      Transition(s, Flash(SendOtpPage, VerifyFirstMessage, false))
  }

  // ---------------------------------------------------------------- all actions

  datatype Action =
    | Register(registration: Registration)
    | Login(credentials: Credentials)
    | SendCode(email: string, code: OtpCode)
    | Verify(otp: string)
    | Reset(newPassword: NewPassword)
    | Logout

  function Step(isEmail: string -> bool, s: State, a: Action): Transition {
    match a
    case Register(r) => RegisterStep(isEmail, s, r)
    case Login(c) => LoginStep(isEmail, s, c)
    case SendCode(email, code) => SendOtpStep(isEmail, s, email, code)
    case Verify(otp) => VerifyOtpStep(s, otp)
    case Reset(p) => ResetStep(s, p)
    case Logout => LogoutStep(s)
  }

  /** The state after a sequence of actions from one client. */
  function Run(isEmail: string -> bool, s: State, acts: seq<Action>): State
    decreases |acts|
  {
    if acts == [] then s else Run(isEmail, Step(isEmail, s, acts[0]).next, acts[1..])
  }

  /** Every action keeps the invariant: unique phones and a session that names existing users. */
  lemma StepPreservesInv(isEmail: string -> bool, s: State, a: Action)
    requires Inv(s)
    ensures Inv(Step(isEmail, s, a).next)
  {
    if a.Register? && RegistrationRules(isEmail, s.users, a.registration) {
      var r := a.registration;
      var users := Step(isEmail, s, a).next.users;
      forall e1, e2 | e1 in users && e2 in users && e1 != e2
        ensures users[e1].phone != users[e2].phone
      {
        if e1 == r.email {
          assert s.users[e2].phone != r.phone;
        } else if e2 == r.email {
          assert s.users[e1].phone != r.phone;
        }
      }
    }
  }

  /** Only SendOTPCode and VerifyOTP write the otp column; every other action keeps each user's code. */
  lemma OnlySendAndVerifyTouchCodes(isEmail: string -> bool, s: State, a: Action)
    requires !a.SendCode? && !a.Verify?
    ensures forall e :: e in s.users ==>
              e in Step(isEmail, s, a).next.users && Step(isEmail, s, a).next.users[e].otp == s.users[e].otp
  {
  }

  /**
   * A reset leaves phone, role, name, address and code of every row alone, and
   * changes the password of the session's user only.
   */
  lemma ResetTouchesOnlySessionPassword(s: State, p: NewPassword, e: string)
    requires e in s.users
    ensures var u := ResetStep(s, p).next.users;
            && e in u
            && u[e].phone == s.users[e].phone && u[e].role == s.users[e].role
            && u[e].otp == s.users[e].otp && u[e].name == s.users[e].name
            && u[e].address == s.users[e].address
            && (u[e].password != s.users[e].password ==>
                  s.session.email == Some(e) && s.session.otpVerify == Some(Verified))
  {
  }
}
