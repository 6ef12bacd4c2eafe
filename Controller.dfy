/**
 * The controller as an object: the user table, the session and the mail sent
 * are fields that each action updates in place. Every action is proved to do
 * exactly what its step function in AuthFlow describes, and to keep Inv.
 */
module Controller {
  import opened Validation
  import opened Accounts
  import opened AuthFlow

  class AuthController {
    /** The framework's email-format rule, left uninterpreted. */
    const isEmail: string -> bool
    var users: map<string, User>
    var session: Session
    var outbox: seq<Mail>

    function Snapshot(): State
      reads this
    {
      State(users, session, outbox)
    }

    ghost predicate Valid()
      reads this
    {
      Inv(Snapshot())
    }

    /** A controller over an existing table (the seeded one, say) and a fresh session. */
    constructor (isEmail: string -> bool, table: map<string, User>)
      requires PhonesUnique(table)
      ensures Valid()
      ensures this.isEmail == isEmail && users == table && session == EmptySession && outbox == []
    {
      this.isEmail := isEmail;
      users := table;
      session := EmptySession;
      outbox := [];
    }

    method UserRegistration(r: Registration) returns (out: Outcome)
      requires Valid()
      modifies this
      ensures Valid()
      ensures Transition(Snapshot(), out) == RegisterStep(isEmail, old(Snapshot()), r)
    {
      if !RegistrationRules(isEmail, users, r) {
        return ValidationFailed;
      }
      users := users[r.email := NewCustomer(r)];
      out := Flash(LoginPage, RegisteredMessage, true);
      StepPreservesInv(isEmail, old(Snapshot()), Register(r));
    }

    method UserLogin(c: Credentials) returns (out: Outcome)
      requires Valid()
      modifies this
      ensures Valid()
      ensures Transition(Snapshot(), out) == LoginStep(isEmail, old(Snapshot()), c)
    {
      if !LoginRules(isEmail, c) {
        return ValidationFailed;
      }
      if !Attempt(users, c) {
        return Flash(Back, IncorrectMessage, false);
      }
      session := session.(customer := Some(c.email));
      if users[c.email].role != Customer {
        session := session.(customer := None);
        return Flash(Back, UnauthorizedMessage, false);
      }
      out := Flash(HomePage, LoginMessage, true);
    }

    method UserLogout() returns (out: Outcome)
      requires Valid()
      modifies this
      ensures Valid()
      ensures Transition(Snapshot(), out) == LogoutStep(old(Snapshot()))
    {
      session := session.(customer := None);
      out := Redirect(HomePage);
    }

    /** `code` is the value `rand(1000, 9999)` drew for this request. */
    method SendOTPCode(email: string, code: OtpCode) returns (out: Outcome)
      requires Valid()
      modifies this
      ensures Valid()
      ensures Transition(Snapshot(), out) == SendOtpStep(isEmail, old(Snapshot()), email, code)
    {
      if !SendRules(isEmail, email) {
        return ValidationFailed;
      }
      if email !in users {
        return Flash(Back, NotFoundMessage, false);
      }
      outbox := outbox + [OtpMail(email, code)];
      users := users[email := users[email].(otp := Some(Decimal(code)))];
      session := session.(email := Some(email));
      out := Flash(VerifyOtpPage, OtpSentMessage, true);
      StepPreservesInv(isEmail, old(Snapshot()), SendCode(email, code));
    }

    method VerifyOTP(otp: string) returns (out: Outcome)
      requires Valid()
      modifies this
      ensures Valid()
      ensures Transition(Snapshot(), out) == VerifyOtpStep(old(Snapshot()), otp)
    {
      if !OtpInputRule(otp) {
        return ValidationFailed;
      }
      if !CodeMatches(Snapshot(), otp) {
        return Flash(Back, InvalidOtpMessage, false);
      }
      var email := session.email.value;
      users := users[email := users[email].(otp := Some(UsedCode))];
      session := session.(otpVerify := Some(Verified));
      out := Flash(ResetPasswordPage, VerifiedMessage, true);
      StepPreservesInv(isEmail, old(Snapshot()), Verify(otp));
    }

    method ResetPassword(p: NewPassword) returns (out: Outcome)
      requires Valid()
      modifies this
      ensures Valid()
      ensures Transition(Snapshot(), out) == ResetStep(old(Snapshot()), p)
    {
      if !ResetRules(p) {
        return ErrorCaught;
      }
      if session.otpVerify != Some(Verified) {
        return Flash(SendOtpPage, VerifyFirstMessage, false);
      }
      var email := session.email;
      if email.Some? && email.value in users {
        users := users[email.value := users[email.value].(password := Hash(p.password))];
      }
      session := session.(email := None, otpVerify := None);
      out := Flash(LoginPage, ResetMessage, true);
      StepPreservesInv(isEmail, old(Snapshot()), Reset(p));
    }
  }
}
