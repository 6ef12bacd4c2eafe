/**
 * Properties of the password-reset flow that span several actions of one
 * client: a mailed code verifies, a code works once, a reset needs a fresh
 * verification, and the reset is bound to the session's latest address
 * rather than to the one that was verified.
 */
module Scenarios {
  import opened Validation
  import opened Accounts
  import opened AuthFlow

  /** Every sequence of actions keeps the invariant. */
  lemma {:induction false} RunPreservesInv(isEmail: string -> bool, s: State, acts: seq<Action>)
    requires Inv(s)
    ensures Inv(Run(isEmail, s, acts))
    decreases |acts|
  {
    if acts != [] {
      StepPreservesInv(isEmail, s, acts[0]);
      RunPreservesInv(isEmail, Step(isEmail, s, acts[0]).next, acts[1..]);
    }
  }

  /** The code SendOTPCode mails is one VerifyOTP accepts right afterwards. */
  lemma SentCodeVerifies(isEmail: string -> bool, s: State, email: string, code: OtpCode)
    requires SendRules(isEmail, email) && email in s.users
    ensures var sent := SendOtpStep(isEmail, s, email, code).next;
            && sent.outbox[|sent.outbox| - 1] == OtpMail(email, code)
            && Succeeded(VerifyOtpStep(sent, Decimal(code)).outcome)
  {
    DecimalOfFourDigitCode(code);
  }

  /** The stored code is the mailed number, read back from its decimal text. */
  lemma StoredCodeIsMailedCode(isEmail: string -> bool, s: State, email: string, code: OtpCode)
    requires SendRules(isEmail, email) && email in s.users
    ensures var u := SendOtpStep(isEmail, s, email, code).next.users[email];
            && u.otp.Some? && AllDigits(u.otp.value)
            && DecimalValue(u.otp.value) == code && 1000 <= DecimalValue(u.otp.value) <= 9999
  {
    DecimalRoundTrip(code);
  }

  /** A code that verified once fails when submitted again. */
  lemma CodeIsSingleUse(s: State, otp: string)
    requires Succeeded(VerifyOtpStep(s, otp).outcome)
    ensures !Succeeded(VerifyOtpStep(VerifyOtpStep(s, otp).next, otp).outcome)
  {
  }

  /**
   * While no code is sent, a user whose code was used keeps the "0" marker,
   * and no submitted code verifies while the session points at that user.
   */
  lemma {:induction false} NoReplayUntilResend(
    isEmail: string -> bool, s: State, acts: seq<Action>, e: string, otp: string)
    requires e in s.users && s.users[e].otp == Some(UsedCode)
    requires forall i :: 0 <= i < |acts| ==> !acts[i].SendCode?
    ensures var s' := Run(isEmail, s, acts);
            && e in s'.users && s'.users[e].otp == Some(UsedCode)
            && (s'.session.email == Some(e) ==> !Succeeded(VerifyOtpStep(s', otp).outcome))
    decreases |acts|
  {
    if acts == [] {
      if s.session.email == Some(e) && OtpInputRule(otp) {
        OtpInputIsFourLong(otp);
      }
    } else {
      var t := Step(isEmail, s, acts[0]);
      if acts[0].Verify? {
        var v := acts[0].otp;
        if Succeeded(t.outcome) && s.session.email == Some(e) {
          OtpInputIsFourLong(v);
          assert false;
        }
      } else {
        OnlySendAndVerifyTouchCodes(isEmail, s, acts[0]);
      }
      assert e in t.next.users && t.next.users[e].otp == Some(UsedCode);
      NoReplayUntilResend(isEmail, t.next, acts[1..], e, otp);
    }
  }

  /** After a successful reset the session holds neither key, so a second reset is refused. */
  lemma ResetNeedsFreshVerification(s: State, p: NewPassword, q: NewPassword)
    requires Succeeded(ResetStep(s, p).outcome)
    ensures var s' := ResetStep(s, p).next;
            && s'.session.email == None && s'.session.otpVerify == None
            && !Succeeded(ResetStep(s', q).outcome)
            && ResetStep(s', q).next.users == s'.users
  {
  }

  /**
   * The reset is not bound to the verified account: verify a code for a, then
   * request a code for b and reset. The password of b changes although b's
   * code was never submitted, and a keeps its password.
   */
  lemma VerifiedSessionSwitchGap(
    isEmail: string -> bool, s: State, a: string, b: string, c1: OtpCode, c2: OtpCode, pw: string)
    requires SendRules(isEmail, a) && SendRules(isEmail, b) && a != b
    requires a in s.users && b in s.users
    requires ResetRules(NewPassword(pw, pw))
    ensures var s1 := SendOtpStep(isEmail, s, a, c1).next;
            var v := VerifyOtpStep(s1, Decimal(c1));
            var s3 := SendOtpStep(isEmail, v.next, b, c2).next;
            var r := ResetStep(s3, NewPassword(pw, pw));
            && Succeeded(v.outcome)
            && Succeeded(r.outcome)
            && r.next.users[b].password == Hash(pw)
            && r.next.users[b].otp == Some(Decimal(c2))
            && r.next.users[a].password == s.users[a].password
  {
    SentCodeVerifies(isEmail, s, a, c1);
  }

  /** The seeded administrator row. */
  const AdminEmail := "19202103491@cse.bubt.edu.bd"
  const AdminPhone := "0123456789"

  function SeedUsers(): map<string, User> {
    map[AdminEmail := User("Admin", AdminPhone, None, Hash("12345678"), Admin, Some(UsedCode))]
  }

  /**
   * The seeded administrator cannot log in through the customer login, even
   * with the right password, and the phone it was seeded with would not pass
   * the registration rule.
   */
  lemma SeededAdminIsRefused(isEmail: string -> bool, session: Session)
    requires isEmail(AdminEmail)
    ensures var t := LoginStep(isEmail, State(SeedUsers(), session, []), Credentials(AdminEmail, "12345678"));
            && t.outcome == Flash(Back, UnauthorizedMessage, false)
            && t.next.session.customer == None
    ensures !PhoneRule(AdminPhone)
  {
    var c := Credentials(AdminEmail, "12345678");
    assert !IsTrimmed(AdminEmail[0]) && !IsTrimmed(c.password[0]);
    assert LoginRules(isEmail, c);
  }

  /**
   * Request a code, verify it and reset: afterwards the customer's old
   * password is refused and the new one accepted.
   */
  lemma ResetReplacesPassword(
    isEmail: string -> bool, s: State, email: string, code: OtpCode, oldPw: string, newPw: string)
    requires SendRules(isEmail, email) && email in s.users && s.users[email].role == Customer
    requires LoginRules(isEmail, Credentials(email, oldPw)) && LoginRules(isEmail, Credentials(email, newPw))
    requires ResetRules(NewPassword(newPw, newPw)) && oldPw != newPw
    ensures var t3 := SendOtpStep(isEmail, s, email, code);
            var t4 := VerifyOtpStep(t3.next, Decimal(code));
            var t5 := ResetStep(t4.next, NewPassword(newPw, newPw));
            && Succeeded(t3.outcome) && Succeeded(t4.outcome) && Succeeded(t5.outcome)
            && !Succeeded(LoginStep(isEmail, t5.next, Credentials(email, oldPw)).outcome)
            && Succeeded(LoginStep(isEmail, t5.next, Credentials(email, newPw)).outcome)
  {
    SentCodeVerifies(isEmail, s, email, code);
    var t3 := SendOtpStep(isEmail, s, email, code);
    var t4 := VerifyOtpStep(t3.next, Decimal(code));
    assert t4.next.session.otpVerify == Some(Verified) && t4.next.session.email == Some(email);
    assert t4.next.users[email].role == Customer;
    var t5 := ResetStep(t4.next, NewPassword(newPw, newPw));
    assert t5.next.users[email].password == Hash(newPw);
  }

  /**
   * A first registration with a fresh email and an 11-digit phone succeeds,
   * and the new customer can log in with the password just chosen.
   */
  lemma RegisterThenLogIn(isEmail: string -> bool)
    requires isEmail("a@x.com")
    ensures var r := Registration("A", "a@x.com", "secret", "secret", "01712345678", None);
            var t1 := RegisterStep(isEmail, State(map[], EmptySession, []), r);
            var t2 := LoginStep(isEmail, t1.next, Credentials("a@x.com", "secret"));
            && Succeeded(t1.outcome) && Succeeded(t2.outcome)
            && t2.next.users["a@x.com"].role == Customer
  {
    var email := "a@x.com";
    var r := Registration("A", email, "secret", "secret", "01712345678", None);
    assert !IsTrimmed(r.name[0]) && !IsTrimmed(email[0]) && !IsTrimmed(r.password[0]);
    PhoneRuleExact(r.phone);
    assert RegistrationRules(isEmail, map[], r);
    var t1 := RegisterStep(isEmail, State(map[], EmptySession, []), r);
    assert LoginRules(isEmail, Credentials(email, "secret"));
  }
}
