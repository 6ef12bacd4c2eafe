# Customer authentication and OTP password reset

A Dafny model of the customer side of the authentication controller of a
car-rental web application (`app/Http/Controllers/Frontend/AuthController.php`).
It covers these actions:

- registration, with its validation rules;
- login through the `customer` guard, which turns away any role other than `customer`;
- logout;
- a three-step password reset using a code sent by email (OTP):
  1. SendOTPCode stores a 4-digit code on the user and puts the address in the session;
  2. VerifyOTP accepts that code once, overwrites it with `"0"` and sets `otp_verify = "yes"`;
  3. ResetPassword, guarded by `otp_verify`, sets the new password and forgets both session keys.

The state has three parts:

- the user table, a map from email to a row (name, phone, address, password hash, role, otp);
- the session: the reset keys `email` and `otp_verify`, plus the identity the guard has logged in;
- the list of codes mailed out.

Files:

- `Validation.dfy` has the validation rules as predicates. This includes the phone
  pattern `^01[0-9]{9}$` with PCRE's `$`, which also matches before a final newline.
  It also has the decimal rendering of the code.
- `Accounts.dfy` has the data model and the invariant `Inv`: phones are unique, the
  session only names existing users, with the logged-in one a customer, and
  `otp_verify` is never set without a session email.
- `AuthFlow.dfy` has one step function per action. Each one states what the action
  does to the table and the session, on every path, failures included.
- `Controller.dfy` has the class `AuthController`. Its fields are the table, the
  session and the outbox. Each action is a method that updates them in place, and
  each method is proved equal to its step function and to keep `Inv`.
- `Scenarios.dfy` has properties that span several actions.

ResetPassword is bound to the address the session holds now, not to the address
whose code was verified. SendOTPCode overwrites the session `email` but leaves
`otp_verify` set. So this sequence resets the password of B, whose code was never
entered:

1. verify a code for A;
2. request a code for B;
3. reset.

`Scenarios.VerifiedSessionSwitchGap` proves this trace. The property the code does
guarantee is weaker: a reset needs `otp_verify = "yes"` and changes only the row of
the session's email. `AuthFlow.ResetStep` and `AuthFlow.ResetTouchesOnlySessionPassword`
state it. ResetPassword checks only `otp_verify` (AuthController.php:192), not that a
session email is present. With no email in the session, its update would match no row,
yet it would still report success and clear the session. The six actions never reach
that state, though: VerifyOTP sets `otp_verify` only when a session email is present,
and ResetPassword forgets both keys together. `Inv` records this, and
`AuthFlow.StepPreservesInv` proves every action keeps it.

Modelling choices:

- Failed validation is `ValidationFailed`, with no change to the state. ResetPassword
  is different: its `catch (Exception ...)` also catches the validation exception, so
  bad input there gives `ErrorCaught`.
- A query `where('email', '=', null)` becomes `email IS NULL`, which matches no user.
- The table is keyed by email, so "count == 1" means "the key is present".
- `Hash::make` is an idealised collision-free hash (`Accounts.Hash`). The guard's
  check is `Accounts.Matches`.
- The email-format rule is a parameter, `isEmail`, left uninterpreted. Every
  property holds for any such rule.
- The value from `rand(1000, 9999)` is a parameter of subset type `OtpCode`. The
  mail is an `OtpMail` entry added to the outbox.
- The otp column holds text, and `None` stands for SQL NULL. A stored code is compared
  as a string with the submitted code.

## Model

| member | source | states |
|---|---|---|
| Validation.PhoneRuleExact | app/Http/Controllers/Frontend/AuthController.php:52 | the phone rule (required, numeric, digits:11, starts_with:01, regex) accepts exactly the 11-character all-digit strings starting with "01" |
| Validation.PatternImpliesDigitsAndPrefix | app/Http/Controllers/Frontend/AuthController.php:52 | a value that matches the phone pattern and does not end in a newline already satisfies digits:11 and starts_with:01 |
| Validation.PatternAdmitsTrailingNewline | app/Http/Controllers/Frontend/AuthController.php:52 | the pattern alone admits "01712345678\n", and digits:11 rejects it, so that check is not redundant |
| Validation.OtpInputIsFourLong | app/Http/Controllers/Frontend/AuthController.php:159 | a code that passes the rule required, numeric, digits:4 has four characters, so it never equals the used-code marker "0" |
| Validation.DecimalRoundTrip | app/Http/Controllers/Frontend/AuthController.php:138-143 | the text stored for an integer code consists of digits, and reading it back gives the same integer, so distinct codes are stored as distinct texts |
| Validation.DecimalOfFourDigitCode | app/Http/Controllers/Frontend/AuthController.php:138-159 | every code drawn from 1000..9999 is stored as four digits, with no leading zero, and passes VerifyOTP's input rule |
| Accounts.Hash | app/Http/Controllers/Frontend/AuthController.php:75 | the hash of a password matches that password |
| Accounts.MatchesOnlyItsOwnHash | app/Http/Controllers/Frontend/AuthController.php:105 | a password matches a stored hash exactly when it is the password that was hashed |
| AuthFlow.RegisterStep | app/Http/Controllers/Frontend/AuthController.php:45-88 | it rejects with no change when a rule fails, in particular when the email or phone is taken, the password is shorter than 4 or the confirmation differs; otherwise it adds exactly one row (the submitted name, phone and address, role customer, the password's hash, no code) and keeps every other row, the session and the outbox |
| AuthFlow.LoginStep | app/Http/Controllers/Frontend/AuthController.php:91-130 | login succeeds if and only if the rules hold, the email exists, the password matches and the role is customer; a wrong email and a wrong password get the same answer and no change; an admin with correct credentials ends up logged out; the table and the reset keys never change |
| AuthFlow.LogoutStep | app/Http/Controllers/Frontend/AuthController.php:219-223 | afterwards no customer is logged in, and the table, reset keys and outbox are unchanged |
| AuthFlow.SendOtpStep | app/Http/Controllers/Frontend/AuthController.php:132-155 | for a known address it stores the drawn code on that user only, mails that code, and sets the session email while leaving `otp_verify` as it was; an unknown address or invalid input changes nothing |
| AuthFlow.VerifyOtpStep | app/Http/Controllers/Frontend/AuthController.php:157-180 | it succeeds if and only if the input is 4 digits and the session's user holds exactly that code; on success that code becomes "0" and `otp_verify` becomes "yes"; on any failure, including no session email, nothing changes |
| AuthFlow.ResetStep | app/Http/Controllers/Frontend/AuthController.php:182-216 | it succeeds if and only if the input is valid and `otp_verify` is "yes"; then only the session email's row gets the new password hash, and both keys are forgotten; invalid input is caught as an error; when rejected, nothing changes |
| AuthFlow.StepPreservesInv | app/Http/Controllers/Frontend/AuthController.php:45-223 | every action keeps phones unique, keeps the session email naming a user and present whenever `otp_verify` is set, and keeps the logged-in identity a customer |
| AuthFlow.OnlySendAndVerifyTouchCodes | app/Http/Controllers/Frontend/AuthController.php:132-180 | every action other than SendOTPCode and VerifyOTP leaves every existing user's otp unchanged |
| AuthFlow.ResetTouchesOnlySessionPassword | app/Http/Controllers/Frontend/AuthController.php:189-195 | a reset leaves phone, role, name, address and otp of every row unchanged; a changed password belongs to the session email's row, with `otp_verify` "yes" |
| Controller.AuthController.UserRegistration | app/Http/Controllers/Frontend/AuthController.php:45-88 | the in-place registration leaves exactly the state and answer of RegisterStep, and keeps Inv |
| Controller.AuthController.UserLogin | app/Http/Controllers/Frontend/AuthController.php:91-130 | the in-place login (attempt, then logout for a non-customer) leaves exactly the state and answer of LoginStep, and keeps Inv |
| Controller.AuthController.UserLogout | app/Http/Controllers/Frontend/AuthController.php:219-223 | the guard logout leaves exactly the state and answer of LogoutStep, and keeps Inv |
| Controller.AuthController.SendOTPCode | app/Http/Controllers/Frontend/AuthController.php:132-155 | mailing, storing the code and putting the email in the session leave exactly the state and answer of SendOtpStep, and keep Inv |
| Controller.AuthController.VerifyOTP | app/Http/Controllers/Frontend/AuthController.php:157-180 | clearing the code and marking the session leave exactly the state and answer of VerifyOtpStep, and keep Inv |
| Controller.AuthController.ResetPassword | app/Http/Controllers/Frontend/AuthController.php:182-216 | the guarded update and the session forget leave exactly the state and answer of ResetStep, and keep Inv |
| Scenarios.RunPreservesInv | app/Http/Controllers/Frontend/AuthController.php:45-223 | every sequence of actions keeps the invariant |
| Scenarios.SentCodeVerifies | app/Http/Controllers/Frontend/AuthController.php:138-168 | the code SendOTPCode mails is accepted by VerifyOTP immediately afterwards |
| Scenarios.StoredCodeIsMailedCode | app/Http/Controllers/Frontend/AuthController.php:138-143 | the code stored on the user reads back as the mailed number, which lies in [1000, 9999] |
| Scenarios.CodeIsSingleUse | app/Http/Controllers/Frontend/AuthController.php:159-168 | a code that verified once fails when submitted again |
| Scenarios.NoReplayUntilResend | app/Http/Controllers/Frontend/AuthController.php:157-180 | until SendOTPCode runs again, a used code stays "0", and no input verifies while the session points at that user |
| Scenarios.ResetNeedsFreshVerification | app/Http/Controllers/Frontend/AuthController.php:192-198 | after a successful reset, both session keys are gone, and a second reset is refused without changing the table |
| Scenarios.VerifiedSessionSwitchGap | app/Http/Controllers/Frontend/AuthController.php:132-216 | verify a code for A, request a code for B, reset: B's password changes although B's code was never entered, and A's password is unchanged |
| Scenarios.ResetReplacesPassword | app/Http/Controllers/Frontend/AuthController.php:91-216 | send, verify and reset all succeed; afterwards the old password is refused at login and the new one accepted |
| Scenarios.RegisterThenLogIn | app/Http/Controllers/Frontend/AuthController.php:45-130 | registering a fresh email with an 11-digit "01" phone succeeds, and the new customer can then log in |
| Scenarios.SeededAdminIsRefused | database/seeders/DatabaseSeeder.php:17-24 | the seeded admin is turned away by the customer login even with the right password and ends up logged out; its 10-digit phone would fail the registration rule |

## Left out

- Page rendering (the `Show...` actions) is UI only. Redirects and flash messages are kept only as the `Outcome` value. The `code => 200` entry of the login flash is not modelled.
- Field-level validation messages are not modelled. A failed rule gives `ValidationFailed`. The exception text appended after "Something went wrong: " in ResetPassword is not modelled either.
- Mail transport is not modelled. A send is recorded as an `OtpMail` entry and assumed to succeed.
- `session()->regenerate()` and the guard's own session bookkeeping are not modelled. The logged-in identity is the user's email rather than the row id.
- The "Failed to create user" branch of registration is not modelled. `User::create` either returns the new row or throws, so that branch is unreachable.
- The email-format rule is an uninterpreted parameter. The `numeric` rule is modelled for plain decimal forms only. Exponents and surrounding whitespace are left out, and `digits:n` rejects those anyway.
- Accounts.Hash: models bcrypt as collision-free and unsalted. It does not model salting or the 72-byte input limit.
- Email comparison is exact string equality. A case-insensitive database collation is not modelled.
- The otp column's default is not part of this model. Registration does not set `otp`, and the model assumes the column default is NULL (`None`). No property depends on this: no input that passes `digits:4` equals NULL or "0".
- The otp column's type is not part of this model; it is modelled as text. If the column were numeric, the input "0000" would compare equal to the used-code marker 0.
- Concurrency is not modelled. Two interleaved sends or verifies on different sessions are out of scope. Each action is one atomic step of one client's session.
- Request input normalisation done by framework middleware is not modelled. The model sees the field values the controller reads.
