/**
 * The state the authentication controller works on: the user table, keyed by
 * email, and the per-client session, plus the codes mailed out.
 */
module Accounts {
  import opened Validation

  datatype Option<T> = None | Some(value: T)

  /** The `role` column; registration only ever writes `customer`. */
  datatype Role = Customer | Admin

  /**
   * A stored password hash. The hashing library is idealised as a
   * collision-free one-way function: only the hash of p matches p.
   */
  datatype PasswordHash = Digest(secret: string)

  /** `Hash::make`. */
  function Hash(password: string): (h: PasswordHash)
    ensures Matches(password, h)
  {
    Digest(password)
  }

  /** The password check the guard runs against a stored hash. */
  predicate Matches(password: string, h: PasswordHash) {
    h.secret == password
  }

  /** A password matches the hash of another password only if the two are equal. */
  lemma MatchesOnlyItsOwnHash(p: string, q: string)
    ensures Matches(p, Hash(q)) <==> p == q
  {
  }

  /** A code drawn by `rand(1000, 9999)`. */
  type OtpCode = n: int | 1000 <= n <= 9999 witness 1000

  /**
   * A row of the user table, without its email, which is the table's key.
   * `otp` is None for SQL NULL (the column after registration), otherwise the
   * stored text: a decimal code, or "0" once a code has been used.
   */
  datatype User = User(
    name: string,
    phone: string,
    address: Option<string>,
    password: PasswordHash,
    role: Role,
    otp: Option<string>)

  /**
   * The session: `email` and `otp_verify` are the reset-flow keys; `customer`
   * is the identity the `customer` guard has logged in, if any.
   */
  datatype Session = Session(
    email: Option<string>,
    otpVerify: Option<string>,
    customer: Option<string>)

  const EmptySession := Session(None, None, None)

  /** A code mailed to an address. */
  datatype Mail = OtpMail(to: string, code: OtpCode)

  datatype State = State(users: map<string, User>, session: Session, outbox: seq<Mail>)

  /** The pages an action redirects to. */
  datatype Route = Back | LoginPage | HomePage | VerifyOtpPage | ResetPasswordPage | SendOtpPage

  /**
   * What an action answers. `ValidationFailed` is the framework's redirect back
   * with field errors; `ErrorCaught` is ResetPassword's redirect back with the
   * message "Something went wrong: " followed by the exception's text.
   */
  datatype Outcome =
    | ValidationFailed
    | ErrorCaught
    | Redirect(to: Route)
    | Flash(to: Route, message: string, status: bool)

  predicate Succeeded(o: Outcome) {
    o.Flash? && o.status
  }

  /** No two users share a phone number (emails are unique as the table's keys). */
  ghost predicate PhonesUnique(users: map<string, User>) {
    forall e1, e2 :: e1 in users && e2 in users && e1 != e2 ==> users[e1].phone != users[e2].phone
  }

  /** `unique:users` on the phone column. */
  predicate PhoneUnused(users: map<string, User>, phone: string) {
    forall e :: e in users ==> users[e].phone != phone
  }

  /**
   * The invariant every action keeps: phones are unique, the reset-flow email
   * names a user and is present whenever `otp_verify` is, and the logged-in
   * identity is a user with role customer.
   */
  ghost predicate Inv(s: State) {
    && PhonesUnique(s.users)
    && (s.session.email.Some? ==> s.session.email.value in s.users)
    && (s.session.otpVerify.Some? ==> s.session.email.Some?)
    && (s.session.customer.Some? ==>
          s.session.customer.value in s.users && s.users[s.session.customer.value].role == Customer)
  }
}
