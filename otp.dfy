/** One-time passwords and sign-up validation. Times are integer
    milliseconds since the epoch, passed in by the caller in place of the
    clock; the code the server draws at random and whether the mail went out
    are inputs too. The `users` table is a map from an address to the three
    OTP columns of its row, and the sign-up verification table a map from an
    address to its pending code. */
module Otp {
  import opened Common

  /** Minimum gap between two password-reset codes for one account. */
  const ResendWindow: int := 30000

  /** How long an issued code stays valid: ten minutes. */
  const OtpLifetime: int := 10 * 60000

  /** The OTP columns of a `users` row; SQL NULL is None. */
  datatype Account = Account(otp: Option<string>, otpExpires: Option<int>, lastOtpTime: Option<int>)

  /** A row of `useremailverification`, keyed by its address. */
  datatype Pending = Pending(otp: Option<string>, expires: Option<int>)

  /** The instant a stored expiry denotes: a NULL column is read back as the
      epoch, as `new Date(null)` is. */
  function ExpiresAt(expires: Option<int>): int
  {
    if expires.Some? then expires.value else 0
  }

  /** The expiry test both verification routes apply. */
  predicate Expired(expires: Option<int>, now: int)
  {
    ExpiresAt(expires) < now
  }

  /** The resend throttle: a code was sent before, less than
      `ResendWindow` milliseconds ago. */
  predicate ThrottleRefuses(lastOtpTime: Option<int>, now: int)
  {
    lastOtpTime.Some? && now - lastOtpTime.value < ResendWindow
  }

  /** A stored code matches the one presented: both are present and equal. */
  predicate CodeMatches(stored: Option<string>, given: Option<string>)
  {
    stored.Some? && given.Some? && stored.value == given.value
  }

  // ---------------------------------------------------------------------
  // Password reset

  datatype ForgotOutcome = EmailNotFound | Throttled | MailFailed | OtpSent

  datatype ResetOutcome = IncorrectOtp | OtpExpired | OtpVerified

  /** POST /api/LogIn/ForgatePw: unknown address, throttled, or a fresh code
      stored with its expiry and send time before the mail is attempted. */
  function ForgotPassword(users: map<string, Account>, email: string, code: string, now: int, mailOk: bool)
    : (r: (ForgotOutcome, map<string, Account>))
    ensures r.0 == EmailNotFound <==> email !in users
    ensures r.0 == Throttled <==> email in users && ThrottleRefuses(users[email].lastOtpTime, now)
    ensures r.0 == OtpSent <==> email in users && !ThrottleRefuses(users[email].lastOtpTime, now) && mailOk
    ensures r.0 == MailFailed <==> email in users && !ThrottleRefuses(users[email].lastOtpTime, now) && !mailOk
    ensures r.0 in {EmailNotFound, Throttled} ==> r.1 == users
    ensures r.0 in {MailFailed, OtpSent} ==>
      r.1.Keys == users.Keys && r.1[email] == Account(Some(code), Some(now + OtpLifetime), Some(now))
    ensures forall e :: e in users && e != email ==> e in r.1 && r.1[e] == users[e]
  {
    if email !in users then (EmailNotFound, users)
    else if ThrottleRefuses(users[email].lastOtpTime, now) then (Throttled, users)
    else
      var users' := users[email := Account(Some(code), Some(now + OtpLifetime), Some(now))];
      (if mailOk then OtpSent else MailFailed, users')
  }

  /** POST /api/LogIn/verifyOtp: the code must be the stored one and not
      expired; then the code, its expiry and the throttle stamp are cleared. */
  function VerifyResetOtp(users: map<string, Account>, email: string, given: Option<string>, now: int)
    : (r: (ResetOutcome, map<string, Account>))
    ensures r.0 == IncorrectOtp <==> !(email in users && CodeMatches(users[email].otp, given))
    ensures r.0 == OtpExpired <==>
      email in users && CodeMatches(users[email].otp, given) && Expired(users[email].otpExpires, now)
    ensures r.0 != OtpVerified ==> r.1 == users
    ensures r.0 == OtpVerified ==> r.1.Keys == users.Keys && r.1[email] == Account(None, None, None)
    ensures forall e :: e in users && e != email ==> e in r.1 && r.1[e] == users[e]
  {
    if email !in users || !CodeMatches(users[email].otp, given) then (IncorrectOtp, users)
    else if Expired(users[email].otpExpires, now) then (OtpExpired, users)
    else (OtpVerified, users[email := Account(None, None, None)])
  }

  /** A code issued at `issued` is accepted at `now` exactly when `now` lies
      no later than ten minutes after `issued`, and is refused as expired
      after that. */
  lemma ResetCodeWindow(users: map<string, Account>, email: string, code: string, issued: int, mailOk: bool, now: int)
    requires email in users && !ThrottleRefuses(users[email].lastOtpTime, issued)
    ensures var users' := ForgotPassword(users, email, code, issued, mailOk).1;
      var r := VerifyResetOtp(users', email, Some(code), now);
      (r.0 == OtpVerified <==> now <= issued + OtpLifetime) &&
      (r.0 == OtpExpired <==> now > issued + OtpLifetime)
  {
    var users' := ForgotPassword(users, email, code, issued, mailOk).1;
    assert users'[email] == Account(Some(code), Some(issued + OtpLifetime), Some(issued));
  }

  /** Only the code last issued opens the account: any other code is refused. */
  lemma ResetCodeReplaced(users: map<string, Account>, email: string, code: string, issued: int, mailOk: bool,
                          other: string, now: int)
    requires email in users && !ThrottleRefuses(users[email].lastOtpTime, issued) && other != code
    ensures VerifyResetOtp(ForgotPassword(users, email, code, issued, mailOk).1, email, Some(other), now).0 == IncorrectOtp
  {
  }

  /** After one code was issued at `first`, a request at `second` is
      throttled exactly when it comes less than thirty seconds later, and then
      leaves the table as it was. */
  lemma ResendThrottle(users: map<string, Account>, email: string, code: string, first: int, mailOk: bool,
                       code2: string, second: int, mailOk2: bool)
    requires email in users && !ThrottleRefuses(users[email].lastOtpTime, first)
    ensures var users' := ForgotPassword(users, email, code, first, mailOk).1;
      var r := ForgotPassword(users', email, code2, second, mailOk2);
      (r.0 == Throttled <==> second - first < ResendWindow) &&
      (r.0 == Throttled ==> r.1 == users')
  {
    var users' := ForgotPassword(users, email, code, first, mailOk).1;
    assert users'[email].lastOtpTime == Some(first);
  }

  /** A verified code cannot be used a second time. */
  lemma ResetCodeSingleUse(users: map<string, Account>, email: string, given: Option<string>, now: int, later: int)
    requires VerifyResetOtp(users, email, given, now).0 == OtpVerified
    ensures VerifyResetOtp(VerifyResetOtp(users, email, given, now).1, email, given, later).0 == IncorrectOtp
  {
    var users' := VerifyResetOtp(users, email, given, now).1;
    assert users'[email].otp == None;
  }

  /** Verifying a code lifts the throttle: the next request is not refused,
      however soon it comes. */
  lemma VerifyLiftsThrottle(users: map<string, Account>, email: string, given: Option<string>, now: int,
                            code: string, next: int, mailOk: bool)
    requires VerifyResetOtp(users, email, given, now).0 == OtpVerified
    ensures ForgotPassword(VerifyResetOtp(users, email, given, now).1, email, code, next, mailOk).0
      in {MailFailed, OtpSent}
  {
    var users' := VerifyResetOtp(users, email, given, now).1;
    assert users'[email].lastOtpTime == None;
  }

  /** Once a stored expiry has passed it stays passed. */
  lemma ExpiredStays(expires: Option<int>, now: int, later: int)
    requires Expired(expires, now) && now <= later
    ensures Expired(expires, later)
  {
  }

  // ---------------------------------------------------------------------
  // Sign-up address verification

  datatype RequestOutcome = CodeSent | SendFailed

  datatype ConfirmOutcome = InvalidCode | CodeExpired | AddressConfirmed

  /** POST /api/LogIn/Signup/otpVarify: a row is inserted for an address seen
      for the first time, then its code and expiry are set; a mail failure is
      reported after the update. */
  function RequestSignupOtp(pending: map<string, Pending>, email: string, code: string, now: int, mailOk: bool)
    : (r: (RequestOutcome, map<string, Pending>))
    ensures r.0 == CodeSent <==> mailOk
  {
    var inserted := if email in pending then pending else pending[email := Pending(None, None)];
    var updated := inserted[email := inserted[email].(otp := Some(code), expires := Some(now + OtpLifetime))];
    (if mailOk then CodeSent else SendFailed, updated)
  }

  /** Whether the address was known before or not, a request leaves exactly
      one row for it, holding the new code and an expiry ten minutes on, and
      no other row changes. */
  lemma RequestStoresCode(pending: map<string, Pending>, email: string, code: string, now: int, mailOk: bool)
    ensures RequestSignupOtp(pending, email, code, now, mailOk).1 ==
      pending[email := Pending(Some(code), Some(now + OtpLifetime))]
  {
    var inserted := if email in pending then pending else pending[email := Pending(None, None)];
    assert inserted[email := Pending(Some(code), Some(now + OtpLifetime))] ==
      pending[email := Pending(Some(code), Some(now + OtpLifetime))];
  }

  /** POST /api/LogIn/Signup/otpVarify/confirm: the code must be the stored
      one and not expired; the row is then cleared, address included, so no
      lookup by address finds it again. */
  function ConfirmSignupOtp(pending: map<string, Pending>, email: string, given: Option<string>, now: int)
    : (r: (ConfirmOutcome, map<string, Pending>))
    ensures r.0 == InvalidCode <==> !(email in pending && CodeMatches(pending[email].otp, given))
    ensures r.0 == CodeExpired <==>
      email in pending && CodeMatches(pending[email].otp, given) && Expired(pending[email].expires, now)
    ensures r.0 != AddressConfirmed ==> r.1 == pending
    ensures r.0 == AddressConfirmed ==> r.1 == pending - {email}
  {
    if email !in pending || !CodeMatches(pending[email].otp, given) then (InvalidCode, pending)
    else if Expired(pending[email].expires, now) then (CodeExpired, pending)
    else (AddressConfirmed, pending - {email})
  }

  /** A sign-up code requested at `issued` confirms the address exactly when
      presented no later than ten minutes on, and is refused as expired after. */
  lemma SignupCodeWindow(pending: map<string, Pending>, email: string, code: string, issued: int, mailOk: bool, now: int)
    ensures var pending' := RequestSignupOtp(pending, email, code, issued, mailOk).1;
      var r := ConfirmSignupOtp(pending', email, Some(code), now);
      (r.0 == AddressConfirmed <==> now <= issued + OtpLifetime) &&
      (r.0 == CodeExpired <==> now > issued + OtpLifetime)
  {
    RequestStoresCode(pending, email, code, issued, mailOk);
  }

  /** A fresh request replaces the code: an earlier, different code is refused. */
  lemma SignupCodeReplaced(pending: map<string, Pending>, email: string, code: string, issued: int, mailOk: bool,
                           other: string, now: int)
    requires other != code
    ensures ConfirmSignupOtp(RequestSignupOtp(pending, email, code, issued, mailOk).1, email, Some(other), now).0
      == InvalidCode
  {
    RequestStoresCode(pending, email, code, issued, mailOk);
  }

  /** A confirmed address cannot be confirmed again with any code. */
  lemma SignupCodeSingleUse(pending: map<string, Pending>, email: string, given: Option<string>, now: int,
                            again: Option<string>, later: int)
    requires ConfirmSignupOtp(pending, email, given, now).0 == AddressConfirmed
    ensures ConfirmSignupOtp(ConfirmSignupOtp(pending, email, given, now).1, email, again, later).0 == InvalidCode
  {
  }

  // ---------------------------------------------------------------------
  // Sign-up form

  datatype SignupForm = SignupForm(
    firstname: Option<string>, lastname: Option<string>, gmail: Option<string>,
    rollno: Option<string>, password: Option<string>, passwordcheck: Option<string>)

  datatype SignupError = FieldsRequired | PasswordsDiffer

  function Fields(f: SignupForm): seq<Option<string>>
  {
    [f.firstname, f.lastname, f.gmail, f.rollno, f.password, f.passwordcheck]
  }

  /** The checks POST /api/LogIn/Signup makes before touching the database:
      every field present and non-empty, then the two passwords equal. */
  function ValidateSignup(f: SignupForm): (r: Option<SignupError>)
    ensures r == None ==> Truthy(f.password) && f.password == f.passwordcheck
  {
    if !Truthy(f.firstname) || !Truthy(f.lastname) || !Truthy(f.gmail) ||
       !Truthy(f.rollno) || !Truthy(f.password) || !Truthy(f.passwordcheck)
    then Some(FieldsRequired)
    else if f.password.value != f.passwordcheck.value then Some(PasswordsDiffer)
    else None
  }

  /** A form is refused for a missing field exactly when one of the six is
      absent or empty, refused for differing passwords exactly when all are
      given but the two passwords differ, and accepted otherwise. */
  lemma ValidateSignupCases(f: SignupForm)
    ensures ValidateSignup(f) == Some(FieldsRequired) <==>
      exists i :: 0 <= i < |Fields(f)| && !Truthy(Fields(f)[i])
    ensures ValidateSignup(f) == Some(PasswordsDiffer) <==>
      (forall i :: 0 <= i < |Fields(f)| ==> Truthy(Fields(f)[i])) && f.password != f.passwordcheck
    ensures ValidateSignup(f) == None <==>
      (forall i :: 0 <= i < |Fields(f)| ==> Truthy(Fields(f)[i])) && f.password == f.passwordcheck
  {
    var fs := Fields(f);
    assert fs[0] == f.firstname && fs[1] == f.lastname && fs[2] == f.gmail;
    assert fs[3] == f.rollno && fs[4] == f.password && fs[5] == f.passwordcheck;
  }
}
