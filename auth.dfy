/** E-mail sign-up, login and password reset (app/api/auth.py): the one-time codes, the
 *  password length rules and the state of a user row that the handlers change step by
 *  step. Time is in whole seconds; `now` stands for `datetime.utcnow()`. */
module Auth {
  import opened Common

  const OTP_MIN := 100000
  const OTP_MAX := 999999
  /** `timedelta(minutes=5)`. */
  const OTP_LIFETIME := 300
  const MAX_PASSWORD := 72
  const MIN_PASSWORD := 8

  const GOOGLE := "google"
  const EMAIL := "email"

  // ---------------------------------------------------------------- codes and passwords

  /** `str(random.randint(100000, 999999))`; the draw is a parameter. */
  function GenerateOtp(draw: int): (code: string)
    requires OTP_MIN <= draw <= OTP_MAX
    ensures |code| == 6 && AllDigits(code) && code[0] != '0'
    ensures DigitsValue(code) == draw
  {
    assert Pow10(5) == 100000 && Pow10(6) == 1000000;
    NatToStringLength(draw, 6);
    DigitsValueOfNatToString(draw);
    NatToString(draw)
  }

  const TOO_LONG := "Password cannot be longer than 72 characters"
  const TOO_SHORT := "Password must be at least 8 characters long"

  /** The validator of the sign-up and reset requests: the length check first, then the
   *  minimum. A failure is a 422 before the handler runs. */
  function NewPasswordError(password: string): (r: Option<string>)
    ensures r.None? <==> MIN_PASSWORD <= |password| <= MAX_PASSWORD
    ensures r == Some(TOO_LONG) <==> |password| > MAX_PASSWORD
  {
    if |password| > MAX_PASSWORD then Some(TOO_LONG)
    else if |password| < MIN_PASSWORD then Some(TOO_SHORT)
    else None
  }

  /** The validator of the login request: only the maximum. */
  function LoginPasswordError(password: string): (r: Option<string>)
    ensures r.None? <==> |password| <= MAX_PASSWORD
  {
    if |password| > MAX_PASSWORD then Some(TOO_LONG) else None
  }

  /** Every password accepted at sign-up or reset is accepted at login. */
  lemma NewPasswordsLogIn(password: string)
    ensures NewPasswordError(password).None? ==> LoginPasswordError(password).None?
    ensures LoginPasswordError(password).None? && |password| < MIN_PASSWORD ==>
      NewPasswordError(password) == Some(TOO_SHORT)
  {
  }

  // ---------------------------------------------------------------- the user row

  /** `bcrypt.hash`: an opaque, injective tag of the password; `bcrypt.verify(pw, h)` holds
   *  iff `h == Hashed(pw)`. */
  datatype Hash = Hashed(password: string)

  /** The columns of a `users` row that the handlers read and write. */
  datatype Account = Account(
    email: string,
    name: Option<string>,
    passwordHash: Option<Hash>,
    authType: string,
    isVerified: bool,
    otpCode: Option<string>,
    otpExpiry: Option<int>)

  /** `user.otp_code and user.otp_expiry`: a non-empty code with an expiry. */
  predicate HasOtp(a: Account)
  {
    a.otpCode.Some? && a.otpCode.value != "" && a.otpExpiry.Some?
  }

  /** `bcrypt.verify(password, user.password_hash)` on a present hash. */
  predicate PasswordMatches(a: Account, password: string)
  {
    a.passwordHash == Some(Hashed(password))
  }

  /** The reply of a handler and the row after it (`None` when there is no row). */
  datatype Step<T> = Step(result: Result<T>, account: Option<Account>)

  // ---------------------------------------------------------------- send_otp

  const REGISTERED_WITH_GOOGLE := "This email is registered via Google. Use Google Login."
  const ALREADY_VERIFIED := "This email is already verified. Please login instead."
  const OTP_RESENT := "OTP re-sent to your email"
  const OTP_SENT := "OTP sent to your email"

  /** `send_otp` on the row found for `email` (if any). A row of another auth type falls
   *  through every branch and the handler returns `null` (`Ok(None)`). */
  function SendOtpOutcome(found: Option<Account>, email: string, code: string, now: int): (r: Step<Option<string>>)
    requires found.Some? ==> found.value.email == email
    ensures r.result.Err? <==>
      found.Some? && (found.value.authType == GOOGLE || (found.value.authType == EMAIL && found.value.isVerified))
    ensures r.result.Err? ==> r.result.status == 400 && r.account == found
    ensures r.result == Ok(None) <==> found.Some? && found.value.authType != GOOGLE && found.value.authType != EMAIL
    ensures r.result == Ok(None) ==> r.account == found
    ensures r.result.Ok? && r.result.value.Some? ==>
      r.account.Some? && r.account.value.email == email && r.account.value.authType == EMAIL
      && !r.account.value.isVerified && HasOtp(r.account.value) == (code != "")
      && r.account.value.otpCode == Some(code) && r.account.value.otpExpiry == Some(now + OTP_LIFETIME)
      && (found.Some? ==> r.account.value == found.value.(otpCode := Some(code), otpExpiry := Some(now + OTP_LIFETIME)))
  {
    match found
    case None =>
      Step(Ok(Some(OTP_SENT)), Some(Account(email, None, None, EMAIL, false, Some(code), Some(now + OTP_LIFETIME))))
    case Some(user) =>
      if user.authType == GOOGLE then Step(Err(400, REGISTERED_WITH_GOOGLE), found)
      else if user.authType == EMAIL then
        if user.isVerified then Step(Err(400, ALREADY_VERIFIED), found)
        else Step(Ok(Some(OTP_RESENT)), Some(user.(otpCode := Some(code), otpExpiry := Some(now + OTP_LIFETIME))))
      else Step(Ok(None), found)
  }

  // ---------------------------------------------------------------- verify_otp

  const USER_NOT_FOUND := "User not found"
  const NO_OTP := "No OTP found. Request OTP again."
  const OTP_EXPIRED := "OTP expired"
  const INVALID_OTP := "Invalid OTP"
  const VERIFIED := "Email verified & password set successfully"

  /** `verify_otp`: the password validator, then the row, the stored code, its expiry
   *  (expired from the expiry instant on) and the code itself. */
  function VerifyOtpOutcome(found: Option<Account>, name: string, code: string, password: string, now: int): (r: Step<string>)
    ensures r.result.Ok? <==>
      NewPasswordError(password).None? && found.Some? && HasOtp(found.value)
      && now < found.value.otpExpiry.value && found.value.otpCode.value == code
    ensures r.result.Err? ==> r.account == found
    ensures r.result == Err(404, USER_NOT_FOUND) <==> NewPasswordError(password).None? && found.None?
    ensures r.result == Err(400, OTP_EXPIRED) <==>
      NewPasswordError(password).None? && found.Some? && HasOtp(found.value) && now >= found.value.otpExpiry.value
    ensures r.result.Ok? ==>
      r.account.Some? && r.account.value.email == found.value.email
      && r.account.value.isVerified && r.account.value.authType == EMAIL && r.account.value.name == Some(name)
      && PasswordMatches(r.account.value, password) && !HasOtp(r.account.value)
  {
    if NewPasswordError(password).Some? then Step(Err(422, NewPasswordError(password).value), found)
    else
      match found
      case None => Step(Err(404, USER_NOT_FOUND), found)
      case Some(user) =>
        if !HasOtp(user) then Step(Err(400, NO_OTP), found)
        else if now >= user.otpExpiry.value then Step(Err(400, OTP_EXPIRED), found)
        else if user.otpCode.value != code then Step(Err(400, INVALID_OTP), found)
        else Step(Ok(VERIFIED), Some(user.(name := Some(name), passwordHash := Some(Hashed(password)),
                                           isVerified := true, authType := EMAIL,
                                           otpCode := None, otpExpiry := None)))
  }

  // ---------------------------------------------------------------- login_email

  const BAD_CREDENTIALS := "Invalid email or password"
  const NOT_VERIFIED := "Email not verified. Please verify before login."

  /** `login_email`: the token is issued for the row's e-mail; it changes nothing. */
  function LoginEmailOutcome(found: Option<Account>, password: string): (r: Result<string>)
    ensures r.Ok? <==>
      LoginPasswordError(password).None? && found.Some? && found.value.isVerified && PasswordMatches(found.value, password)
    ensures r.Ok? ==> r.value == found.value.email
    ensures r == Err(403, NOT_VERIFIED) <==>
      LoginPasswordError(password).None? && found.Some? && !found.value.isVerified
    ensures r.Err? && LoginPasswordError(password).None? && r.status != 403 ==> r == Err(401, BAD_CREDENTIALS)
  {
    if LoginPasswordError(password).Some? then Err(422, LoginPasswordError(password).value)
    else
      match found
      case None => Err(401, BAD_CREDENTIALS)
      case Some(user) =>
        if !user.isVerified then Err(403, NOT_VERIFIED)
        else if !PasswordMatches(user, password) then Err(401, BAD_CREDENTIALS)
        else Ok(user.email)
  }

  // ---------------------------------------------------------------- send_password_reset

  const RESET_SENT := "If an account with that email exists, a password reset code has been sent."

  /** `send_password_reset_code`: the same reply for every e-mail; only an e-mail account
   *  gets a fresh code. */
  function SendPasswordResetOutcome(found: Option<Account>, code: string, now: int): (r: Step<string>)
    ensures r.result == Ok(RESET_SENT)
    ensures found.Some? && found.value.authType == EMAIL ==>
      r.account == Some(found.value.(otpCode := Some(code), otpExpiry := Some(now + OTP_LIFETIME)))
    ensures !(found.Some? && found.value.authType == EMAIL) ==> r.account == found
  {
    if found.Some? && found.value.authType == EMAIL then
      Step(Ok(RESET_SENT), Some(found.value.(otpCode := Some(code), otpExpiry := Some(now + OTP_LIFETIME))))
    else Step(Ok(RESET_SENT), found)
  }

  // ---------------------------------------------------------------- reset_password

  const INVALID_RESET := "Invalid reset request"
  const GOOGLE_ACCOUNT := "This account uses Google sign-in. Please use Google to sign in."
  const NO_RESET_CODE := "Invalid or expired reset code. Please request a new one."
  const RESET_EXPIRED := "Reset code has expired. Please request a new one."
  const INVALID_RESET_CODE := "Invalid reset code"
  const RESET_DONE := "Password has been reset successfully"

  /** `reset_password`: expired only strictly after the expiry instant; an expired code is
   *  cleared before the 400 is returned. */
  function ResetPasswordOutcome(found: Option<Account>, code: string, newPassword: string, now: int): (r: Step<string>)
    ensures r.result.Ok? <==>
      NewPasswordError(newPassword).None? && found.Some? && found.value.authType != GOOGLE
      && HasOtp(found.value) && now <= found.value.otpExpiry.value && found.value.otpCode.value == code
    ensures r.result == Err(400, GOOGLE_ACCOUNT) <==>
      NewPasswordError(newPassword).None? && found.Some? && found.value.authType == GOOGLE
    ensures r.result == Err(400, RESET_EXPIRED) <==>
      NewPasswordError(newPassword).None? && found.Some? && found.value.authType != GOOGLE
      && HasOtp(found.value) && now > found.value.otpExpiry.value
    ensures r.result == Err(400, RESET_EXPIRED) ==>
      r.account == Some(found.value.(otpCode := None, otpExpiry := None))
    ensures r.result.Err? && r.result != Err(400, RESET_EXPIRED) ==> r.account == found
    ensures r.result.Ok? ==>
      r.account == Some(found.value.(passwordHash := Some(Hashed(newPassword)), otpCode := None,
                                     otpExpiry := None, isVerified := true))
  {
    if NewPasswordError(newPassword).Some? then Step(Err(422, NewPasswordError(newPassword).value), found)
    else
      match found
      case None => Step(Err(404, INVALID_RESET), found)
      case Some(user) =>
        if user.authType == GOOGLE then Step(Err(400, GOOGLE_ACCOUNT), found)
        else if !HasOtp(user) then Step(Err(400, NO_RESET_CODE), found)
        else if now > user.otpExpiry.value then
          Step(Err(400, RESET_EXPIRED), Some(user.(otpCode := None, otpExpiry := None)))
        else if user.otpCode.value != code then Step(Err(400, INVALID_RESET_CODE), found)
        else Step(Ok(RESET_DONE), Some(user.(passwordHash := Some(Hashed(newPassword)), otpCode := None,
                                             otpExpiry := None, isVerified := true)))
  }

  // ---------------------------------------------------------------- properties across handlers

  /** A code sent to a new or unverified e-mail address verifies the account while it is
   *  fresh, and the account can then log in with the password it set. */
  lemma SendThenVerify(found: Option<Account>, email: string, draw: int, sentAt: int,
                       name: string, password: string, now: int)
    requires OTP_MIN <= draw <= OTP_MAX
    requires found.Some? ==> found.value.email == email && found.value.authType == EMAIL && !found.value.isVerified
    requires NewPasswordError(password).None?
    ensures var sent := SendOtpOutcome(found, email, GenerateOtp(draw), sentAt);
      var verified := VerifyOtpOutcome(sent.account, name, GenerateOtp(draw), password, now);
      sent.result.Ok? && sent.result.value.Some?
      && (verified.result.Ok? <==> now < sentAt + OTP_LIFETIME)
      && (verified.result.Ok? ==> LoginEmailOutcome(verified.account, password) == Ok(email))
      && (verified.result.Err? ==> verified.result == Err(400, OTP_EXPIRED))
  {
    var code := GenerateOtp(draw);
    var sent := SendOtpOutcome(found, email, code, sentAt);
    assert HasOtp(sent.account.value);
  }

  /** A code is used once: after a successful verification every further attempt finds no
   *  code, whatever is sent. */
  lemma VerifyIsSingleUse(found: Option<Account>, name: string, code: string, password: string, now: int,
                          name2: string, code2: string, password2: string, later: int)
    requires VerifyOtpOutcome(found, name, code, password, now).result.Ok?
    requires NewPasswordError(password2).None?
    ensures VerifyOtpOutcome(VerifyOtpOutcome(found, name, code, password, now).account, name2, code2, password2, later).result
         == Err(400, NO_OTP)
  {
  }

  /** After a reset the new password logs in, and a different old one no longer does. */
  lemma ResetThenLogin(found: Option<Account>, code: string, newPassword: string, now: int, other: string)
    requires ResetPasswordOutcome(found, code, newPassword, now).result.Ok?
    requires other != newPassword && LoginPasswordError(other).None?
    ensures var after := ResetPasswordOutcome(found, code, newPassword, now).account;
      LoginEmailOutcome(after, newPassword) == Ok(found.value.email)
      && LoginEmailOutcome(after, other) == Err(401, BAD_CREDENTIALS)
  {
  }

  /** A reset code sent to an e-mail account resets the password up to and including its
   *  expiry instant; the same instant is already too late for `verify_otp`. */
  lemma ExpiryInstant(found: Option<Account>, draw: int, sentAt: int, name: string, password: string)
    requires OTP_MIN <= draw <= OTP_MAX
    requires found.Some? && found.value.authType == EMAIL
    requires NewPasswordError(password).None?
    ensures var sent := SendPasswordResetOutcome(found, GenerateOtp(draw), sentAt).account;
      var expiry := sentAt + OTP_LIFETIME;
      ResetPasswordOutcome(sent, GenerateOtp(draw), password, expiry).result.Ok?
      && VerifyOtpOutcome(sent, name, GenerateOtp(draw), password, expiry).result == Err(400, OTP_EXPIRED)
      && ResetPasswordOutcome(sent, GenerateOtp(draw), password, expiry + 1).result == Err(400, RESET_EXPIRED)
  {
    var sent := SendPasswordResetOutcome(found, GenerateOtp(draw), sentAt).account;
    assert HasOtp(sent.value);
  }

  /** A Google account is refused by `reset_password` whatever its stored code, and gets no
   *  code from `send_password_reset` or `send_otp`. */
  lemma GoogleAccountsKeepNoCode(user: Account, code: string, password: string, now: int)
    requires user.authType == GOOGLE && NewPasswordError(password).None?
    ensures ResetPasswordOutcome(Some(user), code, password, now).result == Err(400, GOOGLE_ACCOUNT)
    ensures SendPasswordResetOutcome(Some(user), code, now).account == Some(user)
    ensures SendOtpOutcome(Some(user), user.email, code, now) == Step(Err(400, REGISTERED_WITH_GOOGLE), Some(user))
  {
  }

  // ---------------------------------------------------------------- the users table

  /** `db.query(User).filter(User.email == email).first()`. */
  function Lookup(accounts: seq<Account>, email: string): (r: Option<nat>)
    ensures r.Some? ==> r.value < |accounts| && accounts[r.value].email == email
    ensures r.Some? ==> forall j :: 0 <= j < r.value ==> accounts[j].email != email
    ensures r.None? ==> forall j :: 0 <= j < |accounts| ==> accounts[j].email != email
  {
    if accounts == [] then None
    else
      var r := Lookup(accounts[..|accounts| - 1], email);
      if r.Some? then r
      else if accounts[|accounts| - 1].email == email then Some(|accounts| - 1)
      else None
  }

  function Found(accounts: seq<Account>, email: string): (r: Option<Account>)
    ensures r.Some? ==> r.value.email == email
  {
    match Lookup(accounts, email)
    case None => None
    case Some(i) => Some(accounts[i])
  }

  /** The table after a handler left `after` as the row for `email`: the row is replaced in
   *  place, or added when there was none. */
  function Stored(accounts: seq<Account>, email: string, after: Option<Account>): (r: seq<Account>)
  {
    match Lookup(accounts, email)
    case Some(i) => if after.Some? then accounts[i := after.value] else accounts
    case None => if after.Some? then accounts + [after.value] else accounts
  }

  predicate UniqueEmails(accounts: seq<Account>)
  {
    forall i, j :: 0 <= i < j < |accounts| ==> accounts[i].email != accounts[j].email
  }

  /** A handler that keeps the row's e-mail keeps the addresses of the table unique. */
  lemma StoredKeepsUnique(accounts: seq<Account>, email: string, after: Option<Account>)
    requires UniqueEmails(accounts)
    requires after.Some? ==> after.value.email == email
    ensures UniqueEmails(Stored(accounts, email, after))
    ensures |Stored(accounts, email, after)| <= |accounts| + 1
  {
  }

  class AccountTable {
    var accounts: seq<Account>

    constructor (accounts: seq<Account>)
      ensures this.accounts == accounts
    {
      this.accounts := accounts;
    }

    method SendOtp(email: string, draw: int, now: int) returns (r: Result<Option<string>>)
      requires OTP_MIN <= draw <= OTP_MAX
      modifies this
      ensures var step := SendOtpOutcome(Found(old(accounts), email), email, GenerateOtp(draw), now);
        r == step.result && accounts == Stored(old(accounts), email, step.account)
    {
      var i := Lookup(accounts, email);
      var otp := GenerateOtp(draw);
      if i.None? {
        accounts := accounts + [Account(email, None, None, EMAIL, false, Some(otp), Some(now + OTP_LIFETIME))];
        return Ok(Some(OTP_SENT));
      }
      var user := accounts[i.value];
      if user.authType == GOOGLE {
        return Err(400, REGISTERED_WITH_GOOGLE);
      } else if user.authType == EMAIL {
        if user.isVerified {
          return Err(400, ALREADY_VERIFIED);
        }
        user := user.(otpCode := Some(otp));
        user := user.(otpExpiry := Some(now + OTP_LIFETIME));
        accounts := accounts[i.value := user];
        return Ok(Some(OTP_RESENT));
      }
      r := Ok(None);
    }

    method VerifyOtp(name: string, email: string, code: string, password: string, now: int) returns (r: Result<string>)
      modifies this
      ensures var step := VerifyOtpOutcome(Found(old(accounts), email), name, code, password, now);
        r == step.result && accounts == Stored(old(accounts), email, step.account)
    {
      var invalid := NewPasswordError(password);
      if invalid.Some? {
        return Err(422, invalid.value);
      }
      var i := Lookup(accounts, email);
      if i.None? {
        return Err(404, USER_NOT_FOUND);
      }
      var user := accounts[i.value];
      if !HasOtp(user) {
        return Err(400, NO_OTP);
      }
      if now >= user.otpExpiry.value {
        return Err(400, OTP_EXPIRED);
      }
      if user.otpCode.value != code {
        return Err(400, INVALID_OTP);
      }
      user := user.(name := Some(name));
      user := user.(passwordHash := Some(Hashed(password)));
      user := user.(isVerified := true);
      user := user.(authType := EMAIL);
      user := user.(otpCode := None);
      user := user.(otpExpiry := None);
      accounts := accounts[i.value := user];
      r := Ok(VERIFIED);
    }

    method LoginEmail(email: string, password: string) returns (r: Result<string>)
      ensures r == LoginEmailOutcome(Found(accounts, email), password)
    {
      var invalid := LoginPasswordError(password);
      if invalid.Some? {
        return Err(422, invalid.value);
      }
      var i := Lookup(accounts, email);
      if i.None? {
        return Err(401, BAD_CREDENTIALS);
      }
      var user := accounts[i.value];
      if !user.isVerified {
        return Err(403, NOT_VERIFIED);
      }
      if user.passwordHash.None? || user.passwordHash.value != Hashed(password) {
        return Err(401, BAD_CREDENTIALS);
      }
      r := Ok(user.email);
    }

    method SendPasswordReset(email: string, draw: int, now: int) returns (r: Result<string>)
      requires OTP_MIN <= draw <= OTP_MAX
      modifies this
      ensures var step := SendPasswordResetOutcome(Found(old(accounts), email), GenerateOtp(draw), now);
        r == step.result && accounts == Stored(old(accounts), email, step.account)
    {
      var i := Lookup(accounts, email);
      if i.Some? && accounts[i.value].authType == EMAIL {
        var user := accounts[i.value];
        var otp := GenerateOtp(draw);
        user := user.(otpCode := Some(otp));
        user := user.(otpExpiry := Some(now + OTP_LIFETIME));
        accounts := accounts[i.value := user];
      }
      r := Ok(RESET_SENT);
    }

    method ResetPassword(email: string, code: string, newPassword: string, now: int) returns (r: Result<string>)
      modifies this
      ensures var step := ResetPasswordOutcome(Found(old(accounts), email), code, newPassword, now);
        r == step.result && accounts == Stored(old(accounts), email, step.account)
    {
      var invalid := NewPasswordError(newPassword);
      if invalid.Some? {
        return Err(422, invalid.value);
      }
      var i := Lookup(accounts, email);
      if i.None? {
        return Err(404, INVALID_RESET);
      }
      var user := accounts[i.value];
      if user.authType == GOOGLE {
        return Err(400, GOOGLE_ACCOUNT);
      }
      if !HasOtp(user) {
        return Err(400, NO_RESET_CODE);
      }
      if now > user.otpExpiry.value {
        user := user.(otpCode := None);
        user := user.(otpExpiry := None);
        accounts := accounts[i.value := user];
        return Err(400, RESET_EXPIRED);
      }
      if user.otpCode.value != code {
        return Err(400, INVALID_RESET_CODE);
      }
      user := user.(passwordHash := Some(Hashed(newPassword)));
      user := user.(otpCode := None);
      user := user.(otpExpiry := None);
      user := user.(isVerified := true);
      accounts := accounts[i.value := user];
      r := Ok(RESET_DONE);
    }
  }
}
