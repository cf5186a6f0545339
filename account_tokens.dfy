/**
 * The account-token logic of accounts/utils.py: verification tokens that prove a
 * (user, email) pair asked for activation, reset tokens that bind a one-time password
 * (OTP) to a user, and the decisions that accept or reject them.
 *
 * A token is a JSON Web Token (RFC 7519) signed with HMAC-SHA256 (section 3.2 of
 * RFC 7518) under the project's SECRET_KEY, then encrypted as a Fernet token under
 * ENCRYPTION_KEY. The cryptography is not modelled: the signer and the cipher are
 * given as function values, and `Sound` states the one thing the logic relies on,
 * that each layer opens what it sealed. The clock is an integer number of seconds.
 */
module AccountTokens {
  import opened Wrappers
  import RegexSemantics

  /** Seconds on the clock PyJWT compares `exp` against. */
  type Time = int

  /** `timedelta(days=1)`, the lifetime of a verification token. */
  const VerificationLifetime: int := 24 * 60 * 60

  /** `timedelta(minutes=5)`, the lifetime of a reset token. */
  const ResetLifetime: int := 5 * 60

  /** The default `length` of `generate_otp`. */
  const DefaultOtpLength: nat := 6

  /** `string.digits`, the population the OTP is drawn from. */
  const Digits: string := "0123456789"

  /** An index into `Digits`, as `random.choices` picks one. */
  type DigitIndex = i: int | 0 <= i < 10

  /**
   * The payload dictionary signed into a token. `otp` is `None` when the
   * dictionary has no 'otp' key, as in every verification token.
   */
  datatype Claims = Claims(userId: int, email: string, otp: Option<string>, exp: Time)

  /** `jwt.encode` and the signature check of `jwt.decode` (HS256 under SECRET_KEY). */
  datatype Signer = Signer(sign: Claims -> string, check: string -> Option<Claims>)

  /**
   * `fernet.encrypt` and `fernet.decrypt` under ENCRYPTION_KEY. Fernet draws a fresh
   * IV and timestamp for every encryption: `nonce` stands for them.
   */
  datatype Cipher = Cipher(encrypt: (string, nat) -> string, decrypt: string -> Option<string>)

  /** The process-wide key material, as the signer and cipher it configures. */
  datatype Keys = Keys(signer: Signer, cipher: Cipher)

  /** Each layer opens whatever it sealed: the only property of the cryptography the logic uses. */
  ghost predicate Sound(k: Keys) {
    && (forall c :: k.signer.check(k.signer.sign(c)) == Some(c))
    && (forall m, n :: k.cipher.decrypt(k.cipher.encrypt(m, n)) == Some(m))
  }

  /** Why a token was refused; the public API never reveals which. */
  datatype Failure =
    | InvalidFernetToken   // fernet.decrypt raised (tampered, foreign key, not a token at all)
    | InvalidJwt           // jwt.decode raised a DecodeError or InvalidSignatureError
    | ExpiredSignature     // jwt.decode raised ExpiredSignatureError
    | MissingOtp           // payload['otp'] raised KeyError
    | OtpMismatch          // the submitted OTP differs

  /** What both verify functions return: `(True, payload)` or `(False, None)`. */
  type Verdict = (bool, Option<Claims>)

  /** Sign, then encrypt: the wire form of a token. */
  function Seal(k: Keys, c: Claims, nonce: nat): (token: string)
    ensures Sound(k) ==> k.cipher.decrypt(token) == Some(k.signer.sign(c))
    ensures Sound(k) ==> k.signer.check(k.signer.sign(c)) == Some(c)
  {
    k.cipher.encrypt(k.signer.sign(c), nonce)
  }

  /** What unsealing a token that seals `c` yields at `now`: `c` itself until it expires. */
  function Opened(c: Claims, now: Time): Result<Claims, Failure> {
    if now < c.exp then Ok(c) else Err(ExpiredSignature)
  }

  /** The payload of a verification token issued at `now`. */
  function VerificationClaims(userId: int, email: string, now: Time): (c: Claims)
    ensures c.userId == userId && c.email == email
    ensures c.otp.None?
    ensures c.exp - now == VerificationLifetime
  {
    Claims(userId, email, None, now + VerificationLifetime)
  }

  /** The payload of a reset token issued at `now`. */
  function ResetClaims(userId: int, email: string, otp: string, now: Time): (c: Claims)
    ensures c.userId == userId && c.email == email
    ensures c.otp == Some(otp)
    ensures c.exp - now == ResetLifetime
  {
    Claims(userId, email, Some(otp), now + ResetLifetime)
  }

  /** `create_verification_token(user_id, email)`. */
  function CreateVerificationToken(k: Keys, userId: int, email: string, now: Time, nonce: nat): (token: string)
    ensures Sound(k) ==> forall t :: Unseal(k, token, t) == Opened(Claims(userId, email, None, now + VerificationLifetime), t)
  {
    Seal(k, VerificationClaims(userId, email, now), nonce)
  }

  /** `create_reset_token(user_id, email, otp)`. */
  function CreateResetToken(k: Keys, userId: int, email: string, otp: string, now: Time, nonce: nat): (token: string)
    ensures Sound(k) ==> forall t :: Unseal(k, token, t) == Opened(Claims(userId, email, Some(otp), now + ResetLifetime), t)
  {
    Seal(k, ResetClaims(userId, email, otp, now), nonce)
  }

  /**
   * `generate_otp(length)`: `length` characters, the i-th being the digit that the
   * i-th draw of `random.choices` picks.
   */
  function GenerateOtp(length: nat, draw: nat -> DigitIndex): (otp: string)
    ensures |otp| == length
    ensures forall i :: 0 <= i < |otp| ==> RegexSemantics.IsDigit(otp[i])
    ensures forall i :: 0 <= i < |otp| ==> otp[i] == Digits[draw(i)]
  {
    seq(length, i requires 0 <= i < length => Digits[draw(i)])
  }

  /**
   * The body of the `try` in both verify functions: decrypt, check the signature,
   * then the `exp` claim, which PyJWT rejects once `exp <= now`.
   */
  function Unseal(k: Keys, token: string, now: Time): (r: Result<Claims, Failure>)
    ensures r.Ok? ==> now < r.value.exp
    ensures r.Ok? ==> exists jwt :: k.cipher.decrypt(token) == Some(jwt) && k.signer.check(jwt) == Some(r.value)
    ensures r.Err? ==> r.error in {InvalidFernetToken, InvalidJwt, ExpiredSignature}
  {
    match k.cipher.decrypt(token)
    case None => Err(InvalidFernetToken)
    case Some(jwt) =>
      match k.signer.check(jwt)
      case None => Err(InvalidJwt)
      case Some(c) => if c.exp <= now then Err(ExpiredSignature) else Ok(c)
  }

  /** The `except` clauses: any failure, whatever its cause, becomes `(False, None)`. */
  function Collapse(r: Result<Claims, Failure>): (v: Verdict)
    ensures v.0 <==> v.1.Some?
    ensures r.Ok? ==> v.1 == Some(r.value)
    ensures r.Err? ==> v == (false, None)
  {
    match r
    case Ok(c) => (true, Some(c))
    case Err(_) => (false, None)
  }

  /** `verify_token(encrypted_token)`: it does not look at the kind of token. */
  function VerifyToken(k: Keys, token: string, now: Time): (v: Verdict)
    ensures v.0 <==> v.1.Some?
    ensures v.0 ==> now < v.1.value.exp
    ensures v.0 <==> Unseal(k, token, now).Ok?
    ensures v.0 ==> Unseal(k, token, now) == Ok(v.1.value)
  {
    Collapse(Unseal(k, token, now))
  }

  /** The `try` body of `verify_reset_token`, keeping the cause of a refusal. */
  function CheckResetToken(k: Keys, token: string, submittedOtp: string, now: Time): (r: Result<Claims, Failure>)
    ensures r.Ok? ==> r.value.otp == Some(submittedOtp) && Unseal(k, token, now) == r
  {
    match Unseal(k, token, now)
    case Err(e) => Err(e)
    case Ok(c) =>
      match c.otp
      case None => Err(MissingOtp)
      case Some(otp) => if otp == submittedOtp then Ok(c) else Err(OtpMismatch)
  }

  /** `verify_reset_token(encrypted_token, submitted_otp)`. */
  function VerifyResetToken(k: Keys, token: string, submittedOtp: string, now: Time): (v: Verdict)
    ensures v.0 <==> v.1.Some?
    ensures v.0 ==> v.1.value.otp == Some(submittedOtp) && now < v.1.value.exp
    ensures v.0 ==> VerifyToken(k, token, now) == v
  {
    Collapse(CheckResetToken(k, token, submittedOtp, now))
  }

  /** Sealing is undone by unsealing, up to the expiry check. */
  lemma UnsealSeal(k: Keys, c: Claims, nonce: nat, now: Time)
    requires Sound(k)
    ensures Unseal(k, Seal(k, c, nonce), now) == Opened(c, now)
  {
    var jwt := k.signer.sign(c);
    assert k.cipher.decrypt(k.cipher.encrypt(jwt, nonce)) == Some(jwt);
    assert k.signer.check(jwt) == Some(c);
  }

  /** Round trip: before expiry a verification token yields its user and email, and no OTP. */
  lemma VerificationTokenRoundTrip(k: Keys, userId: int, email: string, issued: Time, nonce: nat, now: Time)
    requires Sound(k)
    requires now < issued + VerificationLifetime
    ensures VerifyToken(k, CreateVerificationToken(k, userId, email, issued, nonce), now)
         == (true, Some(Claims(userId, email, None, issued + VerificationLifetime)))
  {
    UnsealSeal(k, VerificationClaims(userId, email, issued), nonce, now);
  }

  /** From one day after issue on, a verification token is refused. */
  lemma VerificationTokenExpires(k: Keys, userId: int, email: string, issued: Time, nonce: nat, now: Time)
    requires Sound(k)
    requires issued + VerificationLifetime <= now
    ensures Unseal(k, CreateVerificationToken(k, userId, email, issued, nonce), now) == Err(ExpiredSignature)
    ensures VerifyToken(k, CreateVerificationToken(k, userId, email, issued, nonce), now) == (false, None)
  {
    UnsealSeal(k, VerificationClaims(userId, email, issued), nonce, now);
  }

  /** Round trip: before expiry a reset token with its own OTP yields user, email and OTP. */
  lemma ResetTokenRoundTrip(k: Keys, userId: int, email: string, otp: string, issued: Time, nonce: nat, now: Time)
    requires Sound(k)
    requires now < issued + ResetLifetime
    ensures VerifyResetToken(k, CreateResetToken(k, userId, email, otp, issued, nonce), otp, now)
         == (true, Some(Claims(userId, email, Some(otp), issued + ResetLifetime)))
  {
    UnsealSeal(k, ResetClaims(userId, email, otp, issued), nonce, now);
  }

  /**
   * The OTP check: a reset token is accepted exactly when the submitted OTP equals
   * the one it carries and five minutes have not passed; otherwise `(False, None)`.
   */
  lemma ResetTokenOtpCheck(k: Keys, userId: int, email: string, otp: string, issued: Time, nonce: nat,
                           submittedOtp: string, now: Time)
    requires Sound(k)
    ensures var v := VerifyResetToken(k, CreateResetToken(k, userId, email, otp, issued, nonce), submittedOtp, now);
      && (v.0 <==> submittedOtp == otp && now < issued + ResetLifetime)
      && (!v.0 ==> v == (false, None))
  {
    UnsealSeal(k, ResetClaims(userId, email, otp, issued), nonce, now);
  }

  /** `verify_token` does not check the kind: an unexpired reset token passes it, OTP unchecked. */
  lemma ResetTokenPassesVerifyToken(k: Keys, userId: int, email: string, otp: string, issued: Time, nonce: nat, now: Time)
    requires Sound(k)
    requires now < issued + ResetLifetime
    ensures VerifyToken(k, CreateResetToken(k, userId, email, otp, issued, nonce), now)
         == (true, Some(Claims(userId, email, Some(otp), issued + ResetLifetime)))
  {
    UnsealSeal(k, ResetClaims(userId, email, otp, issued), nonce, now);
  }

  /**
   * A verification token never passes `verify_reset_token`, whatever OTP is submitted:
   * while it is unexpired the lookup of 'otp' raises KeyError, which is swallowed.
   */
  lemma VerificationTokenFailsReset(k: Keys, userId: int, email: string, issued: Time, nonce: nat,
                                    submittedOtp: string, now: Time)
    requires Sound(k)
    ensures var token := CreateVerificationToken(k, userId, email, issued, nonce);
      && CheckResetToken(k, token, submittedOtp, now)
         == (if now < issued + VerificationLifetime then Err(MissingOtp) else Err(ExpiredSignature))
      && VerifyResetToken(k, token, submittedOtp, now) == (false, None)
  {
    UnsealSeal(k, VerificationClaims(userId, email, issued), nonce, now);
  }

  /** The OTP the reset request issues has the default six digits. */
  lemma DefaultOtpShape(draw: nat -> DigitIndex)
    ensures var otp := GenerateOtp(DefaultOtpLength, draw);
      |otp| == 6 && forall i :: 0 <= i < 6 ==> '0' <= otp[i] <= '9'
  {
  }

  /**
   * The password-reset exchange: a user with id 42 and email "a@x.com" asks for a
   * reset; the draws give OTP "483920". Within five minutes the token is accepted with
   * "483920" and refused with "000000".
   */
  lemma PasswordResetScenario(k: Keys, issued: Time, nonce: nat, now: Time)
    requires Sound(k)
    requires issued <= now < issued + ResetLifetime
    ensures var draw := (i: nat) => if i < 6 then [4, 8, 3, 9, 2, 0][i] as DigitIndex else 0;
      && GenerateOtp(DefaultOtpLength, draw) == "483920"
      && var token := CreateResetToken(k, 42, "a@x.com", GenerateOtp(DefaultOtpLength, draw), issued, nonce);
      && VerifyResetToken(k, token, "000000", now) == (false, None)
      && VerifyResetToken(k, token, "483920", now) == (true, Some(Claims(42, "a@x.com", Some("483920"), issued + ResetLifetime)))
  {
    var draw := (i: nat) => if i < 6 then [4, 8, 3, 9, 2, 0][i] as DigitIndex else 0;
    var otp := GenerateOtp(DefaultOtpLength, draw);
    assert otp == "483920";
    ResetTokenOtpCheck(k, 42, "a@x.com", otp, issued, nonce, "000000", now);
    ResetTokenRoundTrip(k, 42, "a@x.com", otp, issued, nonce, now);
  }

  /**
   * The `exp` claim exactly as written: `datetime.now()` is the server's naive local
   * wall time, and PyJWT turns a naive datetime into a timestamp as if it were UTC, so
   * the server's offset from UTC is added to the intended lifetime. The rest of the
   * model issues tokens on the UTC clock (`VerificationClaims`, `ResetClaims`).
   */
  function ExpAsWritten(utcNow: Time, utcOffset: int, lifetime: int): (exp: Time)
    ensures utcOffset <= -lifetime ==> exp <= utcNow
    ensures utcOffset < 0 ==> exp < utcNow + lifetime
    ensures utcOffset > 0 ==> exp > utcNow + lifetime
  {
    utcNow + utcOffset + lifetime
  }

  /**
   * On a server five or more minutes behind UTC (say UTC-5, offset -18000), the reset
   * token the source issues is already expired when issued: even the right OTP at the
   * moment of issue is refused.
   */
  lemma ResetTokenBornExpiredAsWritten(k: Keys, userId: int, email: string, otp: string,
                                       utcNow: Time, utcOffset: int, nonce: nat)
    requires Sound(k)
    requires utcOffset <= -ResetLifetime
    ensures var claims := Claims(userId, email, Some(otp), ExpAsWritten(utcNow, utcOffset, ResetLifetime));
      && CheckResetToken(k, Seal(k, claims, nonce), otp, utcNow) == Err(ExpiredSignature)
      && VerifyResetToken(k, Seal(k, claims, nonce), otp, utcNow) == (false, None)
  {
    var claims := Claims(userId, email, Some(otp), ExpAsWritten(utcNow, utcOffset, ResetLifetime));
    UnsealSeal(k, claims, nonce, utcNow);
  }
}
