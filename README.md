# Account tokens, validators and profile names of a task-management backend

This project models, in Dafny, the small pieces of real logic in a Django task-management
backend. Everything else in that backend is declarative framework configuration.

- **Account tokens** (`accounts/utils.py`). A verification token carries a user id and
  email and lives one day. A reset token also carries a one-time password (OTP) and lives
  five minutes. A token is an HS256-signed JSON Web Token (RFC 7519; HS256 is defined in
  section 3.2 of RFC 7518; expiry is the `exp` claim of section 4.1.4 of RFC 7519),
  wrapped in a Fernet token. `verify_token` and `verify_reset_token` return
  `(True, payload)` or `(False, None)`. Every failure collapses to the second.
  Module `AccountTokens`.
- **Password strength** (`accounts/validators.py`). The regex
  `^(?=.*[a-z])(?=.*[A-Z])(?=.*\d).{8,}$` is read with Python's `re.search` semantics.
  Module `PasswordValidator`; the regex primitives are in `RegexSemantics`.
- **Hex colour** (`tasks/validators.py`). The regex `^#(?:[0-9a-fA-F]{6})$`.
  Module `HexColorValidator`.
- **Profile display name** (`accounts/models.py`). `get_full_name` and `__str__`.
  Module `Profiles`.

All four are pure, so they are modelled as datatypes, functions and lemmas.

How the model is put together:

- The cryptography is not modelled. `Keys` holds the signer (`jwt.encode` and the
  signature check of `jwt.decode`) and the cipher (`fernet.encrypt` and `fernet.decrypt`)
  as function values. The predicate `Sound(k)` states that each layer opens what it
  sealed. Every round-trip lemma assumes it as a `requires`.
- Fernet encryption is randomised by its IV and timestamp. The `nonce` parameter stands
  for them.
- The clock is an integer count of seconds. PyJWT refuses a token once `exp <= now`, so a
  token is valid exactly while `now < exp`. PyJWT checks no lower bound (no `nbf` or `iat`).
- `random.choices` is replaced by a `draw` function that gives the index of the i-th
  digit picked.
- Both validators match Python's regex semantics. With `re.search` and `^` without
  MULTILINE, a match can only start at position 0. `$` matches at the end of the string
  or just before one final newline. `.` does not match a newline.
- Each validator has three descriptions of the accepted strings, proved equal: the regex
  reading (`RegexMatches`), a plain-words rule, and an executable scan.
- `str.strip()` uses Python's `str.isspace` character set, which is listed in full.

The code draws the OTP with `random.choices`, which is not a cryptographic random source.
It compares the OTP with `==`, which does not run in constant time. The model follows the
code. Neither point changes a result.

## Model

| member | source | states |
|---|---|---|
| AccountTokens.GenerateOtp | accounts/utils.py:54-55 | the OTP has exactly `length` characters, each a decimal digit, the i-th being the digit the i-th random draw picks |
| AccountTokens.DefaultOtpShape | accounts/utils.py:54 | with the default length the OTP is six characters, each in '0'..'9' |
| AccountTokens.Seal | accounts/utils.py:20-23 | the wire token is the signed payload encrypted: under sound keys, decrypting it gives back the JWT, whose signature check gives back the payload |
| AccountTokens.VerificationClaims | accounts/utils.py:15-19 | the verification payload carries the given `user_id` and `email`, no 'otp' key, and `exp` one day after issue |
| AccountTokens.CreateVerificationToken | accounts/utils.py:14-23 | under sound keys, unsealing the issued token at any time t yields the payload (user id, email, no OTP, issue + 1 day) while t is before its `exp`, and an expiry error from then on |
| AccountTokens.ResetClaims | accounts/utils.py:58-63 | the reset payload carries the given `user_id`, `email` and `otp`, and `exp` five minutes after issue |
| AccountTokens.CreateResetToken | accounts/utils.py:57-67 | under sound keys, unsealing the issued token at any time t yields the payload (user id, email, OTP, issue + 5 minutes) while t is before its `exp`, and an expiry error from then on |
| AccountTokens.Unseal | accounts/utils.py:27-29 | decrypt, signature check, then expiry: success only for a payload that decrypts and checks from the token and whose `exp` is still in the future; every failure is a decryption, JWT or expiry error |
| AccountTokens.Collapse | accounts/utils.py:32-35 | every failure, whatever its cause, becomes `(False, None)`; success becomes `(True, payload)`; the flag is true exactly when a payload is returned |
| AccountTokens.VerifyToken | accounts/utils.py:25-35 | `verify_token` returns `(True, p)` exactly when unsealing succeeds, and then `p` is the payload the token carries and is unexpired; otherwise `(False, None)`; it never raises |
| AccountTokens.CheckResetToken | accounts/utils.py:71-77 | success only when unsealing succeeds and the payload's 'otp' equals the submitted OTP |
| AccountTokens.VerifyResetToken | accounts/utils.py:69-81 | `(True, p)` only if `p.otp` is the submitted OTP, `p` is unexpired, and `verify_token` on the same token gives the same answer; otherwise `(False, None)` |
| AccountTokens.UnsealSeal | accounts/utils.py:20-29 | sealing is undone by unsealing: the same claims before `exp`, an expiry error from `exp` on |
| AccountTokens.VerificationTokenRoundTrip | accounts/utils.py:14-31 | before one day has passed, `verify_token(create_verification_token(u, e))` is `(True, p)` with `p.user_id = u`, `p.email = e`, no 'otp' key and `exp` = issue time + 1 day |
| AccountTokens.VerificationTokenExpires | accounts/utils.py:18-33 | from issue time + 1 day on, the token is refused with an expiry error and `verify_token` gives `(False, None)` |
| AccountTokens.ResetTokenRoundTrip | accounts/utils.py:57-76 | before five minutes have passed, the reset token with its own OTP gives `(True, p)` with the user id, email, OTP and `exp` = issue time + 5 minutes |
| AccountTokens.ResetTokenOtpCheck | accounts/utils.py:69-81 | a reset token is accepted if and only if the submitted OTP equals its OTP and five minutes have not passed; every refusal is `(False, None)` |
| AccountTokens.ResetTokenPassesVerifyToken | accounts/utils.py:25-31 | `verify_token` does not check the kind of token: an unexpired reset token passes it with its full payload |
| AccountTokens.VerificationTokenFailsReset | accounts/utils.py:69-81 | a verification token never passes `verify_reset_token`, whatever OTP is submitted: unexpired, the missing 'otp' key (a KeyError) refuses it; expired, the expiry does |
| AccountTokens.PasswordResetScenario | accounts/utils.py:54-81 | user 42, "a@x.com", draws giving OTP "483920": within five minutes the token is refused with "000000" and accepted with "483920" |
| AccountTokens.ExpAsWritten | accounts/utils.py:62 | the `exp` the code writes is at or before the true issue time when the server is at least `lifetime` behind UTC, too early when it is behind at all, and too late when it is ahead |
| AccountTokens.ResetTokenBornExpiredAsWritten | accounts/utils.py:57-67 | on a server five or more minutes behind UTC, the reset token as written is refused as expired at its own issue instant, even with the right OTP |
| PasswordValidator.ScanMeaning | accounts/validators.py:4 | the one-pass scan accepts exactly the newline-free strings in which each required class (or its flag) has been seen |
| PasswordValidator.RegexMatchesPolicy | accounts/validators.py:4 | the regex read with `re.search` accepts exactly the strings that, minus one trailing newline, have no newline, at least 8 characters, a lowercase letter, an uppercase letter and a digit |
| PasswordValidator.IsStrongPassword | accounts/validators.py:3-6 | the executable decision agrees with both the regex reading and the plain-words rule |
| PasswordValidator.StrongPasswordShape | accounts/validators.py:4 | an accepted password has at least 8 characters and contains a lowercase letter, an uppercase letter and a digit |
| PasswordValidator.EmbeddedNewlineRejected | accounts/validators.py:4 | a newline anywhere but in last position makes the password invalid |
| PasswordValidator.ExtensionStaysStrong | accounts/validators.py:4 | there is no maximum length and no forbidden character besides the newline: appending newline-free text keeps an accepted password with no trailing newline accepted |
| PasswordValidator.AcceptedExamples | accounts/validators.py:4 | "Passw0rd", "P@ss w0rd!" and "Passw0rd\n" are accepted |
| PasswordValidator.RejectedExamples | accounts/validators.py:4 | "passw0rd", "Pas5w0r", "Passw0rd\n\n" and "Pass\nw0rd" are refused |
| HexColorValidator.AllHex | tasks/validators.py:4 | the character-by-character check holds exactly when every character is in `[0-9a-fA-F]` |
| HexColorValidator.IsHexColor | tasks/validators.py:3-6 | the executable decision agrees with the regex read with `re.search` |
| HexColorValidator.AcceptedForm | tasks/validators.py:4 | an accepted string starts with '#', is followed by six hex digits and has length 7, or 8 with a final newline |
| HexColorValidator.HexDigitsAccepted | tasks/validators.py:4 | conversely, '#' and any six hex digits, with or without one final newline, are accepted |
| HexColorValidator.AcceptedWithinMaxLength | tasks/serializers.py:6-9 | under the colour field's `max_length=7`, an accepted colour has exactly seven characters and no newline |
| HexColorValidator.AcceptedExamples | tasks/validators.py:4-5 | "#FFFFFF", mixed-case "#aBc123" and "#000000\n" are accepted |
| HexColorValidator.RejectedExamples | tasks/validators.py:4-5 | "#FFF", "FFFFFF", "#GGGGGG", "#FFFFFF0" and " #FFFFFF" are refused |
| Profiles.SkipLeading | accounts/models.py:20 | the first scan of `strip()` stops at the first non-whitespace character, or at the end, having passed only whitespace |
| Profiles.SkipTrailing | accounts/models.py:20 | the second scan stops after the last non-whitespace character, never before where the first scan stopped, having passed only whitespace |
| Profiles.Strip | accounts/models.py:20 | `strip()` has no whitespace at either end and is empty exactly when the input is all whitespace |
| Profiles.StripIsSlice | accounts/models.py:20 | `strip()` is the contiguous slice of the input between a blank prefix and a blank suffix |
| Profiles.FullName | accounts/models.py:16-17 | the full name is the first name, a space at index len(first), then the last name; its length is len(first) + len(last) + 1 |
| Profiles.FullNameNeverEmpty | accounts/models.py:17 | the full name is never empty and always contains the separating space |
| Profiles.FullNameBlank | accounts/models.py:16-21 | the full name is all whitespace exactly when both names are |
| Profiles.DisplayName | accounts/models.py:19-23 | `__str__` is the username when both names are blank, and otherwise the stripped full name, which is non-empty with no whitespace at either end |
| Profiles.DisplayNameBothNames | accounts/models.py:16-23 | with two non-empty names already trimmed, `__str__` is "first last" |
| Profiles.DisplayNameLastOnly | accounts/models.py:16-23 | with no first name and a trimmed last name, the leading space goes and `__str__` is the last name |
| Profiles.DisplayNameExample | accounts/models.py:16-23 | names "  Ann" and "Lee " show as "Ann Lee"; names " " and a tab show the username |
| Profiles.DisplayNameFirstOnly | accounts/models.py:16-23 | with a trimmed first name and no last name, the trailing space goes and `__str__` is the first name |

## Left out

- HS256 signing and Fernet encryption are not modelled (accounts/utils.py:20-29, 64-73). They are foreign libraries. The model keeps only the round-trip property `Sound`.
- Tamper evidence is not modelled: a token with one character flipped is refused only with overwhelming probability, and that rests on the cryptography.
- The model's claims always carry `user_id`, `email` and an integer `exp`. A token that someone else signed with the same SECRET_KEY could lack `exp`, and PyJWT would then skip the expiry check. Such tokens are not modelled.
- The UTF-8 `encode()` and `decode()` around the Fernet layer are folded into `decrypt`. A decoding failure there is one more exception that becomes `(False, None)`.
- The wall clock and time zones are reduced to one integer clock in UTC seconds. The only effect of the naive local time is the finding below.
- The distribution and quality of `random.choices` are not modelled. Only the OTP's shape is. That two OTPs differ with high probability is therefore not stated.
- The timing behaviour of the `==` OTP comparison (accounts/utils.py:75) cannot be expressed in the model.
- `send_welcome_email` and `send_otp_email` (accounts/utils.py:37-52, 83-91) are email I/O and are not modelled.
- PasswordValidator.IsStrongPassword: `\d` is modelled as ASCII '0'-'9' only. Python 3 also matches every other Unicode decimal digit (Arabic-Indic, Devanagari, ...). So the model refuses some passwords the source accepts, such as "Passwor٣d". The Unicode character database is not part of this model.
- HexColorValidator.AcceptedWithinMaxLength: the serializer's own whitespace trimming, applied before the validator runs, is not modelled. Only the bare validator and the length limit are.
- `Profile`'s phone number, bio and picture fields are not modelled. They play no part in the display name.
- The views, URL configuration, serializers and task models are not modelled. They are HTTP handlers, ORM queries and declarative framework configuration with no logic of their own.

## Findings

| source | as written | input that shows it | evidently intended | confidence | as-written member | corrected member |
|---|---|---|---|---|---|---|
| accounts/utils.py:62 | `exp` is `datetime.now() + 5 minutes`. `datetime.now()` is naive local time, and PyJWT converts a naive datetime as if it were UTC. | On a server whose local time is UTC-5, a token issued at UTC second t gets `exp = t - 18000 + 300`. That is before t, so the token is refused at once, even with the right OTP. | A reset token valid for five minutes after issue, whatever the server's time zone. | medium: not executed; it applies only when the deployment's local time is not UTC | AccountTokens.ResetTokenBornExpiredAsWritten | AccountTokens.ResetTokenOtpCheck |
