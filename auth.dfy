/** The account lifecycle of src/services/auth.service.ts: registration,
    one-time-password verification, login, token refresh and OTP resend,
    over a user table keyed by (unique) e-mail and an OTP table. bcrypt and
    jwt are opaque functions passed in; the clock and `Math.random` are
    parameters. */
module Auth {
  import opened Wrappers
  import opened Text
  import opened Orders

  const SaltRounds := 10
  const OtpExpiryMinutes := 10
  const AccessTokenExpiry := "15m"
  const RefreshTokenExpiry := "7d"
  const DefaultJwtSecret := "supersecretkey"
  const DefaultJwtRefreshSecret := "supersecretrefreshkey"

  /** A row of the `users` table. The `role` handed to `User.create` is not a
      column of the model and is not stored. */
  datatype User = User(id: UserId, firstName: string, lastName: string, email: string,
                       passwordHash: string, verified: bool)

  /** A row of the `otps` table; `expiresAt` in milliseconds. */
  datatype OtpRecord = OtpRecord(email: string, otp: string, expiresAt: int)

  /** A mail handed to the e-mail service. */
  datatype OtpMail = OtpMail(to: string, otp: string)

  /** What jwt signs. */
  datatype Claims = AccessClaims(id: UserId, email: string) | RefreshClaims(id: UserId)
  datatype Tokens = Tokens(access: string, refresh: string)
  datatype Secrets = Secrets(access: string, refresh: string)

  /** `process.env.X || default`: an unset or empty variable gives the default. */
  function SecretsFrom(accessEnv: Option<string>, refreshEnv: Option<string>): (s: Secrets)
    ensures accessEnv.Some? && accessEnv.value != "" ==> s.access == accessEnv.value
    ensures (accessEnv.None? || accessEnv.value == "") ==> s.access == DefaultJwtSecret
    ensures refreshEnv.Some? && refreshEnv.value != "" ==> s.refresh == refreshEnv.value
    ensures (refreshEnv.None? || refreshEnv.value == "") ==> s.refresh == DefaultJwtRefreshSecret
  {
    Secrets(if accessEnv.Some? && accessEnv.value != "" then accessEnv.value else DefaultJwtSecret,
            if refreshEnv.Some? && refreshEnv.value != "" then refreshEnv.value else DefaultJwtRefreshSecret)
  }

  /** `generateTokens`: an access token over id and e-mail for 15 minutes and a
      refresh token over the id for 7 days, each with its own secret. */
  function IssueTokens(sign: (Claims, string, string) -> string, secrets: Secrets, user: User): Tokens {
    Tokens(sign(AccessClaims(user.id, user.email), secrets.access, AccessTokenExpiry),
           sign(RefreshClaims(user.id), secrets.refresh, RefreshTokenExpiry))
  }

  /** `Math.floor(100000 + Math.random() * 900000)` for a draw in [0, 1). */
  function OtpCode(random: real): (code: nat)
    requires 0.0 <= random < 1.0
    ensures 100000 <= code <= 999999
  {
    (100000.0 + random * 900000.0).Floor
  }

  /** The code as mailed: six decimal digits. */
  function OtpText(random: real): (otp: string)
    requires 0.0 <= random < 1.0
    ensures |otp| == 6 && IsDigits(otp)
    ensures DigitsValue(otp) == OtpCode(random)
  {
    SixDigits(OtpCode(random));
    NatToStringDigits(OtpCode(random));
    NatToString(OtpCode(random))
  }

  /** At most one OTP row per e-mail. */
  predicate OnePerEmail(otps: seq<OtpRecord>) {
    forall i, j :: 0 <= i < |otps| && 0 <= j < |otps| && otps[i].email == otps[j].email ==> i == j
  }

  /** `Otp.findOne({ email, otp, expiresAt > now })` finds a row. */
  predicate Accepts(otps: seq<OtpRecord>, email: string, code: string, now: int) {
    exists i :: 0 <= i < |otps| && otps[i].email == email && otps[i].otp == code && otps[i].expiresAt > now
  }

  /** `Otp.destroy({ where: { email } })`. */
  function WithoutEmail(otps: seq<OtpRecord>, email: string): (r: seq<OtpRecord>)
    ensures forall i :: 0 <= i < |r| ==> r[i].email != email && r[i] in otps
    ensures forall x :: x in otps && x.email != email ==> x in r
  {
    if otps == [] then []
    else (if otps[0].email == email then [] else [otps[0]]) + WithoutEmail(otps[1..], email)
  }

  lemma {:induction false} WithoutEmailOnePerEmail(otps: seq<OtpRecord>, email: string)
    requires OnePerEmail(otps)
    ensures OnePerEmail(WithoutEmail(otps, email))
  {
    if otps != [] {
      assert OnePerEmail(otps[1..]) by {
        forall i, j | 0 <= i < |otps[1..]| && 0 <= j < |otps[1..]| && otps[1..][i].email == otps[1..][j].email
          ensures i == j
        {
          assert otps[i + 1].email == otps[j + 1].email;
        }
      }
      WithoutEmailOnePerEmail(otps[1..], email);
      var rest := WithoutEmail(otps[1..], email);
      if otps[0].email != email {
        forall k | 0 <= k < |rest| ensures rest[k].email != otps[0].email {
          var m :| 0 <= m < |otps[1..]| && otps[1..][m] == rest[k];
          assert otps[m + 1] == rest[k];
        }
        var r := [otps[0]] + rest;
        assert r == WithoutEmail(otps, email);
        forall i, j | 0 <= i < |r| && 0 <= j < |r| && r[i].email == r[j].email ensures i == j {
          if i > 0 && j > 0 {
            assert rest[i - 1].email == rest[j - 1].email;
          }
        }
      }
    }
  }

  /** The OTP table after `generateAndSendOtp`: the e-mail's earlier rows
      destroyed, then the new row created. */
  function Reissued(otps: seq<OtpRecord>, email: string, otp: string, expiresAt: int): seq<OtpRecord> {
    WithoutEmail(otps, email) + [OtpRecord(email, otp, expiresAt)]
  }

  /** After a reissue exactly the new code is accepted for that e-mail, and
      only until it expires; other e-mails are unaffected; one row per e-mail
      is kept. */
  lemma ReissuedAcceptsOnlyNewCode(otps: seq<OtpRecord>, email: string, otp: string, expiresAt: int,
                                   email': string, code: string, now: int)
    ensures email' == email ==>
      (Accepts(Reissued(otps, email, otp, expiresAt), email', code, now) <==> code == otp && now < expiresAt)
    ensures email' != email ==>
      (Accepts(Reissued(otps, email, otp, expiresAt), email', code, now) <==> Accepts(otps, email', code, now))
    ensures OnePerEmail(otps) ==> OnePerEmail(Reissued(otps, email, otp, expiresAt))
  {
    var w := WithoutEmail(otps, email);
    var r := Reissued(otps, email, otp, expiresAt);
    if email' != email && Accepts(otps, email', code, now) {
      var i :| 0 <= i < |otps| && otps[i].email == email' && otps[i].otp == code && otps[i].expiresAt > now;
      assert otps[i] in w;
      var j :| 0 <= j < |w| && w[j] == otps[i];
      assert r[j] == otps[i];
    }
    if email' != email && Accepts(r, email', code, now) {
      var i :| 0 <= i < |r| && r[i].email == email' && r[i].otp == code && r[i].expiresAt > now;
      assert i < |w| && w[i] in otps;
      var j :| 0 <= j < |otps| && otps[j] == w[i];
    }
    if email' == email && code == otp && now < expiresAt {
      assert r[|w|] == OtpRecord(email, otp, expiresAt);
    }
    if OnePerEmail(otps) {
      WithoutEmailOnePerEmail(otps, email);
      forall i, j | 0 <= i < |r| && 0 <= j < |r| && r[i].email == r[j].email ensures i == j {
        if i < |w| && j < |w| {
          assert w[i].email == w[j].email;
        }
      }
    }
  }

  /** What Sequelize throws when a `where` clause holds an `undefined`
      value, as a missing request field does. */
  function UndefinedWhere(column: string): string {
    "WHERE parameter \"" + column + "\" has invalid \"undefined\" value"
  }

  /** The validation `User.create` runs before its insert: a `notNull`
      violation for each missing name, in column order, then the `isEmail`
      validator on the address. The password column is always filled, with
      the hash. */
  function UserViolations(firstName: Option<string>, lastName: Option<string>, email: string,
                          isEmail: string -> bool): (v: seq<string>)
    ensures v == [] <==> firstName.Some? && lastName.Some? && isEmail(email)
    ensures firstName.None? ==> v[0] == "notNull Violation: User.first_name cannot be null"
    ensures !isEmail(email) ==> v[|v| - 1] == "Validation error: Validation isEmail on email failed"
    ensures |v| <= 3
  {
    (if firstName.None? then ["notNull Violation: User.first_name cannot be null"] else [])
    + (if lastName.None? then ["notNull Violation: User.last_name cannot be null"] else [])
    + (if isEmail(email) then [] else ["Validation error: Validation isEmail on email failed"])
  }

  class AuthService {
    var users: map<string, User>
    var nextUserId: UserId
    var otps: seq<OtpRecord>
    var outbox: seq<OtpMail>

    /** E-mails are the keys of the user table (the column is unique), ids
        are distinct and below the next one, there is at most one OTP per
        e-mail and every stored code is six digits. */
    ghost predicate Valid()
      reads this
    {
      && (forall e :: e in users ==> users[e].email == e && users[e].id < nextUserId)
      && (forall e, e' :: e in users && e' in users && users[e].id == users[e'].id ==> e == e')
      && OnePerEmail(otps)
      && (forall i :: 0 <= i < |otps| ==> |otps[i].otp| == 6 && IsDigits(otps[i].otp))
    }

    constructor()
      ensures Valid() && users == map[] && otps == [] && outbox == []
    {
      users, nextUserId, otps, outbox := map[], 1, [], [];
    }

    /** `generateAndSendOtp`: a fresh six-digit code, valid ten minutes,
        replaces every earlier code for the e-mail and is mailed to it. */
    method GenerateAndSendOtp(email: string, now: int, random: real)
      requires Valid() && 0.0 <= random < 1.0
      modifies this`otps, this`outbox
      ensures Valid()
      ensures otps == Reissued(old(otps), email, OtpText(random), now + OtpExpiryMinutes * 60000)
      ensures outbox == old(outbox) + [OtpMail(email, OtpText(random))]
    {
      var otp := OtpText(random);
      var expiresAt := now + OtpExpiryMinutes * 60000;
      ReissuedAcceptsOnlyNewCode(otps, email, otp, expiresAt, email, otp, now);
      otps := WithoutEmail(otps, email);
      otps := otps + [OtpRecord(email, otp, expiresAt)];
      outbox := outbox + [OtpMail(email, otp)];
    }

    /** `User.create` once validated: a new unverified row under the next id. */
    method CreateUser(firstName: string, lastName: string, email: string, passwordHash: string)
      requires Valid() && email !in users
      modifies this`users, this`nextUserId
      ensures Valid()
      ensures users == old(users)[email := User(old(nextUserId), firstName, lastName, email, passwordHash, false)]
      ensures nextUserId == old(nextUserId) + 1
    {
      users := users[email := User(nextUserId, firstName, lastName, email, passwordHash, false)];
      nextUserId := nextUserId + 1;
    }

    /** `register`: an absent e-mail makes the lookup throw; a known e-mail
        is refused; an absent password makes bcrypt throw; a failed model
        validation throws Sequelize's joined message. Each of these changes
        nothing. Otherwise an unverified user is stored with the bcrypt hash
        of the password and an OTP is issued. */
    method Register(firstName: Option<string>, lastName: Option<string>, email: Option<string>,
                    password: Option<string>, isEmail: string -> bool,
                    hash: (string, int) -> string, now: int, random: real)
      returns (r: Result<string, string>)
      requires Valid() && 0.0 <= random < 1.0
      modifies this
      ensures Valid()
      ensures email.None? ==>
        r == Err(UndefinedWhere("email")) && unchanged(this)
      ensures email.Some? && old(email.value in users) ==>
        r == Err("User already exists") && unchanged(this)
      ensures email.Some? && old(email.value !in users) && password.None? ==>
        r == Err("data and salt arguments required") && unchanged(this)
      ensures email.Some? && old(email.value !in users) && password.Some?
              && UserViolations(firstName, lastName, email.value, isEmail) != [] ==>
        r == Err(Join(UserViolations(firstName, lastName, email.value, isEmail), ",\n")) && unchanged(this)
      ensures email.Some? && old(email.value !in users) && password.Some?
              && UserViolations(firstName, lastName, email.value, isEmail) == [] ==>
        && r == Ok("User registered. Please check your email for verification OTP.")
        && users == old(users)[email.value := User(old(nextUserId), firstName.value, lastName.value, email.value,
                                                   hash(password.value, SaltRounds), false)]
        && nextUserId == old(nextUserId) + 1
        && otps == Reissued(old(otps), email.value, OtpText(random), now + OtpExpiryMinutes * 60000)
        && outbox == old(outbox) + [OtpMail(email.value, OtpText(random))]
    {
      if email.None? {
        return Err(UndefinedWhere("email"));
      }
      if email.value in users {
        return Err("User already exists");
      }
      if password.None? {
        return Err("data and salt arguments required");
      }
      var violations := UserViolations(firstName, lastName, email.value, isEmail);
      if violations != [] {
        return Err(Join(violations, ",\n"));
      }
      CreateUser(firstName.value, lastName.value, email.value, hash(password.value, SaltRounds));
      GenerateAndSendOtp(email.value, now, random);
      r := Ok("User registered. Please check your email for verification OTP.");
    }

    /** `verifyOtp`: a missing e-mail or code makes the lookup throw; an
        unexpired matching code verifies the user and is deleted (it cannot
        be replayed); tokens are returned. */
    method VerifyOtp(email: Option<string>, code: Option<string>, now: int,
                     sign: (Claims, string, string) -> string, secrets: Secrets)
      returns (r: Result<Tokens, string>)
      requires Valid()
      modifies this`users, this`otps
      ensures Valid()
      ensures email.None? ==> r == Err(UndefinedWhere("email")) && unchanged(this)
      ensures email.Some? && code.None? ==> r == Err(UndefinedWhere("otp")) && unchanged(this)
      ensures email.Some? && code.Some? && !Accepts(old(otps), email.value, code.value, now) ==>
        r == Err("Invalid or expired OTP") && unchanged(this)
      ensures email.Some? && code.Some? && Accepts(old(otps), email.value, code.value, now)
              && email.value !in old(users) ==>
        r == Err("User not found") && unchanged(this)
      ensures email.Some? && code.Some? && Accepts(old(otps), email.value, code.value, now)
              && email.value in old(users) ==>
        && users == old(users)[email.value := old(users)[email.value].(verified := true)]
        && otps == WithoutEmail(old(otps), email.value)
        && r == Ok(IssueTokens(sign, secrets, users[email.value]))
        && !Accepts(otps, email.value, code.value, now)
    {
      if email.None? {
        return Err(UndefinedWhere("email"));
      }
      if code.None? {
        return Err(UndefinedWhere("otp"));
      }
      if !Accepts(otps, email.value, code.value, now) {
        return Err("Invalid or expired OTP");
      }
      if email.value !in users {
        return Err("User not found");
      }
      var user := users[email.value].(verified := true);
      users := users[email.value := user];
      WithoutEmailOnePerEmail(otps, email.value);
      otps := WithoutEmail(otps, email.value);
      r := Ok(IssueTokens(sign, secrets, user));
    }

    /** `login`: a missing e-mail makes the lookup throw; then unknown
        e-mail, unverified account, missing password (bcrypt throws) and
        wrong password, in that order. */
    function Login(email: Option<string>, password: Option<string>, compare: (string, string) -> bool,
                   sign: (Claims, string, string) -> string, secrets: Secrets): (r: Result<Tokens, string>)
      reads this
      ensures email.None? <==> r == Err(UndefinedWhere("email"))
      ensures r.Ok? <==>
        email.Some? && email.value in users && users[email.value].verified
        && password.Some? && compare(password.value, users[email.value].passwordHash)
      ensures r.Ok? ==> r.value == IssueTokens(sign, secrets, users[email.value])
      ensures r == Err("Account not verified. Please verify your email.") <==>
        email.Some? && email.value in users && !users[email.value].verified
      ensures r == Err("data and hash arguments required") <==>
        email.Some? && email.value in users && users[email.value].verified && password.None?
      ensures r == Err("Invalid credentials") <==>
        email.Some? && (email.value !in users
          || (users[email.value].verified && password.Some? && !compare(password.value, users[email.value].passwordHash)))
    {
      if email.None? then Err(UndefinedWhere("email"))
      else if email.value !in users then Err("Invalid credentials")
      else if !users[email.value].verified then Err("Account not verified. Please verify your email.")
      else if password.None? then Err("data and hash arguments required")
      else if !compare(password.value, users[email.value].passwordHash) then Err("Invalid credentials")
      else Ok(IssueTokens(sign, secrets, users[email.value]))
    }

    /** `refreshToken`: a token that verifies against the refresh secret and
        names an existing user yields new tokens for that user; every other
        case is "Invalid refresh token". */
    method RefreshToken(token: string, verify: (string, string) -> Option<int>,
                        sign: (Claims, string, string) -> string, secrets: Secrets)
      returns (r: Result<Tokens, string>)
      requires Valid()
      ensures r.Ok? <==>
        (verify(token, secrets.refresh).Some? &&
         exists e :: e in users && users[e].id == verify(token, secrets.refresh).value)
      ensures r.Ok? ==>
        exists e :: (e in users && users[e].id == verify(token, secrets.refresh).value &&
                     r.value == IssueTokens(sign, secrets, users[e]))
      ensures r.Err? ==> r == Err("Invalid refresh token")
    {
      var decoded := verify(token, secrets.refresh);
      if decoded.None? || !exists e :: e in users && users[e].id == decoded.value {
        return Err("Invalid refresh token");
      }
      var e :| e in users && users[e].id == decoded.value;
      r := Ok(IssueTokens(sign, secrets, users[e]));
    }

    /** `resendOtp`: a missing e-mail makes the lookup throw; otherwise only
        a known, still unverified e-mail gets a fresh code. */
    method ResendOtp(email: Option<string>, now: int, random: real) returns (r: Result<string, string>)
      requires Valid() && 0.0 <= random < 1.0
      modifies this`otps, this`outbox
      ensures Valid()
      ensures email.None? ==> r == Err(UndefinedWhere("email")) && unchanged(this)
      ensures email.Some? && email.value !in users ==> r == Err("User not found") && unchanged(this)
      ensures email.Some? && email.value in users && users[email.value].verified ==>
        r == Err("User already verified") && unchanged(this)
      ensures email.Some? && email.value in users && !users[email.value].verified ==>
        && r == Ok("OTP resent")
        && otps == Reissued(old(otps), email.value, OtpText(random), now + OtpExpiryMinutes * 60000)
        && outbox == old(outbox) + [OtpMail(email.value, OtpText(random))]
    {
      if email.None? {
        return Err(UndefinedWhere("email"));
      }
      if email.value !in users {
        return Err("User not found");
      }
      if users[email.value].verified {
        return Err("User already verified");
      }
      GenerateAndSendOtp(email.value, now, random);
      r := Ok("OTP resent");
    }
  }
}
