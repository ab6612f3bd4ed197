/** The account life cycle of services/authService.ts: a one-time code is
    issued and stored, a user signs up, a user logs in with a code (each
    wrong code counts against it, a right one is used up), and the refresh
    token issued at login is exchanged for access tokens until it expires
    or the user logs out. The random draws, the digest and the clock are
    parameters. */
module AuthService {
  import opened Common
  import opened Accounts
  import opened Otp
  import opened Validation

  const LoginKind := "LOGIN"

  /** The answer to sendOTP. */
  datatype OtpSent = OtpSent(message: string, expiresIn: nat)

  // ---------------------------------------------------------------------
  // sendOTP

  /** The checks of sendOTP, in its order. */
  function SendOtpRefusal(email: Option<string>, phone: Option<string>): (e: Option<AppError>)
    ensures e.None? <==>
      && (Truthy(email) || Truthy(phone))
      && (Truthy(email) ==> IsValidEmail(email.value))
      && (Truthy(phone) ==> IsValidPhoneNumber(phone.value))
    ensures e.Some? ==> e.value.status == 400
  {
    if !Truthy(email) && !Truthy(phone) then Some(AppError(400, "Email or phone number required"))
    else if Truthy(email) && !IsValidEmail(email.value) then Some(AppError(400, "Invalid email format"))
    else if Truthy(phone) && !IsValidPhoneNumber(phone.value) then Some(AppError(400, "Invalid phone number format"))
    else None
  }

  /** The record sendOTP stores for a code. */
  function OtpRecord(email: Option<string>, phone: Option<string>, code: string, kind: string,
                     env: NodeEnv, sha: Digest, now: nat): (o: OtpCode)
    ensures VerifyOtp(env, code, o.code, sha)
    ensures o.attempts == 0 && !o.verified && o.expiresAt == OtpExpiration(now) && o.createdAt == now
  {
    OtpRoundTrip(env, code, code, sha);
    OtpCode(email, phone, HashOtp(env, code, sha), kind, OtpExpiration(now), 0, false, now)
  }

  /** The delivery failure sendOTP runs into, reported as a server error. */
  function SendFailure(env: NodeEnv, email: Option<string>): (e: Option<AppError>)
    ensures e.Some? <==> env == Production
  {
    var channel := if Truthy(email) then Email else Sms;
    match DeliveryError(env, channel)
    case None => None
    case Some(m) => Some(AppError(500, m))
  }

  /** sendOTP: a valid request stores a fresh record for the drawn code,
      and does so BEFORE delivery, so a production build stores the record
      and then fails. */
  method SendOtp(db: Database, email: Option<string>, phone: Option<string>, kind: Option<string>,
                 env: NodeEnv, draw: nat, sha: Digest, now: nat)
    returns (r: Result<OtpSent, AppError>)
    requires db.Valid()
    requires draw < OtpHigh - OtpLow
    modifies db
    ensures db.Valid()
    ensures SendOtpRefusal(email, phone).Some? ==>
      r == Err(SendOtpRefusal(email, phone).value) && db.Snapshot() == old(db.Snapshot())
    ensures SendOtpRefusal(email, phone).None? ==>
      var code := GenerateDevOtp(env, draw);
      var kind' := if kind.Some? then kind.value else LoginKind;
      && db.Snapshot() == old(db.Snapshot()).(otps := old(db.otps) + [OtpRecord(email, phone, code, kind', env, sha, now)])
      && (SendFailure(env, email).Some? ==> r == Err(SendFailure(env, email).value))
      && (SendFailure(env, email).None? ==> r == Ok(OtpSent("OTP sent successfully", OtpExpiryMinutes)))
  {
    var refusal := SendOtpRefusal(email, phone);
    if refusal.Some? {
      return Err(refusal.value);
    }
    var code := GenerateDevOtp(env, draw);
    var kind' := if kind.Some? then kind.value else LoginKind;
    db.otps := db.otps + [OtpRecord(email, phone, code, kind', env, sha, now)];
    var failure := SendFailure(env, email);
    if failure.Some? {
      return Err(failure.value);
    }
    r := Ok(OtpSent("OTP sent successfully", OtpExpiryMinutes));
  }

  // ---------------------------------------------------------------------
  // signup

  datatype SignupData = SignupData(
    email: Option<string>,
    phoneNumber: Option<string>,
    username: Option<string>,
    displayName: Option<string>,
    dateOfBirth: Option<Date>,
    password: Option<string>)

  /** The findFirst of signup: a user sharing the (truthy) email, the
      (truthy) phone number, or the username. */
  predicate Collides(u: User, d: SignupData)
    requires d.username.Some?
  {
    (Truthy(d.email) && u.email == d.email) || (Truthy(d.phoneNumber) && u.phoneNumber == d.phoneNumber)
    || u.username == d.username.value
  }

  /** The checks of signup, in its order. */
  function SignupRefusal(users: map<UserId, User>, d: SignupData, today: Date): (e: Option<AppError>)
    ensures e.None? <==>
      && Truthy(d.username) && d.dateOfBirth.Some? && (Truthy(d.email) || Truthy(d.phoneNumber))
      && IsValidUsername(d.username.value) && IsValidAge(today, d.dateOfBirth.value)
      && (forall u :: u in users ==> !Collides(users[u], d))
    ensures e.Some? ==> e.value.status == 400 || e.value.status == 409
  {
    if !Truthy(d.username) then Some(AppError(400, "Username is required"))
    else if d.dateOfBirth.None? then Some(AppError(400, "Date of birth is required"))
    else if !Truthy(d.email) && !Truthy(d.phoneNumber) then Some(AppError(400, "Email or phone number is required"))
    else if !IsValidUsername(d.username.value) then
      Some(AppError(400, "Invalid username format (3-20 characters, alphanumeric, underscore, hyphen)"))
    else if !IsValidAge(today, d.dateOfBirth.value) then Some(AppError(400, "You must be at least 18 years old to register"))
    else if exists u :: u in users && Collides(users[u], d) then
      Some(AppError(409, "User with this email, phone, or username already exists"))
    else None
  }

  /** The user signup creates: the display name falls back to the
      username; role, status and counters take the table's defaults. */
  function NewUser(id: UserId, d: SignupData): (u: User)
    requires d.username.Some? && d.dateOfBirth.Some?
    ensures u.id == id && u.username == d.username.value && u.email == d.email && u.phoneNumber == d.phoneNumber
    ensures u.displayName == if Truthy(d.displayName) then d.displayName.value else d.username.value
    ensures u.agencyId.None? && !u.isHost && u.diamonds == 0 && u.role == RoleUser
  {
    User(id, d.email, d.phoneNumber, d.username.value,
         if Truthy(d.displayName) then d.displayName.value else d.username.value,
         d.dateOfBirth.value, RoleUser, StatusActive, false, None, 0, 0, 0, false, false, None)
  }

  /** The tables after a signup: the new user and its empty wallet. */
  function SignedUp(t: Tables, id: UserId, d: SignupData): Tables
    requires d.username.Some? && d.dateOfBirth.Some?
  {
    t.(users := t.users[id := NewUser(id, d)], wallets := t.wallets[id := WalletRow(0, 0)])
  }

  /** A signup under an unused id keeps the tables consistent. */
  lemma {:induction false} SignupKeepsConsistent(t: Tables, id: UserId, d: SignupData)
    requires Consistent(t) && id !in t.users && d.username.Some? && d.dateOfBirth.Some?
    ensures Consistent(SignedUp(t, id, d))
  {
    var t' := SignedUp(t, id, d);
    forall a | a in t'.agencies ensures t'.agencies[a].totalHosts == |HostsOf(t'.users, a)| {
      HostsAfterUpdate(t.users, id, NewUser(id, d), a);
    }
    assert AgenciesKeyed(t'.users, t'.agencies);
  }

  /** No two users share a username, an email or a phone number. */
  ghost predicate ContactsUnique(users: map<UserId, User>) {
    forall a, b :: a in users && b in users && a != b ==>
      && users[a].username != users[b].username
      && (Truthy(users[a].email) ==> users[a].email != users[b].email)
      && (Truthy(users[a].phoneNumber) ==> users[a].phoneNumber != users[b].phoneNumber)
  }

  /** A signup the collision check let through keeps usernames, emails and
      phone numbers unique. */
  lemma SignupKeepsContactsUnique(t: Tables, id: UserId, d: SignupData, today: Date)
    requires ContactsUnique(t.users) && id !in t.users
    requires SignupRefusal(t.users, d, today).None?
    ensures ContactsUnique(SignedUp(t, id, d).users)
  {
    var users' := SignedUp(t, id, d).users;
    forall a, b | a in users' && b in users' && a != b
      ensures users'[a].username != users'[b].username
      ensures Truthy(users'[a].email) ==> users'[a].email != users'[b].email
      ensures Truthy(users'[a].phoneNumber) ==> users'[a].phoneNumber != users'[b].phoneNumber
    {
      if a == id {
        assert !Collides(t.users[b], d);
      } else if b == id {
        assert !Collides(t.users[a], d);
      }
    }
  }

  /** signup: a request that passes every check creates the user and an
      empty wallet under a fresh id. The password hash is not modelled. */
  method Signup(db: Database, d: SignupData, today: Date) returns (r: Result<User, AppError>)
    requires db.Valid()
    modifies db
    ensures db.Valid()
    ensures SignupRefusal(old(db.users), d, today).Some? ==>
      r == Err(SignupRefusal(old(db.users), d, today).value) && db.Snapshot() == old(db.Snapshot())
    ensures SignupRefusal(old(db.users), d, today).None? ==>
      && r.Ok? && r.value.id !in old(db.users)
      && r.value == NewUser(r.value.id, d)
      && db.Snapshot() == SignedUp(old(db.Snapshot()), r.value.id, d)
  {
    var refusal := SignupRefusal(db.users, d, today);
    if refusal.Some? {
      return Err(refusal.value);
    }
    var id := FreshId(db.users.Keys);
    SignupKeepsConsistent(db.Snapshot(), id, d);
    var after := SignedUp(db.Snapshot(), id, d);
    db.users, db.wallets := after.users, after.wallets;
    assert db.Snapshot() == after;
    r := Ok(NewUser(id, d));
  }

  // ---------------------------------------------------------------------
  // loginWithOTP

  /** The seven days a refresh token lives, in milliseconds. */
  const RefreshLifetime := 7 * 24 * 60 * 60 * 1000

  datatype LoginResult = LoginResult(user: User, accessToken: Claims, refreshToken: string)

  /** The request checks of loginWithOTP. */
  function LoginInputRefusal(email: Option<string>, phone: Option<string>, otp: Option<string>): (e: Option<AppError>)
    ensures e.None? <==> (Truthy(email) || Truthy(phone)) && Truthy(otp)
  {
    if !Truthy(email) && !Truthy(phone) then Some(AppError(400, "Email or phone number required"))
    else if !Truthy(otp) then Some(AppError(400, "OTP required"))
    else None
  }

  /** The user lookup: by email when one is given, by phone otherwise. */
  predicate FoundBy(u: User, email: Option<string>, phone: Option<string>) {
    if Truthy(email) then u.email == email else u.phoneNumber == phone
  }

  /** The account-status checks. */
  function StatusRefusal(u: User): (e: Option<AppError>)
    ensures e.None? <==> u.status != StatusSuspended && u.status != StatusBanned
  {
    if u.status == StatusSuspended then Some(AppError(403, "Account suspended"))
    else if u.status == StatusBanned then Some(AppError(403, "Account banned"))
    else None
  }

  /** An unused login code sent to the contact the user was found by. */
  predicate LoginCodeFor(o: OtpCode, email: Option<string>, phone: Option<string>) {
    o.kind == LoginKind && !o.verified && (if Truthy(email) then o.email == email else o.phoneNumber == phone)
  }

  /** The OTP lookup as the source writes it: an unused login code sent to
      the given email OR to the given phone, whoever the user is. */
  predicate LoginCodeAsWritten(o: OtpCode, email: Option<string>, phone: Option<string>) {
    o.kind == LoginKind && !o.verified
    && ((Truthy(email) && o.email == email) || (Truthy(phone) && o.phoneNumber == phone))
  }

  /** findFirst ordered by createdAt descending: the newest eligible
      record, the later one among records created at the same instant. */
  function Newest(otps: seq<OtpCode>, eligible: OtpCode -> bool): (i: Option<nat>)
    ensures i.Some? ==> i.value < |otps| && eligible(otps[i.value])
    ensures i.Some? ==> forall k :: 0 <= k < |otps| && eligible(otps[k]) ==> otps[k].createdAt <= otps[i.value].createdAt
    ensures i.None? <==> forall k :: 0 <= k < |otps| ==> !eligible(otps[k])
  {
    if otps == [] then None
    else
      var last := |otps| - 1;
      var earlier := Newest(otps[..last], eligible);
      assert forall k :: 0 <= k < last ==> otps[..last][k] == otps[k];
      if eligible(otps[last]) && (earlier.None? || otps[earlier.value].createdAt <= otps[last].createdAt) then Some(last)
      else earlier
  }

  /** The code the (corrected) login checks. */
  function LoginCode(otps: seq<OtpCode>, email: Option<string>, phone: Option<string>): (i: Option<nat>)
    ensures i.Some? ==> i.value < |otps| && LoginCodeFor(otps[i.value], email, phone)
  {
    Newest(otps, o => LoginCodeFor(o, email, phone))
  }

  /** The code the login as written checks. */
  function LoginCodeAsWrittenIndex(otps: seq<OtpCode>, email: Option<string>, phone: Option<string>): (i: Option<nat>)
    ensures i.Some? ==> i.value < |otps| && LoginCodeAsWritten(otps[i.value], email, phone)
  {
    Newest(otps, o => LoginCodeAsWritten(o, email, phone))
  }

  /** The checks on the record found: expiry, then the attempt budget. */
  function CodeRefusal(o: OtpCode, now: nat): (e: Option<AppError>)
    ensures e.None? <==> !IsOtpExpired(now, o.expiresAt) && o.attempts < MaxOtpAttempts
  {
    if IsOtpExpired(now, o.expiresAt) then Some(AppError(400, "OTP expired. Please request a new OTP"))
    else if IsMaxAttemptsExceeded(o.attempts) then Some(AppError(429, "Too many attempts. Please request a new OTP"))
    else None
  }

  /** The tables after a wrong code: that record's attempts go up by one. */
  function Attempted(t: Tables, i: nat): (t': Tables)
    requires i < |t.otps|
    ensures |t'.otps| == |t.otps| && t'.otps[i].attempts == t.otps[i].attempts + 1
    ensures forall k :: 0 <= k < |t.otps| && k != i ==> t'.otps[k] == t.otps[k]
    ensures t'.otps[i] == t.otps[i].(attempts := t'.otps[i].attempts)
    ensures t' == t.(otps := t'.otps)
  {
    t.(otps := t.otps[i := t.otps[i].(attempts := t.otps[i].attempts + 1)])
  }

  /** The user as a successful login leaves it: the contact used is marked
      verified and the login time recorded. */
  function AfterLogin(u: User, email: Option<string>, phone: Option<string>, now: nat): (u': User)
    ensures u'.id == u.id && u'.agencyId == u.agencyId && TokenClaims(u') == TokenClaims(u)
    ensures Truthy(email) ==> u'.emailVerified && u'.lastLoginAt == Some(now)
    ensures !Truthy(email) && Truthy(phone) ==> u'.phoneVerified && u'.lastLoginAt == Some(now)
  {
    if Truthy(email) then u.(emailVerified := true, lastLoginAt := Some(now))
    else if Truthy(phone) then u.(phoneVerified := true, lastLoginAt := Some(now))
    else u
  }

  /** The tables after a successful login: the record is used up, the user
      updated, and the refresh token's digest stored. */
  function LoggedIn(t: Tables, u: UserId, i: nat, email: Option<string>, phone: Option<string>,
                    row: RefreshTokenRow, now: nat): (t': Tables)
    requires u in t.users && i < |t.otps|
    ensures t'.otps == t.otps[i := t.otps[i].(verified := true)]
    ensures t'.refreshTokens == t.refreshTokens + [row]
    ensures t'.users == t.users[u := AfterLogin(t.users[u], email, phone, now)]
  {
    t.(otps := t.otps[i := t.otps[i].(verified := true)],
       users := t.users[u := AfterLogin(t.users[u], email, phone, now)],
       refreshTokens := t.refreshTokens + [row])
  }

  /** A login keeps the tables consistent: no user changes agency. */
  lemma {:induction false} LoginKeepsConsistent(t: Tables, u: UserId, i: nat, email: Option<string>, phone: Option<string>,
                                                row: RefreshTokenRow, now: nat)
    requires Consistent(t) && u in t.users && i < |t.otps|
    ensures Consistent(LoggedIn(t, u, i, email, phone, row, now))
  {
    var t' := LoggedIn(t, u, i, email, phone, row, now);
    HostsKept(t.users, t'.users, t.agencies, t'.agencies);
    assert AgenciesKeyed(t'.users, t'.agencies);
  }

  /** What login does once the user u has been found and the lookup has
      picked the record `found` (if any): the outcome, and the tables it
      leaves. */
  function LoginChecks(t: Tables, u: UserId, found: Option<nat>, email: Option<string>, phone: Option<string>,
                       otp: string, env: NodeEnv, sha: Digest, tokenValue: string, now: nat)
    : (Result<LoginResult, AppError>, Tables)
    requires u in t.users && (found.Some? ==> found.value < |t.otps|)
  {
    var user := t.users[u];
    if StatusRefusal(user).Some? then (Err(StatusRefusal(user).value), t)
    else match found
      case None => (Err(AppError(404, "No OTP found. Please request a new OTP")), t)
      case Some(i) =>
        if CodeRefusal(t.otps[i], now).Some? then (Err(CodeRefusal(t.otps[i], now).value), t)
        else if !VerifyOtp(env, otp, t.otps[i].code, sha) then (Err(AppError(400, "Invalid OTP")), Attempted(t, i))
        else
          var row := RefreshTokenRow(u, sha(tokenValue), now + RefreshLifetime);
          (Ok(LoginResult(user, TokenClaims(user), tokenValue)), LoggedIn(t, u, i, email, phone, row, now))
  }

  /** Login for the user u with the corrected lookup. */
  function LoginAs(t: Tables, u: UserId, email: Option<string>, phone: Option<string>, otp: string,
                   env: NodeEnv, sha: Digest, tokenValue: string, now: nat): (Result<LoginResult, AppError>, Tables)
    requires u in t.users
  {
    LoginChecks(t, u, LoginCode(t.otps, email, phone), email, phone, otp, env, sha, tokenValue, now)
  }

  /** Login for the user u with the lookup as written. */
  function LoginAsWritten(t: Tables, u: UserId, email: Option<string>, phone: Option<string>, otp: string,
                          env: NodeEnv, sha: Digest, tokenValue: string, now: nat): (Result<LoginResult, AppError>, Tables)
    requires u in t.users
  {
    LoginChecks(t, u, LoginCodeAsWrittenIndex(t.otps, email, phone), email, phone, otp, env, sha, tokenValue, now)
  }

  /** The steps of loginWithOTP after the user lookup. */
  method LoginFound(db: Database, u: UserId, email: Option<string>, phone: Option<string>, otp: string,
                    env: NodeEnv, sha: Digest, tokenValue: string, now: nat)
    returns (r: Result<LoginResult, AppError>)
    requires db.Valid() && u in db.users
    modifies db
    ensures db.Valid()
    ensures (r, db.Snapshot()) == LoginAs(old(db.Snapshot()), u, email, phone, otp, env, sha, tokenValue, now)
  {
    var user := db.users[u];
    var status := StatusRefusal(user);
    if status.Some? {
      return Err(status.value);
    }
    var found := LoginCode(db.otps, email, phone);
    if found.None? {
      return Err(AppError(404, "No OTP found. Please request a new OTP"));
    }
    var i := found.value;
    var refusal := CodeRefusal(db.otps[i], now);
    if refusal.Some? {
      return Err(refusal.value);
    }
    if !VerifyOtp(env, otp, db.otps[i].code, sha) {
      CountAttempt(db, i);
      return Err(AppError(400, "Invalid OTP"));
    }
    var row := RefreshTokenRow(u, sha(tokenValue), now + RefreshLifetime);
    RecordLogin(db, u, i, email, phone, row, now);
    r := Ok(LoginResult(user, TokenClaims(user), tokenValue));
  }

  /** A wrong code: the record's attempts go up by one. */
  method CountAttempt(db: Database, i: nat)
    requires db.Valid() && i < |db.otps|
    modifies db
    ensures db.Valid()
    ensures db.Snapshot() == Attempted(old(db.Snapshot()), i)
  {
    db.otps := db.otps[i := db.otps[i].(attempts := db.otps[i].attempts + 1)];
    assert db.Snapshot() == Attempted(old(db.Snapshot()), i);
  }

  /** A right code: the record is used up, the user updated and the
      refresh token stored. */
  method RecordLogin(db: Database, u: UserId, i: nat, email: Option<string>, phone: Option<string>,
                     row: RefreshTokenRow, now: nat)
    requires db.Valid() && u in db.users && i < |db.otps|
    modifies db
    ensures db.Valid()
    ensures db.Snapshot() == LoggedIn(old(db.Snapshot()), u, i, email, phone, row, now)
  {
    LoginKeepsConsistent(db.Snapshot(), u, i, email, phone, row, now);
    var after := LoggedIn(db.Snapshot(), u, i, email, phone, row, now);
    db.otps, db.users, db.refreshTokens := after.otps, after.users, after.refreshTokens;
    assert db.Snapshot() == after;
  }

  /** loginWithOTP: the request checks, then the user found by email (or by
      phone), then what LoginAs says for that user. Several users may
      share a contact; the model lets any of them be the one found. The
      code checked is the corrected lookup (see LoginCodeAsWritten). */
  method LoginWithOtp(db: Database, email: Option<string>, phone: Option<string>, otp: Option<string>,
                      env: NodeEnv, sha: Digest, tokenValue: string, now: nat)
    returns (r: Result<LoginResult, AppError>)
    requires db.Valid()
    modifies db
    ensures db.Valid()
    ensures LoginInputRefusal(email, phone, otp).Some? ==>
      r == Err(LoginInputRefusal(email, phone, otp).value) && db.Snapshot() == old(db.Snapshot())
    ensures LoginInputRefusal(email, phone, otp).None? && (forall u :: u in old(db.users) ==> !FoundBy(old(db.users)[u], email, phone)) ==>
      r == Err(AppError(404, "User not found")) && db.Snapshot() == old(db.Snapshot())
    ensures LoginInputRefusal(email, phone, otp).None? && (exists u :: u in old(db.users) && FoundBy(old(db.users)[u], email, phone)) ==>
      exists u :: u in old(db.users) && FoundBy(old(db.users)[u], email, phone)
        && (r, db.Snapshot()) == LoginAs(old(db.Snapshot()), u, email, phone, otp.value, env, sha, tokenValue, now)
  {
    var refusal := LoginInputRefusal(email, phone, otp);
    if refusal.Some? {
      return Err(refusal.value);
    }
    if forall u :: u in db.users ==> !FoundBy(db.users[u], email, phone) {
      return Err(AppError(404, "User not found"));
    }
    var u :| u in db.users && FoundBy(db.users[u], email, phone);
    r := LoginFound(db, u, email, phone, otp.value, env, sha, tokenValue, now);
  }

  /** A wrong code costs exactly one attempt on the record checked and
      changes nothing else; a right code uses the record up. */
  lemma LoginAttempts(t: Tables, u: UserId, email: Option<string>, phone: Option<string>, otp: string,
                      env: NodeEnv, sha: Digest, tokenValue: string, now: nat)
    requires u in t.users
    ensures var (r, t') := LoginAs(t, u, email, phone, otp, env, sha, tokenValue, now);
      && (r == Err(AppError(400, "Invalid OTP")) ==>
            var i := LoginCode(t.otps, email, phone).value;
            t' == t.(otps := t.otps[i := t.otps[i].(attempts := t.otps[i].attempts + 1)]))
      && (r.Ok? ==>
            var i := LoginCode(t.otps, email, phone).value;
            VerifyOtp(env, otp, t.otps[i].code, sha) && t'.otps[i].verified && !t.otps[i].verified
            && t'.refreshTokens == t.refreshTokens + [RefreshTokenRow(u, sha(tokenValue), now + RefreshLifetime)])
  {
  }

  /** After five wrong codes the record refuses every code, the right one
      included. */
  lemma {:induction false} LockedAfterFiveFailures(t: Tables, u: UserId, email: Option<string>, phone: Option<string>,
                                                   otp: string, env: NodeEnv, sha: Digest, tokenValue: string, now: nat)
    requires u in t.users && StatusRefusal(t.users[u]).None?
    requires LoginCode(t.otps, email, phone).Some?
    requires t.otps[LoginCode(t.otps, email, phone).value].attempts >= 5
    requires !IsOtpExpired(now, t.otps[LoginCode(t.otps, email, phone).value].expiresAt)
    ensures LoginAs(t, u, email, phone, otp, env, sha, tokenValue, now) ==
      (Err(AppError(429, "Too many attempts. Please request a new OTP")), t)
  {
  }

  /** A code just sent to an email logs its user in with that code, inside
      the ten minutes and while no record for that email is newer. */
  lemma {:induction false} SentCodeLogsIn(t: Tables, u: UserId, email: string, code: string,
                                          env: NodeEnv, sha: Digest, tokenValue: string, sent: nat, now: nat)
    requires u in t.users && StatusRefusal(t.users[u]).None? && email != ""
    requires forall k :: 0 <= k < |t.otps| ==> t.otps[k].createdAt <= sent
    requires sent <= now <= sent + 600000
    ensures var t1 := t.(otps := t.otps + [OtpRecord(Some(email), None, code, LoginKind, env, sha, sent)]);
      LoginAs(t1, u, Some(email), None, code, env, sha, tokenValue, now).0.Ok?
  {
    var rec := OtpRecord(Some(email), None, code, LoginKind, env, sha, sent);
    var t1 := t.(otps := t.otps + [rec]);
    assert LoginCodeFor(t1.otps[|t.otps|], Some(email), None);
    assert LoginCode(t1.otps, Some(email), None) == Some(|t.otps|);
  }

  /** As written, a code sent to the attacker's own phone logs the
      attacker in as whoever owns the email given beside it: the user is
      found by the email, the code by the phone. The corrected lookup
      finds no code for that email. */
  lemma LoginAsWrittenAcceptsAnotherContact(sha: Digest, tokenValue: string)
    ensures var victim := User("a", Some("a@x.io"), None, "alice", "alice", Date(1990, 1, 1), RoleUser,
                               StatusActive, false, None, 0, 0, 0, false, false, None);
      var attackerCode := OtpRecord(None, Some("+15550000000"), DevOtp, LoginKind, Development, sha, 0);
      var t := Tables(map["a" := victim], map[], map["a" := WalletRow(0, 0)], [], [], [], [], [attackerCode], []);
      && FoundBy(victim, Some("a@x.io"), Some("+15550000000"))
      && LoginAsWritten(t, "a", Some("a@x.io"), Some("+15550000000"), DevOtp, Development, sha, tokenValue, 0).0
           == Ok(LoginResult(victim, TokenClaims(victim), tokenValue))
      && LoginAs(t, "a", Some("a@x.io"), Some("+15550000000"), DevOtp, Development, sha, tokenValue, 0).0
           == Err(AppError(404, "No OTP found. Please request a new OTP"))
  {
    var attackerCode := OtpRecord(None, Some("+15550000000"), DevOtp, LoginKind, Development, sha, 0);
    assert LoginCodeAsWritten(attackerCode, Some("a@x.io"), Some("+15550000000"));
    assert !LoginCodeFor(attackerCode, Some("a@x.io"), Some("+15550000000"));
  }

  /** With the corrected lookup, a login succeeds only with a code that was
      sent to the very contact the user was found by. */
  lemma LoginUsesOwnContact(t: Tables, u: UserId, email: Option<string>, phone: Option<string>, otp: string,
                            env: NodeEnv, sha: Digest, tokenValue: string, now: nat)
    requires u in t.users && FoundBy(t.users[u], email, phone)
    requires LoginAs(t, u, email, phone, otp, env, sha, tokenValue, now).0.Ok?
    ensures var i := LoginCode(t.otps, email, phone).value;
      && VerifyOtp(env, otp, t.otps[i].code, sha)
      && (Truthy(email) ==> t.otps[i].email == t.users[u].email)
      && (!Truthy(email) ==> t.otps[i].phoneNumber == t.users[u].phoneNumber)
  {
  }

  // ---------------------------------------------------------------------
  // refreshAccessToken and logout

  datatype Refreshed = Refreshed(accessToken: Claims, user: User)

  /** findUnique on the stored digest. */
  function StoredToken(rows: seq<RefreshTokenRow>, hash: string): (i: Option<nat>)
    ensures i.Some? ==> i.value < |rows| && rows[i.value].tokenHash == hash
    ensures i.None? ==> forall k :: 0 <= k < |rows| ==> rows[k].tokenHash != hash
  {
    FirstIndex(rows, (row: RefreshTokenRow) => row.tokenHash == hash)
  }

  /** The outcome of exchanging a refresh token, by its digest: unknown, or
      expired (strictly after its expiry), or belonging to a user that is
      gone, is 401; otherwise fresh claims for the user. */
  function RefreshOutcome(t: Tables, token: string, sha: Digest, now: nat): (r: Result<Refreshed, AppError>)
    ensures r.Err? ==> r.error.status == 401
    ensures r.Ok? <==>
      var i := StoredToken(t.refreshTokens, sha(token));
      i.Some? && now <= t.refreshTokens[i.value].expiresAt && t.refreshTokens[i.value].userId in t.users
    ensures r.Ok? ==> r.value.accessToken == TokenClaims(r.value.user) && r.value.user in t.users.Values
  {
    match StoredToken(t.refreshTokens, sha(token))
    case None => Err(AppError(401, "Invalid refresh token"))
    case Some(i) =>
      var row := t.refreshTokens[i];
      if now > row.expiresAt then Err(AppError(401, "Refresh token expired"))
      else if row.userId !in t.users then Err(AppError(401, "Invalid refresh token"))
      else Ok(Refreshed(TokenClaims(t.users[row.userId]), t.users[row.userId]))
  }

  /** refreshAccessToken, corrected: the stored digest decides, and an
      expired row is deleted on the way out. */
  method RefreshAccessToken(db: Database, token: string, sha: Digest, now: nat) returns (r: Result<Refreshed, AppError>)
    requires db.Valid()
    modifies db
    ensures db.Valid()
    ensures r == RefreshOutcome(old(db.Snapshot()), token, sha, now)
    ensures r == Err(AppError(401, "Refresh token expired")) ==>
      var i := StoredToken(old(db.refreshTokens), sha(token)).value;
      db.Snapshot() == old(db.Snapshot()).(refreshTokens := old(db.refreshTokens[..i] + db.refreshTokens[i + 1..]))
    ensures r != Err(AppError(401, "Refresh token expired")) ==> db.Snapshot() == old(db.Snapshot())
  {
    var found := StoredToken(db.refreshTokens, sha(token));
    if found.None? {
      return Err(AppError(401, "Invalid refresh token"));
    }
    var i := found.value;
    var row := db.refreshTokens[i];
    if now > row.expiresAt {
      db.refreshTokens := db.refreshTokens[..i] + db.refreshTokens[i + 1..];
      return Err(AppError(401, "Refresh token expired"));
    }
    if row.userId !in db.users {
      return Err(AppError(401, "Invalid refresh token"));
    }
    r := Ok(Refreshed(TokenClaims(db.users[row.userId]), db.users[row.userId]));
  }

  /** What a JWT verifier accepts: only compact serialisations, which are
      dot-separated. */
  ghost predicate AcceptsOnlyDotted(verifyJwt: string -> bool) {
    forall s :: verifyJwt(s) ==> '.' in s
  }

  /** refreshAccessToken as written: the token is first checked as a signed
      JWT, and any failure there becomes 401 'Invalid refresh token'. */
  function RefreshAsWritten(t: Tables, token: string, verifyJwt: string -> bool, sha: Digest, now: nat)
    : (r: Result<Refreshed, AppError>)
    ensures !verifyJwt(token) ==> r == Err(AppError(401, "Invalid refresh token"))
  {
    if !verifyJwt(token) then Err(AppError(401, "Invalid refresh token"))
    else RefreshOutcome(t, token, sha, now)
  }

  predicate IsHexText(s: string) {
    forall k :: 0 <= k < |s| ==> ('0' <= s[k] <= '9') || ('a' <= s[k] <= 'f')
  }

  /** The refresh token login hands out is random bytes in hex, never a
      JWT, so as written every refresh fails, however fresh the token. */
  lemma RefreshAsWrittenRejectsIssuedTokens(t: Tables, token: string, verifyJwt: string -> bool, sha: Digest, now: nat)
    requires AcceptsOnlyDotted(verifyJwt) && IsHexText(token)
    ensures RefreshAsWritten(t, token, verifyJwt, sha, now) == Err(AppError(401, "Invalid refresh token"))
  {
    assert '.' !in token;
  }

  /** The corrected refresh honours the token a login issued, for its seven
      days, when no stored row already had its digest. */
  lemma {:induction false} LoginThenRefresh(t: Tables, u: UserId, i: nat, email: Option<string>, phone: Option<string>,
                                            tokenValue: string, sha: Digest, issued: nat, now: nat)
    requires u in t.users && i < |t.otps|
    requires StoredToken(t.refreshTokens, sha(tokenValue)).None?
    requires now <= issued + RefreshLifetime
    ensures var t' := LoggedIn(t, u, i, email, phone, RefreshTokenRow(u, sha(tokenValue), issued + RefreshLifetime), issued);
      RefreshOutcome(t', tokenValue, sha, now) == Ok(Refreshed(TokenClaims(t.users[u]), t'.users[u]))
  {
    var row := RefreshTokenRow(u, sha(tokenValue), issued + RefreshLifetime);
    var t' := LoggedIn(t, u, i, email, phone, row, issued);
    assert StoredToken(t'.refreshTokens, sha(tokenValue)) == Some(|t.refreshTokens|) by {
      assert t'.refreshTokens[|t.refreshTokens|] == row;
      assert forall k :: 0 <= k < |t.refreshTokens| ==> t'.refreshTokens[k] == t.refreshTokens[k];
    }
  }

  /** logout: every stored row with the token's digest is deleted. */
  function LoggedOut(rows: seq<RefreshTokenRow>, token: string, sha: Digest): (rows': seq<RefreshTokenRow>)
    ensures forall k :: 0 <= k < |rows'| ==> rows'[k].tokenHash != sha(token)
    ensures forall x :: x in rows' <==> x in rows && x.tokenHash != sha(token)
  {
    FilterMembers(rows, (row: RefreshTokenRow) => row.tokenHash != sha(token));
    Filter(rows, (row: RefreshTokenRow) => row.tokenHash != sha(token))
  }

  method Logout(db: Database, token: string, sha: Digest) returns (message: string)
    requires db.Valid()
    modifies db
    ensures db.Valid()
    ensures db.Snapshot() == old(db.Snapshot()).(refreshTokens := LoggedOut(old(db.refreshTokens), token, sha))
    ensures message == "Logged out successfully"
  {
    db.refreshTokens := LoggedOut(db.refreshTokens, token, sha);
    message := "Logged out successfully";
  }

  /** Once logged out, the token refreshes nothing. */
  lemma LogoutRevokes(t: Tables, token: string, sha: Digest, now: nat)
    ensures RefreshOutcome(t.(refreshTokens := LoggedOut(t.refreshTokens, token, sha)), token, sha, now)
      == Err(AppError(401, "Invalid refresh token"))
  {
  }
}
