// Users handler: the register, login, verify, resend, forgot-password and
// reset-password decision chains over the profile records, the profile view
// and update builder, and the handler's first-match route order.

module Users {
  import opened Common

  const DayMs: int := 24 * 3600000
  const HourMs: int := 3600000

  /**
   * A USER#{username}/PROFILE record. The secrets are optional because the
   * handlers `delete` them from the objects they return, and a Google
   * account has no password or verification code at all.
   */
  datatype User = User(
    userId: string, username: string, email: string,
    password: Option<string>,
    displayName: string, avatar: string, bio: string,
    banner: string, location: string, website: string,
    verified: bool,
    verificationCode: Option<string>, verificationExpiry: int,
    resetCode: Option<string>, resetExpiry: int,
    authProvider: string,
    karma: int, postKarma: int, commentKarma: int,
    postCount: int, commentCount: int, awardCount: int,
    cakeDay: int, status: string, createdAt: int, updatedAt: int)

  /** Profiles keyed by username (the partition key USER#{username}). */
  type Store = map<string, User>

  /** A status, its message, and the store after the request. */
  datatype Outcome = Outcome(status: nat, message: string, store: Store)

  // ---------------------------------------------------------------- register

  datatype RegisterRequest = RegisterRequest(
    username: Option<string>, email: Option<string>, password: Option<string>,
    displayName: Option<string>, avatar: Option<string>, bio: Option<string>)

  /** The record a successful registration writes; ids, hash and code are the SDK's answers. */
  function NewUser(req: RegisterRequest, userId: string, hashed: string, code: string, now: int): User
    requires Truthy(req.username) && Truthy(req.email)
  {
    var name := req.username.value;
    User(userId, name, req.email.value, Some(hashed),
         if Truthy(req.displayName) then req.displayName.value else name,
         OrElse(req.avatar, ""), OrElse(req.bio, ""), "", "", "",
         false, Some(code), now + DayMs, None, 0, "local",
         0, 0, 0, 0, 0, 0, now, "active", now, now)
  }

  /** A new local account is unverified, zeroed, named after its username by default, and expires its code a day later. */
  lemma NewUserDefaults(req: RegisterRequest, userId: string, hashed: string, code: string, now: int)
    requires Truthy(req.username) && Truthy(req.email)
    ensures var u := NewUser(req, userId, hashed, code, now);
      !u.verified && u.authProvider == "local"
      && u.karma == u.postKarma == u.commentKarma == u.postCount == u.commentCount == u.awardCount == 0
      && (!Truthy(req.displayName) ==> u.displayName == req.username.value)
      && u.verificationExpiry == now + 24 * 3600000
      && u.verificationCode == Some(code) && u.resetCode.None?
  {
  }

  /**
   * POST /users/register. `emailTaken` is whether the email scan returned
   * an item; the store is consulted only after the field checks.
   */
  function Register(req: RegisterRequest, s: Store, emailTaken: bool,
                    userId: string, hashed: string, code: string, now: int): (o: Outcome)
    ensures !(Truthy(req.username) && Truthy(req.email) && Truthy(req.password)) ==>
      o == Outcome(400, "username, email, and password required", s)
    ensures Truthy(req.username) && Truthy(req.email) && Truthy(req.password) && |req.password.value| < 8 ==>
      o == Outcome(400, "password must be at least 8 characters", s)
    ensures o.status == 409 <==>
      Truthy(req.username) && Truthy(req.email) && Truthy(req.password) && |req.password.value| >= 8
      && (req.username.value in s || emailTaken)
    ensures o.status != 201 ==> o.store == s
    ensures o.status == 201 <==>
      Truthy(req.username) && Truthy(req.email) && Truthy(req.password) && |req.password.value| >= 8
      && req.username.value !in s && !emailTaken
    ensures o.status == 201 ==> o.store == s[req.username.value := NewUser(req, userId, hashed, code, now)]
  {
    if !(Truthy(req.username) && Truthy(req.email) && Truthy(req.password)) then
      Outcome(400, "username, email, and password required", s)
    else if |req.password.value| < 8 then Outcome(400, "password must be at least 8 characters", s)
    else if req.username.value in s then Outcome(409, "username already exists", s)
    else if emailTaken then Outcome(409, "email already exists", s)
    else
      Outcome(201, "Registration successful! Please check your email to verify your account.",
              s[req.username.value := NewUser(req, userId, hashed, code, now)])
  }

  // ------------------------------------------------------------------- login

  /** The login response drops the password and the verification code, and nothing else. */
  function LoginView(u: User): (v: User)
    ensures v.password.None? && v.verificationCode.None?
    ensures v.resetCode == u.resetCode
    ensures v.(password := u.password, verificationCode := u.verificationCode) == u
  {
    u.(password := None, verificationCode := None)
  }

  /**
   * POST /users/login. `passwordMatches` is bcrypt's comparison of the
   * submitted password with the stored hash.
   */
  function Login(username: Option<string>, password: Option<string>, s: Store,
                 passwordMatches: bool): (r: Reply<User>)
    ensures !(Truthy(username) && Truthy(password)) ==> r == Failure(400, "username and password required")
    ensures r.Failure? && r.status == 401 <==>
      Truthy(username) && Truthy(password)
      && (username.value !in s
          || s[username.value].authProvider != "local" || !Truthy(s[username.value].password)
          || !passwordMatches)
    ensures r.Success? <==>
      Truthy(username) && Truthy(password) && username.value in s
      && s[username.value].authProvider == "local" && Truthy(s[username.value].password) && passwordMatches
    ensures r.Success? ==> r.value == LoginView(s[username.value])
  {
    if !(Truthy(username) && Truthy(password)) then Failure(400, "username and password required")
    else if username.value !in s then Failure(401, "invalid username or password")
    else
      var u := s[username.value];
      if u.authProvider != "local" || !Truthy(u.password) then
        Failure(401, "please use Google Sign-In for this account")
      else if !passwordMatches then Failure(401, "invalid username or password")
      else Success(LoginView(u))
  }

  /** An unknown user and a wrong password are indistinguishable to the caller. */
  lemma LoginHidesUnknownUser(username: string, password: string, s: Store, t: Store, matches: bool)
    requires username != "" && password != ""
    requires username !in s && username in t
    requires t[username].authProvider == "local" && Truthy(t[username].password)
    ensures Login(Some(username), Some(password), s, matches) == Login(Some(username), Some(password), t, false)
  {
  }

  /** As written, a successful login hands back the outstanding password-reset code. */
  lemma LoginLeaksResetCode(s: Store, username: string, password: string, code: string)
    requires username in s && username != "" && password != ""
    requires s[username].authProvider == "local" && Truthy(s[username].password)
    requires s[username].resetCode == Some(code)
    ensures var r := Login(Some(username), Some(password), s, true);
      r.Success? && r.value.resetCode == Some(code)
  {
  }

  /** Every secret removed, as the profile GET and the search do. */
  function PublicView(u: User): (v: User)
    ensures v.password.None? && v.verificationCode.None? && v.resetCode.None?
    ensures v.(password := u.password, verificationCode := u.verificationCode, resetCode := u.resetCode) == u
  {
    u.(password := None, verificationCode := None, resetCode := None)
  }

  /** The login with the reset code withheld too, as the other user responses do. */
  function LoginCorrected(username: Option<string>, password: Option<string>, s: Store,
                          passwordMatches: bool): (r: Reply<User>)
    ensures r.Success? ==> r.value.password.None? && r.value.verificationCode.None? && r.value.resetCode.None?
    ensures r.Success? <==> Login(username, password, s, passwordMatches).Success?
    ensures r.Failure? ==> r == Login(username, password, s, passwordMatches)
    ensures r.Success? ==> r.value == PublicView(s[username.value])
  {
    match Login(username, password, s, passwordMatches)
    case Failure(status, message) => Failure(status, message)
    case Success(u) => Success(u.(resetCode := None))
  }

  /**
   * What an email scan's first item stands for: a stored profile with that
   * email, or nothing when no profile has it. The email handlers take `hit`
   * as such a result. This is an idealisation: the scans apply `Limit: 1`
   * before the filter, so they can return nothing while a profile has the email.
   */
  predicate ScanHit(s: Store, email: string, hit: Option<User>) {
    match hit
    case Some(u) => u.username in s && s[u.username] == u && u.email == email
    case None => forall n :: n in s ==> s[n].email != email
  }

  // ------------------------------------------------------------------ verify

  /**
   * POST /users/verify. `hit` is the first user item the email scan
   * returned (`ScanHit`); the update is written back under its username.
   */
  function Verify(email: Option<string>, code: Option<string>, hit: Option<User>, s: Store, now: int): (o: Outcome)
    ensures !(Truthy(email) && Truthy(code)) ==> o == Outcome(400, "email and code required", s)
    ensures Truthy(email) && Truthy(code) && hit.None? ==> o == Outcome(404, "user not found", s)
    ensures Truthy(email) && Truthy(code) && hit.Some? && hit.value.verified ==>
      o == Outcome(400, "email already verified", s)
    ensures Truthy(email) && Truthy(code) && hit.Some? && !hit.value.verified
            && hit.value.verificationCode != Some(ToUpper(code.value)) ==>
      o == Outcome(400, "invalid verification code", s)
    ensures o.status == 200 <==>
      Truthy(email) && Truthy(code) && hit.Some? && !hit.value.verified
      && hit.value.verificationCode == Some(ToUpper(code.value))
      && hit.value.verificationExpiry >= now
    ensures o.status != 200 ==> o.store == s
    ensures o.status == 200 ==>
      o.store == s[hit.value.username := hit.value.(verified := true, verificationCode := Some(""), updatedAt := now)]
  {
    if !(Truthy(email) && Truthy(code)) then Outcome(400, "email and code required", s)
    else if hit.None? then Outcome(404, "user not found", s)
    else
      var u := hit.value;
      if u.verified then Outcome(400, "email already verified", s)
      else if u.verificationCode != Some(ToUpper(code.value)) then Outcome(400, "invalid verification code", s)
      else if u.verificationExpiry < now then Outcome(400, "verification code expired", s)
      else
        Outcome(200, "email verified successfully",
                s[u.username := u.(verified := true, verificationCode := Some(""), updatedAt := now)])
  }

  /** A code is good once: verifying the stored record again reports "already verified". */
  lemma VerifyOnce(email: string, code: string, u: User, s: Store, now: int, code2: string, later: int)
    requires email != "" && code != "" && code2 != ""
    requires Verify(Some(email), Some(code), Some(u), s, now).status == 200
    ensures var s' := Verify(Some(email), Some(code), Some(u), s, now).store;
      u.username in s'
      && (ScanHit(s, email, Some(u)) ==> ScanHit(s', email, Some(s'[u.username])))
      && Verify(Some(email), Some(code2), Some(s'[u.username]), s', later) == Outcome(400, "email already verified", s')
  {
  }

  /** POST /users/resend-verification: a fresh code valid for a day, unless already verified. */
  function Resend(email: Option<string>, hit: Option<User>, s: Store, code: string, now: int): (o: Outcome)
    ensures !Truthy(email) ==> o == Outcome(400, "email required", s)
    ensures Truthy(email) && hit.None? ==> o == Outcome(404, "user not found", s)
    ensures o.status == 200 <==> Truthy(email) && hit.Some? && !hit.value.verified
    ensures o.status != 200 ==> o.store == s
    ensures o.status == 200 ==>
      o.store == s[hit.value.username := hit.value.(verificationCode := Some(code),
                                                   verificationExpiry := now + 24 * 3600000, updatedAt := now)]
  {
    if !Truthy(email) then Outcome(400, "email required", s)
    else if hit.None? then Outcome(404, "user not found", s)
    else
      var u := hit.value;
      if u.verified then Outcome(400, "email already verified", s)
      else
        Outcome(200, "verification email sent",
                s[u.username := u.(verificationCode := Some(code), verificationExpiry := now + DayMs, updatedAt := now)])
  }

  // ---------------------------------------------------------------- passwords

  /** POST /users/forgot-password: a one-hour reset code for a local account. */
  function Forgot(email: Option<string>, hit: Option<User>, s: Store, code: string, now: int): (o: Outcome)
    ensures !Truthy(email) ==> o == Outcome(400, "email required", s)
    ensures Truthy(email) && hit.None? ==> o == Outcome(200, "if email exists, reset code sent", s)
    ensures Truthy(email) && hit.Some? && hit.value.authProvider != "local" ==>
      o == Outcome(400, "please use Google Sign-In for this account", s)
    ensures Truthy(email) && hit.Some? && hit.value.authProvider == "local" ==>
      o == Outcome(200, "if email exists, reset code sent",
                   s[hit.value.username := hit.value.(resetCode := Some(code), resetExpiry := now + 3600000,
                                                      updatedAt := now)])
  {
    if !Truthy(email) then Outcome(400, "email required", s)
    else if hit.None? then Outcome(200, "if email exists, reset code sent", s)
    else
      var u := hit.value;
      if u.authProvider != "local" then Outcome(400, "please use Google Sign-In for this account", s)
      else
        Outcome(200, "if email exists, reset code sent",
                s[u.username := u.(resetCode := Some(code), resetExpiry := now + HourMs, updatedAt := now)])
  }

  /** An unknown email and a local account get the same status and message. */
  lemma ForgotHidesUnknownEmail(email: string, u: User, s: Store, t: Store, code: string, now: int)
    requires email != "" && u.authProvider == "local"
    ensures var a := Forgot(Some(email), None, s, code, now);
      var b := Forgot(Some(email), Some(u), t, code, now);
      a.status == b.status == 200 && a.message == b.message
  {
  }

  /** POST /users/reset-password. `hashed` is bcrypt's hash of the new password. */
  function Reset(email: Option<string>, code: Option<string>, newPassword: Option<string>,
                 hit: Option<User>, s: Store, hashed: string, now: int): (o: Outcome)
    ensures !(Truthy(email) && Truthy(code) && Truthy(newPassword)) ==>
      o == Outcome(400, "email, code, and newPassword required", s)
    ensures Truthy(email) && Truthy(code) && Truthy(newPassword) && |newPassword.value| < 8 ==>
      o == Outcome(400, "password must be at least 8 characters", s)
    ensures Truthy(email) && Truthy(code) && Truthy(newPassword) && |newPassword.value| >= 8 && hit.Some?
            && (!Truthy(hit.value.resetCode) || hit.value.resetCode.value != ToUpper(code.value)) ==>
      o == Outcome(400, "invalid reset code", s)
    ensures o.status == 200 <==>
      Truthy(email) && Truthy(code) && Truthy(newPassword) && |newPassword.value| >= 8 && hit.Some?
      && Truthy(hit.value.resetCode) && hit.value.resetCode.value == ToUpper(code.value)
      && hit.value.resetExpiry >= now
    ensures o.status != 200 ==> o.store == s
    ensures o.status == 200 ==>
      o.store == s[hit.value.username := hit.value.(password := Some(hashed), resetCode := Some(""), updatedAt := now)]
  {
    if !(Truthy(email) && Truthy(code) && Truthy(newPassword)) then
      Outcome(400, "email, code, and newPassword required", s)
    else if |newPassword.value| < 8 then Outcome(400, "password must be at least 8 characters", s)
    else if hit.None? then Outcome(404, "user not found", s)
    else
      var u := hit.value;
      if !Truthy(u.resetCode) || u.resetCode.value != ToUpper(code.value) then Outcome(400, "invalid reset code", s)
      else if u.resetExpiry < now then Outcome(400, "reset code expired", s)
      else
        Outcome(200, "password reset successfully",
                s[u.username := u.(password := Some(hashed), resetCode := Some(""), updatedAt := now)])
  }

  /** A reset code is single-use: replaying it against the stored record fails. */
  lemma ResetOnce(email: string, code: string, pw: string, u: User, s: Store, hashed: string, now: int,
                  code2: string, pw2: string, hashed2: string, later: int)
    requires email != "" && code2 != "" && |pw2| >= 8
    requires Reset(Some(email), Some(code), Some(pw), Some(u), s, hashed, now).status == 200
    ensures var s' := Reset(Some(email), Some(code), Some(pw), Some(u), s, hashed, now).store;
      u.username in s'
      && (ScanHit(s, email, Some(u)) ==> ScanHit(s', email, Some(s'[u.username])))
      && Reset(Some(email), Some(code2), Some(pw2), Some(s'[u.username]), s', hashed2, later)
         == Outcome(400, "invalid reset code", s')
  {
  }

  // ----------------------------------------------------------------- profile

  /** GET /users/{username}: the stored profile with its secrets removed. */
  function GetProfile(username: string, s: Store): (r: Reply<User>)
    ensures username !in s ==> r == Failure(404, "user not found")
    ensures username in s ==> r.Success? && r.value == PublicView(s[username])
  {
    if username !in s then Failure(404, "user not found") else Success(PublicView(s[username]))
  }

  /** The profile attributes PUT /users/{username} may set. */
  datatype ProfileField = UpdatedAt | DisplayName | Bio | Avatar | Banner | Location | Website

  /** The SET clause each field contributes to the update expression. */
  function Clause(f: ProfileField): string {
    match f
    case UpdatedAt => "updatedAt = :now"
    case DisplayName => "displayName = :display"
    case Bio => "bio = :bio"
    case Avatar => "avatar = :avatar"
    case Banner => "banner = :banner"
    case Location => "location = :location"
    case Website => "website = :website"
  }

  /** One `if (x) updates.push(…)`: the field is appended when it is given. */
  function PushIf(updates: seq<ProfileField>, given: bool, f: ProfileField): seq<ProfileField> {
    if given then updates + [f] else updates
  }

  /** A value bound to a placeholder: submitted text, or the request time bound to `:now`. */
  datatype Bound = Text(s: string) | Time(ms: int)

  /** One `if (x) values[…] = x`. */
  function PutIf(values: map<ProfileField, Bound>, given: bool, f: ProfileField, x: Option<string>)
    : map<ProfileField, Bound>
    requires given ==> x.Some?
  {
    if given then values[f := Text(x.value)] else values
  }

  /**
   * The SET clauses of PUT /users/{username}: updatedAt always, bio
   * whenever it is defined, the other fields only when truthy.
   */
  function ProfileClauses(displayName: Option<string>, bio: Option<string>, avatar: Option<string>,
                          banner: Option<string>, location: Option<string>, website: Option<string>)
    : seq<ProfileField>
  {
    var u1 := PushIf([UpdatedAt], Truthy(displayName), DisplayName);
    var u2 := PushIf(u1, bio.Some?, Bio);
    var u3 := PushIf(u2, Truthy(avatar), Avatar);
    var u4 := PushIf(u3, Truthy(banner), Banner);
    var u5 := PushIf(u4, Truthy(location), Location);
    PushIf(u5, Truthy(website), Website)
  }

  /** The value map the handler builds alongside the clauses, starting from `{ ":now": now }`. */
  function ProfileValues(displayName: Option<string>, bio: Option<string>, avatar: Option<string>,
                         banner: Option<string>, location: Option<string>, website: Option<string>, now: int)
    : map<ProfileField, Bound>
  {
    var v1 := PutIf(map[UpdatedAt := Time(now)], Truthy(displayName), DisplayName, displayName);
    var v2 := PutIf(v1, bio.Some?, Bio, bio);
    var v3 := PutIf(v2, Truthy(avatar), Avatar, avatar);
    var v4 := PutIf(v3, Truthy(banner), Banner, banner);
    var v5 := PutIf(v4, Truthy(location), Location, location);
    PutIf(v5, Truthy(website), Website, website)
  }

  /** Appending one field when it is given adds exactly that field. */
  lemma PushIfMembers(u: seq<ProfileField>, given: bool, g: ProfileField, f: ProfileField)
    ensures f in PushIf(u, given, g) <==> f in u || (given && f == g)
  {
  }

  /** updatedAt leads the clauses; bio has a clause whenever it is defined, every other field only when truthy. */
  lemma ProfileClauseFields(displayName: Option<string>, bio: Option<string>, avatar: Option<string>,
                            banner: Option<string>, location: Option<string>, website: Option<string>)
    ensures var updates := ProfileClauses(displayName, bio, avatar, banner, location, website);
      |updates| >= 1 && updates[0] == UpdatedAt
      && (DisplayName in updates <==> Truthy(displayName))
      && (Bio in updates <==> bio.Some?)
      && (Avatar in updates <==> Truthy(avatar))
      && (Banner in updates <==> Truthy(banner))
      && (Location in updates <==> Truthy(location))
      && (Website in updates <==> Truthy(website))
  {
    var u0 := [UpdatedAt];
    var u1 := PushIf(u0, Truthy(displayName), DisplayName);
    var u2 := PushIf(u1, bio.Some?, Bio);
    var u3 := PushIf(u2, Truthy(avatar), Avatar);
    var u4 := PushIf(u3, Truthy(banner), Banner);
    var u5 := PushIf(u4, Truthy(location), Location);
    var u6 := PushIf(u5, Truthy(website), Website);
    assert u6 == ProfileClauses(displayName, bio, avatar, banner, location, website);
    forall f | f != UpdatedAt
      ensures f in u6 <==>
        ((f == DisplayName && Truthy(displayName)) || (f == Bio && bio.Some?)
         || (f == Avatar && Truthy(avatar)) || (f == Banner && Truthy(banner))
         || (f == Location && Truthy(location)) || (f == Website && Truthy(website)))
    {
      PushIfMembers(u0, Truthy(displayName), DisplayName, f);
      PushIfMembers(u1, bio.Some?, Bio, f);
      PushIfMembers(u2, Truthy(avatar), Avatar, f);
      PushIfMembers(u3, Truthy(banner), Banner, f);
      PushIfMembers(u4, Truthy(location), Location, f);
      PushIfMembers(u5, Truthy(website), Website, f);
    }
  }

  /**
   * `:now` is always bound to the request time; every other placeholder is
   * bound exactly when its clause is present, to the submitted text.
   */
  lemma ProfileValueFields(displayName: Option<string>, bio: Option<string>, avatar: Option<string>,
                           banner: Option<string>, location: Option<string>, website: Option<string>, now: int)
    ensures var values := ProfileValues(displayName, bio, avatar, banner, location, website, now);
      UpdatedAt in values && values[UpdatedAt] == Time(now)
      && (DisplayName in values <==> Truthy(displayName))
      && (Truthy(displayName) ==> values[DisplayName] == Text(displayName.value))
      && (Bio in values <==> bio.Some?)
      && (bio.Some? ==> values[Bio] == Text(bio.value))
      && (Avatar in values <==> Truthy(avatar))
      && (Truthy(avatar) ==> values[Avatar] == Text(avatar.value))
      && (Banner in values <==> Truthy(banner))
      && (Truthy(banner) ==> values[Banner] == Text(banner.value))
      && (Location in values <==> Truthy(location))
      && (Truthy(location) ==> values[Location] == Text(location.value))
      && (Website in values <==> Truthy(website))
      && (Truthy(website) ==> values[Website] == Text(website.value))
  {
  }

  /** The handler's `if (x) { updates.push(…); values[…] = x; }` step. */
  method Supply(updates: seq<ProfileField>, values: map<ProfileField, Bound>, given: bool,
                f: ProfileField, x: Option<string>)
    returns (updates': seq<ProfileField>, values': map<ProfileField, Bound>)
    requires given ==> x.Some?
    ensures updates' == PushIf(updates, given, f) && values' == PutIf(values, given, f, x)
  {
    updates', values' := updates, values;
    if given {
      updates' := updates' + [f];
      values' := values'[f := Text(x.value)];
    }
  }

  /** The handler's `updates.push` / `values[...] =` sequence for PUT /users/{username}. */
  method BuildProfileUpdate(displayName: Option<string>, bio: Option<string>, avatar: Option<string>,
                            banner: Option<string>, location: Option<string>, website: Option<string>, now: int)
    returns (updates: seq<ProfileField>, values: map<ProfileField, Bound>)
    ensures updates == ProfileClauses(displayName, bio, avatar, banner, location, website)
    ensures values == ProfileValues(displayName, bio, avatar, banner, location, website, now)
  {
    updates := [UpdatedAt];
    values := map[UpdatedAt := Time(now)];
    updates, values := Supply(updates, values, Truthy(displayName), DisplayName, displayName);
    updates, values := Supply(updates, values, bio.Some?, Bio, bio);
    updates, values := Supply(updates, values, Truthy(avatar), Avatar, avatar);
    updates, values := Supply(updates, values, Truthy(banner), Banner, banner);
    updates, values := Supply(updates, values, Truthy(location), Location, location);
    updates, values := Supply(updates, values, Truthy(website), Website, website);
  }

  /** `SET ${updates.join(", ")}`. */
  function UpdateExpression(updates: seq<ProfileField>): string {
    "SET " + Join(seq(|updates|, i requires 0 <= i < |updates| => Clause(updates[i])), ", ")
  }

  /** The text bound for a field, or the attribute's current value when none is. */
  function TextOr(values: map<ProfileField, Bound>, f: ProfileField, current: string): string {
    if f in values && values[f].Text? then values[f].s else current
  }

  /** What the store does with the update: each bound placeholder sets its attribute. */
  function ApplyProfile(u: User, values: map<ProfileField, Bound>): (v: User)
    ensures UpdatedAt in values && values[UpdatedAt].Time? ==> v.updatedAt == values[UpdatedAt].ms
    ensures v.displayName == (if DisplayName in values && values[DisplayName].Text?
                              then values[DisplayName].s else u.displayName)
    ensures v.bio == (if Bio in values && values[Bio].Text? then values[Bio].s else u.bio)
    ensures v.(updatedAt := u.updatedAt, displayName := u.displayName, bio := u.bio, avatar := u.avatar,
               banner := u.banner, location := u.location, website := u.website) == u
  {
    u.(updatedAt := if UpdatedAt in values && values[UpdatedAt].Time? then values[UpdatedAt].ms else u.updatedAt,
       displayName := TextOr(values, DisplayName, u.displayName),
       bio := TextOr(values, Bio, u.bio),
       avatar := TextOr(values, Avatar, u.avatar),
       banner := TextOr(values, Banner, u.banner),
       location := TextOr(values, Location, u.location),
       website := TextOr(values, Website, u.website))
  }

  /** Applying the built placeholder values replaces exactly the supplied fields. */
  lemma ApplySupplied(u: User, displayName: Option<string>, bio: Option<string>, avatar: Option<string>,
                      banner: Option<string>, location: Option<string>, website: Option<string>, now: int)
    ensures ApplyProfile(u, ProfileValues(displayName, bio, avatar, banner, location, website, now))
      == u.(updatedAt := now,
            displayName := if Truthy(displayName) then displayName.value else u.displayName,
            bio := if bio.Some? then bio.value else u.bio,
            avatar := if Truthy(avatar) then avatar.value else u.avatar,
            banner := if Truthy(banner) then banner.value else u.banner,
            location := if Truthy(location) then location.value else u.location,
            website := if Truthy(website) then website.value else u.website)
  {
    ProfileValueFields(displayName, bio, avatar, banner, location, website, now);
  }

  /**
   * The item an update without a condition starts from when no profile
   * exists: every attribute absent, each field holding its empty value.
   */
  const AbsentProfile: User := User("", "", "", None, "", "", "", "", "", "", false, None, 0, None, 0, "",
                            0, 0, 0, 0, 0, 0, 0, "", 0, 0)

  /**
   * PUT /users/{username}: the update carries no condition, so it succeeds
   * for every username, and an unknown one gets a new item holding only the
   * supplied fields.
   */
  method UpdateProfile(s: Store, username: string, displayName: Option<string>, bio: Option<string>,
                       avatar: Option<string>, banner: Option<string>, location: Option<string>,
                       website: Option<string>, now: int) returns (o: Outcome)
    ensures o.status == 200 && o.message == "profile updated"
    ensures o.store.Keys == s.Keys + {username}
    ensures var u := if username in s then s[username] else AbsentProfile;
      o.store == s[username := u.(
        updatedAt := now,
        displayName := if Truthy(displayName) then displayName.value else u.displayName,
        bio := if bio.Some? then bio.value else u.bio,
        avatar := if Truthy(avatar) then avatar.value else u.avatar,
        banner := if Truthy(banner) then banner.value else u.banner,
        location := if Truthy(location) then location.value else u.location,
        website := if Truthy(website) then website.value else u.website)]
  {
    var updates, values := BuildProfileUpdate(displayName, bio, avatar, banner, location, website, now);
    var u := if username in s then s[username] else AbsentProfile;
    ApplySupplied(u, displayName, bio, avatar, banner, location, website, now);
    o := Outcome(200, "profile updated", s[username := ApplyProfile(u, values)]);
  }

  // ---------------------------------------------------------------- dispatch

  datatype Request = Request(httpMethod: string, path: string, username: Option<string>)

  datatype Route =
    | Preflight | RegisterRoute | LoginRoute | GoogleAuthRoute | VerifyRoute | ResendRoute
    | ForgotRoute | ResetRoute | GetProfileRoute | UpdateProfileRoute | UpdatePreferencesRoute
    | GetPreferencesRoute | BlockRoute | UnblockRoute | KarmaRoute | AddTrophyRoute
    | TrophiesRoute | SearchRoute | BadRequest

  /** The handler's if-chain, first match wins. */
  function RouteOf(r: Request): Route {
    var m, path, named := r.httpMethod, r.path, Truthy(r.username);
    if m == "OPTIONS" then Preflight
    else if m == "POST" && path == "/users/register" then RegisterRoute
    else if m == "POST" && path == "/users/login" then LoginRoute
    else if m == "POST" && path == "/users/google-auth" then GoogleAuthRoute
    else if m == "POST" && path == "/users/verify" then VerifyRoute
    else if m == "POST" && path == "/users/resend-verification" then ResendRoute
    else if m == "POST" && path == "/users/forgot-password" then ForgotRoute
    else if m == "POST" && path == "/users/reset-password" then ResetRoute
    else if m == "GET" && named && Includes(path, "/users/") && !Includes(path, "/posts")
            && !Includes(path, "/comments") && !Includes(path, "/stats") then GetProfileRoute
    else if m == "PUT" && named then UpdateProfileRoute
    else if m == "PUT" && named && Includes(path, "/preferences") then UpdatePreferencesRoute
    else if m == "GET" && named && Includes(path, "/preferences") then GetPreferencesRoute
    else if m == "POST" && named && Includes(path, "/block") then BlockRoute
    else if m == "DELETE" && named && Includes(path, "/block") then UnblockRoute
    else if m == "GET" && named && Includes(path, "/karma") then KarmaRoute
    else if m == "POST" && named && Includes(path, "/trophies") then AddTrophyRoute
    else if m == "GET" && named && Includes(path, "/trophies") then TrophiesRoute
    else if m == "GET" && Includes(path, "/users/search") then SearchRoute
    else BadRequest
  }

  /** Every PUT naming a user is a profile update, so preferences are never written. */
  lemma PutIsProfileUpdate(r: Request)
    requires r.httpMethod == "PUT" && Truthy(r.username)
    ensures RouteOf(r) == UpdateProfileRoute
  {
  }

  /** GET /users/{u}/preferences, /karma and /trophies all land on the profile GET. */
  lemma SubresourceGetsShadowed(r: Request, u: string, sub: string)
    requires r.httpMethod == "GET" && r.username == Some(u) && u != ""
    requires sub in {"/preferences", "/karma", "/trophies"}
    requires r.path == "/users/" + u + sub
    requires !Includes(r.path, "/posts") && !Includes(r.path, "/comments") && !Includes(r.path, "/stats")
    ensures RouteOf(r) == GetProfileRoute
  {
    IncludesMiddle([], "/users/", u + sub);
    assert r.path == [] + "/users/" + (u + sub);
  }

  /** Preferences are never written; the other sub-resource GETs need a path outside /users/. */
  lemma DeadUserRoutes(r: Request)
    ensures RouteOf(r) !in {UpdatePreferencesRoute}
    ensures RouteOf(r) in {GetPreferencesRoute, KarmaRoute, TrophiesRoute} ==>
      !Includes(r.path, "/users/") || Includes(r.path, "/posts") || Includes(r.path, "/comments")
      || Includes(r.path, "/stats")
  {
  }

  /** The same chain with each sub-resource matched before the profile it sits under. */
  function RouteOfCorrected(r: Request): Route {
    var m, path, named := r.httpMethod, r.path, Truthy(r.username);
    if m == "OPTIONS" then Preflight
    else if m == "POST" && path == "/users/register" then RegisterRoute
    else if m == "POST" && path == "/users/login" then LoginRoute
    else if m == "POST" && path == "/users/google-auth" then GoogleAuthRoute
    else if m == "POST" && path == "/users/verify" then VerifyRoute
    else if m == "POST" && path == "/users/resend-verification" then ResendRoute
    else if m == "POST" && path == "/users/forgot-password" then ForgotRoute
    else if m == "POST" && path == "/users/reset-password" then ResetRoute
    else if m == "PUT" && named && Includes(path, "/preferences") then UpdatePreferencesRoute
    else if m == "GET" && named && Includes(path, "/preferences") then GetPreferencesRoute
    else if m == "GET" && named && Includes(path, "/karma") then KarmaRoute
    else if m == "GET" && named && Includes(path, "/trophies") then TrophiesRoute
    else if m == "GET" && named && Includes(path, "/users/") && !Includes(path, "/posts")
            && !Includes(path, "/comments") && !Includes(path, "/stats") then GetProfileRoute
    else if m == "PUT" && named then UpdateProfileRoute
    else if m == "POST" && named && Includes(path, "/block") then BlockRoute
    else if m == "DELETE" && named && Includes(path, "/block") then UnblockRoute
    else if m == "POST" && named && Includes(path, "/trophies") then AddTrophyRoute
    else if m == "GET" && Includes(path, "/users/search") then SearchRoute
    else BadRequest
  }

  /** Under the corrected order each sub-resource reaches its own branch. */
  lemma CorrectedUserRoutesReachable(r: Request)
    requires Truthy(r.username)
    ensures r.httpMethod == "PUT" && Includes(r.path, "/preferences") ==> RouteOfCorrected(r) == UpdatePreferencesRoute
    ensures r.httpMethod == "GET" && Includes(r.path, "/preferences") ==> RouteOfCorrected(r) == GetPreferencesRoute
    ensures r.httpMethod == "GET" && Includes(r.path, "/karma") && !Includes(r.path, "/preferences") ==>
      RouteOfCorrected(r) == KarmaRoute
    ensures (r.httpMethod == "GET" && Includes(r.path, "/trophies") && !Includes(r.path, "/preferences")
             && !Includes(r.path, "/karma")) ==> RouteOfCorrected(r) == TrophiesRoute
  {
  }

  /** Requests that name none of the moved sub-resources are routed as before. */
  lemma CorrectedUserAgrees(r: Request)
    requires !Includes(r.path, "/preferences") && !Includes(r.path, "/karma") && !Includes(r.path, "/trophies")
    ensures RouteOfCorrected(r) == RouteOf(r)
  {
  }
}
