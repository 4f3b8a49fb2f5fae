/** The account routes (server/src/routes/auth.routes.js): self-registration
    and login. Password hashing, the password comparison, the email-format
    check and token signing are opaque: the hash is an input, the comparison
    and the email check are function parameters, and a token is represented
    by the claims it is signed over. */
module AuthRoutes {
  import opened Common
  import opened Text
  import opened UserModel
  import AuthMiddleware

  /** The register body: `username` and `role` may be absent. */
  datatype RegisterBody = RegisterBody(
    name: string,
    username: Option<string>,
    email: string,
    password: string,
    role: Option<string>)

  /** What register and login answer: the token's claims and the public
      fields of the user. */
  datatype AuthReply = AuthReply(token: AuthMiddleware.Claims, id: UserId, role: Role, name: string, email: string)

  /** The role of a self-registration: "user" when absent, and only "user"
      or "doctor" are accepted. */
  function SelfRole(role: Option<string>): (r: Option<Role>)
    ensures r.Some? <==> role.None? || role.value == "user" || role.value == "doctor"
    ensures r.Some? ==> r.value != AdminRole
    ensures role.None? ==> r == Some(UserRole)
    ensures r.Some? && role.Some? ==> RoleName(r.value) == role.value
  {
    if role.None? || role.value == "user" then Some(UserRole)
    else if role.value == "doctor" then Some(DoctorRole)
    else None
  }

  /** The register schema; `isEmail` stands for the email-format check. */
  predicate RegisterBodyValid(b: RegisterBody, isEmail: string -> bool)
  {
    |b.name| >= 2 &&
    (b.username.None? || b.username.value == "" || 2 <= |b.username.value| <= 30) &&
    isEmail(b.email) && |b.password| >= 8 && SelfRole(b.role).Some?
  }

  /** `email.split("@")[0]`: the text before the first "@", or all of it. */
  function EmailLocalPart(email: string): (r: string)
    ensures r <= email && '@' !in r
    ensures r == email || email[|r|] == '@'
    decreases |email|
  {
    if email == [] || email[0] == '@' then []
    else [email[0]] + EmailLocalPart(email[1..])
  }

  /** The stored username: the given username when it is non-empty, else
      the local part of the email; the schema trims and lower-cases it. */
  function DeriveUsername(username: Option<string>, email: string): string
  {
    Lower(Trim(if username.Some? && username.value != "" then username.value else EmailLocalPart(email)))
  }

  /** The derived username is already in lower case, and one taken from the
      email has no "@". */
  lemma DeriveUsernameSpec(username: Option<string>, email: string)
    ensures Lower(DeriveUsername(username, email)) == DeriveUsername(username, email)
    ensures (username.None? || username.value == "") ==> '@' !in DeriveUsername(username, email)
  {
    var src := if username.Some? && username.value != "" then username.value else EmailLocalPart(email);
    var t := Trim(src);
    LowerIdempotent(t);
    if username.None? || username.value == "" {
      TrimInfix(src);
      forall i | 0 <= i < |t| ensures Lower(t)[i] != '@' {
        assert t[i] in t;
      }
    }
  }

  /** Trimming keeps a contiguous run of the characters. */
  lemma TrimInfix(s: string)
    ensures forall c :: c in Trim(s) ==> c in s
  {
    var t := TrimStart(s);
    forall c | c in Trim(s) ensures c in s {
      var i :| 0 <= i < |Trim(s)| && Trim(s)[i] == c;
      assert Trim(s)[i] == t[i];
      assert t[i] == s[|s| - |t| + i];
    }
  }

  /** The unique index on `email`: no two users share one. */
  predicate UniqueEmails(users: map<UserId, User>)
  {
    forall a, b :: a in users && b in users && users[a].email == users[b].email ==> a == b
  }

  /** `User.findOne({ email })`; the schema lower-cases the email of the
      query as it does the stored one. */
  predicate EmailTaken(users: map<UserId, User>, email: string)
  {
    exists id :: id in users && users[id].email == Lower(email)
  }

  const ValidationFailed: Error := Error(400, "Validation failed")
  const EmailRegistered: Error := Error(409, "Email already registered")
  const BadCredentials: Error := Error(401, "Invalid email or password")
  const PendingApproval: Error := Error(403, "Doctor account pending admin approval")
  const GeneralPhysician: string := "General Physician"

  /** The user a successful registration creates. */
  function RegisteredUser(id: UserId, b: RegisterBody, role: Role, passwordHash: string): (u: User)
    ensures u.id == id && u.role == role && u.email == Lower(b.email) && u.passwordHash == passwordHash
    ensures u.addresses == [] && u.dob.None? && u.phone == ""
  {
    User(id, role, Trim(b.name), DeriveUsername(b.username, b.email), Lower(b.email), passwordHash,
      "", None, [], UPI, Light)
  }

  function Reply(u: User): (r: AuthReply)
    ensures r.token.sub == u.id && r.token.role == RoleName(u.role) && r.id == u.id
  {
    AuthReply(AuthMiddleware.Claims(u.id, RoleName(u.role)), u.id, u.role, u.name, u.email)
  }

  /** POST `/register`: 400 on an invalid body, 409 when the email is
      taken; otherwise a new user and, for a doctor, an unapproved profile
      in "General Physician". `passwordHash` is the bcrypt hash of the
      password. */
  function Register(users: map<UserId, User>, nextId: UserId, profiles: map<UserId, DoctorProfile>,
                    b: RegisterBody, isEmail: string -> bool, passwordHash: string)
    : (r: (map<UserId, User>, UserId, map<UserId, DoctorProfile>, Result<AuthReply>))
    ensures !RegisterBodyValid(b, isEmail) ==> r == (users, nextId, profiles, Err(ValidationFailed))
    ensures RegisterBodyValid(b, isEmail) && EmailTaken(users, b.email) ==>
      r == (users, nextId, profiles, Err(EmailRegistered))
    ensures r.3.Ok? <==> RegisterBodyValid(b, isEmail) && !EmailTaken(users, b.email)
    ensures r.3.Ok? ==>
      var u := RegisteredUser(nextId, b, SelfRole(b.role).value, passwordHash);
      r.0 == users[nextId := u] && r.1 == nextId + 1 && r.3.value == Reply(u) &&
      r.2 == (if u.role == DoctorRole then profiles[nextId := NewProfile(nextId, GeneralPhysician)] else profiles)
  {
    if !RegisterBodyValid(b, isEmail) then (users, nextId, profiles, Err(ValidationFailed))
    else if EmailTaken(users, b.email) then (users, nextId, profiles, Err(EmailRegistered))
    else
      var u := RegisteredUser(nextId, b, SelfRole(b.role).value, passwordHash);
      var profiles' := if u.role == DoctorRole then profiles[nextId := NewProfile(nextId, GeneralPhysician)] else profiles;
      (users[nextId := u], nextId + 1, profiles', Ok(Reply(u)))
  }

  /** Registration keeps the email index unique. */
  lemma RegisterKeepsEmailsUnique(users: map<UserId, User>, nextId: UserId, profiles: map<UserId, DoctorProfile>,
                                  b: RegisterBody, isEmail: string -> bool, passwordHash: string)
    requires UniqueEmails(users)
    requires forall id :: id in users ==> id < nextId
    ensures UniqueEmails(Register(users, nextId, profiles, b, isEmail, passwordHash).0)
  {
    var r := Register(users, nextId, profiles, b, isEmail, passwordHash);
    if r.3.Ok? {
      assert !EmailTaken(users, b.email);
      assert forall id :: id in users ==> users[id].email != Lower(b.email);
    }
  }

  /** Registration keeps the stores' invariants and the email index unique,
      and never creates an admin. */
  lemma RegisterKeepsInvariants(users: map<UserId, User>, nextId: UserId, profiles: map<UserId, DoctorProfile>,
                                b: RegisterBody, isEmail: string -> bool, passwordHash: string)
    requires UniqueEmails(users)
    requires forall id :: id in users ==> users[id].id == id && id < nextId
    requires forall u :: u in profiles ==> profiles[u].user == u
    ensures var r := Register(users, nextId, profiles, b, isEmail, passwordHash);
      UniqueEmails(r.0) &&
      (forall id :: id in r.0 ==> r.0[id].id == id && id < r.1) &&
      (forall u :: u in r.2 ==> r.2[u].user == u) &&
      (r.3.Ok? ==> r.3.value.role != AdminRole)
  {
    RegisterKeepsEmailsUnique(users, nextId, profiles, b, isEmail, passwordHash);
  }

  /** A second registration with the same email (in any letter case) is
      refused with 409. */
  lemma RegisterTwiceConflicts(users: map<UserId, User>, nextId: UserId, profiles: map<UserId, DoctorProfile>,
                               b: RegisterBody, b2: RegisterBody, isEmail: string -> bool, h: string, h2: string)
    requires Register(users, nextId, profiles, b, isEmail, h).3.Ok?
    requires RegisterBodyValid(b2, isEmail) && Lower(b2.email) == Lower(b.email)
    ensures var r := Register(users, nextId, profiles, b, isEmail, h);
      Register(r.0, r.1, r.2, b2, isEmail, h2).3 == Err(EmailRegistered)
  {
    var r := Register(users, nextId, profiles, b, isEmail, h);
    assert nextId in r.0 && r.0[nextId].email == Lower(b2.email);
  }

  // ---------------------------------------------------------------------------
  // POST `/login`

  datatype LoginBody = LoginBody(email: string, password: string)

  predicate LoginBodyValid(b: LoginBody, isEmail: string -> bool)
  {
    isEmail(b.email) && |b.password| >= 1
  }

  /** The user holding an email, if any. */
  function FindByEmail(users: map<UserId, User>, email: string): (r: Option<UserId>)
    requires UniqueEmails(users)
    ensures r.Some? <==> EmailTaken(users, email)
    ensures r.Some? ==> r.value in users && users[r.value].email == Lower(email)
  {
    if EmailTaken(users, email) then
      var id :| id in users && users[id].email == Lower(email);
      Some(id)
    else None
  }

  /** POST `/login`: an unknown email and a wrong password give the same 401;
      a doctor whose profile exists and is not approved gets 403, and a
      doctor without a profile is let in. `matches(password, hash)` stands
      for the bcrypt comparison. */
  function Login(users: map<UserId, User>, profiles: map<UserId, DoctorProfile>, b: LoginBody,
                 isEmail: string -> bool, matches: (string, string) -> bool): (r: Result<AuthReply>)
    requires UniqueEmails(users)
    ensures !LoginBodyValid(b, isEmail) ==> r == Err(ValidationFailed)
    ensures LoginBodyValid(b, isEmail) && !EmailTaken(users, b.email) ==> r == Err(BadCredentials)
    ensures r.Ok? <==>
      LoginBodyValid(b, isEmail) && EmailTaken(users, b.email) &&
      var u := users[FindByEmail(users, b.email).value];
      matches(b.password, u.passwordHash) &&
      !(u.role == DoctorRole && u.id in profiles && !profiles[u.id].approved)
    ensures r.Ok? ==> r.value == Reply(users[FindByEmail(users, b.email).value])
    ensures r.Err? ==> r.error in {ValidationFailed, BadCredentials, PendingApproval}
  {
    if !LoginBodyValid(b, isEmail) then Err(ValidationFailed)
    else
      match FindByEmail(users, b.email)
      case None => Err(BadCredentials)
      case Some(id) =>
        var u := users[id];
        if !matches(b.password, u.passwordHash) then Err(BadCredentials)
        else if u.role == DoctorRole && u.id in profiles && !profiles[u.id].approved then Err(PendingApproval)
        else Ok(Reply(u))
  }

  /** Whoever registers as a user can then log in with the same email and
      password, and gets a token for the new account. */
  lemma RegisterThenLogin(users: map<UserId, User>, nextId: UserId, profiles: map<UserId, DoctorProfile>,
                          b: RegisterBody, isEmail: string -> bool, passwordHash: string,
                          matches: (string, string) -> bool)
    requires UniqueEmails(users) && forall id :: id in users ==> users[id].id == id && id < nextId
    requires Register(users, nextId, profiles, b, isEmail, passwordHash).3.Ok?
    requires SelfRole(b.role) == Some(UserRole)
    requires matches(b.password, passwordHash)
    ensures var r := Register(users, nextId, profiles, b, isEmail, passwordHash);
      UniqueEmails(r.0) &&
      Login(r.0, r.2, LoginBody(b.email, b.password), isEmail, matches) == Ok(r.3.value)
  {
    var r := Register(users, nextId, profiles, b, isEmail, passwordHash);
    RegisterKeepsEmailsUnique(users, nextId, profiles, b, isEmail, passwordHash);
    assert r.0[nextId].email == Lower(b.email);
    assert FindByEmail(r.0, b.email) == Some(nextId);
  }

  /** A freshly registered doctor cannot log in until an admin approves the
      profile, even with the right password. */
  lemma RegisteredDoctorPending(users: map<UserId, User>, nextId: UserId, profiles: map<UserId, DoctorProfile>,
                                b: RegisterBody, isEmail: string -> bool, passwordHash: string,
                                matches: (string, string) -> bool)
    requires UniqueEmails(users) && forall id :: id in users ==> users[id].id == id && id < nextId
    requires Register(users, nextId, profiles, b, isEmail, passwordHash).3.Ok?
    requires SelfRole(b.role) == Some(DoctorRole)
    requires matches(b.password, passwordHash)
    ensures var r := Register(users, nextId, profiles, b, isEmail, passwordHash);
      UniqueEmails(r.0) &&
      Login(r.0, r.2, LoginBody(b.email, b.password), isEmail, matches) == Err(PendingApproval)
  {
    var r := Register(users, nextId, profiles, b, isEmail, passwordHash);
    RegisterKeepsEmailsUnique(users, nextId, profiles, b, isEmail, passwordHash);
    assert r.0[nextId].email == Lower(b.email);
    assert FindByEmail(r.0, b.email) == Some(nextId);
  }

  /** POST `/register` against the user and profile collections. */
  method RegisterHandler(users: UserStore, profiles: ProfileStore, b: RegisterBody, isEmail: string -> bool,
                         passwordHash: string)
    returns (res: Result<AuthReply>)
    requires users.Valid() && profiles.Valid() && UniqueEmails(users.users)
    modifies users, profiles
    ensures users.Valid() && profiles.Valid() && UniqueEmails(users.users)
    ensures (users.users, users.nextId, profiles.profiles, res) ==
      Register(old(users.users), old(users.nextId), old(profiles.profiles), b, isEmail, passwordHash)
  {
    RegisterKeepsInvariants(users.users, users.nextId, profiles.profiles, b, isEmail, passwordHash);
    if !RegisterBodyValid(b, isEmail) {
      return Err(ValidationFailed);
    }
    if EmailTaken(users.users, b.email) {
      return Err(EmailRegistered);
    }
    var role := SelfRole(b.role).value;
    var u := RegisteredUser(users.nextId, b, role, passwordHash);
    users.users := users.users[users.nextId := u];
    if role == DoctorRole {
      profiles.profiles := profiles.profiles[users.nextId := NewProfile(users.nextId, GeneralPhysician)];
    }
    users.nextId := users.nextId + 1;
    res := Ok(Reply(u));
  }
}
