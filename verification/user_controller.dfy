/** The authentication handlers of controllers/user.js over a user
    collection keyed by id and the login limiter's counters. Sanitising,
    hashing, password comparison and the clock are parameters; `jwt.sign`
    is kept as the term it signs. */
module UserController {
  import opened Common
  import LoginLimiter
  import PasswordPolicy

  type UserId = nat

  /** A stored user: the (sanitised) email, the password hash and the name. */
  datatype User = User(email: string, password: string, name: string)

  type Users = map<UserId, User>

  /** The payload `{ email, id }` every issued token carries. */
  datatype Claims = Claims(email: string, id: UserId)

  /** `jwt.sign(claims, secret, { expiresIn: "1h" })`, as the term it signs. */
  datatype Token = Token(claims: Claims, secret: string, expiresInSeconds: nat)

  /** An error status with its message, or a success status with the user
      record (when the response carries one) and the issued token. */
  datatype Reply = Failure(status: nat, message: string) | Issued(status: nat, result: Option<User>, token: Token)

  /** `sanitizeHtml`, `bcrypt.hash(·, 12)` and `bcrypt.compare`. */
  datatype Libraries = Libraries(sanitize: string -> string, hash: string -> string,
                                 compare: (string, string) -> bool)

  datatype SignupBody = SignupBody(email: Option<string>, password: Option<string>,
                                   firstName: Option<string>, lastName: Option<string>)

  /** The `result` object of a Google login body. */
  datatype GoogleProfile = GoogleProfile(email: Option<string>, name: Option<string>)

  /** The new users and the reply of a handler that may create a user. */
  datatype StoreResult = StoreResult(reply: Reply, users: Users)

  /** The new limiter counters and the reply of `signin`. */
  datatype SigninResult = SigninResult(reply: Reply, attempts: LoginLimiter.Counters)

  const TokenLifetime: nat := 3600

  const MissingCredentials: string := "Missing email or password"
  const UserMissing: string := "User doesn't exist"
  const InvalidCredentials: string := "Invalid credentials"
  const SomethingWentWrong: string := "Something went wrong"
  const MissingFields: string := "Missing required fields"
  const UserExists: string := "User already exists"
  const WeakPassword: string := "Password must be at least 8 characters long and contain at least one lowercase letter, one uppercase letter, and one digit"
  const ServerError: string := "Server error"

  /** Every id in the collection was handed out before `bound`. */
  predicate IdsBelow(users: Users, bound: nat)
  {
    forall id :: id in users ==> id < bound
  }

  ghost predicate UniqueEmails(users: Users)
  {
    forall i, j :: i in users && j in users && users[i].email == users[j].email ==> i == j
  }

  ghost predicate EmailTaken(users: Users, email: string)
  {
    exists id :: id in users && users[id].email == email
  }

  /** `findOne({ email })`: the oldest user with this email among the ids
      below `bound`. */
  function FindOne(users: Users, email: string, bound: nat): (r: Option<UserId>)
    ensures r.Some? ==> r.value < bound && r.value in users && users[r.value].email == email
    ensures r.Some? ==> forall id :: id in users && id < r.value ==> users[id].email != email
    ensures r.None? ==> forall id :: id in users && id < bound ==> users[id].email != email
  {
    if bound == 0 then None
    else
      match FindOne(users, email, bound - 1)
      case Some(id) => Some(id)
      case None =>
        if bound - 1 in users && users[bound - 1].email == email then Some(bound - 1) else None
  }

  /** `jwt.sign` with the configured secret, which throws when the secret is
      unset or empty. */
  function Sign(email: string, id: UserId, secret: Option<string>): (token: Option<Token>)
    ensures token.None? <==> secret.None? || secret.value == ""
    ensures token.Some? ==>
      token.value.claims == Claims(email, id) && token.value.secret == secret.value &&
      token.value.expiresInSeconds == TokenLifetime
  {
    if Truthy(secret) then Some(Token(Claims(email, id), secret.value, TokenLifetime)) else None
  }

  /** The stored user the sanitised email names exists and the password does
      not match its hash. */
  predicate WrongPassword(users: Users, bound: nat, lib: Libraries, email: string, password: string)
  {
    var found := FindOne(users, lib.sanitize(email), bound);
    found.Some? && !lib.compare(password, users[found.value].password)
  }

  /** The stored user the sanitised email names exists and the password
      matches its hash. */
  predicate RightPassword(users: Users, bound: nat, lib: Libraries, email: string, password: string)
  {
    var found := FindOne(users, lib.sanitize(email), bound);
    found.Some? && lib.compare(password, users[found.value].password)
  }

  // ---------------------------------------------------------------------
  // signin

  /** `signin`: missing fields cost nothing; otherwise one point is spent on
      the raw email before the lookup and a second one on a wrong password.
      A consume past the limit throws into the handler's catch: 500. */
  function SigninOutcome(users: Users, bound: nat, attempts: LoginLimiter.Counters, secret: Option<string>,
                         email: Option<string>, password: Option<string>, now: nat, lib: Libraries): (r: SigninResult)
    ensures !Truthy(email) || !Truthy(password) ==>
      r == SigninResult(Failure(400, MissingCredentials), attempts)
    ensures Truthy(email) && Truthy(password) ==>
      var key := email.value;
      var spent := LoginLimiter.Consumed(attempts, key, now);
      var wrong := WrongPassword(users, bound, lib, key, password.value);
      && r.attempts.Keys == attempts.Keys + {key}
      && (forall k :: k in attempts && k != key ==> r.attempts[k] == attempts[k])
      && LoginLimiter.Live(r.attempts, key, now)
      && r.attempts[key].expiresAt ==
           (if LoginLimiter.Live(attempts, key, now) then attempts[key].expiresAt
            else now + LoginLimiter.DurationSeconds)
      && LoginLimiter.Consumed(r.attempts, key, now) ==
           spent + (if spent < LoginLimiter.Points && wrong then 2 else 1)
      && (spent >= LoginLimiter.Points ==> r.reply == Failure(500, SomethingWentWrong))
      && (spent < LoginLimiter.Points && FindOne(users, lib.sanitize(key), bound).None? ==>
            r.reply == Failure(404, UserMissing))
      && (spent < LoginLimiter.Points && wrong ==>
            r.reply == if spent + 1 < LoginLimiter.Points then Failure(400, InvalidCredentials)
                       else Failure(500, SomethingWentWrong))
      && (spent < LoginLimiter.Points && RightPassword(users, bound, lib, key, password.value) ==>
            var id := FindOne(users, lib.sanitize(key), bound).value;
            r.reply == if Truthy(secret)
                       then Issued(200, Some(users[id]), Token(Claims(users[id].email, id), secret.value, TokenLifetime))
                       else Failure(500, SomethingWentWrong))
  {
    if !Truthy(email) || !Truthy(password) then
      SigninResult(Failure(400, MissingCredentials), attempts)
    else
      var (afterEntry, allowed) := LoginLimiter.Consume(attempts, email.value, now);
      if !allowed then SigninResult(Failure(500, SomethingWentWrong), afterEntry)
      else
        match FindOne(users, lib.sanitize(email.value), bound)
        case None => SigninResult(Failure(404, UserMissing), afterEntry)
        case Some(id) =>
          if !lib.compare(password.value, users[id].password) then
            var (afterMismatch, allowedAgain) := LoginLimiter.Consume(afterEntry, email.value, now);
            if !allowedAgain then SigninResult(Failure(500, SomethingWentWrong), afterMismatch)
            else SigninResult(Failure(400, InvalidCredentials), afterMismatch)
          else
            match Sign(users[id].email, id, secret)
            case None => SigninResult(Failure(500, SomethingWentWrong), afterEntry)
            case Some(token) => SigninResult(Issued(200, Some(users[id]), token), afterEntry)
  }

  /** Three wrong-password attempts in one window: two points each, so the
      third attempt's second consume is the sixth point, over the limit, and
      the answer is 500 rather than 400 (and not 401). */
  lemma ThirdWrongPasswordIsServerError(users: Users, bound: nat, attempts: LoginLimiter.Counters,
                                        secret: Option<string>, email: string, password: string,
                                        lib: Libraries, t1: nat, t2: nat, t3: nat)
    requires email != "" && password != ""
    requires WrongPassword(users, bound, lib, email, password)
    requires !LoginLimiter.Live(attempts, email, t1)
    requires t1 <= t2 <= t3 < t1 + LoginLimiter.DurationSeconds
    ensures
      var r1 := SigninOutcome(users, bound, attempts, secret, Some(email), Some(password), t1, lib);
      var r2 := SigninOutcome(users, bound, r1.attempts, secret, Some(email), Some(password), t2, lib);
      var r3 := SigninOutcome(users, bound, r2.attempts, secret, Some(email), Some(password), t3, lib);
      && r1.reply == Failure(400, InvalidCredentials)
      && r2.reply == Failure(400, InvalidCredentials)
      && r3.reply == Failure(500, SomethingWentWrong)
  {
    var r1 := SigninOutcome(users, bound, attempts, secret, Some(email), Some(password), t1, lib);
    assert LoginLimiter.Consumed(r1.attempts, email, t1) == 2;
    LoginLimiter.ConsumedPersistsInWindow(r1.attempts, email, t1, t2);
    var r2 := SigninOutcome(users, bound, r1.attempts, secret, Some(email), Some(password), t2, lib);
    assert LoginLimiter.Consumed(r2.attempts, email, t2) == 4;
    LoginLimiter.ConsumedPersistsInWindow(r2.attempts, email, t2, t3);
  }

  /** Once five points are spent, even the right password is answered with
      500 until the window ends; after it ends the right password is
      accepted again. */
  lemma LockedOutUntilWindowEnds(users: Users, bound: nat, attempts: LoginLimiter.Counters,
                                 secret: Option<string>, email: string, password: string,
                                 lib: Libraries, now: nat, later: nat)
    requires email != "" && password != "" && Truthy(secret)
    requires RightPassword(users, bound, lib, email, password)
    requires LoginLimiter.Consumed(attempts, email, now) >= LoginLimiter.Points
    requires later >= attempts[email].expiresAt
    ensures SigninOutcome(users, bound, attempts, secret, Some(email), Some(password), now, lib).reply ==
            Failure(500, SomethingWentWrong)
    ensures SigninOutcome(users, bound, attempts, secret, Some(email), Some(password), later, lib).reply.status == 200
  {
    assert LoginLimiter.Consumed(attempts, email, later) == 0;
  }

  // ---------------------------------------------------------------------
  // signup

  predicate AllPresent(body: SignupBody)
  {
    Truthy(body.email) && Truthy(body.password) && Truthy(body.firstName) && Truthy(body.lastName)
  }

  /** `signup`: missing fields first, then an existing sanitised email, then
      the password policy; only then is one user created with the sanitised
      email, the hash of the password and "first last" as name. Signing with
      an unset secret throws after the user was created: 500. */
  function SignupOutcome(users: Users, nextId: UserId, secret: Option<string>, body: SignupBody,
                         lib: Libraries): (r: StoreResult)
    requires IdsBelow(users, nextId)
    ensures !AllPresent(body) ==> r == StoreResult(Failure(400, MissingFields), users)
    ensures AllPresent(body) ==>
      var email := lib.sanitize(body.email.value);
      var password := body.password.value;
      var user := User(email, lib.hash(password), body.firstName.value + " " + body.lastName.value);
      && (EmailTaken(users, email) ==> r == StoreResult(Failure(400, UserExists), users))
      && (!EmailTaken(users, email) && !PasswordPolicy.StrongPassword(password) ==>
            r == StoreResult(Failure(400, WeakPassword), users))
      && (!EmailTaken(users, email) && PasswordPolicy.StrongPassword(password) ==>
            && r.users == users[nextId := user]
            && r.reply == if Truthy(secret)
                          then Issued(201, Some(user), Token(Claims(email, nextId), secret.value, TokenLifetime))
                          else Failure(500, SomethingWentWrong))
  {
    if !AllPresent(body) then StoreResult(Failure(400, MissingFields), users)
    else
      var email := lib.sanitize(body.email.value);
      var password := body.password.value;
      PasswordPolicy.RegexIsPolicy(password);
      if FindOne(users, email, nextId).Some? then StoreResult(Failure(400, UserExists), users)
      else if !PasswordPolicy.MatchesPasswordRegex(password) then StoreResult(Failure(400, WeakPassword), users)
      else
        var user := User(email, lib.hash(password), body.firstName.value + " " + body.lastName.value);
        match Sign(user.email, nextId, secret)
        case None => StoreResult(Failure(500, SomethingWentWrong), users[nextId := user])
        case Some(token) => StoreResult(Issued(201, Some(user), token), users[nextId := user])
  }

  /** Signup keeps ids below the counter and emails unique, and adds at most
      one user. */
  lemma SignupKeepsStoreValid(users: Users, nextId: UserId, secret: Option<string>, body: SignupBody, lib: Libraries)
    requires IdsBelow(users, nextId) && UniqueEmails(users)
    ensures var r := SignupOutcome(users, nextId, secret, body, lib);
      && IdsBelow(r.users, nextId + 1)
      && UniqueEmails(r.users)
      && (r.users == users || (nextId !in users && r.users.Keys == users.Keys + {nextId}))
  {
  }

  /** After a signup that created a user, a second signup whose email
      sanitises to the same value fails with "User already exists" whatever
      its password, and creates nothing. */
  lemma SecondSignupConflicts(users: Users, nextId: UserId, secret: Option<string>,
                              first: SignupBody, second: SignupBody, lib: Libraries)
    requires IdsBelow(users, nextId)
    requires AllPresent(first) && AllPresent(second)
    requires lib.sanitize(first.email.value) == lib.sanitize(second.email.value)
    requires SignupOutcome(users, nextId, secret, first, lib).users != users
    ensures var r := SignupOutcome(users, nextId, secret, first, lib);
      SignupOutcome(r.users, nextId + 1, secret, second, lib) == StoreResult(Failure(400, UserExists), r.users)
  {
    var r := SignupOutcome(users, nextId, secret, first, lib);
    var email := lib.sanitize(first.email.value);
    assert r.users[nextId].email == email;
  }

  /** A user created by signup can sign in with the same email and password
      (given that bcrypt accepts a password against its own hash): 200 with
      a token whose id claim is the new user's id. */
  lemma SigninAfterSignup(users: Users, nextId: UserId, attempts: LoginLimiter.Counters, secret: Option<string>,
                          body: SignupBody, lib: Libraries, now: nat)
    requires IdsBelow(users, nextId)
    requires AllPresent(body) && Truthy(secret)
    requires lib.compare(body.password.value, lib.hash(body.password.value))
    requires SignupOutcome(users, nextId, secret, body, lib).users != users
    requires LoginLimiter.Consumed(attempts, body.email.value, now) < LoginLimiter.Points
    ensures var created := SignupOutcome(users, nextId, secret, body, lib).users;
      var r := SigninOutcome(created, nextId + 1, attempts, secret, body.email, body.password, now, lib);
      r.reply.Issued? && r.reply.status == 200 && r.reply.token.claims.id == nextId
  {
    var created := SignupOutcome(users, nextId, secret, body, lib).users;
    var email := lib.sanitize(body.email.value);
    assert !EmailTaken(users, email);
    assert FindOne(created, email, nextId).None?;
    assert FindOne(created, email, nextId + 1) == Some(nextId);
  }

  // ---------------------------------------------------------------------
  // googlelogin

  /** `sanitizeHtml(field)`; an absent field sanitises to the empty string. */
  function SanitizeField(lib: Libraries, field: Option<string>): (clean: string)
    ensures field.None? ==> clean == ""
    ensures field.Some? ==> clean == lib.sanitize(field.value)
  {
    if field.None? then "" else lib.sanitize(field.value)
  }

  /** `googlelogin`: no `result` object throws (500); an empty sanitised
      email or name is 400; otherwise a user is created, with the hash of a
      throwaway password, only when none has the email, and a token for the
      user with that email is returned without the user record. */
  function GoogleLoginOutcome(users: Users, nextId: UserId, secret: Option<string>, profile: Option<GoogleProfile>,
                              throwaway: string, lib: Libraries): (r: StoreResult)
    requires IdsBelow(users, nextId)
    ensures profile.None? ==> r == StoreResult(Failure(500, ServerError), users)
    ensures profile.Some? ==>
      var email := SanitizeField(lib, profile.value.email);
      var name := SanitizeField(lib, profile.value.name);
      && (email == "" || name == "" ==> r == StoreResult(Failure(400, MissingFields), users))
      && (email != "" && name != "" && EmailTaken(users, email) ==> r.users == users)
      && (email != "" && name != "" && !EmailTaken(users, email) ==>
            r.users == users[nextId := User(email, lib.hash(throwaway), name)])
      && (email != "" && name != "" ==>
            && EmailTaken(r.users, email)
            && (r.reply.Issued? <==> Truthy(secret))
            && (!Truthy(secret) ==> r.reply == Failure(500, ServerError)))
    ensures r.reply.Issued? ==>
      && r.reply.status == 200 && r.reply.result.None?
      && r.reply.token.claims.id in r.users
      && r.users[r.reply.token.claims.id].email == r.reply.token.claims.email
      && r.reply.token.claims.email == SanitizeField(lib, profile.value.email)
      && r.reply.token == Token(Claims(r.reply.token.claims.email, r.reply.token.claims.id),
                                secret.value, TokenLifetime)
  {
    if profile.None? then StoreResult(Failure(500, ServerError), users)
    else
      var email := SanitizeField(lib, profile.value.email);
      var name := SanitizeField(lib, profile.value.name);
      if email == "" || name == "" then StoreResult(Failure(400, MissingFields), users)
      else
        var (id, users') :=
          match FindOne(users, email, nextId)
          case Some(id) => (id, users)
          case None => (nextId, users[nextId := User(email, lib.hash(throwaway), name)]);
        match Sign(users'[id].email, id, secret)
        case None => StoreResult(Failure(500, ServerError), users')
        case Some(token) => StoreResult(Issued(200, None, token), users')
  }

  /** The id the collection's counter holds after a handler. */
  function NextIdAfter(before: Users, after: Users, nextId: UserId): UserId
  {
    if nextId in after && nextId !in before then nextId + 1 else nextId
  }

  /** Google login keeps ids below the counter and emails unique. */
  lemma GoogleLoginKeepsStoreValid(users: Users, nextId: UserId, secret: Option<string>,
                                   profile: Option<GoogleProfile>, throwaway: string, lib: Libraries)
    requires IdsBelow(users, nextId) && UniqueEmails(users)
    ensures var r := GoogleLoginOutcome(users, nextId, secret, profile, throwaway, lib);
      && IdsBelow(r.users, NextIdAfter(users, r.users, nextId))
      && UniqueEmails(r.users)
      && (r.users == users || (nextId !in users && r.users.Keys == users.Keys + {nextId}))
  {
  }

  /** Repeating a Google login never adds a second record: the second call
      leaves the collection as the first left it and names the same user. */
  lemma GoogleLoginIdempotent(users: Users, nextId: UserId, secret: Option<string>,
                              profile: Option<GoogleProfile>, throwaway: string, again: string, lib: Libraries)
    requires IdsBelow(users, nextId) && UniqueEmails(users)
    ensures var r1 := GoogleLoginOutcome(users, nextId, secret, profile, throwaway, lib);
      var next := NextIdAfter(users, r1.users, nextId);
      var r2 := GoogleLoginOutcome(r1.users, next, secret, profile, again, lib);
      && r2.users == r1.users
      && (r1.reply.Issued? ==> r2.reply == r1.reply)
  {
    var r1 := GoogleLoginOutcome(users, nextId, secret, profile, throwaway, lib);
    GoogleLoginKeepsStoreValid(users, nextId, secret, profile, throwaway, lib);
    var next := NextIdAfter(users, r1.users, nextId);
    if profile.Some? {
      var email := SanitizeField(lib, profile.value.email);
      var name := SanitizeField(lib, profile.value.name);
      if email != "" && name != "" {
        var found := FindOne(r1.users, email, next);
        assert found.Some?;
        if r1.reply.Issued? {
          assert found.value == r1.reply.token.claims.id;
        }
      }
    }
  }

  // ---------------------------------------------------------------------
  // The handlers over the mutable collection and limiter

  class AuthService {
    var users: Users
    var nextId: UserId
    var attempts: LoginLimiter.Counters
    /** `process.env.JWT_SECRET`, read once when the module loads. */
    const secret: Option<string>

    ghost predicate Valid()
      reads this
    {
      IdsBelow(users, nextId) && UniqueEmails(users)
    }

    constructor (secret: Option<string>)
      ensures Valid() && this.secret == secret
      ensures users == map[] && nextId == 0 && attempts == map[]
    {
      this.secret := secret;
      users, nextId, attempts := map[], 0, map[];
    }

    /** `loginRateLimiter.consume(key)`: true when the point was within the
        limit; false stands for the rejection the handler's catch receives. */
    method ConsumePoint(key: string, now: nat) returns (allowed: bool)
      modifies this`attempts
      ensures (attempts, allowed) == LoginLimiter.Consume(old(attempts), key, now)
    {
      var step := LoginLimiter.Consume(attempts, key, now);
      attempts := step.0;
      allowed := step.1;
    }

    method Signin(email: Option<string>, password: Option<string>, now: nat, lib: Libraries)
      returns (reply: Reply)
      requires Valid()
      modifies this`attempts
      ensures Valid()
      ensures SigninResult(reply, attempts) ==
              SigninOutcome(users, nextId, old(attempts), secret, email, password, now, lib)
    {
      if !Truthy(email) || !Truthy(password) {
        return Failure(400, MissingCredentials);
      }
      var allowed := ConsumePoint(email.value, now);
      if !allowed {
        return Failure(500, SomethingWentWrong);
      }
      var sanitizedEmail := lib.sanitize(email.value);
      var oldUser := FindOne(users, sanitizedEmail, nextId);
      if oldUser.None? {
        return Failure(404, UserMissing);
      }
      var user := users[oldUser.value];
      if !lib.compare(password.value, user.password) {
        allowed := ConsumePoint(email.value, now);
        if !allowed {
          return Failure(500, SomethingWentWrong);
        }
        return Failure(400, InvalidCredentials);
      }
      var token := Sign(user.email, oldUser.value, secret);
      if token.None? {
        return Failure(500, SomethingWentWrong);
      }
      reply := Issued(200, Some(user), token.value);
    }

    method Signup(body: SignupBody, lib: Libraries) returns (reply: Reply)
      requires Valid()
      modifies this`users, this`nextId
      ensures Valid()
      ensures StoreResult(reply, users) == SignupOutcome(old(users), old(nextId), secret, body, lib)
      ensures nextId == NextIdAfter(old(users), users, old(nextId))
    {
      SignupKeepsStoreValid(users, nextId, secret, body, lib);
      if !AllPresent(body) {
        return Failure(400, MissingFields);
      }
      var sanitizedEmail := lib.sanitize(body.email.value);
      var oldUser := FindOne(users, sanitizedEmail, nextId);
      if oldUser.Some? {
        return Failure(400, UserExists);
      }
      if !PasswordPolicy.MatchesPasswordRegex(body.password.value) {
        return Failure(400, WeakPassword);
      }
      var hashedPassword := lib.hash(body.password.value);
      var result := User(sanitizedEmail, hashedPassword, body.firstName.value + " " + body.lastName.value);
      var id := nextId;
      assert id !in users;
      users := users[id := result];
      nextId := nextId + 1;
      var token := Sign(result.email, id, secret);
      if token.None? {
        return Failure(500, SomethingWentWrong);
      }
      reply := Issued(201, Some(result), token.value);
    }

    method GoogleLogin(profile: Option<GoogleProfile>, throwaway: string, lib: Libraries) returns (reply: Reply)
      requires Valid()
      modifies this`users, this`nextId
      ensures Valid()
      ensures StoreResult(reply, users) == GoogleLoginOutcome(old(users), old(nextId), secret, profile, throwaway, lib)
      ensures nextId == NextIdAfter(old(users), users, old(nextId))
    {
      GoogleLoginKeepsStoreValid(users, nextId, secret, profile, throwaway, lib);
      if profile.None? {
        return Failure(500, ServerError);
      }
      var sanitizedEmail := SanitizeField(lib, profile.value.email);
      var sanitizedName := SanitizeField(lib, profile.value.name);
      if sanitizedEmail == "" || sanitizedName == "" {
        return Failure(400, MissingFields);
      }
      var found := FindOne(users, sanitizedEmail, nextId);
      var id: UserId;
      if found.Some? {
        id := found.value;
      } else {
        var hashedPassword := lib.hash(throwaway);
        id := nextId;
        users := users[id := User(sanitizedEmail, hashedPassword, sanitizedName)];
        nextId := nextId + 1;
      }
      var token := Sign(users[id].email, id, secret);
      if token.None? {
        return Failure(500, ServerError);
      }
      reply := Issued(200, None, token.value);
    }
  }
}
