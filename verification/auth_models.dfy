/**
 * The `User` record and the user table it lives in: password setting and
 * checking, reset-password tokens, the default role, and the two lookups the
 * application makes (by email, and by id for the session loader).
 */
module AuthModels {
  import opened Wrappers
  import opened Security

  /** Role ids seeded by the `seed-db` command. */
  const AdminRoleId := 1
  const DefaultRoleId := 2

  /** `max_age` of a reset-password token, in seconds (24 hours). */
  const ResetTokenMaxAge := 86400

  /** The configuration a reset token needs; the salt key may be missing from the configuration. */
  datatype TokenConfig = TokenConfig(secretKey: string, passwordSalt: Option<string>)

  /** Reading a configuration key that is not set. */
  datatype ConfigError = MissingKey(key: string)

  class User {
    /** Primary key; `None` until the row is inserted. */
    var id: Option<int>
    var firstName: string
    var lastName: string
    var email: string
    /** `None` until `SetPassword` runs; the column is NOT NULL, so no row is stored without it. */
    var passwordHash: Option<PasswordHash>
    /** `None` until the row is inserted, when the column default (the plain user role) fills it in. */
    var roleId: Option<int>

    /** `User(first_name=..., last_name=..., email=...)`: no id, hash or role until it is set or inserted. */
    constructor (firstName: string, lastName: string, email: string)
      ensures this.firstName == firstName && this.lastName == lastName && this.email == email
      ensures id == None && passwordHash == None && roleId == None
    {
      this.id := None;
      this.firstName := firstName;
      this.lastName := lastName;
      this.email := email;
      this.passwordHash := None;
      this.roleId := None;
    }

    /** `set_password`: overwrite the stored hash with a fresh hash of `password` under `salt`. */
    method SetPassword(password: string, salt: string)
      modifies this`passwordHash
      ensures passwordHash == Some(Hash(password, salt))
      ensures CheckPassword(password)
      ensures forall other :: CheckPassword(other) ==> other == password
    {
      passwordHash := Some(Hash(password, salt));
      forall other | CheckPassword(other)
        ensures other == password
      {
        CheckOnlyOriginal(password, other, salt);
      }
    }

    /**
     * `check_password`: read-only comparison against the stored hash; it
     * holds exactly when the stored value is what hashing `password` under
     * the stored salt gives.
     */
    predicate CheckPassword(password: string)
      reads this
      requires passwordHash.Some?
      ensures CheckPassword(password) <==> passwordHash.value == Hash(password, passwordHash.value.salt)
    {
      Check(passwordHash.value, password)
    }

    /** `generate_reset_password_token`: sign this user's email; a missing salt key raises. */
    function GenerateResetPasswordToken(config: TokenConfig, now: int): (r: Result<Token, ConfigError>)
      reads this
      ensures r.Failure? <==> config.passwordSalt.None?
      ensures r.Failure? ==> r.error == MissingKey("SECURITY_PASSWORD_SALT")
      ensures r.Success? ==>
                Loads(r.value, config.secretKey, config.passwordSalt.value, ResetTokenMaxAge, now) == Success(email)
    {
      match config.passwordSalt
      case None => Failure(MissingKey("SECURITY_PASSWORD_SALT"))
      case Some(salt) => Success(Dumps(config.secretKey, salt, email, now))
    }
  }

  /** The `user` table: rows keyed by primary key, plus the next id the database hands out. */
  class UserStore {
    var users: map<int, User>
    var nextId: int

    /**
     * Every row knows its key, has a password hash and a role, and emails are
     * unique (the column's UNIQUE constraint).
     */
    ghost predicate Valid()
      reads this, users.Values
    {
      && (forall k :: k in users ==>
            users[k].id == Some(k) && k < nextId && users[k].passwordHash.Some? && users[k].roleId.Some?)
      && (forall k1, k2 :: k1 in users && k2 in users && users[k1].email == users[k2].email ==> k1 == k2)
    }

    constructor ()
      ensures Valid() && users == map[]
    {
      users := map[];
      nextId := 1;
    }

    /** `select(User).where(User.email == email)`: exact comparison, no case folding. */
    function FindByEmail(email: string): (r: Option<User>)
      reads this, users.Values
      requires Valid()
      ensures r.Some? ==> r.value in users.Values && r.value.email == email
      ensures r.Some? ==> r.value.id.Some? && r.value.id.value in users && users[r.value.id.value] == r.value
      ensures r.Some? ==> r.value.passwordHash.Some?
      ensures r.Some? ==> forall k :: k in users && users[k].email == email ==> users[k] == r.value
      ensures r.None? <==> forall k :: k in users ==> users[k].email != email
    {
      if exists k :: k in users && users[k].email == email then
        var k :| k in users && users[k].email == email;
        Some(users[k])
      else
        None
    }

    /** `load_user(id)`: `db.session.get(User, id)`. */
    function LoadUser(id: int): (r: Option<User>)
      reads this, users.Values
      requires Valid()
      ensures r.Some? <==> id in users
      ensures r.Some? ==> r.value in users.Values && r.value.id == Some(id)
    {
      if id in users then Some(users[id]) else None
    }

    /**
     * `db.session.add(user)` then `commit()`: the insert fails (IntegrityError)
     * when the NOT NULL hash is missing or the email is already taken, and
     * then nothing is stored. A role left unset gets the column default.
     */
    method Insert(u: User) returns (ok: bool)
      requires Valid()
      requires u !in users.Values
      modifies this, u`id, u`roleId
      ensures Valid()
      ensures ok <==> old(u.passwordHash).Some? && old(FindByEmail(u.email)).None?
      ensures ok ==> u.id == Some(old(nextId)) && users == old(users)[old(nextId) := u]
      ensures ok ==> u.roleId == if old(u.roleId).Some? then old(u.roleId) else Some(DefaultRoleId)
      ensures !ok ==> users == old(users) && u.id == old(u.id) && u.roleId == old(u.roleId)
    {
      ok := u.passwordHash.Some? && FindByEmail(u.email).None?;
      if ok {
        u.id := Some(nextId);
        if u.roleId.None? {
          u.roleId := Some(DefaultRoleId);
        }
        users := users[nextId := u];
        nextId := nextId + 1;
      }
    }
  }

  /**
   * `verify_reset_password_token`: any failure to load the token (bad
   * signature, expiry, or the salt key missing from the configuration, read
   * inside the `try`) gives `None`; otherwise the user whose email is the
   * payload, if any.
   */
  function VerifyResetPasswordToken(store: UserStore, config: TokenConfig, token: Token, now: int): (r: Option<User>)
    reads store, store.users.Values
    requires store.Valid()
    ensures r.Some? ==> r.value in store.users.Values
    ensures r.Some? <==>
              && config.passwordSalt.Some?
              && Loads(token, config.secretKey, config.passwordSalt.value, ResetTokenMaxAge, now).Success?
              && store.FindByEmail(token.payload).Some?
    ensures r.Some? ==> r.value.email == token.payload
  {
    match config.passwordSalt
    case None => None
    case Some(salt) =>
      match Loads(token, config.secretKey, salt, ResetTokenMaxAge, now)
      case Failure(_) => None
      case Success(email) => store.FindByEmail(email)
  }

  /** A reset token issued for a stored user and presented within 24 hours resolves to that same user. */
  lemma ResetTokenRoundTrip(store: UserStore, id: int, config: TokenConfig, issued: int, now: int)
    requires store.Valid() && id in store.users
    requires config.passwordSalt.Some?
    requires issued <= now <= issued + ResetTokenMaxAge
    ensures store.users[id].GenerateResetPasswordToken(config, issued).Success?
    ensures VerifyResetPasswordToken(store, config, store.users[id].GenerateResetPasswordToken(config, issued).value, now)
            == Some(store.users[id])
  {
    var u := store.users[id];
    assert store.FindByEmail(u.email) == Some(u);
    LoadsDumps(config.secretKey, config.passwordSalt.value, u.email, issued, ResetTokenMaxAge, now);
  }

  /** Presented more than 24 hours after issue, the token resolves to no one. */
  lemma ResetTokenExpires(store: UserStore, u: User, config: TokenConfig, issued: int, now: int)
    requires store.Valid()
    requires config.passwordSalt.Some?
    requires now > issued + ResetTokenMaxAge
    ensures VerifyResetPasswordToken(store, config, u.GenerateResetPasswordToken(config, issued).value, now) == None
  {
  }

  /** A token whose email belongs to no stored user resolves to no one, however well it is signed. */
  lemma ResetTokenUnknownEmail(store: UserStore, config: TokenConfig, token: Token, now: int)
    requires store.Valid()
    requires token.Signed? && forall k :: k in store.users ==> store.users[k].email != token.payload
    ensures VerifyResetPasswordToken(store, config, token, now) == None
  {
  }
}
