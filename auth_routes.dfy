/**
 * The authentication routes: the registration and login input checks, the e-mail
 * normalisation on registration, and the truthy patch of one's own profile. A request field
 * that is missing is the empty string here: every check treats the two alike.
 */
module AuthRoutes {
  import opened Wrappers
  import opened Text
  import opened Store
  import opened Pickups

  // ---------------------------------------------------------------------------------------
  // Registration
  // ---------------------------------------------------------------------------------------

  const NameMissing := "Please provide your name"
  const EmailMissing := "Please provide your email address"
  const PasswordMissing := "Please provide a password"
  const PasswordShort := "Password must be at least 6 characters long"
  const EmailExists := "An account with this email already exists. Try signing in instead."
  const EmailIndexClash := "An account with this email already exists."

  const AvatarBase := "https://api.dicebear.com/7.x/avataaars/svg?seed="

  /** The input checks of POST /register, in order: the first that fails gives the reply. */
  function RegisterCheck(name: string, email: string, password: string): (r: Option<string>)
    ensures IsBlank(name) ==> r == Some(NameMissing)
    ensures !IsBlank(name) && IsBlank(email) ==> r == Some(EmailMissing)
    ensures !IsBlank(name) && !IsBlank(email) && password == "" ==> r == Some(PasswordMissing)
    ensures !IsBlank(name) && !IsBlank(email) && password != "" && Utf16Length(password) < 6 ==>
              r == Some(PasswordShort)
    ensures r.None? <==> !IsBlank(name) && !IsBlank(email) && Utf16Length(password) >= 6
  {
    if IsBlank(name) then Some(NameMissing)
    else if IsBlank(email) then Some(EmailMissing)
    else if password == "" then Some(PasswordMissing)
    else if Utf16Length(password) < 6 then Some(PasswordShort)
    else None
  }

  /** Some stored user has exactly this e-mail address (`User.findOne({ email })`). */
  predicate EmailRegistered(users: map<ObjectId, User>, email: string) {
    exists k :: k in users && users[k].email == email
  }

  /** No two users share an address: what the unique index on `email` keeps. */
  predicate EmailsUnique(users: map<ObjectId, User>) {
    forall a, b :: a in users && b in users && a != b ==> users[a].email != users[b].email
  }

  /**
   * The document `User.create` writes: the trimmed name, the lower-cased and trimmed
   * address, and the schema's defaults for everything the request does not give.
   */
  function NewUser(name: string, email: string, password: string, avatar: string): (u: User)
    ensures u.name == Trim(name) && u.email == Trim(Lower(email))
    ensures u.password == password && u.avatar == avatar
    ensures u.role == "user" && u.phone == "" && u.location == ""
    ensures u.ecoPoints == 0 && u.totalRecycled == 0.0 && u.carbonOffset == 0.0
    ensures LevelConsistent(u)
  {
    User(Trim(name), Trim(Lower(email)), password, "", "", avatar, "user", 0, 0.0, 0.0, 1)
  }

  /**
   * POST /register. `newId` is the key the store gives the new document and `encode` is
   * `encodeURIComponent`. The existence check looks up the lower-cased address as typed,
   * while the document stores it trimmed as well; when only the trimmed form is taken, the
   * unique index refuses the create instead.
   */
  function Register(db: Db, newId: ObjectId, name: string, email: string, password: string,
                    encode: string -> string): (r: Outcome<User>)
    requires newId !in db.users
    ensures RegisterCheck(name, email, password).Some? ==>
              r == Outcome(db, Failure(BadRequest(RegisterCheck(name, email, password).value)))
    ensures RegisterCheck(name, email, password).None? && EmailRegistered(db.users, Lower(email)) ==>
              r == Outcome(db, Failure(BadRequest(EmailExists)))
    ensures RegisterCheck(name, email, password).None? && !EmailRegistered(db.users, Lower(email)) &&
            EmailRegistered(db.users, Trim(Lower(email))) ==>
              r == Outcome(db, Failure(BadRequest(EmailIndexClash)))
    ensures r.reply.Failure? ==> r.db == db
    ensures r.reply.Success? <==>
              RegisterCheck(name, email, password).None? &&
              !EmailRegistered(db.users, Lower(email)) && !EmailRegistered(db.users, Trim(Lower(email)))
    ensures r.reply.Success? ==>
              r.reply.value == NewUser(name, email, password, AvatarBase + encode(name)) &&
              r.db == db.(users := db.users[newId := r.reply.value])
  {
    match RegisterCheck(name, email, password)
    case Some(message) => Outcome(db, Failure(BadRequest(message)))
    case None =>
      if EmailRegistered(db.users, Lower(email)) then Outcome(db, Failure(BadRequest(EmailExists)))
      else
        var u := NewUser(name, email, password, AvatarBase + encode(name));
        if EmailRegistered(db.users, u.email) then Outcome(db, Failure(BadRequest(EmailIndexClash)))
        else Outcome(db.(users := db.users[newId := u]), Success(u))
  }

  /** Adding a user whose address no one holds keeps the addresses unique. */
  lemma InsertKeepsUnique(users: map<ObjectId, User>, newId: ObjectId, u: User)
    requires EmailsUnique(users) && !EmailRegistered(users, u.email)
    ensures EmailsUnique(users[newId := u])
  {
  }

  /** Registration keeps every address unique and every stored level consistent. */
  lemma RegisterKeepsInvariants(db: Db, newId: ObjectId, name: string, email: string, password: string,
                                encode: string -> string)
    requires newId !in db.users
    requires EmailsUnique(db.users) && AllLevelsConsistent(db.users)
    ensures var r := Register(db, newId, name, email, password, encode);
            EmailsUnique(r.db.users) && AllLevelsConsistent(r.db.users)
  {
    var r := Register(db, newId, name, email, password, encode);
    if r.reply.Success? {
      InsertKeepsUnique(db.users, newId, r.reply.value);
    }
  }

  /** Registration touches nothing but the user collection, and only adds the new key. */
  lemma RegisterOnlyAdds(db: Db, newId: ObjectId, name: string, email: string, password: string,
                         encode: string -> string)
    requires newId !in db.users
    ensures var r := Register(db, newId, name, email, password, encode);
            r.db.pickups == db.pickups && r.db.notifications == db.notifications &&
            r.db.users.Keys <= db.users.Keys + {newId} &&
            forall k :: k in db.users ==> k in r.db.users && r.db.users[k] == db.users[k]
  {
  }

  // ---------------------------------------------------------------------------------------
  // Login
  // ---------------------------------------------------------------------------------------

  const LoginEmailMissing := "Please enter your email address"
  const LoginPasswordMissing := "Please enter your password"
  const NoAccount := "No account found with this email. Check your email or create a new account."
  const WrongPassword := "Incorrect password. Please try again."

  /** The input checks of POST /login, in order. */
  function LoginCheck(email: string, password: string): (r: Option<string>)
    ensures IsBlank(email) ==> r == Some(LoginEmailMissing)
    ensures !IsBlank(email) && password == "" ==> r == Some(LoginPasswordMissing)
    ensures r.None? <==> !IsBlank(email) && password != ""
  {
    if IsBlank(email) then Some(LoginEmailMissing)
    else if password == "" then Some(LoginPasswordMissing)
    else None
  }

  /**
   * POST /login: the checks, the lookup of the lower-cased address as typed, then
   * `matches`, which stands for `user.matchPassword` (the bcrypt comparison). The reply is the
   * key of the account signed into; the store may return any account holding the address.
   */
  method Login(users: map<ObjectId, User>, email: string, password: string,
               matches: (User, string) -> bool) returns (r: Result<ObjectId, Error>)
    ensures LoginCheck(email, password).Some? ==>
              r == Failure(BadRequest(LoginCheck(email, password).value))
    ensures LoginCheck(email, password).None? && !EmailRegistered(users, Lower(email)) ==>
              r == Failure(Unauthorized(NoAccount))
    ensures r.Success? ==>
              LoginCheck(email, password).None? && r.value in users &&
              users[r.value].email == Lower(email) && matches(users[r.value], password)
    ensures r.Failure? && r.error == Unauthorized(WrongPassword) ==>
              LoginCheck(email, password).None? &&
              exists k :: k in users && users[k].email == Lower(email) && !matches(users[k], password)
    ensures r.Success? || r.error in {BadRequest(LoginEmailMissing), BadRequest(LoginPasswordMissing),
                                      Unauthorized(NoAccount), Unauthorized(WrongPassword)}
    ensures EmailsUnique(users) && LoginCheck(email, password).None? ==>
              forall k :: k in users && users[k].email == Lower(email) ==>
                (r == if matches(users[k], password) then Success(k) else Failure(Unauthorized(WrongPassword)))
  {
    var check := LoginCheck(email, password);
    if check.Some? {
      return Failure(BadRequest(check.value));
    }
    var address := Lower(email);
    if !EmailRegistered(users, address) {
      return Failure(Unauthorized(NoAccount));
    }
    var k :| k in users && users[k].email == address;
    if !matches(users[k], password) {
      return Failure(Unauthorized(WrongPassword));
    }
    return Success(k);
  }

  /**
   * An address registered with a leading space is stored trimmed, so signing in with the
   * address typed the same way finds no account.
   */
  lemma PaddedEmailNotFound(db: Db, newId: ObjectId, name: string, email: string, password: string,
                            encode: string -> string)
    requires newId !in db.users
    requires email != [] && email[0] == ' '
    requires Register(db, newId, name, email, password, encode).reply.Success?
    ensures !EmailRegistered(Register(db, newId, name, email, password, encode).db.users, Lower(email))
  {
    var r := Register(db, newId, name, email, password, encode);
    var stored := r.reply.value.email;
    assert Lower(email)[0] == ' ';
    assert IsJsSpace(' ');
    assert stored != Lower(email);
  }

  /** A registration that succeeds has passed the login's input checks as well. */
  lemma RegisterPassesLoginCheck(db: Db, newId: ObjectId, name: string, email: string, password: string,
                                 encode: string -> string)
    requires newId !in db.users
    requires Register(db, newId, name, email, password, encode).reply.Success?
    ensures LoginCheck(email, password).None?
  {
  }

  // ---------------------------------------------------------------------------------------
  // Profile update
  // ---------------------------------------------------------------------------------------

  /** The body of PUT /profile; each field is "" when missing. */
  datatype ProfilePatch = ProfilePatch(
    name: string, email: string, phone: string, location: string, avatar: string, password: string)

  /** JavaScript's `value || fallback` on strings. */
  function Or(value: string, fallback: string): (r: string)
    ensures value != "" ==> r == value
    ensures value == "" ==> r == fallback
    ensures r == "" <==> value == "" && fallback == ""
  {
    if value != "" then value else fallback
  }

  /**
   * PUT /profile for the signed-in user `actor`: each of name, e-mail, phone, location,
   * avatar and password is replaced only by a non-empty value, field by field; the ledger,
   * the role and every other document are left alone.
   */
  method UpdateProfile(db: Db, actor: ObjectId, body: ProfilePatch) returns (r: Outcome<User>)
    ensures actor !in db.users ==> r == Outcome(db, Failure(NotFound))
    ensures actor in db.users ==> r.reply.Success? && r.db == db.(users := db.users[actor := r.reply.value])
    ensures actor in db.users ==>
      var u, v := db.users[actor], r.reply.value;
      v.name == Or(body.name, u.name) && v.email == Or(body.email, u.email) &&
      v.phone == Or(body.phone, u.phone) && v.location == Or(body.location, u.location) &&
      v.avatar == Or(body.avatar, u.avatar) && v.password == Or(body.password, u.password) &&
      v.role == u.role && v.ecoPoints == u.ecoPoints && v.totalRecycled == u.totalRecycled &&
      v.carbonOffset == u.carbonOffset && v.level == u.level
  {
    if actor !in db.users {
      return Outcome(db, Failure(NotFound));
    }
    var user := db.users[actor];
    user := user.(name := Or(body.name, user.name));
    user := user.(email := Or(body.email, user.email));
    user := user.(phone := Or(body.phone, user.phone));
    user := user.(location := Or(body.location, user.location));
    if body.avatar != "" {
      user := user.(avatar := body.avatar);
    }
    if body.password != "" {
      user := user.(password := body.password);
    }
    r := Outcome(db.(users := db.users[actor := user]), Success(user));
  }
}
