/** The session store: who is logged in (`authUser`, `role`), its copy in the
    browser's `localStorage`, and the calls it makes to the JSON server's `/users`. */
module AuthContext {
  import opened Wrappers
  import opened Seqs
  import opened Accounts

  const AuthUserKey := "authUser"
  const RoleKey := "userRole"

  const BlockedMessage := "Your account has been blocked. Please contact support."
  const InvalidMessage := "Invalid credentials"
  const LoginFailedMessage := "Login failed"
  const DuplicateEmailMessage := "Email is already registered."
  const RegisterFailedMessage := "Failed to register user."
  const RegisterErrorMessage := "Something went wrong."

  /** `JSON.stringify` and `JSON.parse` for user records; `parse` is `None` on a syntax error. */
  datatype Json = Json(stringify: User -> string, parse: string -> Option<User>)

  /** What the real JSON functions guarantee: a stringified user is a non-empty text
      that parses back to the same user. */
  ghost predicate RoundTrips(json: Json) {
    forall u :: json.stringify(u) != "" && json.parse(json.stringify(u)) == Some(u)
  }

  /** `login`'s result: `{ success: true, role }` or `{ success: false, message }`. */
  datatype LoginResult = LoggedIn(role: string) | Refused(message: string)

  /** `register`'s result: `{ success: true }` or `{ error }`. */
  datatype RegisterResult = Registered | RegisterError(error: string)

  /** `localStorage.getItem(key)` read as a condition: present and not the empty string. */
  predicate Truthy(storage: map<string, string>, key: string) {
    key in storage && storage[key] != ""
  }

  /** The users the query `users?email=…&password=…` returns, in table order. */
  function Credentials(users: seq<User>, email: string, password: string): seq<User> {
    Filter(users, (u: User) => u.email == email && u.password == password)
  }

  /** Some account already uses the email (`users?email=…` is not empty). */
  predicate EmailTaken(users: seq<User>, email: string) {
    Filter(users, (u: User) => u.email == email) != []
  }

  /** What `login` returns for the table `users`; `reachable` is false when the request
      or its JSON decoding fails. */
  function LoginOutcome(users: seq<User>, email: string, password: string, reachable: bool): (r: LoginResult)
    ensures var found := Credentials(users, email, password);
      r.LoggedIn? <==> reachable && found != [] && !found[0].isBlocked
    ensures r.LoggedIn? ==> r.role == Credentials(users, email, password)[0].role
    ensures !reachable ==> r == Refused(LoginFailedMessage)
    ensures reachable && Credentials(users, email, password) == [] ==> r == Refused(InvalidMessage)
    ensures reachable && Credentials(users, email, password) != [] && Credentials(users, email, password)[0].isBlocked ==>
      r == Refused(BlockedMessage)
  {
    var found := Credentials(users, email, password);
    if !reachable then Refused(LoginFailedMessage)
    else if found == [] then Refused(InvalidMessage)
    else if found[0].isBlocked then Refused(BlockedMessage)
    else LoggedIn(found[0].role)
  }

  /** What `register` returns for the table `users`; `checked` is false when the
      duplicate-email query fails, `post` is how the POST of the new account ends. */
  function RegisterOutcome(users: seq<User>, email: string, checked: bool, post: FetchOutcome): (r: RegisterResult)
    ensures r == Registered <==> checked && !EmailTaken(users, email) && post == Resolved(true)
    ensures checked && EmailTaken(users, email) ==> r == RegisterError(DuplicateEmailMessage)
    ensures r.RegisterError? ==> r.error != ""
  {
    if !checked then RegisterError(RegisterErrorMessage)
    else if EmailTaken(users, email) then RegisterError(DuplicateEmailMessage)
    else match post
      case Rejected => RegisterError(RegisterErrorMessage)
      case Resolved(ok) => if ok then Registered else RegisterError(RegisterFailedMessage)
  }

  /** No two accounts share an email. */
  ghost predicate UniqueEmails(users: seq<User>) {
    forall i, j | 0 <= i < j < |users| :: users[i].email != users[j].email
  }

  /** The account `register` posts. */
  function NewAccount(id: string, name: string, email: string, password: string): User {
    User(id, name, email, password, UserRole, false)
  }

  /** What the restore effect leaves: the session, and the storage after it. */
  datatype Restored = Restored(user: Option<User>, role: Option<string>, storage: map<string, string>)

  /** The restore effect on a fresh (logged-out) store: both keys must be set; a stored
      user that does not parse removes both keys and stays logged out. */
  function Restore(storage: map<string, string>, json: Json): (r: Restored)
    ensures r.user.Some? <==> r.role.Some?
    ensures r.user.Some? ==>
      r.storage == storage && Truthy(storage, AuthUserKey) && Truthy(storage, RoleKey)
      && r.role == Some(storage[RoleKey]) && json.parse(storage[AuthUserKey]) == r.user
    ensures !Truthy(storage, AuthUserKey) || !Truthy(storage, RoleKey) ==> r == Restored(None, None, storage)
    ensures Truthy(storage, AuthUserKey) && Truthy(storage, RoleKey) && json.parse(storage[AuthUserKey]).None? ==>
      r == Restored(None, None, storage - {AuthUserKey, RoleKey})
  {
    if Truthy(storage, AuthUserKey) && Truthy(storage, RoleKey) then
      match json.parse(storage[AuthUserKey])
      case Some(u) => Restored(Some(u), Some(storage[RoleKey]), storage)
      case None => Restored(None, None, storage - {AuthUserKey, RoleKey})
    else
      Restored(None, None, storage)
  }

  /** What a successful login writes to storage. */
  function Persist(storage: map<string, string>, u: User, json: Json): map<string, string> {
    storage[AuthUserKey := json.stringify(u)][RoleKey := u.role]
  }

  /** A reload after a successful login restores the same user and role, unless the
      user's role is the empty string (then the stored role reads as missing). */
  lemma RestoreAfterLogin(storage: map<string, string>, u: User, json: Json)
    requires RoundTrips(json)
    ensures var s := Persist(storage, u, json);
      Restore(s, json) == if u.role == "" then Restored(None, None, s) else Restored(Some(u), Some(u.role), s)
  {
    var s := Persist(storage, u, json);
    assert json.stringify(u) != "" && json.parse(json.stringify(u)) == Some(u);
    assert s[AuthUserKey] == json.stringify(u);
  }

  /** Registering a fresh email keeps emails unique. */
  lemma {:induction false} RegisterKeepsEmailsUnique(users: seq<User>, account: User)
    requires UniqueEmails(users) && !EmailTaken(users, account.email)
    ensures UniqueEmails(users + [account])
  {
    forall i | 0 <= i < |users|
      ensures users[i].email != account.email
    {
      assert users[i] in users;
    }
  }

  class Session {
    /** `authUser`. */
    var authUser: Option<User>
    /** `role`. */
    var role: Option<string>
    /** `localStorage`. */
    var storage: map<string, string>
    /** The JSON server's `/users` collection. */
    var users: seq<User>
    const json: Json

    /** Mounting the provider: both start as null and the restore effect runs. */
    constructor (storage: map<string, string>, users: seq<User>, json: Json)
      ensures this.json == json && this.users == users
      ensures Restore(storage, json) == Restored(authUser, role, this.storage)
    {
      this.json := json;
      this.users := users;
      var r := Restore(storage, json);
      authUser, role, this.storage := r.user, r.role, r.storage;
    }

    /** `login`. `reachable` is false when the request or its JSON decoding fails.
        The first matching account logs in unless it is blocked; every failure changes nothing. */
    method Login(email: string, password: string, reachable: bool) returns (r: LoginResult)
      modifies this
      ensures users == old(users)
      ensures r == LoginOutcome(old(users), email, password, reachable)
      ensures var found := Credentials(old(users), email, password);
        if !reachable then
          r == Refused(LoginFailedMessage) && unchanged(this)
        else if found == [] then
          r == Refused(InvalidMessage) && unchanged(this)
        else if found[0].isBlocked then
          r == Refused(BlockedMessage) && unchanged(this)
        else
          r == LoggedIn(found[0].role) && authUser == Some(found[0]) && role == Some(found[0].role)
          && storage == Persist(old(storage), found[0], json)
    {
      if !reachable {
        return Refused(LoginFailedMessage);
      }
      var data := Credentials(users, email, password);
      if |data| > 0 {
        var user := data[0];
        if user.isBlocked {
          return Refused(BlockedMessage);
        }
        authUser := Some(user);
        role := Some(user.role);
        storage := storage[AuthUserKey := json.stringify(user)];
        storage := storage[RoleKey := user.role];
        return LoggedIn(user.role);
      } else {
        return Refused(InvalidMessage);
      }
    }

    /** `logout`: clears the session and both keys, and dispatches the logout event. */
    method Logout() returns (events: nat)
      modifies this
      ensures authUser == None && role == None
      ensures storage == old(storage) - {AuthUserKey, RoleKey}
      ensures users == old(users) && events == 1
    {
      authUser := None;
      role := None;
      storage := storage - {AuthUserKey};
      storage := storage - {RoleKey};
      events := 1;
    }

    /** `register`: `checked` is false when the duplicate-email query fails; `post` is how the
        POST of the new account ends. The session is never changed; an account is created only
        when the email is free and the POST returned a 2xx status. */
    method Register(name: string, email: string, password: string, newId: string, checked: bool, post: FetchOutcome)
      returns (r: RegisterResult)
      modifies this`users
      ensures !checked ==> r == RegisterError(RegisterErrorMessage) && users == old(users)
      ensures checked && EmailTaken(old(users), email) ==>
        r == RegisterError(DuplicateEmailMessage) && users == old(users)
      ensures checked && !EmailTaken(old(users), email) ==>
        match post
        case Resolved(true) => r == Registered && users == old(users) + [NewAccount(newId, name, email, password)]
        case Resolved(false) => r == RegisterError(RegisterFailedMessage) && users == old(users)
        case Rejected => r == RegisterError(RegisterErrorMessage) && users == old(users)
      ensures r == RegisterOutcome(old(users), email, checked, post)
      ensures UniqueEmails(old(users)) ==> UniqueEmails(users)
    {
      if !checked {
        return RegisterError(RegisterErrorMessage);
      }
      if EmailTaken(users, email) {
        return RegisterError(DuplicateEmailMessage);
      }
      match post
      case Rejected =>
        return RegisterError(RegisterErrorMessage);
      case Resolved(ok) =>
        if !ok {
          return RegisterError(RegisterFailedMessage);
        }
        if UniqueEmails(users) {
          RegisterKeepsEmailsUnique(users, NewAccount(newId, name, email, password));
        }
        users := users + [NewAccount(newId, name, email, password)];
        return Registered;
    }

    /** `updateUser`: replaces the user and its stored copy; the role is left as it was. */
    method UpdateUser(updated: User)
      modifies this`authUser, this`storage
      ensures authUser == Some(updated) && role == old(role)
      ensures storage == old(storage)[AuthUserKey := json.stringify(updated)]
    {
      authUser := Some(updated);
      storage := storage[AuthUserKey := json.stringify(updated)];
    }
  }
}
