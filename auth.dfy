/**
 * utils/auth.py: accounts. The users table is keyed by email; the browser
 * session holds at most one logged-in user. bcrypt is a foreign call that
 * may throw; the two wrappers turn every exception into a sentinel and an
 * error message, and never raise.
 */
module Auth {
  import opened Wrappers

  /** What a bcrypt call can raise: passlib's ValueError for a malformed
      hash, or anything else. */
  datatype BcryptError = ValueError | OtherError

  /** The result of a bcrypt call. */
  datatype Bcrypt<T> = Done(value: T) | Threw(error: BcryptError)

  /** The st.error messages of this file. */
  datatype Notice =
    | HashFailed      // "Failed to hash password: ..."
    | InvalidHash     // "Invalid password hash: ..."
    | VerifyFailed    // "Password verification failed: ..."
    | EmailExists     // "Email already exists"
    | InvalidLogin    // "Invalid email or password or account disabled"

  /** A row of the users table, as get_user_by_email returns it. */
  datatype UserRow = UserRow(email: string, phone: string, passwordHash: Option<string>,
                             role: string, merchandiserRegion: string, isActive: bool)

  /** The users table, the session slot and the messages shown so far. */
  datatype State = State(users: map<string, UserRow>, session: Option<UserRow>, notices: seq<Notice>)

  // ----- The bcrypt wrappers -----

  /** hash_password (utils/auth.py:10-21): the hash, or None with an error
      message when bcrypt throws. */
  function HashPassword(bcryptHash: string -> Bcrypt<string>, password: string): (r: (Option<string>, seq<Notice>))
    ensures r.0.Some? <==> bcryptHash(password).Done?
    ensures r.0.Some? ==> r.0.value == bcryptHash(password).value && r.1 == []
    ensures r.0.None? ==> r.1 == [HashFailed]
  {
    match bcryptHash(password)
    case Done(h) => (Some(h), [])
    case Threw(_) => (None, [HashFailed])
  }

  /** verify_password (utils/auth.py:25-40): true only when bcrypt says the
      password matches the stored hash; a missing hash makes bcrypt throw
      something other than ValueError. */
  function VerifyPassword(bcryptVerify: (string, string) -> Bcrypt<bool>, stored: Option<string>, password: string)
    : (r: (bool, seq<Notice>))
    ensures r.0 <==> stored.Some? && bcryptVerify(password, stored.value) == Done(true)
    ensures r.0 ==> r.1 == []
    ensures |r.1| <= 1
  {
    if stored.None? then (false, [VerifyFailed])
    else
      match bcryptVerify(password, stored.value)
      case Done(ok) => (ok, [])
      case Threw(ValueError) => (false, [InvalidHash])
      case Threw(OtherError) => (false, [VerifyFailed])
  }

  // ----- The account operations on states -----

  /** add_user (db/db_utils.py:105-109): an insert that does nothing when
      the email is taken; a new account is active. */
  function AddUser(users: map<string, UserRow>, email: string, phone: string, passwordHash: Option<string>,
                   role: string, merchandiserRegion: string): (r: map<string, UserRow>)
    ensures email in users ==> r == users
    ensures email !in users ==> r == users[email := UserRow(email, phone, passwordHash, role, merchandiserRegion, true)]
  {
    if email in users then users
    else users[email := UserRow(email, phone, passwordHash, role, merchandiserRegion, true)]
  }

  /** ON CONFLICT (email) DO NOTHING makes a repeated add_user a no-op, and
      add_user never changes the row of another email (db/db_utils.py:105-109). */
  lemma AddUserIdempotent(users: map<string, UserRow>, email: string, phone: string, passwordHash: Option<string>,
                          role: string, merchandiserRegion: string,
                          phone': string, passwordHash': Option<string>, role': string, merchandiserRegion': string)
    ensures var once := AddUser(users, email, phone, passwordHash, role, merchandiserRegion);
      && AddUser(once, email, phone', passwordHash', role', merchandiserRegion') == once
      && once.Keys == users.Keys + {email}
      && (forall e | e in users && e != email :: once[e] == users[e])
  {
  }

  /** signup as written (utils/auth.py:50-58): the region and the role go
      to add_user in the wrong order. */
  function SignupStep(s: State, email: string, phone: string, password: string, merchandiserRegion: string, role: string,
                      bcryptHash: string -> Bcrypt<string>): (bool, State)
  {
    if email in s.users then
      (false, s.(notices := s.notices + [EmailExists]))
    else
      var (h, shown) := HashPassword(bcryptHash, password);
      if h.None? then
        (false, s.(notices := s.notices + shown))
      else
        (true, s.(users := AddUser(s.users, email, phone, h, merchandiserRegion, role), notices := s.notices + shown))
  }

  /** login (utils/auth.py:60-67). The password is only checked for an
      existing, active account. */
  function LoginStep(s: State, email: string, password: string, bcryptVerify: (string, string) -> Bcrypt<bool>): (bool, State)
  {
    if email in s.users && s.users[email].isActive then
      var (ok, shown) := VerifyPassword(bcryptVerify, s.users[email].passwordHash, password);
      if ok then (true, s.(session := Some(s.users[email]), notices := s.notices + shown))
      else (false, s.(notices := s.notices + shown + [InvalidLogin]))
    else
      (false, s.(notices := s.notices + [InvalidLogin]))
  }

  /** reset_password (utils/auth.py:69-75): the new hash is written even
      when hashing failed. */
  function ResetStep(s: State, email: string, newPassword: string, bcryptHash: string -> Bcrypt<string>): (bool, State)
  {
    if email in s.users then
      var (h, shown) := HashPassword(bcryptHash, newPassword);
      (true, s.(users := s.users[email := s.users[email].(passwordHash := h)], notices := s.notices + shown))
    else
      (false, s)
  }

  /** logout (utils/auth.py:77-79). */
  function LogoutStep(s: State): State {
    s.(session := None)
  }

  /** signup_form (components/common.py:11-18) calls signup with its role
      in the region slot, so the role parameter keeps its default. */
  function SignupFormStep(s: State, email: string, phone: string, password: string, role: string,
                          bcryptHash: string -> Bcrypt<string>): (bool, State)
  {
    SignupStep(s, email, phone, password, role, "merchandiser", bcryptHash)
  }

  // ----- The accounts as the program holds them -----

  class Accounts {
    var users: map<string, UserRow>
    var session: Option<UserRow>
    var notices: seq<Notice>

    function Snapshot(): State
      reads this
    {
      State(users, session, notices)
    }

    /** A fresh browser session over an existing users table. */
    constructor (table: map<string, UserRow>)
      ensures Snapshot() == State(table, None, [])
    {
      users := table;
      session := None;
      notices := [];
    }

    method Hash(bcryptHash: string -> Bcrypt<string>, password: string) returns (h: Option<string>)
      modifies this
      ensures h == HashPassword(bcryptHash, password).0
      ensures Snapshot() == old(Snapshot()).(notices := old(notices) + HashPassword(bcryptHash, password).1)
    {
      var r := bcryptHash(password);
      if r.Done? {
        h := Some(r.value);
      } else {
        notices := notices + [HashFailed];
        h := None;
      }
    }

    method Verify(bcryptVerify: (string, string) -> Bcrypt<bool>, stored: Option<string>, password: string)
      returns (ok: bool)
      modifies this
      ensures ok == VerifyPassword(bcryptVerify, stored, password).0
      ensures Snapshot() == old(Snapshot()).(notices := old(notices) + VerifyPassword(bcryptVerify, stored, password).1)
    {
      if stored.None? {
        notices := notices + [VerifyFailed];
        return false;
      }
      var r := bcryptVerify(password, stored.value);
      match r {
        case Done(b) => ok := b;
        case Threw(ValueError) =>
          notices := notices + [InvalidHash];
          ok := false;
        case Threw(OtherError) =>
          notices := notices + [VerifyFailed];
          ok := false;
      }
    }

    method Signup(email: string, phone: string, password: string, merchandiserRegion: string, role: string,
                  bcryptHash: string -> Bcrypt<string>) returns (ok: bool)
      modifies this
      ensures (ok, Snapshot()) == SignupStep(old(Snapshot()), email, phone, password, merchandiserRegion, role, bcryptHash)
    {
      if email in users {
        notices := notices + [EmailExists];
        return false;
      }
      var h := Hash(bcryptHash, password);
      if h.None? {
        return false;
      }
      users := AddUser(users, email, phone, h, merchandiserRegion, role);
      ok := true;
    }

    method Login(email: string, password: string, bcryptVerify: (string, string) -> Bcrypt<bool>) returns (ok: bool)
      modifies this
      ensures (ok, Snapshot()) == LoginStep(old(Snapshot()), email, password, bcryptVerify)
    {
      if email in users && users[email].isActive {
        var user := users[email];
        var verified := Verify(bcryptVerify, user.passwordHash, password);
        if verified {
          session := Some(user);
          return true;
        }
      }
      notices := notices + [InvalidLogin];
      ok := false;
    }

    method ResetPassword(email: string, newPassword: string, bcryptHash: string -> Bcrypt<string>) returns (ok: bool)
      modifies this
      ensures (ok, Snapshot()) == ResetStep(old(Snapshot()), email, newPassword, bcryptHash)
    {
      if email in users {
        var h := Hash(bcryptHash, newPassword);
        users := users[email := users[email].(passwordHash := h)];
        return true;
      }
      ok := false;
    }

    method Logout()
      modifies this
      ensures Snapshot() == LogoutStep(old(Snapshot()))
    {
      if session.Some? {
        session := None;
      }
    }
  }

  // ----- What the operations promise -----

  /** signup refuses a taken email and keeps the table; it refuses when
      hashing fails and keeps the table; otherwise it adds exactly the new
      account, active, with the hash bcrypt returned. It never touches the
      session (utils/auth.py:50-58). */
  lemma SignupOutcomes(s: State, email: string, phone: string, password: string, merchandiserRegion: string, role: string,
                       bcryptHash: string -> Bcrypt<string>)
    ensures var (ok, t) := SignupStep(s, email, phone, password, merchandiserRegion, role, bcryptHash);
      && t.session == s.session
      && (ok <==> email !in s.users && bcryptHash(password).Done?)
      && (email in s.users ==> t.users == s.users && t.notices == s.notices + [EmailExists])
      && (!ok ==> t.users == s.users)
      && (ok ==> t.users.Keys == s.users.Keys + {email}
                 && (forall e | e in s.users :: t.users[e] == s.users[e])
                 && t.users[email].passwordHash == Some(bcryptHash(password).value)
                 && t.users[email].isActive && t.users[email].phone == phone)
  {
  }

  /** As written, a successful signup stores the region given as the role
      and the role given as the region (utils/auth.py:57, db/db_utils.py:105). */
  lemma SignupSwapsRoleAndRegion(s: State, email: string, phone: string, password: string, merchandiserRegion: string,
                                 role: string, bcryptHash: string -> Bcrypt<string>)
    requires email !in s.users && bcryptHash(password).Done?
    ensures var t := SignupStep(s, email, phone, password, merchandiserRegion, role, bcryptHash).1;
      t.users[email].role == merchandiserRegion && t.users[email].merchandiserRegion == role
  {
  }

  /** A merchandiser signing up for the region "Lagos" is stored with the
      role "Lagos" and the region "merchandiser". */
  lemma SignupSwapExample(s: State, bcryptHash: string -> Bcrypt<string>)
    requires "ada@example.com" !in s.users && bcryptHash("pw").Done?
    ensures var t := SignupStep(s, "ada@example.com", "08012345678", "pw", "Lagos", "merchandiser", bcryptHash).1;
      t.users["ada@example.com"].role == "Lagos" && t.users["ada@example.com"].role != "merchandiser"
  {
    assert "Lagos"[0] != "merchandiser"[0];
  }

  /** signup_form passes its role in the region slot, and signup swaps the
      two back: the account gets the form's role, and its region is the
      literal "merchandiser" (components/common.py:17, utils/auth.py:50, 57). */
  lemma SignupFormStoresRole(s: State, email: string, phone: string, password: string, role: string,
                             bcryptHash: string -> Bcrypt<string>)
    requires email !in s.users && bcryptHash(password).Done?
    ensures var (ok, t) := SignupFormStep(s, email, phone, password, role, bcryptHash);
      ok && t.users[email].role == role && t.users[email].merchandiserRegion == "merchandiser"
  {
  }

  /** signup with add_user's own argument order. */
  function IntendedSignupStep(s: State, email: string, phone: string, password: string, merchandiserRegion: string,
                              role: string, bcryptHash: string -> Bcrypt<string>): (bool, State)
  {
    if email in s.users then
      (false, s.(notices := s.notices + [EmailExists]))
    else
      var (h, shown) := HashPassword(bcryptHash, password);
      if h.None? then
        (false, s.(notices := s.notices + shown))
      else
        (true, s.(users := AddUser(s.users, email, phone, h, role, merchandiserRegion), notices := s.notices + shown))
  }

  /** With the intended order the account gets the role and the region it
      was signed up with; everything else is as before. */
  lemma IntendedSignupKeepsRoleAndRegion(s: State, email: string, phone: string, password: string,
                                         merchandiserRegion: string, role: string, bcryptHash: string -> Bcrypt<string>)
    ensures var (ok, t) := IntendedSignupStep(s, email, phone, password, merchandiserRegion, role, bcryptHash);
      var (ok', t') := SignupStep(s, email, phone, password, merchandiserRegion, role, bcryptHash);
      && ok == ok' && t.users.Keys == t'.users.Keys && t.notices == t'.notices && t.session == t'.session
      && (ok ==> t.users[email].role == role && t.users[email].merchandiserRegion == merchandiserRegion)
  {
  }

  /** login succeeds exactly for an existing, active account whose stored
      hash bcrypt accepts for the password; then the session holds that
      account. Otherwise the session is untouched and the login error is
      the last message. The table never changes (utils/auth.py:60-67). */
  lemma LoginOutcomes(s: State, email: string, password: string, bcryptVerify: (string, string) -> Bcrypt<bool>)
    ensures var (ok, t) := LoginStep(s, email, password, bcryptVerify);
      && t.users == s.users
      && (ok <==> && email in s.users && s.users[email].isActive && s.users[email].passwordHash.Some?
                  && bcryptVerify(password, s.users[email].passwordHash.value) == Done(true))
      && (ok ==> t.session == Some(s.users[email]) && t.notices == s.notices)
      && (!ok ==> t.session == s.session && |t.notices| > |s.notices| && t.notices[|t.notices| - 1] == InvalidLogin)
  {
  }

  /** A disabled account cannot log in, whatever the password. */
  lemma DisabledCannotLogin(s: State, email: string, password: string, bcryptVerify: (string, string) -> Bcrypt<bool>)
    requires email in s.users && !s.users[email].isActive
    ensures !LoginStep(s, email, password, bcryptVerify).0
  {
  }

  /** reset_password changes nothing for an unknown email; for a known one
      it writes whatever hash_password returned into that account only,
      None included (utils/auth.py:69-75). */
  lemma ResetOutcomes(s: State, email: string, newPassword: string, bcryptHash: string -> Bcrypt<string>)
    ensures var (ok, t) := ResetStep(s, email, newPassword, bcryptHash);
      && (ok <==> email in s.users)
      && (!ok ==> t == s)
      && t.session == s.session && t.users.Keys == s.users.Keys
      && (forall e | e in s.users && e != email :: t.users[e] == s.users[e])
      && (ok ==> t.users[email] == s.users[email].(passwordHash := HashPassword(bcryptHash, newPassword).0))
  {
  }

  /** A reset whose hashing failed stores no hash, and then no password
      logs that account in: the reset locks the user out. */
  lemma FailedResetLocksOut(s: State, email: string, newPassword: string, password: string,
                            bcryptHash: string -> Bcrypt<string>, bcryptVerify: (string, string) -> Bcrypt<bool>)
    requires email in s.users && bcryptHash(newPassword).Threw?
    ensures var (ok, t) := ResetStep(s, email, newPassword, bcryptHash);
      ok && !LoginStep(t, email, password, bcryptVerify).0
  {
  }

  /** A successful signup followed by a login with the same password, when
      bcrypt accepts its own hash, logs the new account in. */
  lemma SignupThenLogin(s: State, email: string, phone: string, password: string, merchandiserRegion: string, role: string,
                        bcryptHash: string -> Bcrypt<string>, bcryptVerify: (string, string) -> Bcrypt<bool>)
    requires email !in s.users && bcryptHash(password).Done?
    requires bcryptVerify(password, bcryptHash(password).value) == Done(true)
    ensures var t := SignupStep(s, email, phone, password, merchandiserRegion, role, bcryptHash).1;
      var (ok, u) := LoginStep(t, email, password, bcryptVerify);
      ok && u.session.Some? && u.session.value.email == email
  {
  }

  /** logout empties the session, keeps everything else, and doing it twice
      is doing it once (utils/auth.py:77-79). */
  lemma LogoutIdempotent(s: State)
    ensures LogoutStep(s).session.None?
    ensures LogoutStep(s).users == s.users && LogoutStep(s).notices == s.notices
    ensures LogoutStep(LogoutStep(s)) == LogoutStep(s)
  {
  }
}
