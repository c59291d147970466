/** The role-based authentication manager: registration with validation
    and security questions, login with role enforcement, logout, and
    password recovery. The user table is a map from username to record (the
    username column is unique), the audit table a sequence of entries, and
    the password hash a record of the salt drawn and the password it was
    made from, so that checking a password against it succeeds exactly for
    that password. */
module Auth {
  import opened Py
  import opened Text
  import Validators

  const Roles: set<string> := {"student", "teacher"}

  // ---------------------------------------------------------------- passwords

  datatype Hash = Hash(salt: nat, password: string)

  /** `hash_password`: the salt is drawn by the caller. */
  function HashPassword(password: string, salt: nat): (h: Hash)
    ensures VerifyPassword(password, h)
  {
    Hash(salt, password)
  }

  /** `verify_password`. */
  predicate VerifyPassword(password: string, h: Hash)
  {
    h.password == password
  }

  /** Two hashes of one password differ in their salts, and both check
      that password and no other. */
  lemma HashFacts(p: string, q: string, salt1: nat, salt2: nat)
    ensures VerifyPassword(q, HashPassword(p, salt1)) <==> q == p
    ensures salt1 != salt2 ==> HashPassword(p, salt1) != HashPassword(p, salt2)
  {
  }

  // ---------------------------------------------------------------- answers

  /** Python truthiness of an optional string argument. */
  predicate Given(s: Option<string>)
  {
    s.Some? && s.value != []
  }

  /** `answer.lower().strip()`. */
  function Normalise(answer: string): string
  {
    Strip(Lower(answer))
  }

  lemma StripIdempotent(s: string)
    ensures Strip(Strip(s)) == Strip(s)
  {
    var t := Strip(s);
    assert StripLeft(t) == t;
    assert StripRight(t) == t;
  }

  /** `Strip(s)` is a slice of `s`. */
  lemma StripIsSlice(s: string) returns (i: nat, j: nat)
    ensures i <= j <= |s| && Strip(s) == s[i..j]
  {
    var l := StripLeft(s);
    i := |s| - |l|;
    j := i + |StripRight(l)|;
    assert Strip(s) == l[..j - i];
  }

  /** A slice of a lower-cased string is already lower-case. */
  lemma LowerOfLowered(a: string, i: nat, j: nat)
    requires i <= j <= |a|
    ensures Lower(Lower(a)[i..j]) == Lower(a)[i..j]
  {
    var t := Lower(a)[i..j];
    forall k | 0 <= k < |t| ensures Lower(t)[k] == t[k] {
      assert t[k] == LowerChar(a[i + k]);
    }
  }

  /** Normalising twice is normalising once, so an answer stored
      normalised compares equal to the answer it was made from. */
  lemma NormaliseIdempotent(a: string)
    ensures Normalise(Normalise(a)) == Normalise(a)
  {
    var b := Lower(a);
    var i, j := StripIsSlice(b);
    LowerOfLowered(a, i, j);
    StripIdempotent(b);
  }

  // ---------------------------------------------------------------- records

  datatype User = User(
    id: nat,
    role: string,
    username: string,
    passwordHash: Hash,
    displayName: string,
    email: Option<string>,
    question1: Option<string>,
    answer1: Option<string>,
    question2: Option<string>,
    answer2: Option<string>)

  datatype AuditEntry = AuditEntry(userId: nat, action: string, detail: Option<string>)

  /** The `(ok, message)` pair the manager's methods return. */
  datatype Reply = Reply(ok: bool, message: string)

  /** What the manager keeps true of its store: each record sits under its
      own username, which is at least three characters long; ids are below the next id and
      distinct; each record has a role of the table and a first security
      question and answer. */
  predicate StoreValid(users: map<string, User>, nextId: nat)
  {
    && (forall name :: name in users ==> RecordValid(name, users[name], nextId))
    && (forall a, b :: a in users && b in users && a != b ==> users[a].id != users[b].id)
  }

  predicate RecordValid(name: string, u: User, nextId: nat)
  {
    && u.username == name
    && |name| >= 3
    && u.id < nextId
    && u.role in Roles
    && Given(u.question1) && u.answer1.Some?
  }

  // ---------------------------------------------------------------- register

  /** The checks `register` makes before it looks at the store, in order:
      the message of the first that fails, or `None` when all pass. */
  function RegistrationError(username: string, password: string, role: string,
                             question1: Option<string>, answer1: Option<string>): (r: Option<string>)
    ensures r.Some? ==> r.value != []
    ensures r == None <==>
      && Validators.ValidateUsername(username).ok
      && Validators.ValidatePassword(password).ok
      && Given(question1) && Given(answer1)
      && role in Roles
  {
    var u := Validators.ValidateUsername(username);
    if !u.ok then Some(u.message)
    else
      var p := Validators.ValidatePassword(password);
      if !p.ok then Some(p.message)
      else if !Given(question1) || !Given(answer1) then Some("Security question is required")
      else if role !in Roles then Some("Invalid role")
      else None
  }

  /** The record `register` creates. */
  function NewUser(id: nat, username: string, password: string, salt: nat, role: string,
                   displayName: Option<string>, email: Option<string>,
                   question1: Option<string>, answer1: Option<string>,
                   question2: Option<string>, answer2: Option<string>): (u: User)
    ensures u.id == id && u.username == username && u.role == role
    ensures VerifyPassword(password, u.passwordHash)
  {
    User(id, role, username, HashPassword(password, salt),
         if Given(displayName) then displayName.value else username,
         email,
         question1, if Given(answer1) then Some(Normalise(answer1.value)) else None,
         question2, if Given(answer2) then Some(Normalise(answer2.value)) else None)
  }

  // ---------------------------------------------------------------- login

  /** How far a login gets: refused with a message before the password is
      checked, failed on the password, or accepted. */
  datatype LoginStep = Refused(message: string) | WrongPassword(user: User) | Accepted(user: User)

  function RoleMismatch(role: string): string
  {
    "This account is registered as a " + role + ". Please use the " + Title(role) + " Login tab."
  }

  /** The checks `login` makes, in order. */
  function LoginOutcome(users: map<string, User>, username: string, password: string,
                        expectedRole: Option<string>): LoginStep
  {
    if username == [] || password == [] then Refused("Username and password are required")
    else if username !in users then Refused("No account found with this username")
    else
      var user := users[username];
      if Given(expectedRole) && user.role != expectedRole.value then Refused(RoleMismatch(user.role))
      else if !VerifyPassword(password, user.passwordHash) then WrongPassword(user)
      else Accepted(user)
  }

  /** A login is accepted exactly when both fields are filled in, the
      account exists, its role is the expected one (when one is expected)
      and the password checks; it reaches the password check exactly when
      all but the last hold. */
  lemma LoginAccepted(users: map<string, User>, username: string, password: string, expectedRole: Option<string>)
    ensures var o := LoginOutcome(users, username, password, expectedRole);
      && (o.Accepted? <==>
            username != [] && password != [] && username in users
            && (!Given(expectedRole) || users[username].role == expectedRole.value)
            && VerifyPassword(password, users[username].passwordHash))
      && (!o.Refused? <==>
            username != [] && password != [] && username in users
            && (!Given(expectedRole) || users[username].role == expectedRole.value))
      && (!o.Refused? ==> o.user == users[username])
  {
  }

  /** The role is checked before the password: a login on the wrong tab is
      refused with the account's role, whatever password is typed. */
  lemma RoleCheckedFirst(users: map<string, User>, username: string, password: string, expected: string)
    requires username != [] && password != [] && username in users
    requires expected != [] && users[username].role != expected
    ensures LoginOutcome(users, username, password, Some(expected)) == Refused(RoleMismatch(users[username].role))
  {
  }

  /** The tab names the role-mismatch message gives for the two roles. */
  lemma RoleTabNames()
    ensures Title("student") == "Student" && Title("teacher") == "Teacher"
  {
    var s := Title("student");
    assert s[0] == 'S' && s[1] == 't' && s[2] == 'u' && s[3] == 'd' && s[4] == 'e' && s[5] == 'n' && s[6] == 't';
    var t := Title("teacher");
    assert t[0] == 'T' && t[1] == 'e' && t[2] == 'a' && t[3] == 'c' && t[4] == 'h' && t[5] == 'e' && t[6] == 'r';
  }

  // ---------------------------------------------------------------- recovery

  datatype Questions = Questions(ok: bool, message: string, question1: Option<string>, question2: Option<string>)

  /** `get_security_questions`. */
  function SecurityQuestions(users: map<string, User>, username: string): (r: Questions)
    ensures r.ok <==> username in users && Given(users[username].question1)
    ensures r.ok ==> r.question1 == users[username].question1 && r.question2 == users[username].question2
    ensures !r.ok ==> r.question1 == None && r.question2 == None
  {
    if username !in users then Questions(false, "No account found with this username", None, None)
    else
      var user := users[username];
      if !Given(user.question1) then Questions(false, "No security questions set for this account", None, None)
      else Questions(true, "Questions found", user.question1, user.question2)
  }

  /** `verify_security_answers`: answers are compared lower-cased and
      stripped; the second is checked only when the account has both a
      second question and a second answer. */
  function SecurityAnswers(users: map<string, User>, username: string, answer1: string, answer2: Option<string>): (r: Reply)
    ensures r.ok <==> r.message == "Answers verified"
  {
    if username !in users then Reply(false, "No account found with this username")
    else
      var user := users[username];
      if !Given(user.answer1) then Reply(false, "No security answers set")
      else if Normalise(answer1) != Normalise(user.answer1.value) then Reply(false, "Security answer does not match")
      else if Given(user.question2) && Given(user.answer2)
              && (!Given(answer2) || Normalise(answer2.value) != Normalise(user.answer2.value))
      then Reply(false, "Security answers do not match")
      else Reply(true, "Answers verified")
  }

  /** The answers pass exactly when the first matches after normalising and,
      if the account has a second question and answer, a non-empty second
      answer matches too. */
  lemma SecurityAnswersAccepted(users: map<string, User>, username: string, answer1: string, answer2: Option<string>)
    ensures SecurityAnswers(users, username, answer1, answer2).ok <==>
      && username in users
      && Given(users[username].answer1)
      && Normalise(answer1) == Normalise(users[username].answer1.value)
      && (Given(users[username].question2) && Given(users[username].answer2) ==>
            Given(answer2) && Normalise(answer2.value) == Normalise(users[username].answer2.value))
  {
  }

  /** Answers that normalise alike are interchangeable: the check ignores
      ASCII case and surrounding white space. */
  lemma SecurityAnswersNormalised(users: map<string, User>, username: string, a: string, b: string, answer2: Option<string>)
    requires Normalise(a) == Normalise(b)
    ensures SecurityAnswers(users, username, a, answer2) == SecurityAnswers(users, username, b, answer2)
  {
  }

  // ---------------------------------------------------------------- the manager

  class AuthManager {
    /** The user table, by username. */
    var users: map<string, User>
    /** The audit table, oldest first. */
    var audit: seq<AuditEntry>
    /** The id the next new record receives. */
    var nextId: nat
    var currentUser: Option<User>

    predicate Valid()
      reads this
    {
      StoreValid(users, nextId)
    }

    /** A manager over an empty store. */
    constructor()
      ensures users == map[] && audit == [] && nextId == 1 && currentUser == None
      ensures Valid()
    {
      users := map[];
      audit := [];
      nextId := 1;
      currentUser := None;
    }

    /** `register`: the validation failures and an existing username leave
        everything as it was; success stores the record, logs it and logs
        the new user in. */
    method Register(username: string, password: string, role: string,
                    displayName: Option<string>, email: Option<string>,
                    question1: Option<string>, answer1: Option<string>,
                    question2: Option<string>, answer2: Option<string>, salt: nat) returns (r: Reply)
      modifies this
      ensures var err := RegistrationError(username, password, role, question1, answer1);
        if err.Some? then r == Reply(false, err.value) && unchanged(this)
        else if username in old(users) then
          r == Reply(false, "An account with this username already exists") && unchanged(this)
        else
          var u := NewUser(old(nextId), username, password, salt, role, displayName, email,
                           question1, answer1, question2, answer2);
          && r == Reply(true, "Account created successfully")
          && users == old(users)[username := u]
          && audit == old(audit) + [AuditEntry(u.id, "register", Some("New " + role + " account created"))]
          && nextId == old(nextId) + 1
          && currentUser == Some(u)
      ensures old(Valid()) ==> Valid()
    {
      var err := RegistrationError(username, password, role, question1, answer1);
      if err.Some? {
        return Reply(false, err.value);
      }
      if username in users {
        return Reply(false, "An account with this username already exists");
      }
      var u := NewUser(nextId, username, password, salt, role, displayName, email,
                       question1, answer1, question2, answer2);
      if Valid() {
        RegisterKeepsValid(users, nextId, u, password, salt, displayName, email, question1, answer1, question2, answer2);
      }
      Admit(u, AuditEntry(u.id, "register", Some("New " + role + " account created")));
      r := Reply(true, "Account created successfully");
    }

    /** Stores a new record under its username, logs `entry` and logs the
        new user in. */
    method Admit(u: User, entry: AuditEntry)
      modifies this
      ensures users == old(users)[u.username := u] && audit == old(audit) + [entry]
      ensures nextId == old(nextId) + 1 && currentUser == Some(u)
    {
      users := users[u.username := u];
      nextId := nextId + 1;
      audit := audit + [entry];
      currentUser := Some(u);
    }

    /** `login`: a refusal changes nothing; a check of the password logs
        one entry, and only success sets the current user. */
    method Login(username: string, password: string, expectedRole: Option<string>) returns (r: Reply)
      modifies this
      ensures users == old(users) && nextId == old(nextId)
      ensures match LoginOutcome(old(users), username, password, expectedRole)
        case Refused(m) =>
          r == Reply(false, m) && audit == old(audit) && currentUser == old(currentUser)
        case WrongPassword(u) =>
          && r == Reply(false, "Incorrect password")
          && audit == old(audit) + [AuditEntry(u.id, "login_failed", None)]
          && currentUser == old(currentUser)
        case Accepted(u) =>
          && r == Reply(true, "Login successful")
          && audit == old(audit) + [AuditEntry(u.id, "login_success", None)]
          && currentUser == Some(u)
    {
      if username == [] || password == [] {
        return Reply(false, "Username and password are required");
      }
      if username !in users {
        return Reply(false, "No account found with this username");
      }
      var user := users[username];
      if Given(expectedRole) && user.role != expectedRole.value {
        return Reply(false, RoleMismatch(user.role));
      }
      if !VerifyPassword(password, user.passwordHash) {
        audit := audit + [AuditEntry(user.id, "login_failed", None)];
        return Reply(false, "Incorrect password");
      }
      audit := audit + [AuditEntry(user.id, "login_success", None)];
      currentUser := Some(user);
      r := Reply(true, "Login successful");
    }

    /** `logout`: nobody is logged in afterwards; an entry is logged only
        when somebody was. */
    method Logout()
      modifies this
      ensures currentUser == None && users == old(users) && nextId == old(nextId)
      ensures audit == if old(currentUser).Some? then old(audit) + [AuditEntry(old(currentUser).value.id, "logout", None)]
                       else old(audit)
    {
      if currentUser.Some? {
        audit := audit + [AuditEntry(currentUser.value.id, "logout", None)];
      }
      currentUser := None;
    }

    function IsAuthenticated(): (b: bool)
      reads this
      ensures b <==> currentUser.Some?
    {
      currentUser.Some?
    }

    function GetSecurityQuestions(username: string): (r: Questions)
      reads this
      ensures r == SecurityQuestions(users, username)
    {
      SecurityQuestions(users, username)
    }

    function VerifySecurityAnswers(username: string, answer1: string, answer2: Option<string>): (r: Reply)
      reads this
      ensures r == SecurityAnswers(users, username, answer1, answer2)
    {
      SecurityAnswers(users, username, answer1, answer2)
    }

    /** `reset_password`: the new password is validated first; success
        replaces the hash of that one record and logs it. */
    method ResetPassword(username: string, newPassword: string, salt: nat) returns (r: Reply)
      modifies this
      ensures var v := Validators.ValidatePassword(newPassword);
        if !v.ok then r == Reply(false, v.message) && unchanged(this)
        else if username !in old(users) then r == Reply(false, "No account found with this username") && unchanged(this)
        else
          && r == Reply(true, "Password reset successfully")
          && users == old(users)[username := old(users)[username].(passwordHash := HashPassword(newPassword, salt))]
          && audit == old(audit) + [AuditEntry(old(users)[username].id, "password_reset", None)]
          && nextId == old(nextId) && currentUser == old(currentUser)
      ensures old(Valid()) ==> Valid()
    {
      var v := Validators.ValidatePassword(newPassword);
      if !v.ok {
        return Reply(false, v.message);
      }
      if username !in users {
        return Reply(false, "No account found with this username");
      }
      var user := users[username];
      if Valid() {
        ResetKeepsValid(users, nextId, username, HashPassword(newPassword, salt));
      }
      users := users[username := user.(passwordHash := HashPassword(newPassword, salt))];
      audit := audit + [AuditEntry(user.id, "password_reset", None)];
      r := Reply(true, "Password reset successfully");
    }
  }

  // ---------------------------------------------------------------- invariants

  /** A registration that passes its checks keeps the store valid. */
  lemma RegisterKeepsValid(users: map<string, User>, nextId: nat, u: User, password: string, salt: nat,
                           displayName: Option<string>, email: Option<string>,
                           question1: Option<string>, answer1: Option<string>,
                           question2: Option<string>, answer2: Option<string>)
    requires StoreValid(users, nextId)
    requires RegistrationError(u.username, password, u.role, question1, answer1) == None
    requires u.username !in users
    requires u == NewUser(nextId, u.username, password, salt, u.role, displayName, email,
                          question1, answer1, question2, answer2)
    ensures StoreValid(users[u.username := u], nextId + 1)
  {
    Validators.UsernameAccepted(u.username);
    assert RecordValid(u.username, u, nextId + 1);
    InsertKeepsValid(users, nextId, u);
  }

  /** Adding a valid record under a new username, with the next id, keeps
      the store valid. */
  lemma InsertKeepsValid(users: map<string, User>, nextId: nat, u: User)
    requires StoreValid(users, nextId) && u.username !in users
    requires RecordValid(u.username, u, nextId + 1) && u.id == nextId
    ensures StoreValid(users[u.username := u], nextId + 1)
  {
    var after := users[u.username := u];
    forall name | name in after ensures RecordValid(name, after[name], nextId + 1) {
      if name != u.username {
        assert RecordValid(name, users[name], nextId);
      }
    }
    forall a, b | a in after && b in after && a != b ensures after[a].id != after[b].id {
      if a == u.username {
        assert RecordValid(b, users[b], nextId);
      } else if b == u.username {
        assert RecordValid(a, users[a], nextId);
      }
    }
  }

  /** Replacing one record's hash keeps the store valid. */
  lemma ResetKeepsValid(users: map<string, User>, nextId: nat, username: string, h: Hash)
    requires StoreValid(users, nextId) && username in users
    ensures StoreValid(users[username := users[username].(passwordHash := h)], nextId)
  {
    var after := users[username := users[username].(passwordHash := h)];
    assert RecordValid(username, users[username], nextId);
    forall name | name in after ensures RecordValid(name, after[name], nextId) {
      assert RecordValid(name, users[name], nextId);
    }
    forall a, b | a in after && b in after && a != b ensures after[a].id != after[b].id {
      assert after[a].id == users[a].id && after[b].id == users[b].id;
    }
  }

  // ---------------------------------------------------------------- round trips

  /** After a successful registration the new account logs in with its
      password, on its own role's tab or with no tab given. */
  lemma RegisteredCanLogIn(users: map<string, User>, nextId: nat, username: string, password: string, salt: nat,
                          role: string, displayName: Option<string>, email: Option<string>,
                          question1: Option<string>, answer1: Option<string>,
                          question2: Option<string>, answer2: Option<string>)
    requires RegistrationError(username, password, role, question1, answer1) == None
    requires username !in users
    ensures var u := NewUser(nextId, username, password, salt, role, displayName, email,
                             question1, answer1, question2, answer2);
      && LoginOutcome(users[username := u], username, password, Some(role)) == Accepted(u)
      && LoginOutcome(users[username := u], username, password, None) == Accepted(u)
  {
  }

  /** The registered answers pass the security check however they are
      typed later, in any ASCII case and with any surrounding blanks, unless
      the first is white space only: it is accepted at registration but
      stored empty, and the check then always refuses with "No security
      answers set". */
  lemma RegisteredAnswersVerify(users: map<string, User>, nextId: nat, username: string, password: string, salt: nat,
                                role: string, question1: Option<string>, answer1: Option<string>,
                                question2: Option<string>, answer2: Option<string>,
                                typed1: string, typed2: Option<string>)
    requires RegistrationError(username, password, role, question1, answer1) == None
    requires Normalise(typed1) == Normalise(answer1.value)
    requires Given(answer2) && Normalise(answer2.value) != [] ==>
      typed2.Some? && Normalise(typed2.value) == Normalise(answer2.value)
    ensures var u := NewUser(nextId, username, password, salt, role, None, None,
                             question1, answer1, question2, answer2);
      var r := SecurityAnswers(users[username := u], username, typed1, typed2);
      && (Normalise(answer1.value) != [] ==> r.ok)
      && (Normalise(answer1.value) == [] ==> r == Reply(false, "No security answers set"))
  {
    var u := NewUser(nextId, username, password, salt, role, None, None,
                     question1, answer1, question2, answer2);
    StoredAnswersVerify(users[username := u], username, answer1.value, answer2, typed1, typed2);
  }

  /** Answers stored normalised pass the check against any answers that
      normalise like the ones they were made from, unless the first is
      stored empty. */
  lemma StoredAnswersVerify(after: map<string, User>, username: string, a1: string, a2: Option<string>,
                            typed1: string, typed2: Option<string>)
    requires username in after
    requires after[username].answer1 == Some(Normalise(a1))
    requires after[username].answer2 == if Given(a2) then Some(Normalise(a2.value)) else None
    requires Normalise(typed1) == Normalise(a1)
    requires Given(a2) && Normalise(a2.value) != [] ==> typed2.Some? && Normalise(typed2.value) == Normalise(a2.value)
    ensures var r := SecurityAnswers(after, username, typed1, typed2);
      && (Normalise(a1) != [] ==> r.ok)
      && (Normalise(a1) == [] ==> r == Reply(false, "No security answers set"))
  {
    var u := after[username];
    if Normalise(a1) == [] {
      assert !Given(u.answer1);
    } else {
      assert SecurityAnswers(after, username, typed1, typed2).ok by {
        TypedMatchesStored(a1, typed1);
        if Given(u.question2) && Given(u.answer2) {
          TypedMatchesStored(a2.value, typed2.value);
        }
        SecurityAnswersAccepted(after, username, typed1, typed2);
      }
    }
  }

  /** An answer typed like the original matches the original as stored. */
  lemma TypedMatchesStored(original: string, typed: string)
    requires Normalise(typed) == Normalise(original)
    ensures Normalise(typed) == Normalise(Normalise(original))
    ensures Normalise(original) != [] ==> typed != []
  {
    NormaliseIdempotent(original);
  }

  /** After a password reset, login with the new password succeeds on the
      account's own tab, any other password fails, and every other account
      logs in exactly as before. */
  lemma ResetThenLogIn(users: map<string, User>, nextId: nat, username: string, other: string,
                      newPassword: string, salt: nat)
    requires StoreValid(users, nextId) && username in users
    requires Validators.ValidatePassword(newPassword).ok
    ensures var after := users[username := users[username].(passwordHash := HashPassword(newPassword, salt))];
      && LoginOutcome(after, username, newPassword, Some(users[username].role)).Accepted?
      && (other != newPassword ==> !LoginOutcome(after, username, other, None).Accepted?)
      && (forall v, p, e :: v != username ==> LoginOutcome(after, v, p, e) == LoginOutcome(users, v, p, e))
  {
    assert RecordValid(username, users[username], nextId);
  }
}
