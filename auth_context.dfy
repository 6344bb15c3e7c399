/** The sign-in state shared by the pages: the current user, the `'user'`
    entry of the browser's local storage that keeps it across visits, and the
    users table that `login` and `signup` query. */
module AuthContext {
  import opened Basics
  import opened Records

  /** The user object the context hands out (`id`, `name`, `email`, `role`). */
  datatype User = User(id: int, name: string, email: string, role: Role)

  /** A row of the users table as `login` and `signup` see it. */
  datatype Account = Account(id: int, name: string, email: string, password: string, role: Role)

  /** A local-storage value: the JSON text of a user, or text that
      `JSON.parse` rejects. JSON itself is not modelled. */
  datatype Stored = Serialized(user: User) | Unparsable(text: string)

  const UserKey: string := "user"

  /** The columns `SELECT id, name, email, role` reads from a row. */
  function UserOf(a: Account): (u: User)
    ensures u.id == a.id && u.name == a.name && u.email == a.email
    ensures IsAdmin(Some(u)) <==> a.role == AdminRole
  {
    User(a.id, a.name, a.email, a.role)
  }

  /** No two rows share an email. */
  ghost predicate EmailsUnique(accounts: seq<Account>) {
    forall i, j :: 0 <= i < j < |accounts| ==> accounts[i].email != accounts[j].email
  }

  /** `SELECT id, name, email, role FROM Users WHERE email = ? AND password = ?`. */
  function LoginRows(accounts: seq<Account>, email: string, password: string): (rows: seq<Account>)
    ensures forall a :: a in rows <==> a in accounts && a.email == email && a.password == password
  {
    Filter((a: Account) => a.email == email && a.password == password, accounts)
  }

  /** `SELECT id FROM Users WHERE email = ?`. */
  function EmailRows(accounts: seq<Account>, email: string): (rows: seq<Account>)
    ensures forall a :: a in rows <==> a in accounts && a.email == email
  {
    Filter((a: Account) => a.email == email, accounts)
  }

  /** With unique emails, at most one row matches an email, so `users[0]` is
      the only account with these credentials. */
  lemma {:induction false} LoginRowIsUnique(accounts: seq<Account>, email: string, password: string)
    requires EmailsUnique(accounts)
    ensures |LoginRows(accounts, email, password)| <= 1
    decreases |accounts|
  {
    if accounts != [] {
      var rest := accounts[1..];
      assert EmailsUnique(rest) by {
        forall i, j | 0 <= i < j < |rest| ensures rest[i].email != rest[j].email {
          assert rest[i] == accounts[i + 1] && rest[j] == accounts[j + 1];
        }
      }
      LoginRowIsUnique(rest, email, password);
      var p := (a: Account) => a.email == email && a.password == password;
      assert accounts == [accounts[0]] + rest;
      FilterAppend(p, [accounts[0]], rest);
      if p(accounts[0]) {
        FilterNone(p, rest) by {
          forall i | 0 <= i < |rest| ensures !p(rest[i]) {
            assert rest[i] == accounts[i + 1];
          }
        }
      }
    }
  }

  /** A row whose email is new keeps the emails unique. */
  lemma AppendFreshEmail(accounts: seq<Account>, a: Account)
    requires EmailsUnique(accounts)
    requires EmailRows(accounts, a.email) == []
    ensures EmailsUnique(accounts + [a])
  {
    var r := accounts + [a];
    forall i, j | 0 <= i < j < |r| ensures r[i].email != r[j].email {
      if j == |accounts| {
        assert r[i] in accounts;
        assert r[i] !in EmailRows(accounts, a.email);
      }
    }
  }

  /** `isAdmin`: a user is signed in and has the admin role. */
  predicate IsAdmin(user: Option<User>): (admin: bool)
    ensures user.None? ==> !admin
    ensures user.Some? && user.value.role == UserRole ==> !admin
    ensures user.Some? && user.value.role == AdminRole ==> admin
  {
    user.Some? && user.value.role == AdminRole
  }

  class AuthProvider {
    var user: Option<User>
    var loading: bool
    var storage: map<string, Stored>
    /** The users table. */
    var accounts: seq<Account>
    /** The id the table gives its next row. */
    var nextUserId: int

    ghost predicate Valid()
      reads this
    {
      EmailsUnique(accounts) && nextUserId >= 1
    }

    /** A fresh provider: nobody signed in, still loading. */
    constructor (accounts0: seq<Account>, storage0: map<string, Stored>, nextUserId0: int)
      requires EmailsUnique(accounts0) && nextUserId0 >= 1
      ensures Valid()
      ensures user == None && loading
      ensures storage == storage0 && accounts == accounts0 && nextUserId == nextUserId0
    {
      user := None;
      loading := true;
      storage := storage0;
      accounts := accounts0;
      nextUserId := nextUserId0;
    }

    /** The mount effect: a stored user is restored; text that does not parse
        is removed; an empty string counts as nothing stored. */
    method Restore()
      modifies this
      ensures !loading
      ensures accounts == old(accounts) && nextUserId == old(nextUserId)
      ensures UserKey in old(storage) && old(storage)[UserKey].Serialized? ==>
        user == Some(old(storage)[UserKey].user) && storage == old(storage)
      ensures UserKey in old(storage) && old(storage)[UserKey].Unparsable? && old(storage)[UserKey].text != "" ==>
        user == old(user) && storage == old(storage) - {UserKey}
      ensures (UserKey !in old(storage) || old(storage)[UserKey] == Unparsable("")) ==>
        user == old(user) && storage == old(storage)
    {
      if UserKey in storage && storage[UserKey] != Unparsable("") {
        match storage[UserKey]
        case Serialized(u) =>
          user := Some(u);
        case Unparsable(_) =>
          storage := storage - {UserKey};
      }
      loading := false;
    }

    /** `login(email, password)`; `fails` stands for the query throwing. */
    method Login(email: string, password: string, fails: bool) returns (ok: bool)
      modifies this
      ensures accounts == old(accounts) && nextUserId == old(nextUserId) && loading == old(loading)
      ensures ok <==> !fails && LoginRows(old(accounts), email, password) != []
      ensures !ok ==> user == old(user) && storage == old(storage)
      ensures ok ==>
        var signedIn := UserOf(LoginRows(old(accounts), email, password)[0]);
        user == Some(signedIn) && storage == old(storage)[UserKey := Serialized(signedIn)]
    {
      if fails {
        return false;
      }
      var rows := LoginRows(accounts, email, password);
      if |rows| == 0 {
        return false;
      }
      var signedIn := UserOf(rows[0]);
      user := Some(signedIn);
      storage := storage[UserKey := Serialized(signedIn)];
      return true;
    }

    /** `signup(name, email, password)`. `checkFails` and `insertFails` stand
        for the two queries throwing; `reportsId` says whether the insert
        result carries the new id. */
    method Signup(name: string, email: string, password: string,
                  checkFails: bool, insertFails: bool, reportsId: bool) returns (ok: bool)
      requires Valid()
      modifies this
      ensures Valid() && loading == old(loading)
      ensures checkFails || EmailRows(old(accounts), email) != [] || insertFails ==>
        accounts == old(accounts) && nextUserId == old(nextUserId)
      ensures !checkFails && EmailRows(old(accounts), email) == [] && !insertFails ==>
        && accounts == old(accounts) + [Account(old(nextUserId), name, email, password, UserRole)]
        && nextUserId == old(nextUserId) + 1
      ensures ok <==> !checkFails && EmailRows(old(accounts), email) == [] && !insertFails && reportsId
      ensures !ok ==> user == old(user) && storage == old(storage)
      ensures ok ==>
        var created := User(old(nextUserId), name, email, UserRole);
        user == Some(created) && storage == old(storage)[UserKey := Serialized(created)]
        && !IsAdmin(user)
    {
      if checkFails {
        return false;
      }
      var existing := EmailRows(accounts, email);
      if |existing| > 0 {
        return false;
      }
      if insertFails {
        return false;
      }
      var id := nextUserId;
      AppendFreshEmail(accounts, Account(id, name, email, password, UserRole));
      accounts := accounts + [Account(id, name, email, password, UserRole)];
      nextUserId := nextUserId + 1;
      var newUserId := if reportsId then Number(id) else Missing;
      if !Truthy(newUserId) {
        return false;
      }
      var created := User(id, name, email, UserRole);
      user := Some(created);
      storage := storage[UserKey := Serialized(created)];
      return true;
    }

    /** `logout()`: nobody signed in, and the stored user is gone. */
    method Logout()
      modifies this
      ensures user == None && storage == old(storage) - {UserKey} && !IsAdmin(user)
      ensures accounts == old(accounts) && nextUserId == old(nextUserId) && loading == old(loading)
    {
      user := None;
      storage := storage - {UserKey};
    }
  }
}
