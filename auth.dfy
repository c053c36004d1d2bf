/**
 * The simulated session (src/context/AuthContext.tsx): the signed-in user, the
 * loading flag, and the copy of the user record the browser keeps under one key.
 * The browser's key-value store is a map from key to user record; a failing write
 * to it (the browser may refuse one) is an input of each operation that writes.
 */
module Auth {
  import opened Wrappers

  datatype Role = UserRole | AdminRole

  function RoleName(r: Role): (name: string)
    ensures name == "admin" <==> r == AdminRole
  {
    match r
    case UserRole => "user"
    case AdminRole => "admin"
  }

  datatype User = User(id: string, name: string, email: string, role: Role)

  /** An entry of the fixed credential table. */
  datatype DummyUser = DummyUser(id: string, name: string, email: string, password: string, role: Role)

  const DummyUsers: seq<DummyUser> := [
    DummyUser("1", "John Doe", "user@example.com", "password", UserRole),
    DummyUser("2", "Admin User", "admin@example.com", "password", AdminRole)
  ]

  /** The key the session record is stored under. */
  const StorageKey: string := "bookmyvenue-user"

  /** The record without its password. */
  function WithoutPassword(d: DummyUser): (u: User)
    ensures u.id == d.id && u.name == d.name && u.email == d.email && u.role == d.role
  {
    User(d.id, d.name, d.email, d.role)
  }

  predicate Matches(d: DummyUser, email: string, password: string)
  {
    d.email == email && d.password == password
  }

  /** `dummyUsers.find(u => u.email === email && u.password === password)`: the first
      entry with that email and that password, if any. */
  function FindUser(users: seq<DummyUser>, email: string, password: string): (r: Option<DummyUser>)
    ensures r.None? <==> forall i :: 0 <= i < |users| ==> !Matches(users[i], email, password)
    ensures r.Some? ==> exists i :: (
      && 0 <= i < |users| && users[i] == r.value
      && Matches(r.value, email, password)
      && forall j :: 0 <= j < i ==> !Matches(users[j], email, password))
  {
    if users == [] then None
    else if Matches(users[0], email, password) then Some(users[0])
    else
      var r := FindUser(users[1..], email, password);
      assert forall i :: 1 <= i < |users| ==> users[i] == users[1..][i - 1];
      if r.Some? then
        var k :| 0 <= k < |users[1..]| && users[1..][k] == r.value
          && forall j :: 0 <= j < k ==> !Matches(users[1..][j], email, password);
        assert users[k + 1] == r.value;
        r
      else
        r
  }

  /** Exactly two credential pairs sign in: the user and the admin account, both with
      the password "password". */
  lemma {:induction false} ValidCredentials(email: string, password: string)
    ensures FindUser(DummyUsers, email, password).Some? <==>
      password == "password" && (email == "user@example.com" || email == "admin@example.com")
    ensures FindUser(DummyUsers, "admin@example.com", "password") == Some(DummyUsers[1])
    ensures FindUser(DummyUsers, "user@example.com", "password") == Some(DummyUsers[0])
  {
    var r := FindUser(DummyUsers, email, password);
    if password == "password" && (email == "user@example.com" || email == "admin@example.com") {
      assert Matches(DummyUsers[if email == "user@example.com" then 0 else 1], email, password);
    }
  }

  datatype AuthError = InvalidCredentials | StorageWriteFailed

  /** The message a thrown error carries. The storage text is a stand-in: in the browser
      the error is a `DOMException` with the browser's own message. */
  function AuthErrorMessage(e: AuthError): string
  {
    match e
    case InvalidCredentials => "Invalid credentials"
    case StorageWriteFailed => "localStorage write failed"
  }

  /** How an async operation settles: resolved, or rejected with an error. */
  datatype Settled = Resolved | Rejected(error: AuthError)

  class AuthProvider {
    var user: Option<User>
    var isLoading: bool
    var storage: map<string, User>

    /** The stored record, when there is one, is the signed-in user, and nothing is loading. */
    ghost predicate Synced()
      reads this
    {
      && !isLoading
      && (StorageKey in storage <==> user.Some?)
      && (user.Some? ==> storage[StorageKey] == user.value)
    }

    /** The provider's first render: no user yet and loading, over whatever the
        browser has kept from earlier visits. */
    constructor (stored: map<string, User>)
      ensures user == None && isLoading && storage == stored
    {
      user := None;
      isLoading := true;
      storage := stored;
    }

    /** The mount effect: a stored record becomes the user; loading ends. */
    method Mount()
      modifies this
      ensures StorageKey in storage ==> user == Some(storage[StorageKey])
      ensures StorageKey !in storage ==> user == old(user)
      ensures !isLoading && storage == old(storage)
      ensures old(user).None? ==> Synced()
    {
      if StorageKey in storage {
        user := Some(storage[StorageKey]);
      }
      isLoading := false;
    }

    /** `!!user`. */
    function IsAuthenticated(): (b: bool)
      reads this
      ensures b <==> user != None
    {
      user.Some?
    }

    /** `user?.role === "admin"`. */
    function IsAdmin(): (b: bool)
      reads this
      ensures b ==> IsAuthenticated()
      ensures b <==> user.Some? && RoleName(user.value.role) == "admin"
    {
      user.Some? && user.value.role == AdminRole
    }

    /** The simulated network delay; it runs only while `isLoading` is set. */
    method AwaitDelay()
      requires isLoading
    {
    }

    /** `localStorage.setItem(key, JSON.stringify(u))`, which the browser may refuse. */
    method StoreUser(u: User, writeFails: bool) returns (settled: Settled)
      modifies this`storage
      ensures writeFails ==> settled == Rejected(StorageWriteFailed) && storage == old(storage)
      ensures !writeFails ==> settled == Resolved && storage == old(storage)[StorageKey := u]
    {
      if writeFails {
        return Rejected(StorageWriteFailed);
      }
      storage := storage[StorageKey := u];
      settled := Resolved;
    }

    /** `login`: with a matching table entry the user becomes that entry without its
        password and is stored; otherwise it rejects with "Invalid credentials" and
        nothing changes. Loading ends either way. */
    method Login(email: string, password: string, writeFails: bool) returns (settled: Settled)
      modifies this
      ensures !isLoading
      ensures FindUser(DummyUsers, email, password).None? ==>
        settled == Rejected(InvalidCredentials) && user == old(user) && storage == old(storage)
      ensures FindUser(DummyUsers, email, password).Some? ==>
        user == Some(WithoutPassword(FindUser(DummyUsers, email, password).value))
      ensures FindUser(DummyUsers, email, password).Some? && writeFails ==>
        settled == Rejected(StorageWriteFailed) && storage == old(storage)
      ensures FindUser(DummyUsers, email, password).Some? && !writeFails ==>
        settled == Resolved && storage == old(storage)[StorageKey := user.value] && Synced()
    {
      isLoading := true;
      AwaitDelay();
      var found := FindUser(DummyUsers, email, password);
      if found.None? {
        settled := Rejected(InvalidCredentials);
      } else {
        var u := WithoutPassword(found.value);
        user := Some(u);
        settled := StoreUser(u, writeFails);
      }
      isLoading := false;
    }

    /** `register`: whatever the input, the user becomes a new "user" account with the
        given name and email and the supplied id (the source takes the clock), and is
        stored. The password is not kept anywhere. Loading ends either way. */
    method Register(name: string, email: string, password: string, newId: string, writeFails: bool)
      returns (settled: Settled)
      modifies this
      ensures !isLoading
      ensures user == Some(User(newId, name, email, UserRole))
      ensures writeFails ==> settled == Rejected(StorageWriteFailed) && storage == old(storage)
      ensures !writeFails ==> settled == Resolved && storage == old(storage)[StorageKey := user.value] && Synced()
    {
      isLoading := true;
      AwaitDelay();
      var u := User(newId, name, email, UserRole);
      user := Some(u);
      settled := StoreUser(u, writeFails);
      isLoading := false;
    }

    /** `logout`: no user, and the stored record is removed. */
    method Logout()
      modifies this
      ensures user == None && storage == old(storage) - {StorageKey}
      ensures isLoading == old(isLoading)
      ensures !isLoading ==> Synced()
    {
      user := None;
      storage := storage - {StorageKey};
    }
  }

  /** A successful login survives a page reload: a fresh provider over the stored
      records restores the same user; a rejected login leaves a fresh visitor signed out. */
  method LoginThenReload(email: string, password: string) returns (before: Option<User>, after: Option<User>)
    ensures FindUser(DummyUsers, email, password).Some? ==> before.Some? && after == before
    ensures FindUser(DummyUsers, email, password).None? ==> before.None? && after.None?
  {
    var first := new AuthProvider(map[]);
    first.Mount();
    var _ := first.Login(email, password, false);
    before := first.user;
    var second := new AuthProvider(first.storage);
    second.Mount();
    after := second.user;
  }

  /** After logging out, a reload finds nobody signed in. */
  method LogoutThenReload(stored: map<string, User>) returns (after: Option<User>)
    ensures after.None?
  {
    var first := new AuthProvider(stored);
    first.Mount();
    first.Logout();
    var second := new AuthProvider(first.storage);
    second.Mount();
    after := second.user;
  }
}
