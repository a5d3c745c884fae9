/** The authentication store: a registry of users kept in `idc-users`, and
    the single logged-in user kept in `idc-current`. */
module Auth {
  import opened Common
  import opened Storage

  datatype User = User(username: string, password: string, role: string)

  /** What is remembered of the logged-in user. */
  datatype Session = Session(username: string, role: string)

  /** The message `register` throws for a username already registered. */
  const TakenMessage := "用户名已存在"

  predicate Taken(users: seq<User>, username: string) {
    exists i :: 0 <= i < |users| && users[i].username == username
  }

  /** No two registered users share a username. */
  predicate UniqueNames(users: seq<User>) {
    forall i, j :: 0 <= i < j < |users| ==> users[i].username != users[j].username
  }

  predicate Matches(u: User, username: string, password: string) {
    u.username == username && u.password == password
  }

  /** `users.find(u => u.username === username && u.password === password)`:
      the first user with both the username and the password, if any. */
  function FindLogin(users: seq<User>, username: string, password: string): (r: Option<User>)
    ensures r.Some? <==> exists i :: 0 <= i < |users| && Matches(users[i], username, password)
    ensures r.Some? ==> Matches(r.value, username, password)
    ensures r.Some? ==> exists i :: (0 <= i < |users| && users[i] == r.value
      && forall k :: 0 <= k < i ==> !Matches(users[k], username, password))
  {
    if users == [] then None
    else if Matches(users[0], username, password) then Some(users[0])
    else
      var r := FindLogin(users[1..], username, password);
      assert forall k :: 1 <= k < |users| ==> users[k] == users[1..][k - 1];
      r
  }

  class AuthStore {
    const usersSlot: Slot<seq<User>>
    /** The stored current user; `JSON.parse` of the text `null` is `None`. */
    const currentSlot: Slot<Option<Session>>
    var users: seq<User>
    var user: Option<Session>

    constructor (usersSlot: Slot<seq<User>>, currentSlot: Slot<Option<Session>>)
      ensures this.usersSlot == usersSlot && this.currentSlot == currentSlot
      ensures users == [] && user == None
    {
      this.usersSlot := usersSlot;
      this.currentSlot := currentSlot;
      users := [];
      user := None;
    }

    /** `load`: each slot independently; an absent slot keeps the field, one
        that fails to parse resets it. */
    method Load()
      modifies this
      ensures match old(usersSlot.content)
        case None => users == old(users)
        case Some(Malformed(_)) => users == []
        case Some(Holds(l)) => users == l
      ensures match old(currentSlot.content)
        case None => user == old(user)
        case Some(Malformed(_)) => user == None
        case Some(Holds(s)) => user == s
    {
      var usersRaw := usersSlot.content;
      match usersRaw {
        case None =>
        case Some(Malformed(_)) => users := [];
        case Some(Holds(l)) => users := l;
      }
      var currentRaw := currentSlot.content;
      match currentRaw {
        case None =>
        case Some(Malformed(_)) => user := None;
        case Some(Holds(s)) => user := s;
      }
    }

    /** `saveUsers`: writes the registry; a failing write throws. */
    method SaveUsers() returns (thrown: Option<string>)
      modifies usersSlot
      ensures usersSlot.failure == old(usersSlot.failure) && usersSlot.writes == old(usersSlot.writes) + 1
      ensures usersSlot.content == if usersSlot.failure.None? then Some(Holds(users)) else old(usersSlot.content)
      ensures thrown == usersSlot.failure
    {
      var r := usersSlot.Set(users);
      thrown := if r.Fail? then Some(r.error) else None;
    }

    /** `saveCurrent`: writes the logged-in user, or removes the slot when
        nobody is logged in (a removal never throws). */
    method SaveCurrent() returns (thrown: Option<string>)
      modifies currentSlot
      ensures currentSlot.failure == old(currentSlot.failure)
      ensures match user
        case Some(_) =>
          && currentSlot.writes == old(currentSlot.writes) + 1
          && currentSlot.content == (if currentSlot.failure.None? then Some(Holds(user)) else old(currentSlot.content))
          && thrown == currentSlot.failure
        case None =>
          currentSlot.content == None && currentSlot.writes == old(currentSlot.writes) && thrown == None
    {
      if user.Some? {
        var r := currentSlot.Set(user);
        thrown := if r.Fail? then Some(r.error) else None;
      } else {
        currentSlot.Remove();
        thrown := None;
      }
    }

    /** `register`: a taken username throws and changes nothing. Otherwise
        the user is appended and saved, and, unless that save throws, logged
        in as `{ username, role }` and saved as the current user. Usernames
        stay pairwise distinct. */
    method Register(username: string, password: string, role: string) returns (r: Outcome<string>)
      modifies this, usersSlot, currentSlot
      ensures Taken(old(users), username) ==>
        && r == Fail(TakenMessage) && users == old(users) && user == old(user)
        && unchanged(usersSlot) && unchanged(currentSlot)
      ensures !Taken(old(users), username) ==>
        && users == old(users) + [User(username, password, role)]
        && usersSlot.content == (if usersSlot.failure.None? then Some(Holds(users)) else old(usersSlot.content))
        && if usersSlot.failure.Some? then
             r == Fail(usersSlot.failure.value) && user == old(user) && unchanged(currentSlot)
           else
             && user == Some(Session(username, role))
             && currentSlot.content == (if currentSlot.failure.None? then Some(Holds(user)) else old(currentSlot.content))
             && r == (if currentSlot.failure.None? then Pass else Fail(currentSlot.failure.value))
      ensures old(UniqueNames(users)) ==> UniqueNames(users)
    {
      if exists i :: 0 <= i < |users| && users[i].username == username {
        return Fail(TakenMessage);
      }
      users := users + [User(username, password, role)];
      var thrown := SaveUsers();
      if thrown.Some? {
        return Fail(thrown.value);
      }
      user := Some(Session(username, role));
      thrown := SaveCurrent();
      r := if thrown.Some? then Fail(thrown.value) else Pass;
    }

    /** `login`: `found` is whether some user has both the username and the
        password; the first such user becomes the current one and is saved
        (when that save throws, so does `login`). A failed login changes
        nothing. */
    method Login(username: string, password: string) returns (found: bool, thrown: Option<string>)
      modifies this, currentSlot
      ensures found <==> exists i :: 0 <= i < |users| && Matches(users[i], username, password)
      ensures users == old(users)
      ensures found ==>
        && var u := FindLogin(users, username, password).value;
        && user == Some(Session(u.username, u.role))
        && currentSlot.content == (if currentSlot.failure.None? then Some(Holds(user)) else old(currentSlot.content))
        && thrown == currentSlot.failure
      ensures !found ==> user == old(user) && unchanged(currentSlot) && thrown == None
    {
      var hit := FindLogin(users, username, password);
      if hit.Some? {
        user := Some(Session(hit.value.username, hit.value.role));
        thrown := SaveCurrent();
        return true, thrown;
      }
      return false, None;
    }

    /** `logout`: nobody is logged in and the stored current user is removed. */
    method Logout()
      modifies this, currentSlot
      ensures user == None && users == old(users)
      ensures currentSlot.content == None && currentSlot.writes == old(currentSlot.writes)
    {
      user := None;
      var _ := SaveCurrent();
    }
  }

  /** A freshly registered user can log out and log back in with the same
      password, and is then the current user again. */
  method RegisterLogoutLogin(store: AuthStore, username: string, password: string, role: string)
    returns (found: bool)
    requires !Taken(store.users, username)
    requires store.usersSlot.failure.None? && store.currentSlot.failure.None?
    modifies store, store.usersSlot, store.currentSlot
    ensures found && store.user == Some(Session(username, role))
  {
    var r := store.Register(username, password, role);
    store.Logout();
    ghost var added := User(username, password, role);
    assert store.users[|store.users| - 1] == added;
    var thrown;
    found, thrown := store.Login(username, password);
    ghost var u := FindLogin(store.users, username, password).value;
    assert u.username == username;
    assert u == added by {
      var i :| 0 <= i < |store.users| && store.users[i] == u;
      if i < |store.users| - 1 {
        assert Taken(old(store.users), username);
      }
    }
  }
}
