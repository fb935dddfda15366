/**
 * The admin-only `/api/users` route handlers of the mock backend, over the
 * users table of a `Db`. `hashed`, `id` and `now` are what `bcrypt.hash`,
 * `Date.now().toString()` and the clock produced for the request.
 */
module UsersRoutes {
  import opened Wrappers
  import opened JsArrays
  import opened Store

  /** GET /: every stored user, in stored order, without its password. */
  method ListUsers(db: Db) returns (r: Reply)
    ensures r.status == 200 && r.body.UserList? && r.cookies == NoCookies
    ensures |r.body.users| == |db.users|
    ensures forall i :: 0 <= i < |db.users| ==> r.body.users[i] == Strip(db.users[i])
  {
    r := Reply(200, "", UserList(Map(db.users, Strip)), NoCookies);
  }

  /** GET /:id. */
  method GetUser(db: Db, id: string) returns (r: Reply)
    ensures r.status == 200 || r.status == 404
    ensures r.status == 404 <==> forall i :: 0 <= i < |db.users| ==> db.users[i].id != id
    ensures r.status == 404 ==> r == Plain(404, "User not found")
    ensures r.status == 200 ==>
      var k := FindIndex(db.users, HasId(id));
      k.Some? && db.users[k.value].id == id &&
      r == Reply(200, "", OneUser(Strip(db.users[k.value])), NoCookies)
  {
    var k := FindIndex(db.users, HasId(id));
    if k.None? {
      return Plain(404, "User not found");
    }
    r := Reply(200, "", OneUser(Strip(db.users[k.value])), NoCookies);
  }

  /** The record POST / appends; `role` defaults to 'user' only when it was not sent. */
  function CreatedUser(id: string, email: string, hashed: string, name: string,
                       role: Option<string>, now: int): (u: User)
    ensures u.role.Some? && (role.None? ==> u.role.value == "user")
  {
    User(id, email, hashed, name, Some(role.GetOr("user")), now)
  }

  /** POST /. */
  method CreateUser(db: Db, email: Option<string>, password: Option<string>, name: Option<string>,
                    role: Option<string>, hashed: string, id: string, now: int)
    returns (r: Reply)
    modifies db
    ensures db.otps == old(db.otps)
    ensures r.status == 201 || r.status == 400 || r.status == 409
    ensures r.status == 400 <==> !Truthy(email) || !Truthy(password) || !Truthy(name)
    ensures r.status == 400 ==>
      r == Plain(400, "Email, password, and name are required") && db.users == old(db.users)
    ensures r.status == 409 <==>
      Truthy(email) && Truthy(password) && Truthy(name) &&
      exists i :: 0 <= i < |old(db.users)| && old(db.users)[i].email == email.value
    ensures r.status == 409 ==> r == Plain(409, "Email already exists") && db.users == old(db.users)
    ensures r.status == 201 ==>
      Truthy(email) && Truthy(name) &&
      var u := CreatedUser(id, email.value, hashed, name.value, role, now);
      db.users == old(db.users) + [u] &&
      r == Reply(201, "User created successfully", OneUser(Strip(u)), NoCookies)
    ensures UniqueEmails(old(db.users)) ==> UniqueEmails(db.users)
    ensures UniqueIds(old(db.users)) && (forall i :: 0 <= i < |old(db.users)| ==> old(db.users)[i].id != id) ==>
      UniqueIds(db.users)
  {
    if !Truthy(email) || !Truthy(password) || !Truthy(name) {
      return Plain(400, "Email, password, and name are required");
    }
    if FindIndex(db.users, HasEmail(email.value)).Some? {
      return Plain(409, "Email already exists");
    }
    var u := CreatedUser(id, email.value, hashed, name.value, role, now);
    db.users := db.users + [u];
    r := Reply(201, "User created successfully", OneUser(Strip(u)), NoCookies);
  }

  /** PUT /:id. */
  method UpdateUser(db: Db, id: string, email: Option<string>, name: Option<string>,
                    role: Option<string>, password: Option<string>, hashed: string)
    returns (r: Reply)
    modifies db
    ensures db.otps == old(db.otps)
    ensures r.status == 200 || r.status == 404 || r.status == 409
    ensures r.status != 200 ==> db.users == old(db.users)
    ensures r.status == 404 <==> forall i :: 0 <= i < |old(db.users)| ==> old(db.users)[i].id != id
    ensures r.status == 404 ==> r == Plain(404, "User not found")
    ensures r.status == 409 <==>
      (exists i :: 0 <= i < |old(db.users)| && old(db.users)[i].id == id) &&
      Truthy(email) &&
      exists j :: 0 <= j < |old(db.users)| && old(db.users)[j].email == email.value && old(db.users)[j].id != id
    ensures r.status == 409 ==> r == Plain(409, "Email already exists")
    ensures r.status == 200 ==>
      var k := FindIndex(old(db.users), HasId(id));
      k.Some? && |db.users| == |old(db.users)| &&
      var was := old(db.users)[k.value];
      var cur := db.users[k.value];
      && (forall i :: 0 <= i < |db.users| && i != k.value ==> db.users[i] == old(db.users)[i])
      && cur.id == was.id && cur.createdAt == was.createdAt
      && cur.email == (if Truthy(email) then email.value else was.email)
      && cur.name == (if Truthy(name) then name.value else was.name)
      && cur.role == (if Truthy(role) then role else was.role)
      && cur.password == (if Truthy(password) then hashed else was.password)
      && r == Reply(200, "User updated successfully", OneUser(Strip(cur)), NoCookies)
    ensures UniqueEmails(old(db.users)) && UniqueIds(old(db.users)) ==>
      UniqueEmails(db.users) && UniqueIds(db.users)
  {
    var k := FindIndex(db.users, HasId(id));
    if k.None? {
      return Plain(404, "User not found");
    }
    if Truthy(email) && FindIndex(db.users, TakenByOther(email.value, id)).Some? {
      return Plain(409, "Email already exists");
    }
    var updated := db.users[k.value];
    if Truthy(email) {
      updated := updated.(email := email.value);
    }
    if Truthy(name) {
      updated := updated.(name := name.value);
    }
    if Truthy(role) {
      updated := updated.(role := role);
    }
    if Truthy(password) {
      updated := updated.(password := hashed);
    }
    if UniqueEmails(db.users) && UniqueIds(db.users) {
      UpdateKeepsUnique(db.users, k.value, updated);
    }
    db.users := db.users[k.value := updated];
    r := Reply(200, "User updated successfully", OneUser(Strip(updated)), NoCookies);
  }

  /** `users.splice(k, 1)`. */
  function RemoveAt(users: seq<User>, k: nat): (r: seq<User>)
    requires k < |users|
    ensures |r| == |users| - 1
    ensures forall i :: 0 <= i < k ==> r[i] == users[i]
    ensures forall i :: k <= i < |r| ==> r[i] == users[i + 1]
  {
    users[..k] + users[k + 1..]
  }

  /** DELETE /:id, where `callerId` is the id `adminOnly` authenticated. */
  method DeleteUser(db: Db, id: string, callerId: string) returns (r: Reply)
    modifies db
    ensures db.otps == old(db.otps)
    ensures r.status == 200 || r.status == 400 || r.status == 404
    ensures r.status != 200 ==> db.users == old(db.users)
    ensures r.status == 400 <==> id == callerId
    ensures id == callerId ==> r == Plain(400, "Cannot delete your own account")
    ensures r.status == 404 <==>
      id != callerId && forall i :: 0 <= i < |old(db.users)| ==> old(db.users)[i].id != id
    ensures r.status == 404 ==> r == Plain(404, "User not found")
    ensures r.status == 200 ==>
      var k := FindIndex(old(db.users), HasId(id));
      id != callerId && k.Some? &&
      db.users == RemoveAt(old(db.users), k.value) &&
      r == Plain(200, "User deleted successfully")
    ensures r.status == 200 && UniqueIds(old(db.users)) ==>
      forall i :: 0 <= i < |db.users| ==> db.users[i].id != id
    ensures UniqueEmails(old(db.users)) ==> UniqueEmails(db.users)
    ensures UniqueIds(old(db.users)) ==> UniqueIds(db.users)
  {
    if id == callerId {
      return Plain(400, "Cannot delete your own account");
    }
    var k := FindIndex(db.users, HasId(id));
    if k.None? {
      return Plain(404, "User not found");
    }
    RemoveAtKeepsUnique(db.users, k.value);
    db.users := RemoveAt(db.users, k.value);
    r := Plain(200, "User deleted successfully");
  }

  // ----- Table invariants -----

  /**
   * Writing a record back at its own index keeps emails unique, provided
   * its id is kept and its email is held by no record with another id.
   */
  lemma UpdateKeepsUnique(users: seq<User>, k: nat, updated: User)
    requires UniqueEmails(users) && UniqueIds(users)
    requires k < |users| && updated.id == users[k].id
    requires forall j :: 0 <= j < |users| && users[j].email == updated.email ==> users[j].id == updated.id
    ensures UniqueEmails(users[k := updated]) && UniqueIds(users[k := updated])
  {
    var s := users[k := updated];
    forall i, j | 0 <= i < j < |s| ensures s[i].email != s[j].email && s[i].id != s[j].id {
      if i == k {
        assert users[j].id != users[k].id;
      } else if j == k {
        assert users[i].id != users[k].id;
      }
    }
  }

  /** Removing one record keeps emails and ids unique and, with unique ids, leaves its id unused. */
  lemma RemoveAtKeepsUnique(users: seq<User>, k: nat)
    requires k < |users|
    ensures UniqueEmails(users) ==> UniqueEmails(RemoveAt(users, k))
    ensures UniqueIds(users) ==> UniqueIds(RemoveAt(users, k))
    ensures UniqueIds(users) ==> forall i :: 0 <= i < |users| - 1 ==> RemoveAt(users, k)[i].id != users[k].id
  {
    var r := RemoveAt(users, k);
    forall i, j | 0 <= i < j < |r|
      ensures exists a, b :: 0 <= a < b < |users| && r[i] == users[a] && r[j] == users[b]
    {
      var a := if i < k then i else i + 1;
      var b := if j < k then j else j + 1;
      assert r[i] == users[a] && r[j] == users[b];
    }
    forall i | 0 <= i < |r|
      ensures exists a :: 0 <= a < |users| && a != k && r[i] == users[a]
    {
      var a := if i < k then i else i + 1;
      assert r[i] == users[a];
    }
  }
}
