/** The user-management handlers: list, create, update and delete over the users collection,
    with the notes collection consulted before a delete. */
module Users {
  import opened JsValues
  import opened CaseFold

  /** A document id as text. A stored id is in the canonical spelling `_id.toString()` gives;
      a request may send any spelling the ObjectId cast accepts. */
  type Id = string
  type Role = string

  /** The cost factor passed to `bcrypt.hash`. */
  const SaltRounds: nat := 10

  /** The result of `bcrypt.hash(secret, saltRounds)`, kept as an uninterpreted term. A Digest
      is not a string, so a stored password can never be the plaintext itself. */
  datatype Digest = Bcrypt(secret: string, saltRounds: nat)

  /** A stored user document. `roles` and `active` are `None` when the handler left them out
      and the schema default applies. */
  datatype User = User(username: string, password: Digest, roles: Option<seq<Role>>, active: Option<bool>)

  /** A user as `.select('-password')` returns it: every field except the password. */
  datatype PublicUser = PublicUser(username: string, roles: Option<seq<Role>>, active: Option<bool>)

  /** A JSON body `{ message }`, the array of users, or a bare JSON string. */
  datatype Body = Message(message: string) | UserList(users: map<Id, PublicUser>) | Text(text: string)

  datatype Response = Response(status: int, body: Body)

  datatype CreateBody = CreateBody(username: Option<string>, password: Option<string>, roles: Option<seq<Role>>)

  datatype UpdateBody = UpdateBody(id: Option<Id>, username: Option<string>, roles: Option<seq<Role>>,
                                   active: Option<bool>, password: Option<string>)

  function Strip(u: User): PublicUser
  {
    PublicUser(u.username, u.roles, u.active)
  }

  /** The document `User.create` stores: the roles only when they form a non-empty array. */
  function NewUser(username: string, password: string, roles: Option<seq<Role>>): User
  {
    var hashed := Bcrypt(password, SaltRounds);
    if !IsNonEmptyArray(roles) then User(username, hashed, None, None)
    else User(username, hashed, roles, None)
  }

  /** The fields an update has validated: all of id, username, roles and active are usable. */
  predicate UpdateFieldsPresent(body: UpdateBody)
  {
    Truthy(body.id) && Truthy(body.username) && IsNonEmptyArray(body.roles) && body.active.Some?
  }

  /** The document after an update: new username, roles and active flag, and a new password
      digest only when a password was sent. */
  function Updated(u: User, body: UpdateBody): User
    requires UpdateFieldsPresent(body)
  {
    User(body.username.value,
         if Truthy(body.password) then Bcrypt(body.password.value, SaltRounds) else u.password,
         body.roles,
         body.active)
  }

  /** The reply to a successful create. */
  function CreatedReply(username: string): string
  {
    "New user " + username + " created"
  }

  /** The reply to a successful update. */
  function UpdatedReply(username: string): string
  {
    username + " updated"
  }

  /** The reply to a successful delete: the deleted user's name and id. */
  function DeletedReply(username: string, id: Id): string
  {
    "Username " + username + " with ID " + id + " deleted"
  }

  /** The ObjectId cast of a request id, which `findById` and `Note.findOne({ user: id })`
      apply: hex digits are read regardless of case and printed back in lower case. */
  function Canon(id: Id): (key: Id)
    ensures IsCanonical(key)
    ensures IsCanonical(id) ==> key == id
  {
    FoldCase(id)
  }

  /** An id in the spelling `_id.toString()` produces: no upper-case letters. */
  predicate IsCanonical(id: Id)
  {
    forall i :: 0 <= i < |id| ==> !('A' <= id[i] <= 'Z')
  }

  /** The user `id` exists and its username equals `name` ignoring case. */
  predicate HeldBy(users: map<Id, User>, name: string, id: Id)
  {
    id in users && EqualIgnoringCase(users[id].username, name)
  }

  /** The case-insensitive `findOne({ username })` finds a document. */
  ghost predicate NameTaken(users: map<Id, User>, name: string)
  {
    exists id :: HeldBy(users, name, id)
  }

  /** Some user other than `self` holds `name` ignoring case. */
  ghost predicate NameTakenByOther(users: map<Id, User>, name: string, self: Id)
  {
    exists id :: id != self && HeldBy(users, name, id)
  }

  /** No two users have usernames that are equal ignoring case. */
  ghost predicate NamesUnique(users: map<Id, User>)
  {
    forall j, k :: j in users && k in users && j != k ==> !EqualIgnoringCase(users[j].username, users[k].username)
  }

  /** What every handler keeps true of the collection: non-empty usernames, roles non-empty
      whenever they are set, and usernames unique ignoring case. */
  ghost predicate WellFormed(users: map<Id, User>)
  {
    && (forall id :: id in users ==> IsCanonical(id))
    && (forall id :: id in users ==> users[id].username != "" && (users[id].roles.Some? ==> |users[id].roles.value| > 0))
    && NamesUnique(users)
  }

  /** In a collection with unique names, at most one user holds a given name; so the
      case-insensitive `findOne` has only one possible answer. */
  lemma SingleHolder(users: map<Id, User>, name: string, j: Id, k: Id)
    requires NamesUnique(users)
    requires HeldBy(users, name, j) && HeldBy(users, name, k)
    ensures j == k
  {
  }

  /** A user whose name differs from a stored one only in letter case finds it taken. */
  lemma CaseVariantIsTaken(users: map<Id, User>, id: Id, name: string)
    requires id in users && DifferOnlyInCase(users[id].username, name)
    ensures NameTaken(users, name)
  {
    CaseVariantsCompareEqual(users[id].username, name);
    assert HeldBy(users, name, id);
  }

  /** Storing a user under a canonical id, with a name no other user holds, keeps the
      collection well formed; this covers both adding a new id and rewriting an existing one. */
  lemma PutKeepsWellFormed(users: map<Id, User>, id: Id, u: User)
    requires WellFormed(users)
    requires IsCanonical(id) && !NameTakenByOther(users, u.username, id)
    requires u.username != "" && (u.roles.Some? ==> |u.roles.value| > 0)
    ensures WellFormed(users[id := u])
    ensures |users[id := u]| == if id in users then |users| else |users| + 1
  {
    var users' := users[id := u];
    forall j, k | j in users' && k in users' && j != k
      ensures !EqualIgnoringCase(users'[j].username, users'[k].username)
    {
      if j == id {
        EqualIgnoringCaseIsEquivalence(u.username, users[k].username, u.username);
        assert !HeldBy(users, u.username, k);
      } else if k == id {
        assert !HeldBy(users, u.username, j);
      }
    }
  }

  /** Removing a user keeps the collection well formed and shrinks it by one. */
  lemma RemoveKeepsWellFormed(users: map<Id, User>, id: Id)
    requires WellFormed(users) && id in users
    ensures WellFormed(users - {id})
    ensures |users - {id}| == |users| - 1
  {
  }

  /** The users collection together with the note owners the delete handler consults.
      `noteOwners` holds the `user` field of every note, as canonical id text; the notes
      handlers, which change it, are not part of this model. */
  class UsersController {
    var users: map<Id, User>
    var noteOwners: multiset<Id>

    ghost predicate Valid()
      reads this
    {
      WellFormed(users) && forall owner :: owner in noteOwners ==> IsCanonical(owner)
    }

    constructor (users: map<Id, User>, noteOwners: multiset<Id>)
      requires WellFormed(users)
      requires forall owner :: owner in noteOwners ==> IsCanonical(owner)
      ensures Valid()
      ensures this.users == users && this.noteOwners == noteOwners
    {
      this.users := users;
      this.noteOwners := noteOwners;
    }

    /** `User.findOne({ username }).collation({ locale: 'en', strength: 2 })`: some user whose
        name equals `name` ignoring case, or none. */
    method FindByUsername(name: string) returns (found: Option<Id>)
      ensures found.None? <==> !NameTaken(users, name)
      ensures found.Some? ==> HeldBy(users, name, found.value)
    {
      if id :| id in users && HeldBy(users, name, id) {
        found := Some(id);
      } else {
        found := None;
      }
    }

    /** GET /users: every user without its password, or 400 when there is none. */
    method GetAllUsers() returns (resp: Response)
      ensures users == map[] ==> resp == Response(400, Message("No users found"))
      ensures users != map[] ==> resp.status == 200 && resp.body.UserList?
      ensures users != map[] ==> resp.body.users.Keys == users.Keys
      ensures users != map[] ==> forall id :: id in users ==> resp.body.users[id] == Strip(users[id])
    {
      var listing := map id | id in users :: Strip(users[id]);
      if |listing| == 0 {
        assert users.Keys == {};
        return Response(400, Message("No users found"));
      }
      resp := Response(200, UserList(listing));
    }

    /** POST /users. `newId` is the id the database gives the new document. */
    method CreateNewUser(body: CreateBody, newId: Id) returns (resp: Response)
      requires Valid()
      requires newId !in users && IsCanonical(newId)
      modifies this`users
      ensures Valid()
      ensures !Truthy(body.username) || !Truthy(body.password) ==>
                resp == Response(400, Message("All fields are required")) && users == old(users)
      ensures Truthy(body.username) && Truthy(body.password) && NameTaken(old(users), body.username.value) ==>
                resp == Response(409, Message("Duplicate username")) && users == old(users)
      ensures Truthy(body.username) && Truthy(body.password) && !NameTaken(old(users), body.username.value) ==>
                && resp == Response(201, Message(CreatedReply(body.username.value)))
                && users == old(users)[newId := NewUser(body.username.value, body.password.value, body.roles)]
    {
      if !Truthy(body.username) || !Truthy(body.password) {
        return Response(400, Message("All fields are required"));
      }
      var username, password := body.username.value, body.password.value;

      var duplicate := FindByUsername(username);
      if duplicate.Some? {
        return Response(409, Message("Duplicate username"));
      }

      var hashedPwd := Bcrypt(password, SaltRounds);
      var userObject := if !IsNonEmptyArray(body.roles) then User(username, hashedPwd, None, None)
                        else User(username, hashedPwd, body.roles, None);
      PutKeepsWellFormed(users, newId, userObject);
      users := users[newId := userObject];
      resp := Response(201, Message(CreatedReply(username)));
    }

    /** PATCH /users: validate, find the user, refuse a name held by another user, then
        rewrite username, roles, active and (when sent) the password. The user is found by the
        cast id, but the self-update exemption compares the sent id as text with the canonical
        id of the name's holder. */
    method UpdateUser(body: UpdateBody) returns (resp: Response)
      requires Valid()
      modifies this`users
      ensures Valid()
      ensures !UpdateFieldsPresent(body) ==>
                resp == Response(400, Message("All fields except password are required")) && users == old(users)
      ensures UpdateFieldsPresent(body) && Canon(body.id.value) !in old(users) ==>
                resp == Response(400, Message("User not found")) && users == old(users)
      ensures UpdateFieldsPresent(body) && Canon(body.id.value) in old(users)
              && NameTakenByOther(old(users), body.username.value, body.id.value) ==>
                resp == Response(409, Message("Duplicate username")) && users == old(users)
      ensures UpdateFieldsPresent(body) && Canon(body.id.value) in old(users)
              && !NameTakenByOther(old(users), body.username.value, body.id.value) ==>
                && resp == Response(200, Message(UpdatedReply(body.username.value)))
                && users == old(users)[Canon(body.id.value) := Updated(old(users)[Canon(body.id.value)], body)]
    {
      if !Truthy(body.id) || !Truthy(body.username) || !IsNonEmptyArray(body.roles) || body.active.None? {
        return Response(400, Message("All fields except password are required"));
      }
      var id, username := body.id.value, body.username.value;

      var key := Canon(id);
      if key !in users {
        return Response(400, Message("User not found"));
      }
      var user := users[key];

      var duplicate := FindByUsername(username);
      if duplicate.Some? && duplicate.value != id {
        return Response(409, Message("Duplicate username"));
      }
      if NameTakenByOther(users, username, id) {
        var other :| other != id && HeldBy(users, username, other);
        SingleHolder(users, username, other, duplicate.value);
      }

      user := user.(username := username, roles := body.roles, active := body.active);
      if Truthy(body.password) {
        user := user.(password := Bcrypt(body.password.value, SaltRounds));
      }
      PutKeepsWellFormed(users, key, user);
      users := users[key := user];
      resp := Response(200, Message(UpdatedReply(user.username)));
    }

    /** DELETE /users: refuse while notes reference the id (checked before the id is looked
        up), refuse an unknown id, otherwise remove that one document. */
    method DeleteUser(id: Option<Id>) returns (resp: Response)
      requires Valid()
      modifies this`users
      ensures Valid()
      ensures !Truthy(id) ==> resp == Response(400, Message("User ID Required")) && users == old(users)
      ensures Truthy(id) && Canon(id.value) in noteOwners ==>
                resp == Response(400, Message("User has assigned notes")) && users == old(users)
      ensures Truthy(id) && Canon(id.value) !in noteOwners && Canon(id.value) !in old(users) ==>
                resp == Response(400, Message("User not found")) && users == old(users)
      ensures Truthy(id) && Canon(id.value) !in noteOwners && Canon(id.value) in old(users) ==>
                && resp == Response(200, Text(DeletedReply(old(users)[Canon(id.value)].username, Canon(id.value))))
                && users == old(users) - {Canon(id.value)}
    {
      if !Truthy(id) {
        return Response(400, Message("User ID Required"));
      }
      var key := Canon(id.value);

      if key in noteOwners {
        return Response(400, Message("User has assigned notes"));
      }

      if key !in users {
        return Response(400, Message("User not found"));
      }
      var result := users[key];

      RemoveKeepsWellFormed(users, key);
      users := users - {key};
      resp := Response(200, Text(DeletedReply(result.username, key)));
    }
  }
}
