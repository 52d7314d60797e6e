# technotes-api: user management and CORS allow-list, modelled in Dafny

This project models two parts of the technotes REST API:

- The users controller (`controllers/usersController.js`). It handles GET, POST, PATCH and DELETE on `/users` against the `User` collection and consults the `Note` collection.
- The CORS options object (`config/corsOptions.js`).

The users controller is a class, `Users.UsersController`. It holds two fields:

- `users`: a map from document id to user document. A document has a username, a password digest, optional roles and an optional active flag.
- `noteOwners`: the multiset of the `user` fields of all notes.

Each handler is a method that modifies only `users`. Its postconditions give the response and the new store for every branch, in the source's order of guards:

- `GetAllUsers` answers 400 "No users found" on an empty collection. Otherwise it returns every user with the password projected away. `PublicUser` has no password field.
- `CreateNewUser` checks the following, in this order:
  - a missing or empty username or password gives 400 "All fields are required";
  - a username equal to a stored one ignoring case gives 409 "Duplicate username";
  - otherwise it adds exactly one document under the new id. The password is stored as `Bcrypt(password, 10)`, never as the plaintext. Roles are stored only when they form a non-empty array. The response is 201 "New user <name> created".
- `UpdateUser` checks the following, in this order:
  - id, username, a non-empty roles array and a boolean active flag are all required, else 400;
  - an unknown id gives 400 "User not found". This runs before the duplicate check;
  - the name held by a *different* user, ignoring case, gives 409;
  - otherwise only that user's username, roles and active flag change. Its password changes only when a non-empty password was sent.
- `DeleteUser` checks the following, in this order:
  - a missing id gives 400 "User ID Required";
  - an id that any note references gives 400 "User has assigned notes". This runs before the existence check;
  - an unknown id gives 400 "User not found";
  - otherwise it removes exactly that document and returns the reply string.

On every failure path the store is unchanged. Every handler preserves the class invariant `Valid()`:

- stored ids and the note owners are in canonical spelling (`IsCanonical`);
- usernames are non-empty;
- roles, when set, are non-empty;
- usernames are unique ignoring case.

Because of the invariant, the case-insensitive `findOne` has at most one possible answer (`Users.SingleHolder`).

Modelling choices:

- **Case-insensitive lookups.** The lookups use collation `{ locale: 'en', strength: 2 }`. This is modelled as ASCII case folding (`CaseFold`).
- **Hashing.** `bcrypt.hash` is the uninterpreted term `Digest.Bcrypt(secret, saltRounds)`.
- **Missing fields.** JavaScript falsiness of `username`, `password` and `id` is "absent or the empty string" (`JsValues.Truthy`). `Array.isArray(roles) && roles.length` is `IsNonEmptyArray`, and `typeof active === 'boolean'` is `active.Some?`.
- **New ids.** The id the database gives a new document is a parameter of `CreateNewUser`: an id in canonical spelling that is not yet in use.
- **Request ids.** `User.findById(id)` (`usersController.js:81`, `:131`) and `Note.findOne({ user: id })` (`:125`) cast the request id to an ObjectId, which reads hex digits regardless of case. Stored ids are kept in the spelling `_id.toString()` prints, lower case, and a request id is looked up under `Canon(id)`, its letters folded to lower case. The self-update exemption at `:92` compares `_id.toString()` with the id text as sent, not with the cast id. So an upper-case spelling of a user's own id, sent with that user's own name, finds the user and is then refused with 409 (`UsersScenarios.UpdateOwnNameUpperCaseId`).

The CORS module (`CorsOptions`) is pure:

- `IndexOf` is JavaScript's `indexOf` with strict equality.
- `CheckOrigin` allows an origin exactly when it occurs in the allow-list. Otherwise it denies it with "Not allowed by CORS".
- A missing Origin header is `Undefined`. It is refused unless the list itself holds it. The trailing comment in the source mentions a `|| !origin` bypass, but the code does not contain it.
- `Credentials` is the constant `true` and `OptionsSuccessStatus` the constant `200`.
- Both functions have no state, so the same list and origin always give the same verdict.

Roles that are missing, not an array, or empty are not rejected: `createNewUser` stores the document without them (`usersController.js:51-53`).

The module `UsersScenarios` replays request sequences against a fresh controller. Its postconditions follow from the handlers' contracts alone:

- "Dave" then "dave";
- deleting a user that notes still reference;
- the order of the guards;
- deleting, then deleting or updating the same id;
- listing, and updating with an empty password;
- ids sent in upper case.

## Model

| member | source | states |
|---|---|---|
| `CaseFold.FoldCase` | controllers/usersController.js:42 | the folded name has the same length and each character is the lower-case form of the original's |
| `CaseFold.EqualIgnoringCaseIsFoldEquality` | controllers/usersController.js:41-42 | two names compare equal under the case-insensitive collation exactly when their folded forms are equal |
| `CaseFold.EqualIgnoringCaseIsEquivalence` | controllers/usersController.js:41-42 | the case-insensitive comparison is reflexive, symmetric and transitive |
| `CaseFold.CaseVariantsCompareEqual` | controllers/usersController.js:41 | names that differ only in letter case ("Dave", "dave") compare equal |
| `CorsOptions.IndexOf` | config/corsOptions.js:7 | the result is -1 exactly when the origin is absent from the list, and otherwise the first index holding it |
| `CorsOptions.CheckOrigin` | config/corsOptions.js:4-15 | an origin is allowed if and only if it occurs in the allow-list; every other origin is denied with "Not allowed by CORS" |
| `CorsOptions.MissingOriginRejected` | config/corsOptions.js:7-14 | a request without an Origin header is denied whenever the list does not hold `undefined` |
| `CorsOptions.CaseVariantOriginRejected` | config/corsOptions.js:7-13 | the match is case-sensitive: for any allow-list, an origin that differs from a listed one only in letter case and is not itself listed is denied |
| `Users.SingleHolder` | controllers/usersController.js:88-94 | in a collection with unique names at most one user holds a given name ignoring case, so the duplicate probe has one answer |
| `Users.CaseVariantIsTaken` | controllers/usersController.js:41-46 | a name that differs from a stored username only in letter case counts as taken |
| `Users.Canon` | controllers/usersController.js:125-131 | the cast id is in canonical spelling, and an id already in canonical spelling is its own cast |
| `Users.PutKeepsWellFormed` | controllers/usersController.js:51-56 | storing a user under a canonical id, with a non-empty name that no other user holds ignoring case and non-empty or omitted roles, keeps the invariant; the collection grows by one exactly when the id was new |
| `Users.RemoveKeepsWellFormed` | controllers/usersController.js:131-137 | removing one user keeps the invariant and shrinks the collection by exactly one |
| `Users.UsersController.FindByUsername` | controllers/usersController.js:42 | finds a user whose name equals the given one ignoring case, and finds none exactly when no such user exists |
| `Users.UsersController.GetAllUsers` | controllers/usersController.js:9-24 | 400 "No users found" on an empty collection, otherwise 200 with every user's id mapped to its record without password |
| `Users.UsersController.CreateNewUser` | controllers/usersController.js:29-64 | 400 on a missing username or password and 409 on a case-insensitive duplicate, both with the store unchanged; otherwise exactly one new document with the hashed password and roles only when a non-empty array, and 201 "New user <name> created" |
| `Users.UsersController.UpdateUser` | controllers/usersController.js:69-110 | 400 on missing fields, then 400 "User not found" when no user is stored under the cast id, then 409 when a user whose id differs from the id text as sent holds the name, all with the store unchanged; otherwise only that user's username, roles, active and (when sent) password change |
| `Users.UsersController.DeleteUser` | controllers/usersController.js:115-143 | 400 on a missing id, then 400 while any note references the cast id, then 400 "User not found", all with the store unchanged; otherwise exactly the cast id is removed and the reply names the user and its stored id |
| `UsersScenarios.CreateFirst` | controllers/usersController.js:34-59 | creating "Dave" in an empty collection answers 201 "New user Dave created" and stores exactly that user |
| `UsersScenarios.CreateCaseVariant` | controllers/usersController.js:42-46 | with "Dave" stored, creating "dave" answers 409 "Duplicate username" and the collection is unchanged |
| `UsersScenarios.CreateWithEmptyRoles` | controllers/usersController.js:49-56 | roles sent as an empty array are left out of the new document, and the password is stored as its bcrypt digest |
| `UsersScenarios.ListDave` | controllers/usersController.js:13-22 | the listing maps each id to the user's username, roles and active flag, without password |
| `UsersScenarios.ListEmpty` | controllers/usersController.js:16-18 | listing an empty collection answers 400 "No users found" |
| `UsersScenarios.DeleteUserWithNotes` | controllers/usersController.js:124-128 | deleting a user that notes reference answers 400 "User has assigned notes" and the user stays stored |
| `UsersScenarios.DeleteUnknownIdWithNotes` | controllers/usersController.js:124-135 | an unknown id that notes reference is reported as having notes, not as not found |
| `UsersScenarios.DeleteDave` | controllers/usersController.js:131-141 | deleting a stored user with no notes answers "Username Dave with ID u1 deleted" |
| `UsersScenarios.DeleteTwice` | controllers/usersController.js:131-135 | after a successful delete, deleting the same id again answers "User not found" |
| `UsersScenarios.DeleteThenUpdate` | controllers/usersController.js:81-85 | after a successful delete, updating the same id answers "User not found" |
| `UsersScenarios.DeleteUpperCaseId` | controllers/usersController.js:125-141 | deleting by the upper-case spelling "U1" deletes the user stored under "u1", and the reply shows the stored spelling "u1" |
| `UsersScenarios.UpdateUnknownIdWithTakenName` | controllers/usersController.js:81-94 | an update of an unknown id with a taken name answers "User not found", not 409 |
| `UsersScenarios.UpdateOntoOthersName` | controllers/usersController.js:88-94 | renaming onto another user's name in a different case answers 409 |
| `UsersScenarios.UpdateOntoOwnName` | controllers/usersController.js:88-108 | renaming a user to a case variant of its own name succeeds with 200 "DAVE updated" |
| `UsersScenarios.UpdateOwnNameUpperCaseId` | controllers/usersController.js:81-94 | an update sent with the upper-case spelling "U1" of a user's own id and that user's own name finds the user but answers 409, because the exemption compares the id text as sent |
| `UsersScenarios.UpdateWithEmptyPassword` | controllers/usersController.js:101-104 | an update whose password is the empty string leaves the stored digest unchanged |

## Left out

- `server.js`, `middleware/logger.js`, `middleware/errorHandler.js` and the route files are not modelled. They hold process start-up, middleware wiring, file logging with timestamps and random ids, and the 500 fallback of the error handler. `verifyJWT`, the notes controller, the auth routes and the Mongoose models are not part of this model.
- `config/allowedOrigins.js` is not part of this model. The allow-list is a parameter of `CheckOrigin`.
- The `cors` package's use of the callback is not modelled (response headers, preflight handling). Only the decision and the two constant options are.
- The branch at `usersController.js:58-61` is not modelled. `User.create` reports failure by throwing, so creation is modelled as always succeeding.
- Database exceptions are not modelled, for example the cast error for an id that is not a valid ObjectId. Such errors go to the error handler. `Canon` folds the letters of any id, as the cast does for the hex digits of a valid one, but does not reject ids of the wrong length or alphabet.
- JSON values of other types in `username`, `password` and `id` are not modelled, for example numbers. These fields are modelled as optional strings.
- Concurrency is not modelled. Each handler runs atomically, so the race between the duplicate probe and the insert of two concurrent creates is not captured.
- The collation compares at strength 2 beyond ASCII letters. That is not modelled: only `A`-`Z` and `a`-`z` are folded, and accents are not considered.
- The order in which `User.find()` returns documents is not modelled. The listing is a map from id to record.
- bcrypt's random salt is not modelled. `Bcrypt(secret, 10)` is a symbolic term, so two hashes of one password are equal in the model.
- The defaults that the `User` schema supplies for omitted `roles` and `active` are not modelled. The stored document keeps them as `None`.
- The reply of `DeleteUser` takes its username and id from the deleted document. The value that `deleteOne` resolves to depends on the Mongoose version, which is not part of this model.
