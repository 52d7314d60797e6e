/** Request sequences against a fresh controller, showing what the handlers' contracts
    guarantee to a client. */
module UsersScenarios {
  import opened JsValues
  import opened CaseFold
  import opened Users

  /** The ids the scenarios use, and the spelling the ObjectId cast gives them. */
  lemma SampleIdsAreCanonical()
    ensures IsCanonical("u1") && IsCanonical("u2") && IsCanonical("gone")
    ensures Canon("u1") == "u1" && Canon("u2") == "u2" && Canon("gone") == "gone"
    ensures Canon("U1") == "u1"
  {
    assert FoldCase("U1") == "u1";
  }

  /** The reply texts the scenarios expect. */
  lemma ReplyTexts()
    ensures CreatedReply("Dave") == "New user Dave created"
    ensures UpdatedReply("DAVE") == "DAVE updated"
    ensures DeletedReply("Dave", "u1") == "Username Dave with ID u1 deleted"
  {
  }

  /** A collection holding the single user "Dave" under id "u1". */
  method DaveOnly() returns (c: UsersController)
    ensures fresh(c) && c.Valid()
    ensures c.users == map["u1" := NewUser("Dave", "x", None)] && c.noteOwners == multiset{}
  {
    SampleIdsAreCanonical();
    c := new UsersController(map["u1" := NewUser("Dave", "x", None)], multiset{});
  }

  /** A collection holding "Dave" under id "u1" and "Ann" under id "u2". */
  method DaveAndAnn() returns (c: UsersController)
    ensures fresh(c) && c.Valid()
    ensures c.users == map["u1" := NewUser("Dave", "x", None), "u2" := NewUser("Ann", "y", None)]
    ensures c.noteOwners == multiset{}
  {
    SampleIdsAreCanonical();
    var dave, ann := NewUser("Dave", "x", None), NewUser("Ann", "y", None);
    assert !EqualIgnoringCase(dave.username, ann.username);
    c := new UsersController(map["u1" := dave, "u2" := ann], multiset{});
  }

  /** Creating "Dave" in an empty collection stores it under the id it was given. */
  method CreateFirst() returns (resp: Response, c: UsersController)
    ensures resp == Response(201, Message("New user Dave created"))
    ensures c.users == map["u1" := NewUser("Dave", "x", None)]
  {
    SampleIdsAreCanonical();
    c := new UsersController(map[], multiset{});
    resp := c.CreateNewUser(CreateBody(Some("Dave"), Some("x"), None), "u1");
    ReplyTexts();
  }

  /** Once "Dave" is stored, creating "dave" is a duplicate and stores nothing. */
  method CreateCaseVariant() returns (resp: Response, kept: bool)
    ensures resp == Response(409, Message("Duplicate username"))
    ensures kept
  {
    SampleIdsAreCanonical();
    var c := DaveOnly();
    assert HeldBy(c.users, "dave", "u1");
    resp := c.CreateNewUser(CreateBody(Some("dave"), Some("y"), None), "u2");
    kept := c.users == map["u1" := NewUser("Dave", "x", None)];
  }

  /** A user some note still references cannot be deleted, and stays stored. */
  method DeleteUserWithNotes() returns (resp: Response, kept: bool)
    ensures resp == Response(400, Message("User has assigned notes"))
    ensures kept
  {
    SampleIdsAreCanonical();
    var c := new UsersController(map["u1" := NewUser("Dave", "x", None)], multiset{"u1", "u1"});
    resp := c.DeleteUser(Some("u1"));
    kept := "u1" in c.users;
  }

  /** The notes check comes before the existence check: an unknown id that notes still
      reference is reported as having notes. */
  method DeleteUnknownIdWithNotes() returns (resp: Response)
    ensures resp == Response(400, Message("User has assigned notes"))
  {
    SampleIdsAreCanonical();
    var c := new UsersController(map[], multiset{"gone"});
    resp := c.DeleteUser(Some("gone"));
  }

  /** Deleting a stored user with no notes answers with its name and id. */
  method DeleteDave() returns (resp: Response)
    ensures resp == Response(200, Text("Username Dave with ID u1 deleted"))
  {
    SampleIdsAreCanonical();
    var c := DaveOnly();
    resp := c.DeleteUser(Some("u1"));
    ReplyTexts();
  }

  /** A deleted user is gone: deleting it again finds nothing. */
  method DeleteTwice() returns (again: Response)
    ensures again == Response(400, Message("User not found"))
  {
    SampleIdsAreCanonical();
    var c := DaveOnly();
    var deleted := c.DeleteUser(Some("u1"));
    again := c.DeleteUser(Some("u1"));
  }

  /** A deleted user cannot be updated. */
  method DeleteThenUpdate() returns (update: Response)
    ensures update == Response(400, Message("User not found"))
  {
    SampleIdsAreCanonical();
    var c := DaveOnly();
    var deleted := c.DeleteUser(Some("u1"));
    update := c.UpdateUser(UpdateBody(Some("u1"), Some("Dave"), Some(["Admin"]), Some(true), None));
  }

  /** The existence check comes before the duplicate check: an unknown id with a taken name
      is reported as not found. */
  method UpdateUnknownIdWithTakenName() returns (resp: Response)
    ensures resp == Response(400, Message("User not found"))
  {
    SampleIdsAreCanonical();
    var c := DaveOnly();
    resp := c.UpdateUser(UpdateBody(Some("u2"), Some("dave"), Some(["Admin"]), Some(true), None));
  }

  /** Renaming a user onto another user's name, ignoring case, is refused. */
  method UpdateOntoOthersName() returns (resp: Response)
    ensures resp == Response(409, Message("Duplicate username"))
  {
    SampleIdsAreCanonical();
    var c := DaveAndAnn();
    assert HeldBy(c.users, "dave", "u1");
    resp := c.UpdateUser(UpdateBody(Some("u2"), Some("dave"), Some(["Employee"]), Some(true), None));
  }

  /** Renaming a user to a case variant of its own name is allowed. */
  method UpdateOntoOwnName() returns (resp: Response)
    ensures resp == Response(200, Message("DAVE updated"))
  {
    SampleIdsAreCanonical();
    var c := DaveOnly();
    resp := c.UpdateUser(UpdateBody(Some("u1"), Some("DAVE"), Some(["Manager"]), Some(true), None));
    ReplyTexts();
  }

  /** The listing shows every user's public fields and no password. */
  method ListDave() returns (listed: Response)
    ensures listed == Response(200, UserList(map["u1" := PublicUser("Dave", None, None)]))
  {
    var c := DaveOnly();
    assert "u1" in c.users;
    listed := c.GetAllUsers();
    assert listed.body.users.Keys == {"u1"};
  }

  /** An empty collection is reported as having no users. */
  method ListEmpty() returns (listed: Response)
    ensures listed == Response(400, Message("No users found"))
  {
    var c := new UsersController(map[], multiset{});
    listed := c.GetAllUsers();
  }

  /** An update whose password is the empty string leaves the stored digest as it was. */
  method UpdateWithEmptyPassword() returns (stored: Digest)
    ensures stored == Bcrypt("x", SaltRounds)
  {
    SampleIdsAreCanonical();
    var c := DaveOnly();
    var updated := c.UpdateUser(UpdateBody(Some("u1"), Some("David"), Some(["Manager"]), Some(false), Some("")));
    stored := c.users["u1"].password;
  }

  /** Roles that form an empty array are left out of the new document. */
  method CreateWithEmptyRoles() returns (stored: User)
    ensures stored == User("Dave", Bcrypt("x", SaltRounds), None, None)
  {
    SampleIdsAreCanonical();
    var c := new UsersController(map[], multiset{});
    var created := c.CreateNewUser(CreateBody(Some("Dave"), Some("x"), Some([])), "u1");
    stored := c.users["u1"];
  }

  /** The user is found by the cast id, but the self-update exemption compares the sent text:
      an upper-case spelling of a user's own id, sent with that user's own name, is refused. */
  method UpdateOwnNameUpperCaseId() returns (resp: Response)
    ensures resp == Response(409, Message("Duplicate username"))
  {
    SampleIdsAreCanonical();
    var c := DaveOnly();
    assert HeldBy(c.users, "Dave", "u1");
    resp := c.UpdateUser(UpdateBody(Some("U1"), Some("Dave"), Some(["Manager"]), Some(true), None));
  }

  /** Deleting by an upper-case spelling of the id removes the user stored under the cast
      id; the reply shows the stored spelling. */
  method DeleteUpperCaseId() returns (resp: Response)
    ensures resp == Response(200, Text("Username Dave with ID u1 deleted"))
  {
    SampleIdsAreCanonical();
    var c := DaveOnly();
    resp := c.DeleteUser(Some("U1"));
    ReplyTexts();
  }
}
