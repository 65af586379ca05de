/**
 * The User handlers: list all users, get, delete, create and update. Users
 * have no parent, so creation checks only the body; update checks the body
 * before it looks the user up.
 */
module Users {
  import opened Wrappers
  import opened Storage
  import opened Resource

  /** The attributes an update request may not change; the email is fixed once created. */
  const Ignored: set<string> := {"id", "email", "created_at", "updated_at"}

  /** GET /users */
  function GetAllUsers(db: Store): (resp: Response)
    ensures resp.Reply? && resp.code == OK && resp.body.Many?
    ensures forall id :: id in resp.body.objs <==> id in Objects(db, User)
    ensures forall id :: id in resp.body.objs ==> resp.body.objs[id] == Objects(db, User)[id]
    ensures |resp.body.objs| == |Objects(db, User)|
  {
    var users := Objects(db, User);
    var listed := map id | id in users :: users[id];
    assert listed == users;
    Reply(OK, Many(listed))
  }

  /** GET /users/<user_id> */
  function GetUser(db: Store, userId: Id): (resp: Response)
    ensures userId !in Objects(db, User) ==> resp == Abort(NOT_FOUND, Some("User not found"))
    ensures userId in Objects(db, User) ==> resp == Reply(OK, One(Objects(db, User)[userId]))
  {
    match Get(db, User, userId)
    case None => Abort(NOT_FOUND, Some("User not found"))
    case Some(user) => Reply(OK, One(user))
  }

  /** DELETE /users/<user_id> */
  function DeleteUser(db: Store, userId: Id): (res: Handled)
    ensures userId !in Objects(db, User) ==> res == Refuse(db, NOT_FOUND, "User not found")
    ensures userId in Objects(db, User) ==> res.resp == Reply(OK, EmptyObject)
    ensures Objects(res.store, User) == Objects(db, User) - {userId}
    ensures forall kind :: kind != User ==> Objects(res.store, kind) == Objects(db, kind)
  {
    match Get(db, User, userId)
    case None => Refuse(db, NOT_FOUND, "User not found")
    case Some(_) => Handled(Reply(OK, EmptyObject), Remove(db, User, userId))
  }

  /** Everything a create request needs for a user: a JSON body with an email and a password. */
  predicate CreateAccepted(body: Option<Record>)
  {
    body.Some? && "email" in body.value && "password" in body.value
  }

  /**
   * POST /users. `newId` and `now` are the fresh id and the time the model
   * layer gives the new user.
   */
  function CreateUser(db: Store, body: Option<Record>, newId: Id, now: Value): (res: Handled)
    requires newId !in Objects(db, User)
    // the checks, in the order a client sees them; no stored object is consulted
    ensures body.None? ==> res == Refuse(db, BAD_REQUEST, "Not a JSON")
    ensures body.Some? && "email" !in body.value ==> res == Refuse(db, BAD_REQUEST, "Missing email")
    ensures body.Some? && "email" in body.value && "password" !in body.value ==>
      res == Refuse(db, BAD_REQUEST, "Missing password")
    // every refused request leaves the store as it was
    ensures res.resp.Abort? ==> res.store == db
    // an accepted request stores exactly one new user with the body's attributes
    ensures res.resp.Reply? <==> CreateAccepted(body)
    ensures res.resp.Reply? ==>
      && res.resp.code == CREATED
      && res.resp.body.One?
      && res.store == Put(db, User, newId, res.resp.body.obj)
      && Copied(res.resp.body.obj, body.value, Stamps)
      && RefersTo(res.resp.body.obj, "id", newId)
  {
    match body
    case None => Refuse(db, BAD_REQUEST, "Not a JSON")
    case Some(data) =>
      if "email" !in data then Refuse(db, BAD_REQUEST, "Missing email")
      else if "password" !in data then Refuse(db, BAD_REQUEST, "Missing password")
      else
        var user := NewObject(data, newId, now);
        Handled(Reply(CREATED, One(user)), Put(db, User, newId, user))
  }

  /** PUT /users/<user_id>: the body is checked before the user is looked up. */
  method UpdateUser(db: Store, userId: Id, body: Option<Record>) returns (res: Handled)
    ensures body.None? ==> res == Refuse(db, BAD_REQUEST, "Not a JSON")
    ensures body.Some? && userId !in Objects(db, User) ==> res == Refuse(db, NOT_FOUND, "User not found")
    ensures res.resp.Abort? ==> res.store == db
    ensures body.Some? && userId in Objects(db, User) ==>
      && res.resp.Reply?
      && res.resp.code == OK
      && res.resp.body.One?
      && res.store == Put(db, User, userId, res.resp.body.obj)
      && Updated(Objects(db, User)[userId], res.resp.body.obj, body.value, Ignored)
    ensures Linked(db) ==> Linked(res.store)
  {
    if body.None? {
      return Refuse(db, BAD_REQUEST, "Not a JSON");
    }
    var found := Get(db, User, userId);
    if found.None? {
      return Refuse(db, NOT_FOUND, "User not found");
    }
    var user := ApplyBody(found.value, body.value, Ignored);
    res := Handled(Reply(OK, One(user)), Put(db, User, userId, user));
    if Linked(db) {
      ReplaceKeepsLinks(db, User, userId, user);
    }
  }

  /** A password sent in an update is stored; an email is not. */
  lemma UpdateSetsPasswordNotEmail(before: Record, after: Record, data: Record)
    requires Updated(before, after, data, Ignored)
    ensures "password" in data ==> "password" in after && after["password"] == data["password"]
    ensures Agree(after, before, "email")
  {
  }

  /** A deleted user can no longer be fetched. */
  lemma DeleteThenGet(db: Store, userId: Id)
    ensures GetUser(DeleteUser(db, userId).store, userId) == Abort(NOT_FOUND, Some("User not found"))
  {
  }

  /** A created user can be fetched under its new id, as the create request returned it. */
  lemma CreateThenGet(db: Store, body: Option<Record>, newId: Id, now: Value)
    requires newId !in Objects(db, User)
    requires CreateAccepted(body)
    ensures GetUser(CreateUser(db, body, newId, now).store, newId)
      == Reply(OK, CreateUser(db, body, newId, now).resp.body)
  {
  }

  /** A created user is listed with all the others: one entry more than before. */
  lemma {:induction false} CreateThenList(db: Store, body: Option<Record>, newId: Id, now: Value)
    requires newId !in Objects(db, User)
    requires CreateAccepted(body)
    ensures var res := CreateUser(db, body, newId, now);
      && GetAllUsers(res.store).body.objs == GetAllUsers(db).body.objs[newId := res.resp.body.obj]
      && |GetAllUsers(res.store).body.objs| == |GetAllUsers(db).body.objs| + 1
  {
  }

  /** Creating a user keeps a linked store linked: a user refers to nothing. */
  lemma {:induction false} CreateKeepsLinks(db: Store, body: Option<Record>, newId: Id, now: Value)
    requires newId !in Objects(db, User)
    requires Linked(db)
    ensures Linked(CreateUser(db, body, newId, now).store)
  {
    var res := CreateUser(db, body, newId, now);
    if res.resp.Reply? {
      InsertKeepsLinks(db, User, newId, res.resp.body.obj);
    }
  }

  /** Deleting a user keeps a linked store linked exactly when the user owns no place and wrote no review. */
  lemma {:induction false} DeleteKeepsLinks(db: Store, userId: Id)
    requires Linked(db)
    ensures Linked(DeleteUser(db, userId).store) <==> !Referenced(db, User, userId)
  {
  }
}
