/**
 * The Review handlers: list a place's reviews, get, delete, create for a
 * place, and update. Their not-found aborts carry no description of their
 * own.
 */
module Reviews {
  import opened Wrappers
  import opened Storage
  import opened Resource

  /** The attributes an update request may not change. */
  const Ignored: set<string> := {"id", "user_id", "place_id", "created_at", "updated_at"}

  /** The bare not-found abort these handlers use. */
  function NotFound(db: Store): Handled
  {
    Handled(Abort(NOT_FOUND, None), db)
  }

  /** GET /places/<place_id>/reviews */
  function GetReviews(db: Store, placeId: Id): (resp: Response)
    ensures placeId !in Objects(db, Place) ==> resp == Abort(NOT_FOUND, None)
    ensures placeId in Objects(db, Place) ==> resp.Reply? && resp.code == OK && resp.body.Many?
    ensures resp.Reply? ==>
      && (forall id :: id in resp.body.objs <==> id in Objects(db, Review) && RefersTo(Objects(db, Review)[id], "place_id", placeId))
      && (forall id :: id in resp.body.objs ==> resp.body.objs[id] == Objects(db, Review)[id])
  {
    match Get(db, Place, placeId)
    case None => Abort(NOT_FOUND, None)
    case Some(_) => Reply(OK, Many(Children(db, Review, "place_id", placeId)))
  }

  /** GET /reviews/<review_id> */
  function GetReview(db: Store, reviewId: Id): (resp: Response)
    ensures reviewId !in Objects(db, Review) ==> resp == Abort(NOT_FOUND, None)
    ensures reviewId in Objects(db, Review) ==> resp == Reply(OK, One(Objects(db, Review)[reviewId]))
  {
    match Get(db, Review, reviewId)
    case None => Abort(NOT_FOUND, None)
    case Some(review) => Reply(OK, One(review))
  }

  /** DELETE /reviews/<review_id> */
  function DeleteReview(db: Store, reviewId: Id): (res: Handled)
    ensures reviewId !in Objects(db, Review) ==> res == NotFound(db)
    ensures reviewId in Objects(db, Review) ==> res.resp == Reply(OK, EmptyObject)
    ensures Objects(res.store, Review) == Objects(db, Review) - {reviewId}
    ensures forall kind :: kind != Review ==> Objects(res.store, kind) == Objects(db, kind)
  {
    match Get(db, Review, reviewId)
    case None => NotFound(db)
    case Some(_) => Handled(Reply(OK, EmptyObject), Remove(db, Review, reviewId))
  }

  /** Everything a create request needs for a review: its place, a JSON body, a stored user and a text. */
  predicate CreateAccepted(db: Store, placeId: Id, body: Option<Record>)
  {
    && placeId in Objects(db, Place)
    && body.Some?
    && "user_id" in body.value
    && Resolves(db, body.value["user_id"], User)
    && "text" in body.value
  }

  /**
   * POST /places/<place_id>/reviews. `newId` and `now` are the fresh id and
   * the time the model layer gives the new review. A body that cannot be
   * read as JSON arrives as None.
   */
  function CreateReview(db: Store, placeId: Id, body: Option<Record>, newId: Id, now: Value): (res: Handled)
    requires newId !in Objects(db, Review)
    // the checks, in the order a client sees them
    ensures placeId !in Objects(db, Place) ==> res == NotFound(db)
    ensures placeId in Objects(db, Place) && body.None? ==> res == Refuse(db, BAD_REQUEST, "Not a JSON")
    ensures placeId in Objects(db, Place) && body.Some? && "user_id" !in body.value ==>
      res == Refuse(db, BAD_REQUEST, "Missing user_id")
    ensures (placeId in Objects(db, Place) && body.Some? && "user_id" in body.value &&
             !Resolves(db, body.value["user_id"], User)) ==>
      res == NotFound(db)
    ensures (placeId in Objects(db, Place) && body.Some? && "user_id" in body.value &&
             Resolves(db, body.value["user_id"], User) && "text" !in body.value) ==>
      res == Refuse(db, BAD_REQUEST, "Missing text")
    // every refused request leaves the store as it was
    ensures res.resp.Abort? ==> res.store == db
    // an accepted request stores exactly one new review, whose place is the path's
    ensures res.resp.Reply? <==> CreateAccepted(db, placeId, body)
    ensures res.resp.Reply? ==>
      && res.resp.code == CREATED
      && res.resp.body.One?
      && res.store == Put(db, Review, newId, res.resp.body.obj)
      && BuiltFrom(res.resp.body.obj, body.value, "place_id", placeId)
      && RefersTo(res.resp.body.obj, "id", newId)
  {
    match Get(db, Place, placeId)
    case None => NotFound(db)
    case Some(_) =>
      match body
      case None => Refuse(db, BAD_REQUEST, "Not a JSON")
      case Some(data) =>
        if "user_id" !in data then Refuse(db, BAD_REQUEST, "Missing user_id")
        else if !Resolves(db, data["user_id"], User) then NotFound(db)
        else if "text" !in data then Refuse(db, BAD_REQUEST, "Missing text")
        else
          var review := NewObject(data["place_id" := Str(placeId)], newId, now);
          Handled(Reply(CREATED, One(review)), Put(db, Review, newId, review))
  }

  /**
   * PUT /reviews/<review_id>. The review saves itself afterwards, which
   * stamps `updated_at` with the time `now`.
   */
  method UpdateReview(db: Store, reviewId: Id, body: Option<Record>, now: Value) returns (res: Handled)
    ensures reviewId !in Objects(db, Review) ==> res == NotFound(db)
    ensures reviewId in Objects(db, Review) && body.None? ==> res == Refuse(db, BAD_REQUEST, "Not a JSON")
    ensures res.resp.Abort? ==> res.store == db
    ensures reviewId in Objects(db, Review) && body.Some? ==>
      && res.resp.Reply?
      && res.resp.code == OK
      && res.resp.body.One?
      && res.store == Put(db, Review, reviewId, res.resp.body.obj)
      && Updated(Objects(db, Review)[reviewId]["updated_at" := now], res.resp.body.obj, body.value, Ignored)
    ensures Linked(db) ==> Linked(res.store)
  {
    var found := Get(db, Review, reviewId);
    if found.None? {
      return NotFound(db);
    }
    if body.None? {
      return Refuse(db, BAD_REQUEST, "Not a JSON");
    }
    var review := ApplyBody(found.value, body.value, Ignored);
    Restamped(found.value, review, body.value, Ignored, now);
    review := review["updated_at" := now];
    res := Handled(Reply(OK, One(review)), Put(db, Review, reviewId, review));
    if Linked(db) {
      ProtectedKeepsLinks(db, reviewId, review, body.value, now);
    }
  }

  /** An update that respects the filter keeps the review's place and author, so the store stays linked. */
  lemma ProtectedKeepsLinks(db: Store, reviewId: Id, review: Record, data: Record, now: Value)
    requires Linked(db)
    requires reviewId in Objects(db, Review)
    requires Updated(Objects(db, Review)[reviewId]["updated_at" := now], review, data, Ignored)
    ensures Linked(Put(db, Review, reviewId, review))
  {
    var before := Objects(db, Review)[reviewId];
    assert LinksResolve(db, Review, before);
    forall fk | fk in Parents(Review)
      ensures fk in review && fk in before && review[fk] == before[fk]
    {
      assert Agree(review, before["updated_at" := now], fk);
    }
    ReplaceKeepsLinks(db, Review, reviewId, review);
  }

  /** An update never moves a review to another place: every place lists the same reviews as before. */
  lemma {:induction false} UpdateKeepsListing(db: Store, reviewId: Id, rec: Record, data: Record, now: Value, parentId: Id)
    requires reviewId in Objects(db, Review)
    requires Updated(Objects(db, Review)[reviewId]["updated_at" := now], rec, data, Ignored)
    ensures GetReviews(Put(db, Review, reviewId, rec), parentId).Reply? ==>
      GetReviews(Put(db, Review, reviewId, rec), parentId).body.objs.Keys
        == GetReviews(db, parentId).body.objs.Keys
  {
  }

  /** A deleted review can no longer be fetched. */
  lemma DeleteThenGet(db: Store, reviewId: Id)
    ensures GetReview(DeleteReview(db, reviewId).store, reviewId) == Abort(NOT_FOUND, None)
  {
  }

  /** A created review can be fetched under its new id, as the create request returned it. */
  lemma CreateThenGet(db: Store, placeId: Id, body: Option<Record>, newId: Id, now: Value)
    requires newId !in Objects(db, Review)
    requires CreateAccepted(db, placeId, body)
    ensures GetReview(CreateReview(db, placeId, body, newId, now).store, newId)
      == Reply(OK, CreateReview(db, placeId, body, newId, now).resp.body)
  {
  }

  /** A created review is listed under the path's place, one more than before, and under no other place. */
  lemma {:induction false} CreateThenList(db: Store, placeId: Id, otherPlace: Id, body: Option<Record>, newId: Id, now: Value)
    requires newId !in Objects(db, Review)
    requires CreateAccepted(db, placeId, body)
    requires otherPlace in Objects(db, Place) && otherPlace != placeId
    ensures var res := CreateReview(db, placeId, body, newId, now);
      && GetReviews(res.store, placeId).body.objs == GetReviews(db, placeId).body.objs[newId := res.resp.body.obj]
      && |GetReviews(res.store, placeId).body.objs| == |GetReviews(db, placeId).body.objs| + 1
      && GetReviews(res.store, otherPlace) == GetReviews(db, otherPlace)
  {
    var res := CreateReview(db, placeId, body, newId, now);
    var review := res.resp.body.obj;
    ChildrenAfterPut(db, Review, newId, review, "place_id", placeId);
    ChildrenAfterPut(db, Review, newId, review, "place_id", otherPlace);
  }

  /** Creating a review in a linked store keeps it linked: the place and the author were both checked. */
  lemma {:induction false} CreateKeepsLinks(db: Store, placeId: Id, body: Option<Record>, newId: Id, now: Value)
    requires newId !in Objects(db, Review)
    requires Linked(db)
    ensures Linked(CreateReview(db, placeId, body, newId, now).store)
  {
    var res := CreateReview(db, placeId, body, newId, now);
    if res.resp.Reply? {
      var review := res.resp.body.obj;
      assert "user_id" in review && review["user_id"] == body.value["user_id"];
      assert LinksResolve(db, Review, review);
      InsertKeepsLinks(db, Review, newId, review);
    }
  }

  /** Nothing refers to a review, so deleting one always keeps a linked store linked. */
  lemma {:induction false} DeleteKeepsLinks(db: Store, reviewId: Id)
    requires Linked(db)
    ensures Linked(DeleteReview(db, reviewId).store)
  {
    if reviewId in Objects(db, Review) {
      RemoveKeepsLinks(db, Review, reviewId);
    }
  }
}
