/**
 * The Place handlers: list a city's places, get, delete, create within a
 * city, and update. Each takes the store and the path ids (and, where the
 * route accepts one, the request body, None when it is not JSON) and gives
 * the response and the store afterwards.
 */
module Places {
  import opened Wrappers
  import opened Storage
  import opened Resource

  /** The attributes an update request may not change. */
  const Ignored: set<string> := {"id", "user_id", "city_id", "created_at", "updated_at"}

  /** GET /cities/<city_id>/places */
  function GetPlacesByCity(db: Store, cityId: Id): (resp: Response)
    ensures cityId !in Objects(db, City) ==> resp == Abort(NOT_FOUND, Some("City not found"))
    ensures cityId in Objects(db, City) ==> resp.Reply? && resp.code == OK && resp.body.Many?
    ensures resp.Reply? ==>
      && (forall id :: id in resp.body.objs <==> id in Objects(db, Place) && RefersTo(Objects(db, Place)[id], "city_id", cityId))
      && (forall id :: id in resp.body.objs ==> resp.body.objs[id] == Objects(db, Place)[id])
  {
    match Get(db, City, cityId)
    case None => Abort(NOT_FOUND, Some("City not found"))
    case Some(_) => Reply(OK, Many(Children(db, Place, "city_id", cityId)))
  }

  /** GET /places/<place_id> */
  function GetPlace(db: Store, placeId: Id): (resp: Response)
    ensures placeId !in Objects(db, Place) ==> resp == Abort(NOT_FOUND, Some("Place not found"))
    ensures placeId in Objects(db, Place) ==> resp == Reply(OK, One(Objects(db, Place)[placeId]))
  {
    match Get(db, Place, placeId)
    case None => Abort(NOT_FOUND, Some("Place not found"))
    case Some(place) => Reply(OK, One(place))
  }

  /** DELETE /places/<place_id> */
  function DeletePlace(db: Store, placeId: Id): (res: Handled)
    ensures placeId !in Objects(db, Place) ==> res == Refuse(db, NOT_FOUND, "Place not found")
    ensures placeId in Objects(db, Place) ==> res.resp == Reply(OK, EmptyObject)
    ensures Objects(res.store, Place) == Objects(db, Place) - {placeId}
    ensures forall kind :: kind != Place ==> Objects(res.store, kind) == Objects(db, kind)
  {
    match Get(db, Place, placeId)
    case None => Refuse(db, NOT_FOUND, "Place not found")
    case Some(_) => Handled(Reply(OK, EmptyObject), Remove(db, Place, placeId))
  }

  /** Everything a create request needs for a place: its city, a JSON body, a stored user and a name. */
  predicate CreateAccepted(db: Store, cityId: Id, body: Option<Record>)
  {
    && cityId in Objects(db, City)
    && body.Some?
    && "user_id" in body.value
    && Resolves(db, body.value["user_id"], User)
    && "name" in body.value
  }

  /**
   * POST /cities/<city_id>/places. `newId` and `now` are the fresh id and
   * the time the model layer gives the new place.
   */
  function CreatePlace(db: Store, cityId: Id, body: Option<Record>, newId: Id, now: Value): (res: Handled)
    requires newId !in Objects(db, Place)
    // the checks, in the order a client sees them
    ensures cityId !in Objects(db, City) ==> res == Refuse(db, NOT_FOUND, "City not found")
    ensures cityId in Objects(db, City) && body.None? ==> res == Refuse(db, BAD_REQUEST, "Not a JSON")
    ensures cityId in Objects(db, City) && body.Some? && "user_id" !in body.value ==>
      res == Refuse(db, BAD_REQUEST, "Missing user_id")
    ensures (cityId in Objects(db, City) && body.Some? && "user_id" in body.value &&
             !Resolves(db, body.value["user_id"], User)) ==>
      res == Refuse(db, NOT_FOUND, "User not found")
    ensures (cityId in Objects(db, City) && body.Some? && "user_id" in body.value &&
             Resolves(db, body.value["user_id"], User) && "name" !in body.value) ==>
      res == Refuse(db, BAD_REQUEST, "Missing name")
    // every refused request leaves the store as it was
    ensures res.resp.Abort? ==> res.store == db
    // an accepted request stores exactly one new place, whose city is the path's
    ensures res.resp.Reply? <==> CreateAccepted(db, cityId, body)
    ensures res.resp.Reply? ==>
      && res.resp.code == CREATED
      && res.resp.body.One?
      && res.store == Put(db, Place, newId, res.resp.body.obj)
      && BuiltFrom(res.resp.body.obj, body.value, "city_id", cityId)
      && RefersTo(res.resp.body.obj, "id", newId)
  {
    match Get(db, City, cityId)
    case None => Refuse(db, NOT_FOUND, "City not found")
    case Some(_) =>
      match body
      case None => Refuse(db, BAD_REQUEST, "Not a JSON")
      case Some(data) =>
        if "user_id" !in data then Refuse(db, BAD_REQUEST, "Missing user_id")
        else if !Resolves(db, data["user_id"], User) then Refuse(db, NOT_FOUND, "User not found")
        else if "name" !in data then Refuse(db, BAD_REQUEST, "Missing name")
        else
          var place := NewObject(data["city_id" := Str(cityId)], newId, now);
          Handled(Reply(CREATED, One(place)), Put(db, Place, newId, place))
  }

  /** PUT /places/<place_id> */
  method UpdatePlace(db: Store, placeId: Id, body: Option<Record>) returns (res: Handled)
    ensures placeId !in Objects(db, Place) ==> res == Refuse(db, NOT_FOUND, "Place not found")
    ensures placeId in Objects(db, Place) && body.None? ==> res == Refuse(db, BAD_REQUEST, "Not a JSON")
    ensures res.resp.Abort? ==> res.store == db
    ensures placeId in Objects(db, Place) && body.Some? ==>
      && res.resp.Reply?
      && res.resp.code == OK
      && res.resp.body.One?
      && res.store == Put(db, Place, placeId, res.resp.body.obj)
      && Updated(Objects(db, Place)[placeId], res.resp.body.obj, body.value, Ignored)
    ensures Linked(db) ==> Linked(res.store)
  {
    var found := Get(db, Place, placeId);
    if found.None? {
      return Refuse(db, NOT_FOUND, "Place not found");
    }
    if body.None? {
      return Refuse(db, BAD_REQUEST, "Not a JSON");
    }
    var place := ApplyBody(found.value, body.value, Ignored);
    res := Handled(Reply(OK, One(place)), Put(db, Place, placeId, place));
    if Linked(db) {
      ProtectedKeepsLinks(db, placeId, place, body.value);
    }
  }

  /** An update that respects the filter keeps the place's city and owner, so the store stays linked. */
  lemma ProtectedKeepsLinks(db: Store, placeId: Id, place: Record, data: Record)
    requires Linked(db)
    requires placeId in Objects(db, Place)
    requires Updated(Objects(db, Place)[placeId], place, data, Ignored)
    ensures Linked(Put(db, Place, placeId, place))
  {
    var before := Objects(db, Place)[placeId];
    assert LinksResolve(db, Place, before);
    forall fk | fk in Parents(Place)
      ensures fk in place && fk in before && place[fk] == before[fk]
    {
      assert Agree(place, before, fk);
    }
    ReplaceKeepsLinks(db, Place, placeId, place);
  }

  /** An update never moves a place to another city: every city lists the same places as before. */
  lemma {:induction false} UpdateKeepsListing(db: Store, placeId: Id, rec: Record, data: Record, parentId: Id)
    requires placeId in Objects(db, Place)
    requires Updated(Objects(db, Place)[placeId], rec, data, Ignored)
    ensures GetPlacesByCity(Put(db, Place, placeId, rec), parentId).Reply? ==>
      GetPlacesByCity(Put(db, Place, placeId, rec), parentId).body.objs.Keys
        == GetPlacesByCity(db, parentId).body.objs.Keys
  {
  }

  /** A deleted place can no longer be fetched. */
  lemma DeleteThenGet(db: Store, placeId: Id)
    ensures GetPlace(DeletePlace(db, placeId).store, placeId) == Abort(NOT_FOUND, Some("Place not found"))
  {
  }

  /** A created place can be fetched under its new id, as the create request returned it. */
  lemma CreateThenGet(db: Store, cityId: Id, body: Option<Record>, newId: Id, now: Value)
    requires newId !in Objects(db, Place)
    requires CreateAccepted(db, cityId, body)
    ensures GetPlace(CreatePlace(db, cityId, body, newId, now).store, newId)
      == Reply(OK, CreatePlace(db, cityId, body, newId, now).resp.body)
  {
  }

  /** A created place is listed under the path's city, one more than before, and under no other city. */
  lemma {:induction false} CreateThenList(db: Store, cityId: Id, otherCity: Id, body: Option<Record>, newId: Id, now: Value)
    requires newId !in Objects(db, Place)
    requires CreateAccepted(db, cityId, body)
    requires otherCity in Objects(db, City) && otherCity != cityId
    ensures var res := CreatePlace(db, cityId, body, newId, now);
      && GetPlacesByCity(res.store, cityId).body.objs == GetPlacesByCity(db, cityId).body.objs[newId := res.resp.body.obj]
      && |GetPlacesByCity(res.store, cityId).body.objs| == |GetPlacesByCity(db, cityId).body.objs| + 1
      && GetPlacesByCity(res.store, otherCity) == GetPlacesByCity(db, otherCity)
  {
    var res := CreatePlace(db, cityId, body, newId, now);
    var place := res.resp.body.obj;
    ChildrenAfterPut(db, Place, newId, place, "city_id", cityId);
    ChildrenAfterPut(db, Place, newId, place, "city_id", otherCity);
  }

  /** Creating a place in a linked store keeps it linked: the city and the owner were both checked. */
  lemma {:induction false} CreateKeepsLinks(db: Store, cityId: Id, body: Option<Record>, newId: Id, now: Value)
    requires newId !in Objects(db, Place)
    requires Linked(db)
    ensures Linked(CreatePlace(db, cityId, body, newId, now).store)
  {
    var res := CreatePlace(db, cityId, body, newId, now);
    if res.resp.Reply? {
      var place := res.resp.body.obj;
      assert "user_id" in place && place["user_id"] == body.value["user_id"];
      assert LinksResolve(db, Place, place);
      InsertKeepsLinks(db, Place, newId, place);
    }
  }

  /** Deleting a place keeps a linked store linked exactly when no review is left pointing at it. */
  lemma {:induction false} DeleteKeepsLinks(db: Store, placeId: Id)
    requires Linked(db)
    ensures Linked(DeletePlace(db, placeId).store) <==> !Referenced(db, Place, placeId)
  {
  }
}
