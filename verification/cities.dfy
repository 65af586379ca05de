/**
 * The City handlers: list a state's cities, get, delete, create within a
 * state, and update.
 */
module Cities {
  import opened Wrappers
  import opened Storage
  import opened Resource

  /** The attributes an update request may not change. */
  const Ignored: set<string> := {"id", "state_id", "created_at", "updated_at"}

  /** GET /states/<state_id>/cities */
  function GetCitiesByState(db: Store, stateId: Id): (resp: Response)
    ensures stateId !in Objects(db, State) ==> resp == Abort(NOT_FOUND, Some("State not found"))
    ensures stateId in Objects(db, State) ==> resp.Reply? && resp.code == OK && resp.body.Many?
    ensures resp.Reply? ==>
      && (forall id :: id in resp.body.objs <==> id in Objects(db, City) && RefersTo(Objects(db, City)[id], "state_id", stateId))
      && (forall id :: id in resp.body.objs ==> resp.body.objs[id] == Objects(db, City)[id])
  {
    match Get(db, State, stateId)
    case None => Abort(NOT_FOUND, Some("State not found"))
    case Some(_) => Reply(OK, Many(Children(db, City, "state_id", stateId)))
  }

  /** GET /cities/<city_id> */
  function GetCity(db: Store, cityId: Id): (resp: Response)
    ensures cityId !in Objects(db, City) ==> resp == Abort(NOT_FOUND, Some("City not found"))
    ensures cityId in Objects(db, City) ==> resp == Reply(OK, One(Objects(db, City)[cityId]))
  {
    match Get(db, City, cityId)
    case None => Abort(NOT_FOUND, Some("City not found"))
    case Some(city) => Reply(OK, One(city))
  }

  /** DELETE /cities/<city_id> */
  function DeleteCity(db: Store, cityId: Id): (res: Handled)
    ensures cityId !in Objects(db, City) ==> res == Refuse(db, NOT_FOUND, "City not found")
    ensures cityId in Objects(db, City) ==> res.resp == Reply(OK, EmptyObject)
    ensures Objects(res.store, City) == Objects(db, City) - {cityId}
    ensures forall kind :: kind != City ==> Objects(res.store, kind) == Objects(db, kind)
  {
    match Get(db, City, cityId)
    case None => Refuse(db, NOT_FOUND, "City not found")
    case Some(_) => Handled(Reply(OK, EmptyObject), Remove(db, City, cityId))
  }

  /** Everything a create request needs for a city: its state, a JSON body and a name. */
  predicate CreateAccepted(db: Store, stateId: Id, body: Option<Record>)
  {
    stateId in Objects(db, State) && body.Some? && "name" in body.value
  }

  /**
   * POST /states/<state_id>/cities. `newId` and `now` are the fresh id and
   * the time the model layer gives the new city.
   */
  function CreateCity(db: Store, stateId: Id, body: Option<Record>, newId: Id, now: Value): (res: Handled)
    requires newId !in Objects(db, City)
    // the checks, in the order a client sees them
    ensures stateId !in Objects(db, State) ==> res == Refuse(db, NOT_FOUND, "State not found")
    ensures stateId in Objects(db, State) && body.None? ==> res == Refuse(db, BAD_REQUEST, "Not a JSON")
    ensures stateId in Objects(db, State) && body.Some? && "name" !in body.value ==>
      res == Refuse(db, BAD_REQUEST, "Missing name")
    // every refused request leaves the store as it was
    ensures res.resp.Abort? ==> res.store == db
    // an accepted request stores exactly one new city, whose state is the path's
    ensures res.resp.Reply? <==> CreateAccepted(db, stateId, body)
    ensures res.resp.Reply? ==>
      && res.resp.code == CREATED
      && res.resp.body.One?
      && res.store == Put(db, City, newId, res.resp.body.obj)
      && BuiltFrom(res.resp.body.obj, body.value, "state_id", stateId)
      && RefersTo(res.resp.body.obj, "id", newId)
  {
    match Get(db, State, stateId)
    case None => Refuse(db, NOT_FOUND, "State not found")
    case Some(_) =>
      match body
      case None => Refuse(db, BAD_REQUEST, "Not a JSON")
      case Some(data) =>
        if "name" !in data then Refuse(db, BAD_REQUEST, "Missing name")
        else
          // the state is set on the constructed city, over whatever the body said
          var city := NewObject(data, newId, now)["state_id" := Str(stateId)];
          Handled(Reply(CREATED, One(city)), Put(db, City, newId, city))
  }

  /** PUT /cities/<city_id> */
  method UpdateCity(db: Store, cityId: Id, body: Option<Record>) returns (res: Handled)
    ensures cityId !in Objects(db, City) ==> res == Refuse(db, NOT_FOUND, "City not found")
    ensures cityId in Objects(db, City) && body.None? ==> res == Refuse(db, BAD_REQUEST, "Not a JSON")
    ensures res.resp.Abort? ==> res.store == db
    ensures cityId in Objects(db, City) && body.Some? ==>
      && res.resp.Reply?
      && res.resp.code == OK
      && res.resp.body.One?
      && res.store == Put(db, City, cityId, res.resp.body.obj)
      && Updated(Objects(db, City)[cityId], res.resp.body.obj, body.value, Ignored)
    ensures Linked(db) ==> Linked(res.store)
  {
    var found := Get(db, City, cityId);
    if found.None? {
      return Refuse(db, NOT_FOUND, "City not found");
    }
    if body.None? {
      return Refuse(db, BAD_REQUEST, "Not a JSON");
    }
    var city := ApplyBody(found.value, body.value, Ignored);
    res := Handled(Reply(OK, One(city)), Put(db, City, cityId, city));
    if Linked(db) {
      ProtectedKeepsLinks(db, cityId, city, body.value);
    }
  }

  /** An update that respects the filter keeps the city's state, so the store stays linked. */
  lemma ProtectedKeepsLinks(db: Store, cityId: Id, city: Record, data: Record)
    requires Linked(db)
    requires cityId in Objects(db, City)
    requires Updated(Objects(db, City)[cityId], city, data, Ignored)
    ensures Linked(Put(db, City, cityId, city))
  {
    var before := Objects(db, City)[cityId];
    assert LinksResolve(db, City, before);
    forall fk | fk in Parents(City)
      ensures fk in city && fk in before && city[fk] == before[fk]
    {
      assert Agree(city, before, fk);
    }
    ReplaceKeepsLinks(db, City, cityId, city);
  }

  /** An update never moves a city to another state: every state lists the same cities as before. */
  lemma {:induction false} UpdateKeepsListing(db: Store, cityId: Id, city: Record, data: Record, stateId: Id)
    requires cityId in Objects(db, City)
    requires Updated(Objects(db, City)[cityId], city, data, Ignored)
    ensures GetCitiesByState(Put(db, City, cityId, city), stateId).Reply? ==>
      GetCitiesByState(Put(db, City, cityId, city), stateId).body.objs.Keys
        == GetCitiesByState(db, stateId).body.objs.Keys
  {
  }

  /** A deleted city can no longer be fetched. */
  lemma DeleteThenGet(db: Store, cityId: Id)
    ensures GetCity(DeleteCity(db, cityId).store, cityId) == Abort(NOT_FOUND, Some("City not found"))
  {
  }

  /** A created city can be fetched under its new id, as the create request returned it. */
  lemma CreateThenGet(db: Store, stateId: Id, body: Option<Record>, newId: Id, now: Value)
    requires newId !in Objects(db, City)
    requires CreateAccepted(db, stateId, body)
    ensures GetCity(CreateCity(db, stateId, body, newId, now).store, newId)
      == Reply(OK, CreateCity(db, stateId, body, newId, now).resp.body)
  {
  }

  /** A created city is listed under the path's state, one more than before, and under no other state. */
  lemma {:induction false} CreateThenList(db: Store, stateId: Id, otherState: Id, body: Option<Record>, newId: Id, now: Value)
    requires newId !in Objects(db, City)
    requires CreateAccepted(db, stateId, body)
    requires otherState in Objects(db, State) && otherState != stateId
    ensures var res := CreateCity(db, stateId, body, newId, now);
      && GetCitiesByState(res.store, stateId).body.objs == GetCitiesByState(db, stateId).body.objs[newId := res.resp.body.obj]
      && |GetCitiesByState(res.store, stateId).body.objs| == |GetCitiesByState(db, stateId).body.objs| + 1
      && GetCitiesByState(res.store, otherState) == GetCitiesByState(db, otherState)
  {
    var res := CreateCity(db, stateId, body, newId, now);
    var city := res.resp.body.obj;
    ChildrenAfterPut(db, City, newId, city, "state_id", stateId);
    ChildrenAfterPut(db, City, newId, city, "state_id", otherState);
  }

  /** Creating a city in a linked store keeps it linked: the state was checked. */
  lemma {:induction false} CreateKeepsLinks(db: Store, stateId: Id, body: Option<Record>, newId: Id, now: Value)
    requires newId !in Objects(db, City)
    requires Linked(db)
    ensures Linked(CreateCity(db, stateId, body, newId, now).store)
  {
    var res := CreateCity(db, stateId, body, newId, now);
    if res.resp.Reply? {
      var city := res.resp.body.obj;
      assert LinksResolve(db, City, city);
      InsertKeepsLinks(db, City, newId, city);
    }
  }

  /** Deleting a city keeps a linked store linked exactly when no place is left in it. */
  lemma {:induction false} DeleteKeepsLinks(db: Store, cityId: Id)
    requires Linked(db)
    ensures Linked(DeleteCity(db, cityId).store) <==> !Referenced(db, City, cityId)
  {
  }
}
