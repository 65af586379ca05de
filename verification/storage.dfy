/**
 * The store the request handlers read and write, seen only through the map
 * semantics they rely on: for each kind of entity, a table from id to the
 * object's attributes. The storage engine itself (file or database backend,
 * id generation, persistence) is not part of this model.
 */
module Storage {
  import opened Wrappers

  type Id = string

  /** The kinds of stored object the handlers look up. */
  datatype Kind = State | City | Place | Review | User

  /** A JSON value as it arrives in a request body and is stored in an attribute. */
  datatype Value =
    | Str(s: string)
    | Num(n: real)
    | Bool(b: bool)
    | Null
    | Arr(items: seq<Value>)
    | Obj(members: map<string, Value>)

  /** An object's attributes, as its dictionary form shows them. */
  type Record = map<string, Value>

  type Table = map<Id, Record>

  type Store = map<Kind, Table>

  /** All stored objects of one kind, by id; a kind never stored has none. */
  function Objects(db: Store, kind: Kind): Table
  {
    if kind in db then db[kind] else map[]
  }

  /** Lookup by kind and id; None is "no such object". */
  function Get(db: Store, kind: Kind, id: Id): Option<Record>
  {
    if id in Objects(db, kind) then Some(Objects(db, kind)[id]) else None
  }

  /** Stores `rec` under `id`, adding it or replacing the object stored there. */
  function Put(db: Store, kind: Kind, id: Id, rec: Record): Store
  {
    db[kind := Objects(db, kind)[id := rec]]
  }

  /** Deletes the object stored under `id`. */
  function Remove(db: Store, kind: Kind, id: Id): Store
  {
    db[kind := Objects(db, kind) - {id}]
  }

  /** The foreign-key attribute `fk` of `rec` holds the id `id`. */
  predicate RefersTo(rec: Record, fk: string, id: Id)
  {
    fk in rec && rec[fk] == Str(id)
  }

  /**
   * The relationship accessors (a state's cities, a city's places, a place's
   * reviews): the stored objects of `kind` whose `fk` holds `parentId`.
   */
  function Children(db: Store, kind: Kind, fk: string, parentId: Id): Table
  {
    map id | id in Objects(db, kind) && RefersTo(Objects(db, kind)[id], fk, parentId) :: Objects(db, kind)[id]
  }

  /** Looking up `kind` with the value `v` as id finds an object. */
  predicate Resolves(db: Store, v: Value, kind: Kind)
  {
    v.Str? && v.s in Objects(db, kind)
  }

  /** The foreign keys of each kind, with the kind each one refers to. */
  function Parents(kind: Kind): (fks: map<string, Kind>)
    ensures forall fk :: fk in fks ==> fks[fk] != kind
  {
    match kind
    case City => map["state_id" := State]
    case Place => map["city_id" := City, "user_id" := User]
    case Review => map["place_id" := Place, "user_id" := User]
    case _ => map[]
  }

  /** Every foreign key of `rec`, an object of `kind`, names a stored object. */
  predicate LinksResolve(db: Store, kind: Kind, rec: Record)
  {
    forall fk :: fk in Parents(kind) ==> fk in rec && Resolves(db, rec[fk], Parents(kind)[fk])
  }

  /** Referential integrity: every foreign key of every stored object names a stored object. */
  predicate Linked(db: Store)
  {
    forall kind, id :: id in Objects(db, kind) ==> LinksResolve(db, kind, Objects(db, kind)[id])
  }

  /** Some stored object refers to the object `id` of `kind` through one of its foreign keys. */
  predicate Referenced(db: Store, kind: Kind, id: Id)
  {
    exists other, oid :: oid in Objects(db, other) && RefersToAs(Objects(db, other)[oid], other, kind, id)
  }

  /** `rec`, an object of `other`, refers to the object `id` of `kind`. */
  predicate RefersToAs(rec: Record, other: Kind, kind: Kind, id: Id)
  {
    exists fk :: fk in Parents(other) && Parents(other)[fk] == kind && RefersTo(rec, fk, id)
  }

  /** A store that only gained objects still resolves every key it resolved. */
  lemma LinksResolveGrow(db: Store, after: Store, kind: Kind, rec: Record)
    requires forall k :: Objects(db, k).Keys <= Objects(after, k).Keys
    requires LinksResolve(db, kind, rec)
    ensures LinksResolve(after, kind, rec)
  {
  }

  /** Adding an object whose foreign keys all resolve keeps the store linked. */
  lemma {:induction false} InsertKeepsLinks(db: Store, kind: Kind, id: Id, rec: Record)
    requires Linked(db)
    requires LinksResolve(db, kind, rec)
    ensures Linked(Put(db, kind, id, rec))
  {
    var after := Put(db, kind, id, rec);
    forall k, i | i in Objects(after, k)
      ensures LinksResolve(after, k, Objects(after, k)[i])
    {
      if k == kind && i == id {
        LinksResolveGrow(db, after, k, rec);
      } else {
        LinksResolveGrow(db, after, k, Objects(db, k)[i]);
      }
    }
  }

  /** Replacing a stored object by one with the same foreign keys keeps the store linked. */
  lemma {:induction false} ReplaceKeepsLinks(db: Store, kind: Kind, id: Id, rec: Record)
    requires Linked(db)
    requires id in Objects(db, kind)
    requires forall fk :: fk in Parents(kind) ==>
      fk in rec && fk in Objects(db, kind)[id] && rec[fk] == Objects(db, kind)[id][fk]
    ensures Linked(Put(db, kind, id, rec))
  {
    assert LinksResolve(db, kind, Objects(db, kind)[id]);
    InsertKeepsLinks(db, kind, id, rec);
  }

  /** Deleting an object nothing refers to keeps a linked store linked. */
  lemma {:induction false} RemoveUnreferencedKeepsLinks(db: Store, kind: Kind, id: Id)
    requires Linked(db)
    requires !Referenced(db, kind, id)
    ensures Linked(Remove(db, kind, id))
  {
    var after := Remove(db, kind, id);
    forall k, i | i in Objects(after, k)
      ensures LinksResolve(after, k, Objects(after, k)[i])
    {
      var r := Objects(db, k)[i];
      assert Objects(after, k)[i] == r;
      assert LinksResolve(db, k, r);
      assert !RefersToAs(r, k, kind, id);
      forall fk | fk in Parents(k)
        ensures fk in r && Resolves(after, r[fk], Parents(k)[fk])
      {
        assert Resolves(db, r[fk], Parents(k)[fk]);
        if Parents(k)[fk] == kind {
          assert !RefersTo(r, fk, id);
        }
      }
    }
  }

  /** Deleting an object some stored object refers to leaves a dangling foreign key. */
  lemma {:induction false} RemoveReferencedBreaksLinks(db: Store, kind: Kind, id: Id)
    requires Referenced(db, kind, id)
    ensures !Linked(Remove(db, kind, id))
  {
    var after := Remove(db, kind, id);
    var other, oid :| oid in Objects(db, other) && RefersToAs(Objects(db, other)[oid], other, kind, id);
    var fk :| fk in Parents(other) && Parents(other)[fk] == kind && RefersTo(Objects(db, other)[oid], fk, id);
    assert Objects(after, other) == Objects(db, other);
    assert !Resolves(after, Objects(after, other)[oid][fk], kind);
  }

  /** In a linked store nothing refers to an id that is not stored. */
  lemma {:induction false} AbsentNotReferenced(db: Store, kind: Kind, id: Id)
    requires Linked(db)
    requires id !in Objects(db, kind)
    ensures !Referenced(db, kind, id)
  {
  }

  /**
   * Deleting an object keeps a linked store linked exactly when no stored
   * object refers to it: nothing here cascades.
   */
  lemma {:induction false} RemoveKeepsLinks(db: Store, kind: Kind, id: Id)
    requires Linked(db)
    ensures Linked(Remove(db, kind, id)) <==> !Referenced(db, kind, id)
  {
    if Referenced(db, kind, id) {
      RemoveReferencedBreaksLinks(db, kind, id);
    } else {
      RemoveUnreferencedKeepsLinks(db, kind, id);
    }
  }

  /** Adding an object adds it to its parent's children, and only there. */
  lemma {:induction false} ChildrenAfterPut(db: Store, kind: Kind, id: Id, rec: Record, fk: string, parentId: Id)
    requires id !in Objects(db, kind)
    ensures RefersTo(rec, fk, parentId) ==>
      Children(Put(db, kind, id, rec), kind, fk, parentId) == Children(db, kind, fk, parentId)[id := rec]
    ensures !RefersTo(rec, fk, parentId) ==>
      Children(Put(db, kind, id, rec), kind, fk, parentId) == Children(db, kind, fk, parentId)
    ensures |Children(Put(db, kind, id, rec), kind, fk, parentId)| ==
      |Children(db, kind, fk, parentId)| + (if RefersTo(rec, fk, parentId) then 1 else 0)
  {
    var before := Children(db, kind, fk, parentId);
    var after := Children(Put(db, kind, id, rec), kind, fk, parentId);
    assert id !in before;
    if RefersTo(rec, fk, parentId) {
      assert after == before[id := rec];
    } else {
      assert after == before;
    }
  }
}
