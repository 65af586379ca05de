/**
 * What every resource handler shares: the response it produces, the
 * attribute-by-attribute update of a stored object from a request body, and
 * the construction of a new object by the model layer.
 */
module Resource {
  import opened Wrappers
  import opened Storage

  const OK: nat := 200
  const CREATED: nat := 201
  const BAD_REQUEST: nat := 400
  const NOT_FOUND: nat := 404

  /** A successful response's JSON body. */
  datatype Body =
    | One(obj: Record)      // one object's dictionary form
    | Many(objs: Table)     // a JSON array of objects, here keyed by their ids
    | EmptyObject           // the literal `{}`

  /** A reply, or an abort with its status and its description if it gives one. */
  datatype Response =
    | Reply(code: nat, body: Body)
    | Abort(code: nat, description: Option<string>)

  /** A handler's response together with the store after the request. */
  datatype Handled = Handled(resp: Response, store: Store)

  /** An abort with a description; the store is left as it was. */
  function Refuse(db: Store, code: nat, description: string): Handled
  {
    Handled(Abort(code, Some(description)), db)
  }

  /** `a` and `b` have the same attribute `key`, or both lack it. */
  predicate Agree(a: Record, b: Record, key: string)
  {
    (key in a <==> key in b) && (key in a ==> a[key] == b[key])
  }

  /**
   * `after` is `before` updated from a request body `data` whose keys in
   * `ignored` are skipped: every other body key is set to the body's value,
   * and every attribute the body does not set (or may not set) is unchanged.
   */
  ghost predicate Updated(before: Record, after: Record, data: Record, ignored: set<string>)
  {
    && (forall key :: key in data && key !in ignored ==> key in after && after[key] == data[key])
    && (forall key :: key !in data || key in ignored ==> Agree(after, before, key))
  }

  /** The update filter determines the updated object completely. */
  lemma UpdatedIsUnique(before: Record, a1: Record, a2: Record, data: Record, ignored: set<string>)
    requires Updated(before, a1, data, ignored)
    requires Updated(before, a2, data, ignored)
    ensures a1 == a2
  {
  }

  /** Sending the same body twice changes nothing the first request did not. */
  lemma UpdateIdempotent(before: Record, once: Record, twice: Record, data: Record, ignored: set<string>)
    requires Updated(before, once, data, ignored)
    requires Updated(once, twice, data, ignored)
    ensures twice == once
  {
  }

  /**
   * The handlers' loop over the body's items, setting each attribute whose
   * name is not in `ignored` on the object `obj`.
   */
  method ApplyBody(obj: Record, data: Record, ignored: set<string>) returns (updated: Record)
    ensures Updated(obj, updated, data, ignored)
  {
    updated := obj;
    var pending := data.Keys;
    while pending != {}
      invariant pending <= data.Keys
      invariant forall key :: key in data && key !in pending && key !in ignored ==>
        key in updated && updated[key] == data[key]
      invariant forall key :: key !in data || key in pending || key in ignored ==> Agree(updated, obj, key)
      decreases pending
    {
      var key :| key in pending;
      if key !in ignored {
        updated := updated[key := data[key]];
      }
      pending := pending - {key};
    }
  }

  /** The attributes the model layer sets itself when it creates and first saves an object. */
  const Stamps: set<string> := {"id", "created_at", "updated_at"}

  /**
   * The model layer's constructor followed by its first save: an object with
   * the attributes of `data`, the fresh id `id`, and both timestamps `now`.
   */
  function NewObject(data: Record, id: Id, now: Value): (obj: Record)
    ensures RefersTo(obj, "id", id)
    ensures "created_at" in obj && obj["created_at"] == now
    ensures "updated_at" in obj && obj["updated_at"] == now
    ensures obj.Keys == data.Keys + Stamps
    ensures forall key :: key in data && key !in Stamps ==> obj[key] == data[key]
  {
    data["id" := Str(id)]["created_at" := now]["updated_at" := now]
  }

  /**
   * `obj` carries every attribute of the body `data` except those in
   * `except`, with the body's values, and no attribute outside the body
   * other than those in `except`.
   */
  predicate Copied(obj: Record, data: Record, except: set<string>)
  {
    && (forall key :: key in data && key !in except ==> key in obj && obj[key] == data[key])
    && (forall key :: key in obj ==> key in data || key in except)
  }

  /**
   * `obj` is the object created from the body `data` with the attribute
   * `fk` forced to the path id `parentId`: the path id wins over the body,
   * every other body attribute is copied, and nothing is added beyond the
   * model layer's stamps.
   */
  predicate BuiltFrom(obj: Record, data: Record, fk: string, parentId: Id)
  {
    RefersTo(obj, fk, parentId) && Copied(obj, data, {fk} + Stamps)
  }

  /**
   * Saving an object restamps `updated_at`; since an update never takes that
   * attribute from the body, restamping before or after the update is the same.
   */
  lemma Restamped(before: Record, after: Record, data: Record, ignored: set<string>, now: Value)
    requires Updated(before, after, data, ignored)
    requires "updated_at" in ignored
    ensures Updated(before["updated_at" := now], after["updated_at" := now], data, ignored)
  {
  }
}
