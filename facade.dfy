/**
 * The CRUD facade mixed into a model type `M`, over a collection whose
 * driver is an outside collaborator.
 *
 * Each driver call (`find`, `find_one`, `insert_one`, `update_one`,
 * `delete_one`) is a method whose reply may be any value of its type; it is
 * appended, with its request, to the collection's `log`. Every facade
 * operation is specified by the calls it appends (its transcript) and by how
 * its result follows from the replies in them: the `...Steps` predicates
 * below. A transcript that stops after a call means no later step ran.
 */
module Facade {
  import opened Wrappers
  import opened Bson
  import opened Uuids
  import opened IdCodec
  import opened Outcomes

  /** One driver call: its request and the reply the store gave. */
  datatype Call<M> =
    | FindCall(filter: Document, found: Result<seq<M>, DbError>)
    | FindOneCall(filter: Document, foundOne: Result<Option<M>, DbError>)
    | InsertOneCall(doc: M, inserted: Result<Bson, DbError>)
    | UpdateOneCall(filter: Document, update: Document, updated: Result<UpdateResult, DbError>)
    | DeleteOneCall(filter: Document, deleted: Result<DeleteResult, DbError>)

  /** The update specification `{$set: changes}`: a field merge with the serialized payload. */
  function SetUpdate(changes: Bson): (u: Document)
    ensures u.Keys == {SET_KEY} && u[SET_KEY] == changes
  {
    map[SET_KEY := changes]
  }

  /** `later` is `earlier` followed by the calls of one operation. */
  ghost predicate Extends<M>(earlier: seq<Call<M>>, later: seq<Call<M>>)
  {
    |earlier| <= |later| && later[..|earlier|] == earlier
  }

  /** `find(filter)`: one `find` call; its documents, or its error as `DBError`. */
  ghost predicate FindSteps<M>(filter: Document, t: seq<Call<M>>, r: Result<seq<M>, Error>)
  {
    |t| == 1 && t[0].FindCall? && t[0].filter == filter && r == OrDbError(t[0].found)
  }

  /** `find_one(filter)`: one `find_one` call; its optional document, or `DBError`. */
  ghost predicate FindOneSteps<M>(filter: Document, t: seq<Call<M>>, r: Result<Option<M>, Error>)
  {
    |t| == 1 && t[0].FindOneCall? && t[0].filter == filter && r == OrDbError(t[0].foundOne)
  }

  /** `find_one_strict(filter)`: as `find_one`, with an absent document reported as `NotFound`. */
  ghost predicate FindOneStrictSteps<M>(filter: Document, t: seq<Call<M>>, r: Result<M, Error>)
  {
    |t| == 1 && t[0].FindOneCall? && t[0].filter == filter && r == Strict(OrDbError(t[0].foundOne))
  }

  /**
   * `create_one(data)`: insert `data`; a driver failure stops with `DBError`;
   * an inserted id that does not decode stops with `CreateFailed`; otherwise
   * the result is a strict re-read by the decoded id.
   */
  ghost predicate CreateOneSteps<M>(data: M, t: seq<Call<M>>, r: Result<M, Error>)
  {
    |t| >= 1 && t[0].InsertOneCall? && t[0].doc == data &&
    match t[0].inserted
    case Err(e) => |t| == 1 && r == Err(DBError(e))
    case Ok(key) =>
      match DecodeInsertedId(key)
      case None => |t| == 1 && r == Err(CreateFailed(NO_ID_RETURNED))
      case Some(id) => FindOneStrictSteps(IdFilter(id), t[1..], r)
  }

  /**
   * `update_one(filter, data)`, where `payload` is what `bson::to_bson(&data)`
   * gave: a serialization failure stops before any call; then one
   * `update_one` with `{$set: payload}`; a driver failure stops with
   * `DBError`; a modified count other than one stops with `UpdateFailed`;
   * otherwise the result is a strict re-read with the same filter.
   */
  ghost predicate UpdateOneSteps<M>(filter: Document, payload: Result<Bson, SerError>, t: seq<Call<M>>, r: Result<M, Error>)
  {
    match payload
    case Err(e) => t == [] && r == Err(BSONSerError(e))
    case Ok(changes) =>
      |t| >= 1 && t[0].UpdateOneCall? && t[0].filter == filter && t[0].update == SetUpdate(changes) &&
      match t[0].updated
      case Err(e) => |t| == 1 && r == Err(DBError(e))
      case Ok(res) =>
        match CheckModified(res)
        case Err(e) => |t| == 1 && r == Err(e)
        case Ok(_) => FindOneStrictSteps(filter, t[1..], r)
  }

  /** `delete_one(filter)`: one `delete_one` call; `DBError`, or the deleted-count check. */
  ghost predicate DeleteOneSteps<M>(filter: Document, t: seq<Call<M>>, r: Result<(), Error>)
  {
    |t| == 1 && t[0].DeleteOneCall? && t[0].filter == filter &&
    match t[0].deleted
    case Err(e) => r == Err(DBError(e))
    case Ok(res) => r == CheckDeleted(res)
  }

  /** The call reported a driver failure. */
  predicate Failed<M>(c: Call<M>)
  {
    match c
    case FindCall(_, found) => found.Err?
    case FindOneCall(_, foundOne) => foundOne.Err?
    case InsertOneCall(_, inserted) => inserted.Err?
    case UpdateOneCall(_, _, updated) => updated.Err?
    case DeleteOneCall(_, deleted) => deleted.Err?
  }

  /** The driver failure a failed call reported. */
  function Failure<M>(c: Call<M>): DbError
    requires Failed(c)
  {
    match c
    case FindCall(_, found) => found.error
    case FindOneCall(_, foundOne) => foundOne.error
    case InsertOneCall(_, inserted) => inserted.error
    case UpdateOneCall(_, _, updated) => updated.error
    case DeleteOneCall(_, deleted) => deleted.error
  }

  /**
   * A driver failure in a create ends it at once, as `DBError` with the same
   * cause; and a create fails with `DBError` only that way.
   */
  lemma CreateStopsAtDriverFailure<M>(data: M, t: seq<Call<M>>, r: Result<M, Error>)
    requires CreateOneSteps(data, t, r)
    ensures forall i | 0 <= i < |t| && Failed(t[i]) :: i == |t| - 1 && r == Err(DBError(Failure(t[i])))
    ensures r.Err? && r.error.DBError? <==> Failed(t[|t| - 1])
  {
  }

  /** The same for an update. */
  lemma UpdateStopsAtDriverFailure<M>(filter: Document, payload: Result<Bson, SerError>, t: seq<Call<M>>, r: Result<M, Error>)
    requires UpdateOneSteps(filter, payload, t, r)
    ensures forall i | 0 <= i < |t| && Failed(t[i]) :: i == |t| - 1 && r == Err(DBError(Failure(t[i])))
    ensures r.Err? && r.error.DBError? <==> |t| > 0 && Failed(t[|t| - 1])
  {
  }

  /** `create_one` fails with `CreateFailed` exactly when the acknowledged id does not decode. */
  lemma CreateFailsExactlyWithoutId<M>(data: M, t: seq<Call<M>>, r: Result<M, Error>)
    requires CreateOneSteps(data, t, r)
    ensures r == Err(CreateFailed(NO_ID_RETURNED)) <==>
      t[0].inserted.Ok? && DecodeInsertedId(t[0].inserted.value) == None
  {
  }

  /**
   * A successful create returns the document re-read by the decoded id, not
   * the submitted data; a missing re-read surfaces as `NotFound`.
   */
  lemma CreateReturnsReread<M>(data: M, t: seq<Call<M>>, r: Result<M, Error>)
    requires CreateOneSteps(data, t, r)
    ensures r.Ok? || r == Err(NotFound) ==>
      && t[0].inserted.Ok?
      && DecodeInsertedId(t[0].inserted.value).Some?
      && |t| == 2
      && t[1].FindOneCall?
      && t[1].filter == IdFilter(DecodeInsertedId(t[0].inserted.value).value)
    ensures r.Ok? ==> t[1].foundOne == Ok(Some(r.value))
    ensures r == Err(NotFound) <==> |t| == 2 && t[1].foundOne == Ok(None)
  {
  }

  /**
   * An update fails with `UpdateFailed` exactly when the store acknowledged a
   * modified count other than one, including zero for a match left unchanged.
   */
  lemma UpdateFailsUnlessOneModified<M>(filter: Document, payload: Result<Bson, SerError>, t: seq<Call<M>>, r: Result<M, Error>)
    requires UpdateOneSteps(filter, payload, t, r)
    ensures r == Err(UpdateFailed(NO_RECORD_UPDATED)) <==>
      payload.Ok? && t[0].updated.Ok? && t[0].updated.value.modifiedCount != 1
  {
  }

  /** A successful update re-reads with the very filter it updated with. */
  lemma UpdateRereadsSameFilter<M>(filter: Document, payload: Result<Bson, SerError>, t: seq<Call<M>>, r: Result<M, Error>)
    requires UpdateOneSteps(filter, payload, t, r) && r.Ok?
    ensures payload.Ok? && |t| == 2 && t[0].filter == filter
    ensures t[0].updated.Ok? && t[0].updated.value.modifiedCount == 1
    ensures t[1] == FindOneCall(filter, Ok(Some(r.value)))
  {
  }

  /** A payload that does not serialize fails with `BSONSerError` before any driver call. */
  lemma UpdateSerFailureCallsNothing<M>(filter: Document, e: SerError, t: seq<Call<M>>, r: Result<M, Error>)
    requires UpdateOneSteps(filter, Err(e), t, r)
    ensures t == [] && r == Err(BSONSerError(e))
  {
  }

  /**
   * A delete succeeds exactly when one document was deleted; it never
   * reports `NotFound`, so deleting an id twice reports `DeleteFailed`.
   */
  lemma DeleteOutcome<M>(filter: Document, t: seq<Call<M>>, r: Result<(), Error>)
    requires DeleteOneSteps(filter, t, r)
    ensures r == Ok(()) <==> t[0].deleted == Ok(DeleteResult(1))
    ensures r != Err(NotFound)
    ensures t[0].deleted.Ok? && t[0].deleted.value.deletedCount != 1 ==> r == Err(DeleteFailed(NO_RECORD_DELETED))
  {
  }

  /** `find_one_strict` is `NotFound` exactly when `find_one` found nothing, and otherwise the same item. */
  lemma StrictReadAgreesWithFindOne<M>(filter: Document, t: seq<Call<M>>, strict: Result<M, Error>, plain: Result<Option<M>, Error>)
    requires FindOneStrictSteps(filter, t, strict) && FindOneSteps(filter, t, plain)
    ensures strict == Err(NotFound) <==> plain == Ok(None)
    ensures plain.Ok? && plain.value.Some? ==> strict == Ok(plain.value.value)
    ensures plain.Err? ==> strict == Err(plain.error)
  {
  }

  /** The collection of model type `M`, as the facade sees it. */
  class Collection<M> {
    /** Every driver call issued on this collection so far, in order. */
    var log: seq<Call<M>>
    /** The model's `id_value`. */
    const idValue: M -> Uuid

    constructor (idValue: M -> Uuid)
      ensures log == [] && this.idValue == idValue
    {
      log := [];
      this.idValue := idValue;
    }

    // DRIVER: replies are unconstrained beyond their type.

    method DriverFind(filter: Document) returns (found: Result<seq<M>, DbError>)
      modifies this
      ensures log == old(log) + [FindCall(filter, found)]
    {
      found :| true;
      log := log + [FindCall(filter, found)];
    }

    method DriverFindOne(filter: Document) returns (foundOne: Result<Option<M>, DbError>)
      modifies this
      ensures log == old(log) + [FindOneCall(filter, foundOne)]
    {
      foundOne :| true;
      log := log + [FindOneCall(filter, foundOne)];
    }

    method DriverInsertOne(doc: M) returns (inserted: Result<Bson, DbError>)
      modifies this
      ensures log == old(log) + [InsertOneCall(doc, inserted)]
    {
      inserted :| true;
      log := log + [InsertOneCall(doc, inserted)];
    }

    method DriverUpdateOne(filter: Document, update: Document) returns (updated: Result<UpdateResult, DbError>)
      modifies this
      ensures log == old(log) + [UpdateOneCall(filter, update, updated)]
    {
      updated :| true;
      log := log + [UpdateOneCall(filter, update, updated)];
    }

    method DriverDeleteOne(filter: Document) returns (deleted: Result<DeleteResult, DbError>)
      modifies this
      ensures log == old(log) + [DeleteOneCall(filter, deleted)]
    {
      deleted :| true;
      log := log + [DeleteOneCall(filter, deleted)];
    }

    // HELPERS

    /** `search_filter`: the canonical filter of `self`'s own id. */
    function SearchFilter(self: M): (f: Document)
      ensures f.Keys == {ID_KEY}
      ensures DecodeInsertedId(f[ID_KEY]) == Some(idValue(self))
    {
      IdFilter(idValue(self))
    }

    // FIND

    method Find(filter: Document) returns (r: Result<seq<M>, Error>)
      modifies this
      ensures Extends(old(log), log) && FindSteps(filter, log[|old(log)|..], r)
    {
      var found := DriverFind(filter);
      r := OrDbError(found);
    }

    method FindOne(filter: Document) returns (r: Result<Option<M>, Error>)
      modifies this
      ensures Extends(old(log), log) && FindOneSteps(filter, log[|old(log)|..], r)
    {
      var foundOne := DriverFindOne(filter);
      r := OrDbError(foundOne);
    }

    method FindOneStrict(filter: Document) returns (r: Result<M, Error>)
      modifies this
      ensures Extends(old(log), log) && FindOneStrictSteps(filter, log[|old(log)|..], r)
    {
      var item := FindOne(filter);
      r := Strict(item);
    }

    method FindById(id: Uuid) returns (r: Result<Option<M>, Error>)
      modifies this
      ensures Extends(old(log), log) && FindOneSteps(IdFilter(id), log[|old(log)|..], r)
    {
      r := FindOne(IdFilter(id));
    }

    method FindByIdStrict(id: Uuid) returns (r: Result<M, Error>)
      modifies this
      ensures Extends(old(log), log) && FindOneStrictSteps(IdFilter(id), log[|old(log)|..], r)
    {
      r := FindOneStrict(IdFilter(id));
    }

    // CREATE

    method CreateOne(data: M) returns (r: Result<M, Error>)
      modifies this
      ensures Extends(old(log), log) && CreateOneSteps(data, log[|old(log)|..], r)
    {
      ghost var start := log;
      var inserted := DriverInsertOne(data);
      match inserted {
        case Err(e) =>
          r := Err(DBError(e));
        case Ok(key) =>
          var someId := DecodeInsertedId(key);
          match someId {
            case Some(id) =>
              ghost var mid := log;
              r := FindByIdStrict(id);
              assert log[|start|..][1..] == log[|mid|..];
            case None =>
              r := Err(CreateFailed(NO_ID_RETURNED));
          }
      }
    }

    // UPDATE

    method UpdateOne(filter: Document, payload: Result<Bson, SerError>) returns (r: Result<M, Error>)
      modifies this
      ensures Extends(old(log), log) && UpdateOneSteps(filter, payload, log[|old(log)|..], r)
    {
      ghost var start := log;
      match payload {
        case Err(e) =>
          r := Err(BSONSerError(e));
        case Ok(changes) =>
          var updated := DriverUpdateOne(filter, SetUpdate(changes));
          match updated {
            case Err(e) =>
              r := Err(DBError(e));
            case Ok(res) =>
              if res.modifiedCount != 1 {
                r := Err(UpdateFailed(NO_RECORD_UPDATED));
              } else {
                ghost var mid := log;
                r := FindOneStrict(filter);
                assert log[|start|..][1..] == log[|mid|..];
              }
          }
      }
    }

    method UpdateById(id: Uuid, payload: Result<Bson, SerError>) returns (r: Result<M, Error>)
      modifies this
      ensures Extends(old(log), log) && UpdateOneSteps(IdFilter(id), payload, log[|old(log)|..], r)
    {
      r := UpdateOne(IdFilter(id), payload);
    }

    // DELETE

    method DeleteOne(filter: Document) returns (r: Result<(), Error>)
      modifies this
      ensures Extends(old(log), log) && DeleteOneSteps(filter, log[|old(log)|..], r)
    {
      var deleted := DriverDeleteOne(filter);
      match deleted {
        case Err(e) =>
          r := Err(DBError(e));
        case Ok(res) =>
          if res.deletedCount != 1 {
            r := Err(DeleteFailed(NO_RECORD_DELETED));
          } else {
            r := Ok(());
          }
      }
    }

    method DeleteById(id: Uuid) returns (r: Result<(), Error>)
      modifies this
      ensures Extends(old(log), log) && DeleteOneSteps(IdFilter(id), log[|old(log)|..], r)
    {
      r := DeleteOne(IdFilter(id));
    }

    // INSTANCE METHODS

    method Create(self: M) returns (r: Result<M, Error>)
      modifies this
      ensures Extends(old(log), log) && CreateOneSteps(self, log[|old(log)|..], r)
    {
      r := CreateOne(self);
    }

    method Update(self: M, payload: Result<Bson, SerError>) returns (r: Result<M, Error>)
      modifies this
      ensures Extends(old(log), log) && UpdateOneSteps(IdFilter(idValue(self)), payload, log[|old(log)|..], r)
    {
      r := UpdateById(idValue(self), payload);
    }

    method Delete(self: M) returns (r: Result<(), Error>)
      modifies this
      ensures Extends(old(log), log) && DeleteOneSteps(IdFilter(idValue(self)), log[|old(log)|..], r)
    {
      r := DeleteById(idValue(self));
    }
  }
}
