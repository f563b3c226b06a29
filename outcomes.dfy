/**
 * The facade's error taxonomy and the rules that turn the store's replies
 * into it: a driver failure becomes `DBError`, a missing document in a strict
 * read becomes `NotFound`, and a modified or deleted count other than one
 * becomes `UpdateFailed` or `DeleteFailed`.
 */
module Outcomes {
  import opened Wrappers

  /** A failure reported by the store client; its cause is kept, not interpreted. */
  datatype DbError = DbError(message: string)

  /** A failure of `bson::to_bson` on an update payload. */
  datatype SerError = SerError(message: string)

  /** The facade's error enum. */
  datatype Error =
    | NotFound
    | DBError(dbCause: DbError)
    | BSONSerError(serCause: SerError)
    | CreateFailed(reason: string)
    | UpdateFailed(reason: string)
    | DeleteFailed(reason: string)

  const NO_ID_RETURNED: string := "No ID returned"
  const NO_RECORD_UPDATED: string := "No record updated"
  const NO_RECORD_DELETED: string := "No record deleted"

  /** The store's acknowledgement of an `update_one`. */
  datatype UpdateResult = UpdateResult(matchedCount: nat, modifiedCount: nat)

  /** The store's acknowledgement of a `delete_one`. */
  datatype DeleteResult = DeleteResult(deletedCount: nat)

  /** `.map_err(Error::DBError)`: a driver failure is wrapped, a reply passes through. */
  function OrDbError<T>(ack: Result<T, DbError>): (r: Result<T, Error>)
    ensures r.Ok? <==> ack.Ok?
    ensures r.Ok? ==> r.value == ack.value
    ensures r.Err? ==> r.error == DBError(ack.error)
  {
    match ack
    case Ok(v) => Ok(v)
    case Err(e) => Err(DBError(e))
  }

  /** `find_one(..)?.ok_or(NotFound)?`: an earlier error passes, an absent document is `NotFound`. */
  function Strict<T>(found: Result<Option<T>, Error>): (r: Result<T, Error>)
    ensures found.Ok? ==> (r == Err(NotFound) <==> found.value == None)
    ensures found.Ok? && found.value.Some? ==> r == Ok(found.value.value)
    ensures found.Err? ==> r == Err(found.error)
  {
    match found
    case Err(e) => Err(e)
    case Ok(None) => Err(NotFound)
    case Ok(Some(item)) => Ok(item)
  }

  /** The check after `update_one`: exactly one modified document, whatever matched. */
  function CheckModified(res: UpdateResult): (r: Result<(), Error>)
    ensures r.Ok? <==> res.modifiedCount == 1
    ensures r.Err? ==> r.error == UpdateFailed(NO_RECORD_UPDATED)
  {
    if res.modifiedCount != 1 then Err(UpdateFailed(NO_RECORD_UPDATED)) else Ok(())
  }

  /** The check after `delete_one`: exactly one deleted document. */
  function CheckDeleted(res: DeleteResult): (r: Result<(), Error>)
    ensures r.Ok? <==> res.deletedCount == 1
    ensures r.Err? ==> r.error == DeleteFailed(NO_RECORD_DELETED)
  {
    if res.deletedCount != 1 then Err(DeleteFailed(NO_RECORD_DELETED)) else Ok(())
  }

  /** A document that matched but did not change still fails the update check. */
  lemma UnchangedMatchFailsUpdate(matched: nat)
    ensures CheckModified(UpdateResult(matched, 0)) == Err(UpdateFailed(NO_RECORD_UPDATED))
  {
  }
}
