# CRUD facade over MongoDB: a Dafny model

This project models the decision layer of `RustMongoDBModelMethods`. That is
a generic trait you mix into a model type to get find / create / update /
delete against a MongoDB collection. The model fixes the `uuid_as_id`
identifier strategy. Under it a model's id is a UUID, stored as a BSON
binary of subtype `Generic`.

What is modelled:

- **Identifier codec** (`bytes.dfy`, `uuid.dfy`, `id_codec.dfy`).
  - A UUID is its 128-bit value.
  - `as_bytes` gives its 16 bytes, big-endian.
  - `Uuid::from_slice` rebuilds a UUID from exactly 16 bytes and reports a
    length error otherwise.
  - `id_fitter` packs the bytes into `Binary(Generic, ..)`.
  - The canonical filter is `{_id: id_fitter(id)}`.
  - The inserted-id match in `create_one` goes the other way. It appears
    twice: once as written, where it can panic, and once in the corrected
    form the facade uses (see Findings).
- **Error taxonomy and translation rules** (`outcomes.dfy`).
  - The `Error` enum.
  - Driver failures become `DBError`.
  - A strict read that finds nothing becomes `NotFound`.
  - A modified count other than 1 becomes `UpdateFailed`.
  - A deleted count other than 1 becomes `DeleteFailed`.
- **Facade** (`facade.dfy`).
  - `Collection<M>` stands for the collection of one model type `M`.
  - Each MongoDB driver call is a method whose reply may be any value of its
    type. Each call is appended, with its request, to the collection's `log`.
  - Every facade operation is a method. Its postcondition says which calls it
    appended (its *transcript*) and how its result follows from the replies.
  - The `...Steps` predicates define those transcripts. A transcript that
    ends early means no later step ran.
  - Lemmas over the predicates state the facade's promises for every
    possible driver.
- **In-memory store** (`memory_store.dfy`).
  - This is an assumption about the driver, not part of the library.
  - It is a map from `_id` to document, together with the reply that map
    gives to each driver call.
  - The scenario lemmas replay the facade's transcripts against it, through
    create, rename, delete, find and a second delete.

Behaviour of the code worth knowing:

- A create whose acknowledged id does not decode reports `CreateFailed`.
  The inserted document stays in the store; nothing rolls it back
  (`MemoryStore.CreateWithoutIdInMemory`).
- Decoding an inserted id accepts only a BSON binary. A string form of the
  UUID decodes to no id.
- The binary's subtype is never checked. So re-encoding a decoded key gives
  back the same key only for keys of subtype `Generic`
  (`IdCodec.DecodeIgnoresSubtype`).

## Model

| member | source | states |
|---|---|---|
| `Bytes.FromToBytesBE` | src/lib.rs:48 | reading the 16 bytes of a 128-bit value back gives that value |
| `Bytes.ToFromBytesBE` | src/lib.rs:109 | every byte string is the encoding of the number it spells, so `from_slice` loses nothing |
| `Uuids.AsBytes` | src/lib.rs:48 | `as_bytes` yields exactly 16 bytes, and they spell the UUID |
| `Uuids.FromSlice` | src/lib.rs:109 | `from_slice` fails with a length error exactly when the slice is not 16 bytes; otherwise it returns the UUID whose bytes are the slice |
| `Uuids.FromSliceAsBytes` | src/lib.rs:109 | `from_slice(as_bytes(u))` is `u` |
| `IdCodec.IdFitter` | src/lib.rs:41-53 | the key is a binary of subtype `Generic` holding the 16 bytes of the id, in order |
| `IdCodec.IdFilter` | src/lib.rs:90-95 | the id-based filter has the single field `_id`, whose value decodes back to the id |
| `IdCodec.DecodeInsertedIdAsWritten` | src/lib.rs:106-114 | as written, the inserted-id match panics exactly on a binary whose length is not 16; any other binary gives the UUID of its bytes; a non-binary gives no id |
| `IdCodec.DecodeInsertedId` | src/lib.rs:106-114 | the corrected match gives an id exactly for a 16-byte binary of any subtype; the id's bytes are the binary's bytes |
| `IdCodec.ShortBinaryIdPanics` | src/lib.rs:109 | a 2-byte binary id makes the code as written panic with a length error |
| `IdCodec.DecodeAgreesWhereAsWrittenReturns` | src/lib.rs:106-114 | whenever the code as written returns, it returns the corrected decoder's answer |
| `IdCodec.DecodeIdFitter` | src/lib.rs:46-49 | round trip: decoding `id_fitter(u)` gives `Some(u)` |
| `IdCodec.IdFitterDecode` | src/lib.rs:106-114 | round trip the other way: every 16-byte `Generic` key is `id_fitter` of the id it decodes to |
| `IdCodec.DecodeIgnoresSubtype` | src/lib.rs:108-110 | decoding ignores the subtype, so a key of another subtype does not survive decode then encode |
| `IdCodec.IdFitterInjective` | src/lib.rs:41-53 | distinct UUIDs get distinct keys |
| `Outcomes.OrDbError` | src/lib.rs:81 | a driver failure becomes `DBError` with the same cause; a reply passes through unchanged |
| `Outcomes.Strict` | src/lib.rs:85-88 | `NotFound` exactly when `find_one` found nothing; otherwise the same item, or the same earlier error |
| `Outcomes.CheckModified` | src/lib.rs:134-136 | success exactly when the modified count is 1; otherwise `UpdateFailed("No record updated")` |
| `Outcomes.CheckDeleted` | src/lib.rs:151-153 | success exactly when the deleted count is 1; otherwise `DeleteFailed("No record deleted")` |
| `Outcomes.UnchangedMatchFailsUpdate` | src/lib.rs:134-136 | a document that matched but did not change still fails the update |
| `Facade.SetUpdate` | src/lib.rs:130 | the update specification is the single field `$set` holding the serialized payload |
| `Facade.CreateStopsAtDriverFailure` | src/lib.rs:101 | a driver failure in a create ends it at once as `DBError` with that cause, and `DBError` arises only so |
| `Facade.UpdateStopsAtDriverFailure` | src/lib.rs:129-132 | the same for an update |
| `Facade.CreateFailsExactlyWithoutId` | src/lib.rs:117-120 | `create_one` gives `CreateFailed("No ID returned")` exactly when the acknowledged id does not decode |
| `Facade.CreateReturnsReread` | src/lib.rs:117-118 | a successful create returns the document re-read with the filter of the decoded id, not the submitted data; `NotFound` exactly when that re-read finds nothing |
| `Facade.UpdateFailsUnlessOneModified` | src/lib.rs:134-136 | an update fails with `UpdateFailed` exactly when the store acknowledged a modified count other than 1 |
| `Facade.UpdateRereadsSameFilter` | src/lib.rs:129-138 | a successful update made exactly two calls with one filter: `update_one` with modified count 1, then the `find_one` whose document it returns |
| `Facade.UpdateSerFailureCallsNothing` | src/lib.rs:127 | a payload that does not serialize fails with `BSONSerError` before any driver call |
| `Facade.DeleteOutcome` | src/lib.rs:149-155 | a delete succeeds exactly when the deleted count is 1, never reports `NotFound`, and reports `DeleteFailed` for any other count |
| `Facade.StrictReadAgreesWithFindOne` | src/lib.rs:85-88 | on the same call, `find_one_strict` is `NotFound` exactly when `find_one` is `None`, and otherwise the same item or error |
| `Facade.Collection.constructor` | src/lib.rs:37-39 | a collection bound to the model's `id_value`, with no calls issued yet |
| `Facade.Collection.DriverFind` | src/lib.rs:69-75 | the driver's `find`: one call appended, reply unconstrained |
| `Facade.Collection.DriverFindOne` | src/lib.rs:81 | the driver's `find_one`: one call appended, reply unconstrained |
| `Facade.Collection.DriverInsertOne` | src/lib.rs:101 | the driver's `insert_one`: one call appended, reply unconstrained |
| `Facade.Collection.DriverUpdateOne` | src/lib.rs:129-132 | the driver's `update_one`: one call appended, reply unconstrained |
| `Facade.Collection.DriverDeleteOne` | src/lib.rs:149 | the driver's `delete_one`: one call appended, reply unconstrained |
| `Facade.Collection.SearchFilter` | src/lib.rs:57-65 | `search_filter` has the single field `_id`, whose value decodes to `self`'s id |
| `Facade.Collection.Find` | src/lib.rs:68-78 | one `find` call with the given filter; its documents, or `DBError` |
| `Facade.Collection.FindOne` | src/lib.rs:80-83 | one `find_one` call with the given filter; its optional document, or `DBError` |
| `Facade.Collection.FindOneStrict` | src/lib.rs:85-88 | one `find_one` call; its document, `NotFound` when it found none, or `DBError` |
| `Facade.Collection.FindById` | src/lib.rs:90-92 | `find_one` with the canonical filter of the id |
| `Facade.Collection.FindByIdStrict` | src/lib.rs:93-96 | `find_one_strict` with the canonical filter of the id |
| `Facade.Collection.CreateOne` | src/lib.rs:98-121 | insert the data; `DBError` or `CreateFailed` stop there; otherwise exactly one more call, a strict re-read by the decoded id, whose result is returned; the id is decoded by the corrected `IdCodec.DecodeInsertedId`, so a binary id that is not 16 bytes gives `CreateFailed("No ID returned")` where the code as written panics (see Findings) |
| `Facade.Collection.UpdateOne` | src/lib.rs:124-139 | `BSONSerError` with no call; else one `update_one` with `{$set: payload}`; `DBError` or `UpdateFailed` stop there; else a strict re-read with the same filter |
| `Facade.Collection.UpdateById` | src/lib.rs:141-143 | `update_one` with the canonical filter of the id |
| `Facade.Collection.DeleteOne` | src/lib.rs:146-156 | one `delete_one` call; `DBError`, `DeleteFailed` unless the deleted count is 1, else success |
| `Facade.Collection.DeleteById` | src/lib.rs:158-160 | `delete_one` with the canonical filter of the id |
| `Facade.Collection.Create` | src/lib.rs:163-165 | exactly `create_one(self)` |
| `Facade.Collection.Update` | src/lib.rs:166-168 | exactly `update_by_id(self.id_value(), payload)`: an update with the canonical filter of `id_value(self)`, not with `search_filter(self)` |
| `Facade.Collection.Delete` | src/lib.rs:169-171 | exactly `delete_by_id(self.id_value())`: a delete with the canonical filter of `id_value(self)`, not with `search_filter(self)` |
| `MemoryStore.FindByIdInMemory` | src/lib.rs:90-92 | against the in-memory store, a find by id gives the document stored under the id's key, or `None` |
| `MemoryStore.CreateInMemory` | src/lib.rs:98-121 | against the in-memory store, creating a model with a new UUID key stores it and returns it as re-read |
| `MemoryStore.CreateDuplicateInMemory` | src/lib.rs:101 | against the in-memory store, creating an existing key reports `DBError` and changes nothing |
| `MemoryStore.CreateWithoutIdInMemory` | src/lib.rs:106-119 | against the in-memory store, a model without `_id` is stored under an assigned ObjectId, and the facade still reports `CreateFailed` |
| `MemoryStore.UpdateByIdInMemory` | src/lib.rs:124-143 | against the in-memory store, an update by id merges the fields and returns the merged document; an update that changes nothing reports `UpdateFailed` |
| `MemoryStore.UpdateMissingInMemory` | src/lib.rs:134-136 | against the in-memory store, updating an id that is not stored reports `UpdateFailed` |
| `MemoryStore.DeleteByIdInMemory` | src/lib.rs:146-160 | against the in-memory store, deleting removes the document; deleting an absent id reports `DeleteFailed` |
| `MemoryStore.CreateThenUpdateInMemory` | src/lib.rs:98-143 | creating a model keyed by a new UUID returns it as stored; updating it by id with changes that alter it and leave `_id` alone returns the merged document, which is what the store then holds |
| `MemoryStore.DeleteThenLookupsInMemory` | src/lib.rs:146-160 | after a delete by id, a find by id gives `None` and a second delete gives `DeleteFailed`, not `NotFound` |
| `MemoryStore.LifeCycleInMemory` | src/lib.rs:163-171 | for any model whose `_id` is the key of a UUID not yet stored, and any change that alters it and has no `_id` field: create, update by id, delete by id, find by id and a second delete give the model, the merged model, `Ok(())`, `Ok(None)` and `DeleteFailed`, and leave the store as it was |
| `MemoryStore.UserLifeCycleInMemory` | src/lib.rs:163-171 | the same sequence for `{_id, name: "Ann"}` renamed to "Anna" gives `Ok(Ann)`, `Ok(Anna)`, `Ok(())`, `Ok(None)` and `DeleteFailed`, leaving the store as it was |

## Findings

| source | as written | input that shows it | evidently intended | confidence | as-written member | corrected member |
|---|---|---|---|---|---|---|
| src/lib.rs:109 | every inserted id that is a BSON binary goes through `Uuid::from_slice(&bin.bytes).unwrap()`, which panics when the binary is not 16 bytes long | `insert_one` acknowledged with inserted id `Binary(Generic, [0x01, 0x02])` | a binary that is not a UUID gives no id, so `create_one` returns `CreateFailed("No ID returned")`, as it already does for every non-binary id | medium; not executed | `IdCodec.DecodeInsertedIdAsWritten` (shown by `IdCodec.ShortBinaryIdPanics`) | `IdCodec.DecodeInsertedId` (used by `Facade.Collection.CreateOne`; agreement where the code returns: `IdCodec.DecodeAgreesWhereAsWrittenReturns`) |

## Left out

- The `oid_as_id` strategy and the `cfg` feature switch.
  - Only the uuid strategy is modelled.
  - The ObjectId codec is the identity.
  - Its `return id;` returns a reference where a `bson::Bson` is expected, so that branch does not type-check as written.
- The MongoDB driver itself.
  - Its replies are unconstrained values of their types.
  - `MemoryStore` is one assumed behaviour, used only in the scenario lemmas. It assumes:
    - plain equality matching of filter fields;
    - a `$set` that merges top-level fields only (no dotted paths);
    - a refused change of `_id`;
    - a duplicate-key error on insert.
  - It does not fix an order for `find` or a "first" document for `find_one`; any matching document may be returned.
- `async`/`await`, `async_trait` and the `Send`/`Sync`/`Unpin` bounds. Every call is one sequential step.
- The stream of `find` and `try_collect`.
  - A `find` is one call whose reply is the whole sequence or one driver error.
  - A failure of the initial call and a failure mid-stream are not told apart.
- serde and `bson::to_bson`.
  - Model values have a generic type `M`.
  - The driver's deserialization into `Self` is not modelled.
  - The outcome of serializing an update payload is a parameter of the update operations.
- The `println!` diagnostics in `find_by_id_strict` and `create_one`.
- The caller's error type `E: From<Error>`. It is taken to be `Error` itself.
- `collection()`. Each `Collection` object stands for the one collection of its model type.
- The causes inside `mongodb::error::Error` and `bson::ser::Error`. They are carried as opaque messages.
- `matched_count`. The code never reads it.
- `Facade.Collection.SearchFilter`: models the trait's default `search_filter` only. An implementor may override it; no code in the core calls it, and `update`/`delete` use the canonical filter of `id_value(self)` instead.
