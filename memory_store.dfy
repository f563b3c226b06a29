/**
 * An ASSUMPTION about the driver, not part of the facade: an in-memory
 * collection keyed by `_id`, and the replies such a collection gives to each
 * driver call. With it, the facade's transcripts can be run end to end; the
 * lemmas here hold for every transcript the facade's contracts allow whose
 * replies are this store's answers.
 */
module MemoryStore {
  import opened Wrappers
  import opened Bytes
  import opened Bson
  import opened Uuids
  import opened IdCodec
  import opened Outcomes
  import opened Facade

  /** Stored documents, by the value of their `_id` field. */
  datatype Store = Store(docs: map<Bson, Document>)

  /** Every document is stored under its own `_id`. */
  ghost predicate Valid(s: Store)
  {
    forall k | k in s.docs :: ID_KEY in s.docs[k] && s.docs[k][ID_KEY] == k
  }

  /** Equality matching: every field of the filter is present in the document with that value. */
  predicate Matches(doc: Document, filter: Document)
  {
    forall f | f in filter :: f in doc && doc[f] == filter[f]
  }

  function MatchingKeys(s: Store, filter: Document): set<Bson>
  {
    set k | k in s.docs && Matches(s.docs[k], filter)
  }

  function MatchingDocs(s: Store, filter: Document): set<Document>
  {
    set k | k in MatchingKeys(s, filter) :: s.docs[k]
  }

  /**
   * `$set` of `changes` on the document under `k`: changing `_id` is refused;
   * otherwise the fields are merged, and the document counts as modified only
   * if the merge changed it.
   */
  ghost predicate MergedAt(s: Store, k: Bson, changes: Document, updated: Result<UpdateResult, DbError>, s': Store)
    requires k in s.docs
  {
    var merged := s.docs[k] + changes;
    if ID_KEY in changes && changes[ID_KEY] != k then
      updated.Err? && s' == s
    else
      updated == Ok(UpdateResult(1, if merged == s.docs[k] then 0 else 1)) &&
      s' == Store(s.docs[k := merged])
  }

  /** The store in state `s` gives the reply recorded in `c` and moves to state `s'`. */
  ghost predicate Answers(s: Store, c: Call<Document>, s': Store)
  {
    match c
    case FindCall(filter, found) =>
      s' == s && found.Ok? && forall d :: d in found.value <==> d in MatchingDocs(s, filter)
    case FindOneCall(filter, foundOne) =>
      s' == s && foundOne.Ok? &&
      (match foundOne.value
       case None => MatchingKeys(s, filter) == {}
       case Some(d) => d in MatchingDocs(s, filter))
    case InsertOneCall(doc, inserted) =>
      if ID_KEY !in doc then
        // the store assigns a fresh ObjectId
        inserted.Ok? && inserted.value.ObjectId? && inserted.value !in s.docs &&
        s' == Store(s.docs[inserted.value := doc[ID_KEY := inserted.value]])
      else if doc[ID_KEY] in s.docs then
        // duplicate key
        inserted.Err? && s' == s
      else
        inserted == Ok(doc[ID_KEY]) && s' == Store(s.docs[doc[ID_KEY] := doc])
    case UpdateOneCall(filter, update, updated) =>
      if !(update.Keys == {SET_KEY} && update[SET_KEY].Doc?) then
        updated.Err? && s' == s
      else if MatchingKeys(s, filter) == {} then
        updated == Ok(UpdateResult(0, 0)) && s' == s
      else
        exists k | k in MatchingKeys(s, filter) :: MergedAt(s, k, update[SET_KEY].fields, updated, s')
    case DeleteOneCall(filter, deleted) =>
      if MatchingKeys(s, filter) == {} then
        deleted == Ok(DeleteResult(0)) && s' == s
      else
        exists k | k in MatchingKeys(s, filter) :: deleted == Ok(DeleteResult(1)) && s' == Store(s.docs - {k})
  }

  /** `ss` are the states the store passes through while answering the calls of `t`. */
  ghost predicate Replayed(ss: seq<Store>, t: seq<Call<Document>>)
  {
    |ss| == |t| + 1 && forall i | 0 <= i < |t| :: Answers(ss[i], t[i], ss[i + 1])
  }

  /** In a valid store the canonical filter of `id` matches the document stored under its key, and nothing else. */
  lemma IdFilterMatches(s: Store, id: Uuid)
    requires Valid(s)
    ensures MatchingKeys(s, IdFilter(id)) == if IdFitter(id) in s.docs then {IdFitter(id)} else {}
  {
  }

  /** Answering any call keeps every document under its own `_id`. */
  lemma AnswersKeepValid(s: Store, c: Call<Document>, s': Store)
    requires Valid(s) && Answers(s, c, s')
    ensures Valid(s')
  {
  }

  /** A find by id returns the document stored under the id's key, or nothing. */
  lemma FindByIdInMemory(s: Store, id: Uuid, t: seq<Call<Document>>, r: Result<Option<Document>, Error>, ss: seq<Store>)
    requires Valid(s) && FindOneSteps(IdFilter(id), t, r) && Replayed(ss, t) && ss[0] == s
    ensures r == Ok(if IdFitter(id) in s.docs then Some(s.docs[IdFitter(id)]) else None)
    ensures ss[|t|] == s
  {
    IdFilterMatches(s, id);
    assert Answers(ss[0], t[0], ss[1]);
  }

  /** Creating a model whose `_id` is the key of a new UUID stores it and returns it as re-read. */
  lemma CreateInMemory(s: Store, data: Document, id: Uuid, t: seq<Call<Document>>, r: Result<Document, Error>, ss: seq<Store>)
    requires Valid(s) && ID_KEY in data && data[ID_KEY] == IdFitter(id) && IdFitter(id) !in s.docs
    requires CreateOneSteps(data, t, r) && Replayed(ss, t) && ss[0] == s
    ensures r == Ok(data)
    ensures ss[|t|] == Store(s.docs[IdFitter(id) := data]) && Valid(ss[|t|])
  {
    assert Answers(ss[0], t[0], ss[1]);
    DecodeIdFitter(id);
    AnswersKeepValid(ss[0], t[0], ss[1]);
    IdFilterMatches(ss[1], id);
    assert t[1..][0] == t[1];
    assert Answers(ss[1], t[1], ss[2]);
  }

  /** Creating a model whose key is already stored fails with the driver's duplicate-key error and changes nothing. */
  lemma CreateDuplicateInMemory(s: Store, data: Document, t: seq<Call<Document>>, r: Result<Document, Error>, ss: seq<Store>)
    requires ID_KEY in data && data[ID_KEY] in s.docs
    requires CreateOneSteps(data, t, r) && Replayed(ss, t) && ss[0] == s
    ensures r.Err? && r.error.DBError? && ss[|t|] == s
  {
    assert Answers(ss[0], t[0], ss[1]);
    assert t[0].inserted.Err? && |t| == 1;
  }

  /**
   * A model serialized without an `_id` field is stored under an ObjectId
   * the store assigns; that id does not decode as a UUID, so the facade
   * reports `CreateFailed` although the document was inserted.
   */
  lemma CreateWithoutIdInMemory(s: Store, data: Document, t: seq<Call<Document>>, r: Result<Document, Error>, ss: seq<Store>)
    requires Valid(s) && ID_KEY !in data
    requires CreateOneSteps(data, t, r) && Replayed(ss, t) && ss[0] == s
    ensures r == Err(CreateFailed(NO_ID_RETURNED))
    ensures t[0].inserted.Ok? && t[0].inserted.value !in s.docs
    ensures ss[|t|] == Store(s.docs[t[0].inserted.value := data[ID_KEY := t[0].inserted.value]])
  {
    assert Answers(ss[0], t[0], ss[1]);
  }

  /** In a valid store, an `update_one` with the canonical filter of a stored id merges into that id's document. */
  lemma UpdateAnsweredAtId(s: Store, id: Uuid, changes: Document, updated: Result<UpdateResult, DbError>, s': Store)
    requires Valid(s) && IdFitter(id) in s.docs
    requires Answers(s, UpdateOneCall(IdFilter(id), SetUpdate(Doc(changes)), updated), s')
    ensures MergedAt(s, IdFitter(id), changes, updated, s')
  {
    IdFilterMatches(s, id);
    var k :| k in MatchingKeys(s, IdFilter(id)) && MergedAt(s, k, changes, updated, s');
  }

  /**
   * Updating a stored model by id merges the changes and returns the re-read
   * document; when the merge changes nothing, the store reports zero modified
   * and the facade reports `UpdateFailed`.
   */
  lemma UpdateByIdInMemory(s: Store, id: Uuid, changes: Document, t: seq<Call<Document>>, r: Result<Document, Error>, ss: seq<Store>)
    requires Valid(s) && IdFitter(id) in s.docs
    requires ID_KEY in changes ==> changes[ID_KEY] == IdFitter(id)
    requires UpdateOneSteps(IdFilter(id), Ok(Doc(changes)), t, r) && Replayed(ss, t) && ss[0] == s
    ensures var merged := s.docs[IdFitter(id)] + changes;
      if merged == s.docs[IdFitter(id)] then
        r == Err(UpdateFailed(NO_RECORD_UPDATED)) && ss[|t|] == s
      else
        r == Ok(merged) && ss[|t|] == Store(s.docs[IdFitter(id) := merged])
    ensures Valid(ss[|t|])
  {
    assert Answers(ss[0], t[0], ss[1]);
    UpdateAnsweredAtId(s, id, changes, t[0].updated, ss[1]);
    AnswersKeepValid(ss[0], t[0], ss[1]);
    if |t| == 2 {
      IdFilterMatches(ss[1], id);
      assert t[1..][0] == t[1];
      assert Answers(ss[1], t[1], ss[2]);
    }
  }

  /** Updating an id that is not stored matches nothing and fails with `UpdateFailed`. */
  lemma UpdateMissingInMemory(s: Store, id: Uuid, changes: Bson, t: seq<Call<Document>>, r: Result<Document, Error>, ss: seq<Store>)
    requires Valid(s) && IdFitter(id) !in s.docs && changes.Doc?
    requires UpdateOneSteps(IdFilter(id), Ok(changes), t, r) && Replayed(ss, t) && ss[0] == s
    ensures r == Err(UpdateFailed(NO_RECORD_UPDATED)) && ss[|t|] == s
  {
  }

  /** Deleting by id removes the stored model; deleting an id that is not stored fails with `DeleteFailed`. */
  lemma DeleteByIdInMemory(s: Store, id: Uuid, t: seq<Call<Document>>, r: Result<(), Error>, ss: seq<Store>)
    requires Valid(s) && DeleteOneSteps(IdFilter(id), t, r) && Replayed(ss, t) && ss[0] == s
    ensures IdFitter(id) in s.docs ==> r == Ok(()) && ss[|t|] == Store(s.docs - {IdFitter(id)})
    ensures IdFitter(id) !in s.docs ==> r == Err(DeleteFailed(NO_RECORD_DELETED)) && ss[|t|] == s
    ensures Valid(ss[|t|])
  {
    IdFilterMatches(s, id);
    assert Answers(ss[0], t[0], ss[1]);
    AnswersKeepValid(ss[0], t[0], ss[1]);
  }

  /** Setting `name` on a document with `_id` and `name` keeps the `_id` and replaces the name. */
  lemma RenameMerges(key: Bson)
    ensures map[ID_KEY := key, "name" := Str("Ann")] + map["name" := Str("Anna")]
         == map[ID_KEY := key, "name" := Str("Anna")]
    ensures map[ID_KEY := key, "name" := Str("Anna")] != map[ID_KEY := key, "name" := Str("Ann")]
  {
    assert ID_KEY[0] != "name"[0];
    assert map[ID_KEY := key, "name" := Str("Anna")]["name"] == Str("Anna");
    assert Str("Anna") != Str("Ann") by { assert |"Anna"| != |"Ann"|; }
  }

  /** Removing a key just added to a map gives back the map. */
  lemma RemoveAddedKey(m: map<Bson, Document>, k: Bson, v: Document)
    requires k !in m
    ensures m[k := v] - {k} == m
  {
  }

  /** Create a model under a new UUID key, then update it by id with changes that alter it. */
  lemma CreateThenUpdateInMemory(
    s: Store, id: Uuid, data: Document, changes: Document,
    t1: seq<Call<Document>>, created: Result<Document, Error>, ss1: seq<Store>,
    t2: seq<Call<Document>>, updated: Result<Document, Error>, ss2: seq<Store>)
    requires Valid(s) && IdFitter(id) !in s.docs
    requires ID_KEY in data && data[ID_KEY] == IdFitter(id) && ID_KEY !in changes && data + changes != data
    requires CreateOneSteps(data, t1, created) && Replayed(ss1, t1) && ss1[0] == s
    requires UpdateOneSteps(IdFilter(id), Ok(Doc(changes)), t2, updated) && Replayed(ss2, t2) && ss2[0] == ss1[|t1|]
    ensures created == Ok(data)
    ensures updated == Ok(data + changes)
    ensures ss2[|t2|] == Store(s.docs[IdFitter(id) := data + changes]) && Valid(ss2[|t2|])
  {
    CreateInMemory(s, data, id, t1, created, ss1);
    var s1 := Store(s.docs[IdFitter(id) := data]);
    assert s1.docs[IdFitter(id)] == data;
    UpdateByIdInMemory(s1, id, changes, t2, updated, ss2);
  }

  /** Delete a stored id; a find by id then gives nothing, and a second delete reports `DeleteFailed`. */
  lemma DeleteThenLookupsInMemory(
    s: Store, id: Uuid,
    t3: seq<Call<Document>>, deleted: Result<(), Error>, ss3: seq<Store>,
    t4: seq<Call<Document>>, found: Result<Option<Document>, Error>, ss4: seq<Store>,
    t5: seq<Call<Document>>, deletedAgain: Result<(), Error>, ss5: seq<Store>)
    requires Valid(s) && IdFitter(id) in s.docs
    requires DeleteOneSteps(IdFilter(id), t3, deleted) && Replayed(ss3, t3) && ss3[0] == s
    requires FindOneSteps(IdFilter(id), t4, found) && Replayed(ss4, t4) && ss4[0] == ss3[|t3|]
    requires DeleteOneSteps(IdFilter(id), t5, deletedAgain) && Replayed(ss5, t5) && ss5[0] == ss4[|t4|]
    ensures deleted == Ok(())
    ensures found == Ok(None)
    ensures deletedAgain == Err(DeleteFailed(NO_RECORD_DELETED))
    ensures ss5[|t5|] == Store(s.docs - {IdFitter(id)})
  {
    DeleteByIdInMemory(s, id, t3, deleted, ss3);
    FindByIdInMemory(ss4[0], id, t4, found, ss4);
    DeleteByIdInMemory(ss5[0], id, t5, deletedAgain, ss5);
  }

  /**
   * The life cycle of one model: create it, update it by id, delete it by
   * id; afterwards a find by id gives nothing, a second delete reports
   * `DeleteFailed`, and the store is as before.
   */
  lemma LifeCycleInMemory(
    s: Store, id: Uuid, data: Document, changes: Document,
    t1: seq<Call<Document>>, created: Result<Document, Error>, ss1: seq<Store>,
    t2: seq<Call<Document>>, updated: Result<Document, Error>, ss2: seq<Store>,
    t3: seq<Call<Document>>, deleted: Result<(), Error>, ss3: seq<Store>,
    t4: seq<Call<Document>>, found: Result<Option<Document>, Error>, ss4: seq<Store>,
    t5: seq<Call<Document>>, deletedAgain: Result<(), Error>, ss5: seq<Store>)
    requires Valid(s) && IdFitter(id) !in s.docs
    requires ID_KEY in data && data[ID_KEY] == IdFitter(id) && ID_KEY !in changes && data + changes != data
    requires CreateOneSteps(data, t1, created) && Replayed(ss1, t1) && ss1[0] == s
    requires UpdateOneSteps(IdFilter(id), Ok(Doc(changes)), t2, updated) && Replayed(ss2, t2) && ss2[0] == ss1[|t1|]
    requires DeleteOneSteps(IdFilter(id), t3, deleted) && Replayed(ss3, t3) && ss3[0] == ss2[|t2|]
    requires FindOneSteps(IdFilter(id), t4, found) && Replayed(ss4, t4) && ss4[0] == ss3[|t3|]
    requires DeleteOneSteps(IdFilter(id), t5, deletedAgain) && Replayed(ss5, t5) && ss5[0] == ss4[|t4|]
    ensures created == Ok(data)
    ensures updated == Ok(data + changes)
    ensures deleted == Ok(())
    ensures found == Ok(None)
    ensures deletedAgain == Err(DeleteFailed(NO_RECORD_DELETED))
    ensures ss5[|t5|] == s
  {
    var key := IdFitter(id);
    CreateThenUpdateInMemory(s, id, data, changes, t1, created, ss1, t2, updated, ss2);
    var s2 := Store(s.docs[key := data + changes]);
    DeleteThenLookupsInMemory(s2, id, t3, deleted, ss3, t4, found, ss4, t5, deletedAgain, ss5);
    RemoveAddedKey(s.docs, key, data + changes);
  }

  /**
   * The user example: create `{_id, name: "Ann"}`, rename it to "Anna" by
   * id, delete it by id, find it by id, delete it again.
   */
  lemma UserLifeCycleInMemory(
    s: Store, id: Uuid,
    t1: seq<Call<Document>>, created: Result<Document, Error>, ss1: seq<Store>,
    t2: seq<Call<Document>>, updated: Result<Document, Error>, ss2: seq<Store>,
    t3: seq<Call<Document>>, deleted: Result<(), Error>, ss3: seq<Store>,
    t4: seq<Call<Document>>, found: Result<Option<Document>, Error>, ss4: seq<Store>,
    t5: seq<Call<Document>>, deletedAgain: Result<(), Error>, ss5: seq<Store>)
    requires Valid(s) && IdFitter(id) !in s.docs
    requires CreateOneSteps(map[ID_KEY := IdFitter(id), "name" := Str("Ann")], t1, created)
    requires Replayed(ss1, t1) && ss1[0] == s
    requires UpdateOneSteps(IdFilter(id), Ok(Doc(map["name" := Str("Anna")])), t2, updated)
    requires Replayed(ss2, t2) && ss2[0] == ss1[|t1|]
    requires DeleteOneSteps(IdFilter(id), t3, deleted) && Replayed(ss3, t3) && ss3[0] == ss2[|t2|]
    requires FindOneSteps(IdFilter(id), t4, found) && Replayed(ss4, t4) && ss4[0] == ss3[|t3|]
    requires DeleteOneSteps(IdFilter(id), t5, deletedAgain) && Replayed(ss5, t5) && ss5[0] == ss4[|t4|]
    ensures created == Ok(map[ID_KEY := IdFitter(id), "name" := Str("Ann")])
    ensures updated == Ok(map[ID_KEY := IdFitter(id), "name" := Str("Anna")])
    ensures deleted == Ok(()) && found == Ok(None)
    ensures deletedAgain == Err(DeleteFailed(NO_RECORD_DELETED))
    ensures ss5[|t5|] == s
  {
    var key := IdFitter(id);
    var ann := map[ID_KEY := key, "name" := Str("Ann")];
    var rename := map["name" := Str("Anna")];
    assert ID_KEY !in rename by { assert ID_KEY[0] != "name"[0]; }
    RenameMerges(key);
    LifeCycleInMemory(s, id, ann, rename, t1, created, ss1, t2, updated, ss2,
                      t3, deleted, ss3, t4, found, ss4, t5, deletedAgain, ss5);
  }
}
