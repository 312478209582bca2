/** The module functions of core/router/CRUDRouterRepository.py: CRUD on one
    collection by `_id`, where a path id must be an ObjectId string. */
module RouterRepository {
  import opened Base
  import opened ObjectIds
  import opened Documents
  import opened MongoModels
  import opened Store

  /** `get_all`: one model per stored document, in cursor order. */
  method GetAll(db: Database, model: ModelName, collectionName: string) returns (documents: seq<PyObj>)
    ensures documents == LoadAll(model, db.Docs(collectionName))
  {
    var docs := db.Find(collectionName);
    documents := [];
    var i := 0;
    while i < |docs|
      invariant 0 <= i <= |docs|
      invariant |documents| == i
      invariant forall j | 0 <= j < i :: documents[j] == Load(model, Some(docs[j]))
    {
      documents := documents + [Load(model, Some(docs[i]))];
      i := i + 1;
    }
  }

  /** `get_one(id)` on the documents `docs`: `ObjectId(id)` with no fallback to
      the raw string, so a malformed id raises and a document stored under a
      string `_id` is never found; None exactly when no `_id` matches. */
  function GetOneIn(docs: seq<Document>, model: ModelName, id: string): (r: Result<PyObj>)
    ensures r.Raise? <==> !IsHex24(id)
    ensures r.Raise? ==> r.exc == InvalidId
    ensures r == Ok(PyNone) <==>
              IsHex24(id) && forall j | 0 <= j < |docs| :: !Matches(docs[j], IdIs(VOid(Parse(id).value)))
    ensures IsHex24(id) && FirstMatch(docs, IdIs(VOid(Parse(id).value))).Some? ==>
              r == Ok(Load(model, Some(docs[FirstMatch(docs, IdIs(VOid(Parse(id).value))).value])))
  {
    match Parse(id)
    case Raise(e) => Raise(e)
    case Ok(o) => Ok(Load(model, FindFirst(docs, IdIs(VOid(o)))))
  }

  /** There is no fallback to the raw string: in a collection whose `_id`s are
      strings nothing is ever found. */
  lemma NoStringFallback(docs: seq<Document>, model: ModelName, id: string)
    requires forall j | 0 <= j < |docs| :: "_id" in docs[j] ==> docs[j]["_id"].VStr?
    ensures GetOneIn(docs, model, id) == if IsHex24(id) then Ok(PyNone) else Raise(InvalidId)
  {
    if IsHex24(id) {
      var f := IdIs(VOid(Parse(id).value));
      forall j | 0 <= j < |docs|
        ensures !Matches(docs[j], f)
      {
        assert !Holds(docs[j], f[0]);
      }
    }
  }

  /** `get_one(id)`. */
  method GetOne(db: Database, model: ModelName, collectionName: string, id: string) returns (r: Result<PyObj>)
    ensures r == GetOneIn(db.Docs(collectionName), model, id)
  {
    var oid := Parse(id);
    if oid.Raise? {
      return Raise(oid.exc);
    }
    var response := db.FindOne(collectionName, IdIs(VOid(oid.value)));
    r := Ok(if response.Some? then Load(model, response) else PyNone);
  }

  /** `create_one(data)` on the documents `docs`: one insert, then a re-read by
      `inserted_id`. */
  function CreateIn(docs: seq<Document>, model: ModelName, data: Instance, newId: ObjectId): Write<Result<PyObj>> {
    var stored := Inserted(data, newId);
    if IdTaken(docs, stored["_id"]) then Write(Raise(DuplicateKeyError), docs)
    else Write(Ok(Load(model, FindFirst(docs + [stored], IdIs(stored["_id"])))), docs + [stored])
  }

  /** The re-read finds the inserted document itself, and the `_id` it was
      stored under is the data's own id when it has one, a new one otherwise. */
  lemma CreateReturnsInserted(docs: seq<Document>, model: ModelName, data: Instance, newId: ObjectId)
    requires !IdTaken(docs, Inserted(data, newId)["_id"])
    ensures CreateIn(docs, model, data, newId)
            == Write(Ok(Load(model, Some(Inserted(data, newId)))), docs + [Inserted(data, newId)])
    ensures Get(data.fields, "_id") == VNone && Get(data.fields, "id") != VNone ==>
              Inserted(data, newId)["_id"] == data.fields["id"]
    ensures Get(data.fields, "_id") == VNone && Get(data.fields, "id") == VNone ==>
              Inserted(data, newId)["_id"] == VOid(newId)
  {
    FindAppended(docs, Inserted(data, newId));
  }

  /** `create_one(data)`; `newId` is the `_id` the driver would generate. */
  method CreateOne(db: Database, model: ModelName, collectionName: string, data: Instance, newId: ObjectId)
    returns (r: Result<PyObj>)
    modifies db
    ensures var w := CreateIn(old(db.Docs(collectionName)), model, data, newId);
            r == w.result && db.collections == WithCollection(old(db.collections), collectionName, w.docs)
  {
    var document := Mongo(data, false, Placeholder);
    var inserted := db.InsertOne(collectionName, document, newId);
    if inserted.Raise? {
      return Raise(inserted.exc);
    }
    var response := db.FindOne(collectionName, IdIs(inserted.value));
    r := Ok(Load(model, response));
  }

  /** The id `replace_one` and `update_one` re-read by: the upserted id when the
      write reports one, `ObjectId(id)` otherwise. */
  function RereadKey(upsertedId: Option<Value>, o: ObjectId): Value {
    if upsertedId.Some? then upsertedId.value else VOid(o)
  }

  /** `replace_one(id, data)` on the documents `docs`. Without upsert the
      write reports no upserted id, so the re-read is by `ObjectId(id)`. */
  function ReplaceIn(docs: seq<Document>, model: ModelName, id: string, data: Instance): (w: Write<Result<PyObj>>)
    ensures |w.docs| == |docs|
    ensures !IsHex24(id) ==> w == Write(Raise(InvalidId), docs)
  {
    match Parse(id)
    case Raise(e) => Write(Raise(e), docs)
    case Ok(o) =>
      match FirstMatch(docs, IdIs(VOid(o)))
      case None => Write(Ok(Load(model, FindFirst(docs, IdIs(RereadKey(None, o))))), docs)
      case Some(i) =>
        match Replacement(docs[i], MongoDoc(data, false, Placeholder))
        case Raise(e) => Write(Raise(e), docs)
        case Ok(d) =>
          var after := docs[i := d];
          Write(Ok(Load(model, FindFirst(after, IdIs(RereadKey(None, o))))), after)
  }

  /** With no document under the id the result is None; otherwise the re-read
      finds the replacement itself, which kept its `_id`. */
  lemma ReplaceRereadsReplacement(docs: seq<Document>, model: ModelName, id: string, data: Instance)
    requires IsHex24(id)
    ensures var f := IdIs(VOid(Parse(id).value));
            var w := ReplaceIn(docs, model, id, data);
            && (FirstMatch(docs, f).None? ==> w == Write(Ok(PyNone), docs))
            && (FirstMatch(docs, f).Some? ==>
                  var i := FirstMatch(docs, f).value;
                  var rep := Replacement(docs[i], MongoDoc(data, false, Placeholder));
                  && (rep.Raise? ==> w == Write(Raise(rep.exc), docs))
                  && (rep.Ok? ==> w == Write(Ok(Load(model, Some(rep.value))), docs[i := rep.value])))
    ensures ReplaceIn(docs, model, id, data).result == Ok(PyNone) <==> FirstMatch(docs, IdIs(VOid(Parse(id).value))).None?
  {
    var f := IdIs(VOid(Parse(id).value));
    match FirstMatch(docs, f)
    case None =>
    case Some(i) =>
      match Replacement(docs[i], MongoDoc(data, false, Placeholder))
      case Raise(e) =>
      case Ok(d) =>
        assert Holds(docs[i], f[0]);
        assert Matches(d, f);
        FirstMatchKept(docs, f, i, d);
        assert d != map[] by { assert "_id" in d; }
  }

  /** `replace_one(id, data)`. */
  method ReplaceOne(db: Database, model: ModelName, collectionName: string, id: string, data: Instance)
    returns (r: Result<PyObj>)
    modifies db
    ensures var w := ReplaceIn(old(db.Docs(collectionName)), model, id, data);
            r == w.result && db.collections == WithCollection(old(db.collections), collectionName, w.docs)
  {
    var oid := Parse(id);
    if oid.Raise? {
      return Raise(oid.exc);
    }
    var document := Mongo(data, false, Placeholder);
    var response := db.ReplaceOne(collectionName, IdIs(VOid(oid.value)), document);
    if response.Raise? {
      return Raise(response.exc);
    }
    var reread := db.FindOne(collectionName, IdIs(RereadKey(response.value.upsertedId, oid.value)));
    r := Ok(Load(model, reread));
  }

  /** `update_one(id, data)` on the documents `docs`: the whole serialised
      body in one `$set`, on the `_id` filter; an update the server refuses
      raises before the re-read. */
  function UpdateIn(docs: seq<Document>, apply: UpdateEngine, model: ModelName, id: string, data: Instance)
    : (w: Write<Result<PyObj>>)
    ensures |w.docs| == |docs|
    ensures !IsHex24(id) ==> w == Write(Raise(InvalidId), docs)
    ensures IsHex24(id) ==>
              var updated := UpdateFirst(docs, apply, IdIs(VOid(Parse(id).value)), Set(MongoDoc(data, false, Placeholder)));
              && (updated.Raise? ==> w == Write(Raise(updated.exc), docs))
              && (updated.Ok? ==> w.docs == updated.value && w.result.Ok?)
  {
    match Parse(id)
    case Raise(e) => Write(Raise(e), docs)
    case Ok(o) =>
      match UpdateFirst(docs, apply, IdIs(VOid(o)), Set(MongoDoc(data, false, Placeholder)))
      case Raise(e) => Write(Raise(e), docs)
      case Ok(after) => Write(Ok(Load(model, FindFirst(after, IdIs(RereadKey(None, o))))), after)
  }

  /** With no document under the id the result is None; an update the server
      refuses raises its error with nothing written; when the update keeps the
      `_id`, the re-read finds the updated document. */
  lemma UpdateRereadsUpdated(docs: seq<Document>, apply: UpdateEngine, model: ModelName, id: string, data: Instance)
    requires IsHex24(id)
    ensures var f := IdIs(VOid(Parse(id).value));
            var w := UpdateIn(docs, apply, model, id, data);
            && (FirstMatch(docs, f).None? ==> w == Write(Ok(PyNone), docs))
            && (FirstMatch(docs, f).Some? ==>
                  var i := FirstMatch(docs, f).value;
                  var updated := apply(docs[i], Set(MongoDoc(data, false, Placeholder)));
                  && (updated.Raise? ==> w == Write(Raise(updated.exc), docs))
                  && (updated.Ok? && Matches(updated.value, f) ==>
                        w == Write(Ok(Load(model, Some(updated.value))), docs[i := updated.value])))
  {
    var f := IdIs(VOid(Parse(id).value));
    match FirstMatch(docs, f)
    case None =>
    case Some(i) =>
      match apply(docs[i], Set(MongoDoc(data, false, Placeholder)))
      case Raise(_) =>
      case Ok(d) =>
        if Matches(d, f) {
          FirstMatchKept(docs, f, i, d);
        }
  }

  /** With a server that applies `$set` as MongoDB does: a PATCH whose body
      carries an `_id` other than `ObjectId(id)` is refused with WriteError and
      writes nothing; any other body is merged into the matched document, which
      the re-read returns. */
  lemma UpdateWithServerSet(docs: seq<Document>, apply: UpdateEngine, model: ModelName, id: string, data: Instance)
    requires IsHex24(id) && ServerSet(apply) && PlainKeys(MongoDoc(data, false, Placeholder))
    requires FirstMatch(docs, IdIs(VOid(Parse(id).value))).Some?
    ensures var i := FirstMatch(docs, IdIs(VOid(Parse(id).value))).value;
            var body := MongoDoc(data, false, Placeholder);
            var w := UpdateIn(docs, apply, model, id, data);
            if "_id" in body && body["_id"] != VOid(Parse(id).value)
            then w == Write(Raise(WriteError), docs)
            else w == Write(Ok(Load(model, Some(docs[i] + body))), docs[i := docs[i] + body])
  {
    var f := IdIs(VOid(Parse(id).value));
    var i := FirstMatch(docs, f).value;
    var body := MongoDoc(data, false, Placeholder);
    assert Holds(docs[i], f[0]);
    assert apply(docs[i], Set(body)) == SetTopLevel(docs[i], body);
    UpdateRereadsUpdated(docs, apply, model, id, data);
    if !("_id" in body && body["_id"] != VOid(Parse(id).value)) {
      assert Holds(docs[i] + body, f[0]);
    }
  }

  /** `update_one(id, data)`. */
  method UpdateOne(db: Database, model: ModelName, collectionName: string, id: string, data: Instance)
    returns (r: Result<PyObj>)
    modifies db
    ensures var w := UpdateIn(old(db.Docs(collectionName)), db.applyUpdate, model, id, data);
            r == w.result && db.collections == WithCollection(old(db.collections), collectionName, w.docs)
  {
    var oid := Parse(id);
    if oid.Raise? {
      return Raise(oid.exc);
    }
    var document := Mongo(data, false, Placeholder);
    var response := db.UpdateOne(collectionName, IdIs(VOid(oid.value)), Set(document));
    if response.Raise? {
      return Raise(response.exc);
    }
    var reread := db.FindOne(collectionName, IdIs(RereadKey(response.value.upsertedId, oid.value)));
    r := Ok(Load(model, reread));
  }

  /** `delete_one(id)` on the documents `docs`: the first document under
      `ObjectId(id)` goes, and the record `{"id": id}` comes back whether or
      not one did. */
  function DeleteIn(docs: seq<Document>, id: string): (w: Write<Result<PyObj>>)
    ensures w.result.Raise? <==> !IsHex24(id)
    ensures w.result.Raise? ==> w.result.exc == InvalidId && w.docs == docs
    ensures w.result.Ok? ==> w.result.value == PyDict(map["id" := VStr(id)])
    ensures IsHex24(id) && FirstMatch(docs, IdIs(VOid(Parse(id).value))).None? ==> w.docs == docs
    ensures IsHex24(id) && FirstMatch(docs, IdIs(VOid(Parse(id).value))).Some? ==>
              var i := FirstMatch(docs, IdIs(VOid(Parse(id).value))).value;
              w.docs == RemoveAt(docs, i) && multiset(w.docs) + multiset{docs[i]} == multiset(docs)
  {
    match Parse(id)
    case Raise(e) => Write(Raise(e), docs)
    case Ok(o) =>
      var after := match FirstMatch(docs, IdIs(VOid(o))) case None => docs case Some(i) => RemoveAt(docs, i);
      Write(Ok(PyDict(map["id" := VStr(id)])), after)
  }

  /** `delete_one(id)`. */
  method DeleteOne(db: Database, collectionName: string, id: string) returns (r: Result<PyObj>)
    modifies db
    ensures var w := DeleteIn(old(db.Docs(collectionName)), id);
            r == w.result && db.collections == WithCollection(old(db.collections), collectionName, w.docs)
  {
    var oid := Parse(id);
    if oid.Raise? {
      return Raise(oid.exc);
    }
    var deletedCount := db.DeleteOne(collectionName, IdIs(VOid(oid.value)));
    r := Ok(PyDict(map["id" := VStr(id)]));
  }
}
