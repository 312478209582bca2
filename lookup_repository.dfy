/** The module functions of core/router/lookup/CRUDLookupRouterRepository.py:
    CRUD on a related collection whose documents point at a parent document
    (`localField` of the parent against `foreignField` of the child). Reads
    aggregate the parent with a `$lookup`; writes go to the related collection
    and then read the parent back. */
module LookupRepository {
  import opened Base
  import opened ObjectIds
  import opened Documents
  import opened MongoModels
  import opened Store

  /** The settings every function of the module is passed: the related
      collection, the two join fields, the parent collection and model, the
      output model and the foreign `convert_to`. */
  datatype Link = Link(collectionName: string, foreignField: string, localField: string,
                       parentCollectionName: string, parentModel: ModelName,
                       modelOut: Option<ModelName>, convert: Converter)

  /** The `get_all` pipeline: the parent by `_id`, joined with every related
      document under the collection's name. */
  function AllPipeline(parentId: ObjectId, link: Link): seq<Stage> {
    [ Match(IdIs(VOid(parentId))),
      Lookup(link.collectionName, link.localField, link.foreignField, link.collectionName, None) ]
  }

  /** The `get_one` pipeline: the join restricted to one related `_id`, then
      unwound, keeping a parent that has no such related document. */
  function OnePipeline(parentId: ObjectId, lookupId: ObjectId, link: Link): (p: seq<Stage>)
    ensures |p| == 3 && p[0] == AllPipeline(parentId, link)[0]
    ensures p[1] == AllPipeline(parentId, link)[1].(pipeline := Some([Match(IdIs(VOid(lookupId)))]))
    ensures p[2] == Unwind("$" + link.collectionName, true)
  {
    [ Match(IdIs(VOid(parentId))),
      Lookup(link.collectionName, link.localField, link.foreignField, link.collectionName,
             Some([Match(IdIs(VOid(lookupId)))])),
      Unwind("$" + link.collectionName, true) ]
  }

  /** `models[0].convert_to(model=model_out)` over what the pipeline yielded:
      a failing pipeline raises, an empty one raises IndexError, and otherwise
      the first parent is loaded and converted. None is never the result. */
  function FirstConverted(found: Result<seq<Document>>, link: Link): (r: Result<PyObj>)
    ensures r.Ok? ==> r.value.PyModel?
    ensures found.Raise? ==> r == Raise(found.exc)
    ensures found.Ok? && found.value == [] ==> r == Raise(IndexError)
    ensures r.Ok? ==> found.Ok? && found.value != [] && found.value[0] != map[]
  {
    match found
    case Raise(e) => Raise(e)
    case Ok(docs) =>
      if docs == [] then Raise(IndexError)
      else ConvertTo(Load(link.parentModel, Some(docs[0])), link.convert, link.modelOut)
  }

  /** The loop shared by `get_all` and `get_one`: every yielded parent is
      loaded, then the first is converted. */
  method LoadFirstConverted(found: Result<seq<Document>>, link: Link) returns (r: Result<PyObj>)
    ensures r == FirstConverted(found, link)
  {
    if found.Raise? {
      return Raise(found.exc);
    }
    var docs := found.value;
    var models: seq<PyObj> := [];
    var i := 0;
    while i < |docs|
      invariant 0 <= i <= |docs|
      invariant |models| == i
      invariant forall j | 0 <= j < i :: models[j] == Load(link.parentModel, Some(docs[j]))
    {
      models := models + [Load(link.parentModel, Some(docs[i]))];
      i := i + 1;
    }
    if models == [] {
      return Raise(IndexError);
    }
    r := ConvertTo(models[0], link.convert, link.modelOut);
  }

  /** `get_all(id)` against the collections `colls`: the parent with its
      related documents, converted; a malformed id raises InvalidId and a
      missing parent IndexError, so None never comes back. */
  function GetAllIn(agg: AggregateEngine, colls: map<string, seq<Document>>, id: string, link: Link)
    : (r: Result<PyObj>)
    ensures !IsHex24(id) ==> r == Raise(InvalidId)
    ensures r.Ok? ==> r.value.PyModel?
    ensures IsHex24(id) && agg(colls, link.parentCollectionName, AllPipeline(Parse(id).value, link)) == Ok([]) ==>
              r == Raise(IndexError)
  {
    match Parse(id)
    case Raise(e) => Raise(e)
    case Ok(o) => FirstConverted(agg(colls, link.parentCollectionName, AllPipeline(o, link)), link)
  }

  /** `get_all(id)`. */
  method GetAll(db: Database, id: string, link: Link) returns (r: Result<PyObj>)
    ensures r == GetAllIn(db.aggregate, db.collections, id, link)
  {
    var oid := Parse(id);
    if oid.Raise? {
      return Raise(oid.exc);
    }
    var documents := db.Aggregate(link.parentCollectionName, AllPipeline(oid.value, link));
    r := LoadFirstConverted(documents, link);
  }

  /** `get_one(id, lookup_id)` against the collections `colls`; `lookup_id`
      is a string from a route or the `inserted_id` of a create, and `newId`
      is what `ObjectId(None)` would generate. The parent id is checked first,
      then the related id; None never comes back. */
  function GetOneIn(agg: AggregateEngine, colls: map<string, seq<Document>>, id: string, lookupId: Value,
                    link: Link, newId: ObjectId): (r: Result<PyObj>)
    ensures !IsHex24(id) ==> r == Raise(InvalidId)
    ensures IsHex24(id) && ObjectIdOf(lookupId, newId).Raise? ==> r == Raise(ObjectIdOf(lookupId, newId).exc)
    ensures r.Ok? ==> r.value.PyModel?
  {
    match Parse(id)
    case Raise(e) => Raise(e)
    case Ok(o) =>
      match ObjectIdOf(lookupId, newId)
      case Raise(e) => Raise(e)
      case Ok(l) => FirstConverted(agg(colls, link.parentCollectionName, OnePipeline(o, l, link)), link)
  }

  /** `get_one(id, lookup_id)`. */
  method GetOne(db: Database, id: string, lookupId: Value, link: Link, newId: ObjectId) returns (r: Result<PyObj>)
    ensures r == GetOneIn(db.aggregate, db.collections, id, lookupId, link, newId)
  {
    var oid := Parse(id);
    if oid.Raise? {
      return Raise(oid.exc);
    }
    var lid := ObjectIdOf(lookupId, newId);
    if lid.Raise? {
      return Raise(lid.exc);
    }
    var documents := db.Aggregate(link.parentCollectionName, OnePipeline(oid.value, lid.value, link));
    r := LoadFirstConverted(documents, link);
  }

  /** `create_one(id, data)` against the collections `colls`: the related
      document is inserted into the related collection, then the parent is
      read back through `get_one` with the inserted id. */
  function CreateIn(agg: AggregateEngine, colls: map<string, seq<Document>>, id: string, data: Instance,
                    link: Link, newId: ObjectId): (w: Write<Result<PyObj>>)
    ensures var docs := DocsOf(colls, link.collectionName);
            if IdTaken(docs, Inserted(data, newId)["_id"])
            then w == Write(Raise(DuplicateKeyError), docs)
            else w.docs == docs + [Inserted(data, newId)]
    // the insert happens before the parent id is looked at: it is kept even
    // when the request then fails on a malformed parent id
    ensures !IsHex24(id) ==> w.result.Raise? && w.result.exc in {DuplicateKeyError, InvalidId}
    ensures w.result.Ok? ==> w.result.value.PyModel?
    // what comes back is the parent as `get_one` reads it once the insert is in
    ensures var docs := DocsOf(colls, link.collectionName);
            !IdTaken(docs, Inserted(data, newId)["_id"]) ==>
              w.result == GetOneIn(agg, WithCollection(colls, link.collectionName, w.docs), id,
                                   Inserted(data, newId)["_id"], link, newId)
  {
    var docs := DocsOf(colls, link.collectionName);
    var stored := Inserted(data, newId);
    if IdTaken(docs, stored["_id"]) then Write(Raise(DuplicateKeyError), docs)
    else
      var after := docs + [stored];
      Write(GetOneIn(agg, WithCollection(colls, link.collectionName, after), id, stored["_id"], link, newId), after)
  }

  /** `create_one(id, data)`; `newId` is the `_id` the driver would generate. */
  method CreateOne(db: Database, id: string, data: Instance, link: Link, newId: ObjectId) returns (r: Result<PyObj>)
    modifies db
    ensures var w := CreateIn(db.aggregate, old(db.collections), id, data, link, newId);
            r == w.result && db.collections == WithCollection(old(db.collections), link.collectionName, w.docs)
  {
    var document := Mongo(data, false, Placeholder);
    var response := db.InsertOne(link.collectionName, document, newId);
    if response.Raise? {
      return Raise(response.exc);
    }
    r := GetOne(db, id, response.value, link, newId);
  }

  /** The related documents after `replace_one({"_id": lookup})` of `doc`:
      the first match replaced, nothing when none matches, or the write error
      of a replacement that changes `_id`. */
  function ReplacedIn(docs: seq<Document>, lookup: ObjectId, doc: Document): (r: Result<seq<Document>>)
    ensures r.Ok? ==> |r.value| == |docs|
    ensures FirstMatch(docs, IdIs(VOid(lookup))).None? ==> r == Ok(docs)
    ensures r.Raise? ==> r.exc == WriteError
    ensures r.Raise? <==>
              && FirstMatch(docs, IdIs(VOid(lookup))).Some?
              && "_id" in doc && doc["_id"] != VOid(lookup)
    ensures r.Ok? && FirstMatch(docs, IdIs(VOid(lookup))).Some? ==>
              var i := FirstMatch(docs, IdIs(VOid(lookup))).value;
              && r.value[i] - {"_id"} == doc - {"_id"}
              && "_id" in r.value[i] && r.value[i]["_id"] == VOid(lookup)
              && forall j | 0 <= j < |docs| && j != i :: r.value[j] == docs[j]
  {
    match FirstMatch(docs, IdIs(VOid(lookup)))
    case None => Ok(docs)
    case Some(i) =>
      assert Holds(docs[i], IdIs(VOid(lookup))[0]);
      match Replacement(docs[i], doc)
      case Raise(e) => Raise(e)
      case Ok(d) => Ok(docs[i := d])
  }

  /** `replace_one(id, lookup_id, data)` against the collections `colls`:
      the related document is replaced, then the parent is read back through
      `get_one`. */
  function ReplaceIn(agg: AggregateEngine, colls: map<string, seq<Document>>, id: string, lookupId: string,
                     data: Instance, link: Link, newId: ObjectId): (w: Write<Result<PyObj>>)
    ensures |w.docs| == |DocsOf(colls, link.collectionName)|
    ensures !IsHex24(lookupId) ==> w == Write(Raise(InvalidId), DocsOf(colls, link.collectionName))
    // the replacement is written before the parent id is looked at
    ensures IsHex24(lookupId) ==>
              var replaced := ReplacedIn(DocsOf(colls, link.collectionName), Parse(lookupId).value,
                                         MongoDoc(data, false, Placeholder));
              && (replaced.Raise? ==> w == Write(Raise(WriteError), DocsOf(colls, link.collectionName)))
              && (replaced.Ok? ==> w.docs == replaced.value && (!IsHex24(id) ==> w.result == Raise(InvalidId)))
              && (replaced.Ok? ==>
                    w.result == GetOneIn(agg, WithCollection(colls, link.collectionName, w.docs), id, VStr(lookupId),
                                         link, newId))
    ensures w.result.Ok? ==> w.result.value.PyModel?
  {
    var docs := DocsOf(colls, link.collectionName);
    match Parse(lookupId)
    case Raise(e) => Write(Raise(e), docs)
    case Ok(l) =>
      match ReplacedIn(docs, l, MongoDoc(data, false, Placeholder))
      case Raise(e) => Write(Raise(e), docs)
      case Ok(after) =>
        Write(GetOneIn(agg, WithCollection(colls, link.collectionName, after), id, VStr(lookupId), link, newId), after)
  }

  /** `replace_one(id, lookup_id, data)`. */
  method ReplaceOne(db: Database, id: string, lookupId: string, data: Instance, link: Link, newId: ObjectId)
    returns (r: Result<PyObj>)
    modifies db
    ensures var w := ReplaceIn(db.aggregate, old(db.collections), id, lookupId, data, link, newId);
            r == w.result && db.collections == WithCollection(old(db.collections), link.collectionName, w.docs)
  {
    var lid := Parse(lookupId);
    if lid.Raise? {
      return Raise(lid.exc);
    }
    ghost var before := db.collections;
    WithSameDocs(before, link.collectionName);
    var document := Mongo(data, false, Placeholder);
    var response := db.ReplaceOne(link.collectionName, IdIs(VOid(lid.value)), document);
    if response.Raise? {
      return Raise(response.exc);
    }
    assert db.collections == WithCollection(before, link.collectionName,
                                            ReplacedIn(DocsOf(before, link.collectionName), lid.value, document).value);
    r := GetOne(db, id, VStr(lookupId), link, newId);
  }

  /** `update_one(id, lookup_id, data)` against the collections `colls`: the
      whole serialised body in one `$set` on the related document with
      `_id == ObjectId(lookup_id)`, then the parent is read back through
      `get_one`; an update the server refuses raises. */
  function UpdateIn(agg: AggregateEngine, apply: UpdateEngine, colls: map<string, seq<Document>>, id: string,
                    lookupId: string, data: Instance, link: Link, newId: ObjectId): (w: Write<Result<PyObj>>)
    ensures |w.docs| == |DocsOf(colls, link.collectionName)|
    ensures !IsHex24(lookupId) ==> w == Write(Raise(InvalidId), DocsOf(colls, link.collectionName))
    ensures IsHex24(lookupId) && !IsHex24(id) ==> w.result.Raise?
    ensures IsHex24(lookupId) && FirstMatch(DocsOf(colls, link.collectionName), IdIs(VOid(Parse(lookupId).value))).None? ==>
              w.docs == DocsOf(colls, link.collectionName)
    ensures w.result.Ok? ==> w.result.value.PyModel?
    ensures IsHex24(lookupId) ==>
              var docs := DocsOf(colls, link.collectionName);
              var updated := UpdateFirst(docs, apply, IdIs(VOid(Parse(lookupId).value)), Set(MongoDoc(data, false, Placeholder)));
              && (updated.Raise? ==> w == Write(Raise(updated.exc), docs))
              && (updated.Ok? ==>
                    && w.docs == updated.value
                    && w.result == GetOneIn(agg, WithCollection(colls, link.collectionName, w.docs), id,
                                            VStr(lookupId), link, newId))
  {
    var docs := DocsOf(colls, link.collectionName);
    match Parse(lookupId)
    case Raise(e) => Write(Raise(e), docs)
    case Ok(l) =>
      match UpdateFirst(docs, apply, IdIs(VOid(l)), Set(MongoDoc(data, false, Placeholder)))
      case Raise(e) => Write(Raise(e), docs)
      case Ok(after) =>
        Write(GetOneIn(agg, WithCollection(colls, link.collectionName, after), id, VStr(lookupId), link, newId), after)
  }

  /** With a server that applies a top-level `$set` as MongoDB does, on a
      related document that matches: a body carrying a different `_id` makes
      the write raise WriteError and nothing changes; otherwise the body's
      fields are laid over the stored document and the rest of it stays. */
  lemma UpdateSetsRelated(agg: AggregateEngine, apply: UpdateEngine, colls: map<string, seq<Document>>, id: string,
                          lookupId: string, data: Instance, link: Link, newId: ObjectId)
    requires IsHex24(lookupId) && ServerSet(apply) && PlainKeys(MongoDoc(data, false, Placeholder))
    requires FirstMatch(DocsOf(colls, link.collectionName), IdIs(VOid(Parse(lookupId).value))).Some?
    ensures var docs := DocsOf(colls, link.collectionName);
            var i := FirstMatch(docs, IdIs(VOid(Parse(lookupId).value))).value;
            var body := MongoDoc(data, false, Placeholder);
            var w := UpdateIn(agg, apply, colls, id, lookupId, data, link, newId);
            if "_id" in body && "_id" in docs[i] && body["_id"] != docs[i]["_id"]
            then w == Write(Raise(WriteError), docs)
            else && w.docs == docs[i := docs[i] + body]
                 && w.docs[i].Keys == docs[i].Keys + body.Keys
                 && (forall k | k in body :: w.docs[i][k] == body[k])
  {
    var docs := DocsOf(colls, link.collectionName);
    var i := FirstMatch(docs, IdIs(VOid(Parse(lookupId).value))).value;
    var body := MongoDoc(data, false, Placeholder);
    assert apply(docs[i], Set(body)) == SetTopLevel(docs[i], body);
  }

  /** `update_one(id, lookup_id, data)`. */
  method UpdateOne(db: Database, id: string, lookupId: string, data: Instance, link: Link, newId: ObjectId)
    returns (r: Result<PyObj>)
    modifies db
    ensures var w := UpdateIn(db.aggregate, db.applyUpdate, old(db.collections), id, lookupId, data, link, newId);
            r == w.result && db.collections == WithCollection(old(db.collections), link.collectionName, w.docs)
  {
    var lid := Parse(lookupId);
    if lid.Raise? {
      return Raise(lid.exc);
    }
    ghost var before := db.collections;
    WithSameDocs(before, link.collectionName);
    var document := Mongo(data, false, Placeholder);
    var response := db.UpdateOne(link.collectionName, IdIs(VOid(lid.value)), Set(document));
    if response.Raise? {
      return Raise(response.exc);
    }
    assert db.collections == WithCollection(before, link.collectionName,
                                            UpdateFirst(DocsOf(before, link.collectionName), db.applyUpdate,
                                                        IdIs(VOid(lid.value)), Set(document)).value);
    r := GetOne(db, id, VStr(lookupId), link, newId);
  }

  /** The output model of `delete_one`. */
  const DeletedModelOut: ModelName := "DeletedModelOut"

  /** `delete_one(lookup_id)` on the related documents `docs`: the first
      document under `ObjectId(lookup_id)` goes, and a `DeletedModelOut`
      whose `id` is `lookup_id` comes back whether or not one did. The parent
      plays no part. */
  function DeleteIn(docs: seq<Document>, lookupId: string): (w: Write<Result<PyObj>>)
    ensures w.result.Raise? <==> !IsHex24(lookupId)
    ensures w.result.Raise? ==> w == Write(Raise(InvalidId), docs)
    ensures w.result.Ok? ==> w.result.value == PyModel(Instance(DeletedModelOut, map["id" := VStr(lookupId)]))
    ensures w.docs == docs || |w.docs| + 1 == |docs|
    ensures IsHex24(lookupId) ==>
              match FirstMatch(docs, IdIs(VOid(Parse(lookupId).value)))
              case None => w.docs == docs
              case Some(i) => w.docs == RemoveAt(docs, i) && multiset(w.docs) + multiset{docs[i]} == multiset(docs)
  {
    match Parse(lookupId)
    case Raise(e) => Write(Raise(e), docs)
    case Ok(l) =>
      var after := match FirstMatch(docs, IdIs(VOid(l))) case None => docs case Some(i) => RemoveAt(docs, i);
      var record := map["id" := VStr(lookupId)];
      assert (map["_id" := VStr(lookupId)] - {"_id"})["id" := VStr(lookupId)] == record == record - {"_id"};
      Write(Ok(Load(DeletedModelOut, Some(map["_id" := VStr(lookupId)]))), after)
  }

  /** `delete_one(lookup_id)`. */
  method DeleteOne(db: Database, collectionName: string, lookupId: string) returns (r: Result<PyObj>)
    modifies db
    ensures var w := DeleteIn(old(db.Docs(collectionName)), lookupId);
            r == w.result && db.collections == WithCollection(old(db.collections), collectionName, w.docs)
  {
    var lid := Parse(lookupId);
    if lid.Raise? {
      return Raise(lid.exc);
    }
    var deletedCount := db.DeleteOne(collectionName, IdIs(VOid(lid.value)));
    r := Ok(Load(DeletedModelOut, Some(map["_id" := VStr(lookupId)])));
  }
}
