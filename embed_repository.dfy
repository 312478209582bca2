/** The module functions of core/router/embed/CRUDEmbedRouterRepository.py:
    CRUD on the documents embedded in an array field (`embedName`) of one
    parent document. Reads go through an aggregation pipeline, writes through
    array update operators on the parent. */
module EmbedRepository {
  import opened Base
  import opened ObjectIds
  import opened Documents
  import opened MongoModels
  import opened Store

  /** The `get_all` pipeline: the parent by `_id`, one document per array
      element, each element promoted to the root. */
  function AllPipeline(parentId: ObjectId, embedName: string): seq<Stage> {
    [ Match(IdIs(VOid(parentId))),
      Unwind("$" + embedName, false),
      ReplaceRoot("$" + embedName) ]
  }

  /** The `get_one` pipeline: the `get_all` pipeline and one trailing match on
      the element's `_id`. */
  function OnePipeline(parentId: ObjectId, embedId: ObjectId, embedName: string): (p: seq<Stage>)
    ensures |p| == 4 && p[..3] == AllPipeline(parentId, embedName)
    ensures p[3] == Match(IdIs(VOid(embedId)))
  {
    AllPipeline(parentId, embedName) + [Match(IdIs(VOid(embedId)))]
  }

  /** `get_all(id)` against the collections `colls`: a malformed id and a
      failing pipeline are swallowed, so the list is empty exactly when one of
      them happens or the pipeline yields nothing. */
  function GetAllIn(agg: AggregateEngine, colls: map<string, seq<Document>>, id: string,
                    parentCollectionName: string, embedName: string, model: ModelName): (r: seq<PyObj>)
    ensures r == [] <==>
              || !IsHex24(id)
              || var found := agg(colls, parentCollectionName, AllPipeline(Parse(id).value, embedName));
                 found.Raise? || found.value == []
    ensures r != [] ==> r == LoadAll(model, agg(colls, parentCollectionName, AllPipeline(Parse(id).value, embedName)).value)
  {
    match Parse(id)
    case Raise(_) => []
    case Ok(o) =>
      match agg(colls, parentCollectionName, AllPipeline(o, embedName))
      case Raise(_) => []
      case Ok(docs) => LoadAll(model, docs)
  }

  /** `get_all(id)`. */
  method GetAll(db: Database, id: string, parentCollectionName: string, embedName: string, model: ModelName)
    returns (models: seq<PyObj>)
    ensures models == GetAllIn(db.aggregate, db.collections, id, parentCollectionName, embedName, model)
  {
    var oid := Parse(id);
    if oid.Raise? {
      return [];
    }
    var documents := db.Aggregate(parentCollectionName, AllPipeline(oid.value, embedName));
    if documents.Raise? {
      return [];
    }
    var docs := documents.value;
    models := [];
    var i := 0;
    while i < |docs|
      invariant 0 <= i <= |docs|
      invariant |models| == i
      invariant forall j | 0 <= j < i :: models[j] == Load(model, Some(docs[j]))
    {
      models := models + [Load(model, Some(docs[i]))];
      i := i + 1;
    }
  }

  /** `get_one(id, embed_id)` against the collections `colls`: the first
      document of the pipeline, or None when either id is malformed, the
      pipeline fails or it yields nothing (`models[0]` raising IndexError). */
  function GetOneIn(agg: AggregateEngine, colls: map<string, seq<Document>>, id: string, embedId: string,
                    parentCollectionName: string, embedName: string, model: ModelName): (r: PyObj)
    ensures r == PyNone <==>
              || !IsHex24(id) || !IsHex24(embedId)
              || var found := agg(colls, parentCollectionName, OnePipeline(Parse(id).value, Parse(embedId).value, embedName));
                 found.Raise? || found.value == []
    ensures r != PyNone ==>
              r == Load(model, Some(agg(colls, parentCollectionName,
                                        OnePipeline(Parse(id).value, Parse(embedId).value, embedName)).value[0]))
  {
    match Parse(id)
    case Raise(_) => PyNone
    case Ok(o) =>
      match Parse(embedId)
      case Raise(_) => PyNone
      case Ok(e) =>
        match agg(colls, parentCollectionName, OnePipeline(o, e, embedName))
        case Raise(_) => PyNone
        case Ok(docs) => if docs == [] then PyNone else Load(model, Some(docs[0]))
  }

  /** `get_one(id, embed_id)`. */
  method GetOne(db: Database, id: string, embedId: string, parentCollectionName: string, embedName: string,
                model: ModelName) returns (r: PyObj)
    ensures r == GetOneIn(db.aggregate, db.collections, id, embedId, parentCollectionName, embedName, model)
  {
    var oid := Parse(id);
    if oid.Raise? {
      return PyNone;
    }
    var eid := Parse(embedId);
    if eid.Raise? {
      return PyNone;
    }
    var document := db.Aggregate(parentCollectionName, OnePipeline(oid.value, eid.value, embedName));
    if document.Raise? {
      return PyNone;
    }
    var docs := document.value;
    var models: seq<PyObj> := [];
    var i := 0;
    while i < |docs|
      invariant 0 <= i <= |docs|
      invariant |models| == i
      invariant forall j | 0 <= j < i :: models[j] == Load(model, Some(docs[j]))
    {
      models := models + [Load(model, Some(docs[i]))];
      i := i + 1;
    }
    if models == [] {
      return PyNone;
    }
    r := models[0];
  }

  /** `create_one(id, data)` on the parent documents `docs`: the element is
      built with `mongo(add_id=True)` and pushed onto `embedName` of the parent
      with `_id == ObjectId(id)`; the built element is returned whether or not a
      parent matched, and a push the server refuses raises. */
  function CreateIn(docs: seq<Document>, apply: UpdateEngine, id: string, embedName: string, data: Instance,
                    model: ModelName, newId: ObjectId): (w: Write<Result<PyObj>>)
    ensures !IsHex24(id) ==> w == Write(Raise(InvalidId), docs)
    ensures IsHex24(id) ==>
              var element := MongoDoc(data, true, newId);
              var pushed := UpdateFirst(docs, apply, IdIs(VOid(Parse(id).value)), Push(embedName, VDoc(element)));
              && (pushed.Raise? ==> w == Write(Raise(pushed.exc), docs))
              && (pushed.Ok? ==> w == Write(Ok(Load(model, Some(element))), pushed.value))
  {
    var element := MongoDoc(data, true, newId);
    match Parse(id)
    case Raise(e) => Write(Raise(e), docs)
    case Ok(o) =>
      match UpdateFirst(docs, apply, IdIs(VOid(o)), Push(embedName, VDoc(element)))
      case Raise(e) => Write(Raise(e), docs)
      case Ok(after) => Write(Ok(Load(model, Some(element))), after)
  }

  /** The created element always carries an id: the data's own `_id`, else its
      `id`, else the new one; and a missing parent changes nothing, yet the
      element is still returned. */
  lemma CreatedElementHasId(docs: seq<Document>, apply: UpdateEngine, id: string, embedName: string,
                            data: Instance, model: ModelName, newId: ObjectId)
    requires IsHex24(id)
    ensures var w := CreateIn(docs, apply, id, embedName, data, model, newId);
            w.result.Ok? ==>
              && w.result.value.PyModel?
              && var fields := w.result.value.inst.fields;
                 "id" in fields
                 && fields["id"] == (if Get(data.fields, "_id") != VNone then data.fields["_id"]
                                     else if Get(data.fields, "id") != VNone then data.fields["id"]
                                     else VOid(newId))
                 && fields["id"] != VNone
    ensures FirstMatch(docs, IdIs(VOid(Parse(id).value))).None? ==>
              var w := CreateIn(docs, apply, id, embedName, data, model, newId);
              w.docs == docs && w.result.Ok?
  {
    var element := MongoDoc(data, true, newId);
    assert "_id" in element;
    assert element != map[];
  }

  /** With a server that applies `$push` as MongoDB does, on a parent that
      matches: a field holding anything but an array (a single sub-model, say)
      makes the push raise WriteError and nothing is written; otherwise the
      element is appended after the field's earlier elements, or starts a new
      array. */
  lemma CreatePushesElement(docs: seq<Document>, apply: UpdateEngine, id: string, embedName: string,
                            data: Instance, model: ModelName, newId: ObjectId)
    requires IsHex24(id) && ServerPush(apply) && '.' !in embedName
    requires FirstMatch(docs, IdIs(VOid(Parse(id).value))).Some?
    ensures var i := FirstMatch(docs, IdIs(VOid(Parse(id).value))).value;
            var w := CreateIn(docs, apply, id, embedName, data, model, newId);
            if embedName in docs[i] && !docs[i][embedName].VList?
            then w == Write(Raise(WriteError), docs)
            else && |w.docs| == |docs| && w.result.Ok?
                 && w.docs[i][embedName] ==
                      VList((if embedName in docs[i] then docs[i][embedName].items else []) + [VDoc(MongoDoc(data, true, newId))])
                 && forall k | k in docs[i] && k != embedName :: k in w.docs[i] && w.docs[i][k] == docs[i][k]
  {
    var i := FirstMatch(docs, IdIs(VOid(Parse(id).value))).value;
    var element := VDoc(MongoDoc(data, true, newId));
    assert apply(docs[i], Push(embedName, element)) == PushTo(docs[i], embedName, element);
  }

  /** `create_one(id, data)`; `newId` is what `ObjectId()` would generate. */
  method CreateOne(db: Database, id: string, parentCollectionName: string, embedName: string, data: Instance,
                   model: ModelName, newId: ObjectId) returns (r: Result<PyObj>)
    modifies db
    ensures var w := CreateIn(old(db.Docs(parentCollectionName)), db.applyUpdate, id, embedName, data, model, newId);
            r == w.result && db.collections == WithCollection(old(db.collections), parentCollectionName, w.docs)
  {
    var documentMongo := Mongo(data, true, newId);
    var oid := Parse(id);
    if oid.Raise? {
      return Raise(oid.exc);
    }
    var document := db.UpdateOne(parentCollectionName, IdIs(VOid(oid.value)), Push(embedName, VDoc(documentMongo)));
    if document.Raise? {
      return Raise(document.exc);
    }
    r := Ok(Load(model, Some(documentMongo)));
  }

  /** The filter of `update_one`: the parent by `_id` and an element of
      `embedName` by `_id`. */
  function ElementFilter(parentId: ObjectId, embedId: ObjectId, embedName: string): (f: Filter)
    ensures |f| == 2 && f[0].Key() == "_id" && f[1].Key() == embedName + "._id"
    ensures forall d: Document :: Matches(d, f) <==>
              && "_id" in d && d["_id"] == VOid(parentId)
              && embedName in d && d[embedName].VList?
              && exists k | 0 <= k < |d[embedName].items| :: ElemHas(d[embedName].items[k], "_id", VOid(embedId))
  {
    [Eq("_id", VOid(parentId)), ElemEq(embedName, "_id", VOid(embedId))]
  }

  /** The positional update `{"$set": {embedName + ".$": element}}`. */
  function PositionalSet(embedName: string, element: Document): (u: Update)
    ensures u.Set? && u.fields.Keys == {embedName + ".$"}
    ensures u.fields[embedName + ".$"] == VDoc(element)
  {
    Set(map[embedName + ".$" := VDoc(element)])
  }

  /** `update_one(id, embed_id, data)` on the parent documents `docs`: the
      parent holding the element is matched by `ElementFilter` and the element
      overwritten by `PositionalSet` with `mongo(add_id=False)` of the data,
      which is what is returned, whether or not anything matched; an update the
      server refuses raises. */
  function UpdateIn(docs: seq<Document>, apply: UpdateEngine, id: string, embedId: string, embedName: string,
                    data: Instance, model: ModelName): (w: Write<Result<PyObj>>)
    ensures !IsHex24(id) || !IsHex24(embedId) ==> w == Write(Raise(InvalidId), docs)
    ensures w.result.Raise? ==> w.docs == docs
    ensures w.result.Ok? ==> w.result.value == Load(model, Some(MongoDoc(data, false, Placeholder)))
    ensures IsHex24(id) && IsHex24(embedId) ==>
              var element := MongoDoc(data, false, Placeholder);
              var updated := UpdateFirst(docs, apply, ElementFilter(Parse(id).value, Parse(embedId).value, embedName),
                                         PositionalSet(embedName, element));
              && (updated.Raise? ==> w.result == Raise(updated.exc))
              && (updated.Ok? ==> w == Write(Ok(Load(model, Some(element))), updated.value))
  {
    var element := MongoDoc(data, false, Placeholder);
    match Parse(id)
    case Raise(e) => Write(Raise(e), docs)
    case Ok(o) =>
      match Parse(embedId)
      case Raise(e) => Write(Raise(e), docs)
      case Ok(e) =>
        match UpdateFirst(docs, apply, ElementFilter(o, e, embedName), PositionalSet(embedName, element))
        case Raise(x) => Write(Raise(x), docs)
        case Ok(after) => Write(Ok(Load(model, Some(element))), after)
  }

  /** `update_one(id, embed_id, data)`. */
  method UpdateOne(db: Database, id: string, embedId: string, parentCollectionName: string, embedName: string,
                   data: Instance, model: ModelName) returns (r: Result<PyObj>)
    modifies db
    ensures var w := UpdateIn(old(db.Docs(parentCollectionName)), db.applyUpdate, id, embedId, embedName, data, model);
            r == w.result && db.collections == WithCollection(old(db.collections), parentCollectionName, w.docs)
  {
    var documentMongo := Mongo(data, false, Placeholder);
    var oid := Parse(id);
    if oid.Raise? {
      return Raise(oid.exc);
    }
    var eid := Parse(embedId);
    if eid.Raise? {
      return Raise(eid.exc);
    }
    var document := db.UpdateOne(parentCollectionName, ElementFilter(oid.value, eid.value, embedName),
                                 PositionalSet(embedName, documentMongo));
    if document.Raise? {
      return Raise(document.exc);
    }
    r := Ok(Load(model, Some(documentMongo)));
  }

  /** The record `delete_one` returns once the element is confirmed gone. */
  const Deleted: PyObj := PyDict(map["deleted" := VBool(true)])

  /** The pull of `delete_one`: `{"$pull": {embedName: {"_id": embedId}}}`. */
  function PullElement(embedId: ObjectId, embedName: string): (u: Update)
    ensures u.Pull? && u.field == embedName && u.cond == IdIs(VOid(embedId))
  {
    Pull(embedName, IdIs(VOid(embedId)))
  }

  /** `delete_one(id, embed_id)` against the collections `colls`: `$pull` of
      the element by `_id` from the parent, then a confirming `get_one`; the
      record comes back exactly when the pull went through and that `get_one`
      finds nothing. Everything else is None: a malformed id, and a pull the
      server refuses, which the `try` swallows. */
  function DeleteIn(agg: AggregateEngine, apply: UpdateEngine, colls: map<string, seq<Document>>, id: string,
                    embedId: string, parentCollectionName: string, embedName: string, model: ModelName)
    : (w: Write<PyObj>)
    ensures w.result == Deleted || w.result == PyNone
    ensures !IsHex24(id) || !IsHex24(embedId) ==> w == Write(PyNone, DocsOf(colls, parentCollectionName))
    ensures IsHex24(id) && IsHex24(embedId) ==>
              var pulled := UpdateFirst(DocsOf(colls, parentCollectionName), apply, IdIs(VOid(Parse(id).value)),
                                        PullElement(Parse(embedId).value, embedName));
              && (pulled.Raise? ==> w == Write(PyNone, DocsOf(colls, parentCollectionName)))
              && (pulled.Ok? ==> w.docs == pulled.value)
    ensures w.result == Deleted <==>
              && IsHex24(id) && IsHex24(embedId)
              && UpdateFirst(DocsOf(colls, parentCollectionName), apply, IdIs(VOid(Parse(id).value)),
                             PullElement(Parse(embedId).value, embedName)).Ok?
              && GetOneIn(agg, WithCollection(colls, parentCollectionName, w.docs), id, embedId,
                          parentCollectionName, embedName, model) == PyNone
  {
    var docs := DocsOf(colls, parentCollectionName);
    match Parse(id)
    case Raise(_) => Write(PyNone, docs)
    case Ok(o) =>
      match Parse(embedId)
      case Raise(_) => Write(PyNone, docs)
      case Ok(e) =>
        match UpdateFirst(docs, apply, IdIs(VOid(o)), PullElement(e, embedName))
        case Raise(_) => Write(PyNone, docs)
        case Ok(after) =>
          var confirm := GetOneIn(agg, WithCollection(colls, parentCollectionName, after), id, embedId,
                                  parentCollectionName, embedName, model);
          Write(if confirm == PyNone then Deleted else PyNone, after)
  }

  /** `delete_one(id, embed_id)`. */
  method DeleteOne(db: Database, id: string, embedId: string, parentCollectionName: string, embedName: string,
                   model: ModelName) returns (r: PyObj)
    modifies db
    ensures var w := DeleteIn(db.aggregate, db.applyUpdate, old(db.collections), id, embedId,
                              parentCollectionName, embedName, model);
            r == w.result && db.collections == WithCollection(old(db.collections), parentCollectionName, w.docs)
  {
    var oid := Parse(id);
    if oid.Raise? {
      return PyNone;
    }
    var eid := Parse(embedId);
    if eid.Raise? {
      return PyNone;
    }
    ghost var before := db.collections;
    var pull := PullElement(eid.value, embedName);
    var document := db.UpdateOne(parentCollectionName, IdIs(VOid(oid.value)), pull);
    WithSameDocs(before, parentCollectionName);
    if document.Raise? {
      return PyNone;
    }
    assert db.collections == WithCollection(before, parentCollectionName,
                                            UpdateFirst(DocsOf(before, parentCollectionName), db.applyUpdate,
                                                        IdIs(VOid(oid.value)), pull).value);
    var confirm := GetOne(db, id, embedId, parentCollectionName, embedName, model);
    r := if confirm == PyNone then Deleted else PyNone;
  }
}
