/** `CRUDRouterService` (core/router/CRUDRouterService.py): one repository
    call per operation and a status for a None result. Its statuses differ from
    `CRUDRouter`'s: an empty collection is `[]` rather than 404, and a missing
    document is 400 rather than 404. */
module RouterService {
  import opened Base
  import opened ObjectIds
  import opened Documents
  import opened MongoModels
  import opened Store
  import opened Routes
  import RouterRepository

  datatype Operation = GetAllOp | GetOneOp | CreateOneOp | ReplaceOneOp | UpdateOneOp | DeleteOneOp

  /** The positional parameters of the functions of
      core/router/CRUDRouterRepository.py. */
  function RepositoryParams(op: Operation): seq<string> {
    match op
    case GetAllOp => ["db", "model", "collection_name"]
    case GetOneOp => ["db", "model", "collection_name", "id"]
    case CreateOneOp => ["db", "model", "collection_name", "data"]
    case ReplaceOneOp => ["db", "model", "collection_name", "id", "data"]
    case UpdateOneOp => ["db", "model", "collection_name", "id", "data"]
    case DeleteOneOp => ["db", "collection_name", "id"]
  }

  /** The positional arguments the service passes to them, as written. */
  function ServiceArgs(op: Operation): seq<string> {
    match op
    case GetAllOp => ["db", "model", "collection_name", "model_out"]
    case GetOneOp => ["db", "model", "collection_name", "id", "model_out"]
    case CreateOneOp => ["db", "model", "collection_name", "data", "model_out"]
    case ReplaceOneOp => ["db", "model", "collection_name", "id", "data", "model_out"]
    case UpdateOneOp => ["db", "model", "collection_name", "id", "data", "model_out"]
    case DeleteOneOp => ["db", "collection_name", "id"]
  }

  /** The service's call as written: Python refuses a call with more
      positional arguments than the function has parameters, with TypeError,
      before the repository runs. */
  function CallAsWritten(op: Operation): (r: Result<seq<string>>)
    ensures r.Raise? ==> r.exc == TypeError
    ensures r.Ok? ==> |r.value| == |RepositoryParams(op)|
  {
    if |ServiceArgs(op)| > |RepositoryParams(op)| then Raise(TypeError) else Ok(ServiceArgs(op))
  }

  /** Every operation but delete forwards `model_out` as one argument more
      than the repository takes, so every one of them raises TypeError as
      written; delete alone passes the repository's own parameters. */
  lemma ServiceCallsAsWritten(op: Operation)
    ensures op != DeleteOneOp ==> ServiceArgs(op) == RepositoryParams(op) + ["model_out"]
    ensures "model_out" !in RepositoryParams(op)
    ensures CallAsWritten(op).Raise? <==> op != DeleteOneOp
    ensures op == DeleteOneOp ==> CallAsWritten(op) == Ok(RepositoryParams(op))
  {
  }

  /** `response if len(response) else []`: always the list itself. */
  function ListOrEmpty(response: seq<PyObj>): (o: Outcome<seq<PyObj>>)
    ensures o == Body(response)
  {
    Body(if |response| > 0 then response else [])
  }

  /** The two routers disagree on the same repository results: an empty
      collection is 404 in `CRUDRouter` and `[]` here, and a missing document
      404 there and 400 here. */
  lemma StatusesDisagree(docs: seq<Document>, model: ModelName, id: string)
    ensures docs == [] ==>
              EmptyTo404(LoadAll(model, docs)) == Http(404) && ListOrEmpty(LoadAll(model, docs)) == Body([])
    ensures IsHex24(id) && FirstMatch(docs, IdIs(VOid(Parse(id).value))).None? ==>
              && NoneTo(RouterRepository.GetOneIn(docs, model, id), 404) == Http(404)
              && NoneTo(RouterRepository.GetOneIn(docs, model, id), 400) == Http(400)
  {
  }

  /** The service with each repository function called with its own
      parameters; `model_out` is kept but not forwarded. */
  class CRUDRouterService {
    const model: ModelName
    const db: Database
    const collectionName: string
    const modelOut: Option<ModelName>

    constructor (model: ModelName, db: Database, collectionName: string, modelOut: Option<ModelName>)
      ensures this.model == model && this.db == db
      ensures this.collectionName == collectionName && this.modelOut == modelOut
    {
      this.model := model;
      this.db := db;
      this.collectionName := collectionName;
      this.modelOut := modelOut;
    }

    /** `get_all`: one model per document, the empty list included; never a
        status. */
    method GetAll() returns (o: Outcome<seq<PyObj>>)
      ensures o == Body(LoadAll(model, db.Docs(collectionName)))
    {
      var response := RouterRepository.GetAll(db, model, collectionName);
      o := ListOrEmpty(response);
    }

    /** `get_one(id)`: 400 exactly when no document has `_id == ObjectId(id)`. */
    method GetOne(id: string) returns (o: Outcome<PyObj>)
      ensures o == NoneTo(RouterRepository.GetOneIn(db.Docs(collectionName), model, id), 400)
      ensures o == Http(400) <==>
                IsHex24(id) && FirstMatch(db.Docs(collectionName), IdIs(VOid(Parse(id).value))).None?
      ensures o.Unhandled? <==> !IsHex24(id)
    {
      var response := RouterRepository.GetOne(db, model, collectionName, id);
      o := NoneTo(response, 400);
    }

    /** `create_one(data)`: 422 on None. */
    method CreateOne(data: Instance, newId: ObjectId) returns (o: Outcome<PyObj>)
      modifies db
      ensures var w := RouterRepository.CreateIn(old(db.Docs(collectionName)), model, data, newId);
              o == NoneTo(w.result, 422)
              && db.collections == WithCollection(old(db.collections), collectionName, w.docs)
    {
      var response := RouterRepository.CreateOne(db, model, collectionName, data, newId);
      o := NoneTo(response, 422);
    }

    /** `replace_one(id, data)`: 422 exactly when no document has the id. */
    method ReplaceOne(id: string, data: Instance) returns (o: Outcome<PyObj>)
      modifies db
      ensures var w := RouterRepository.ReplaceIn(old(db.Docs(collectionName)), model, id, data);
              o == NoneTo(w.result, 422)
              && db.collections == WithCollection(old(db.collections), collectionName, w.docs)
      ensures o.Http? <==>
                IsHex24(id) && FirstMatch(old(db.Docs(collectionName)), IdIs(VOid(Parse(id).value))).None?
    {
      if IsHex24(id) {
        RouterRepository.ReplaceRereadsReplacement(db.Docs(collectionName), model, id, data);
      }
      var response := RouterRepository.ReplaceOne(db, model, collectionName, id, data);
      o := NoneTo(response, 422);
    }

    /** `update_one(id, data)`: 422 when no document has the id. */
    method UpdateOne(id: string, data: Instance) returns (o: Outcome<PyObj>)
      modifies db
      ensures var w := RouterRepository.UpdateIn(old(db.Docs(collectionName)), db.applyUpdate, model, id, data);
              o == NoneTo(w.result, 422)
              && db.collections == WithCollection(old(db.collections), collectionName, w.docs)
      ensures IsHex24(id) && FirstMatch(old(db.Docs(collectionName)), IdIs(VOid(Parse(id).value))).None? ==>
                o == Http(422)
    {
      if IsHex24(id) {
        RouterRepository.UpdateRereadsUpdated(db.Docs(collectionName), db.applyUpdate, model, id, data);
      }
      var response := RouterRepository.UpdateOne(db, model, collectionName, id, data);
      o := NoneTo(response, 422);
    }

    /** `delete_one(id)`: never 422, the record `{"id": id}`. */
    method DeleteOne(id: string) returns (o: Outcome<PyObj>)
      modifies db
      ensures var w := RouterRepository.DeleteIn(old(db.Docs(collectionName)), id);
              o == NoneTo(w.result, 422)
              && db.collections == WithCollection(old(db.collections), collectionName, w.docs)
      ensures o == (if IsHex24(id) then Body(PyDict(map["id" := VStr(id)])) else Unhandled(InvalidId))
    {
      var response := RouterRepository.DeleteOne(db, collectionName, id);
      o := NoneTo(response, 422);
    }
  }
}
