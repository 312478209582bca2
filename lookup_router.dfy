/** `CRUDLookupRouter` (core/router/lookup/CRUDLookupRouter.py): the routes
    for a related collection under a parent document, registered into the
    parent router's table, and their handlers. */
module LookupRouter {
  import opened Base
  import opened ObjectIds
  import opened Documents
  import opened MongoModels
  import opened Store
  import opened Routes
  import LookupRepository

  /** A `CRUDLookup` descriptor. The class as shipped has no `model_out`
      attribute, which `modelOut == Missing` stands for. */
  datatype CRUDLookup = CRUDLookup(model: ModelName, collectionName: string, prefix: string,
                                   localField: string, foreignField: string, modelOut: Attr)

  /** `child_args.model_out if child_args.model_out is not None else
      parent_router.model_out`: the descriptor's output model when it has
      one, the parent's otherwise; reading an attribute that is not there
      raises AttributeError. */
  function ModelOutOf(child: Attr, parent: Attr): (r: Result<Option<ModelName>>)
    ensures r.Raise? <==> child.Missing? || (child.AttrNone? && parent.Missing?)
    ensures r.Raise? ==> r.exc == AttributeError
    ensures r.Ok? ==> r.value == (if child.AttrSome? then Some(child.model)
                                  else if parent.AttrSome? then Some(parent.model) else None)
  {
    match child
    case Missing => Raise(AttributeError)
    case AttrSome(m) => Ok(Some(m))
    case AttrNone =>
      match parent
      case Missing => Raise(AttributeError)
      case AttrNone => Ok(None)
      case AttrSome(m) => Ok(Some(m))
  }

  /** The table `_register_routes` appends, in order: list and create on
      the prefix, the four item routes below it, no tags. */
  function LookupRoutes(prefix: string): seq<Route>
  {
    var p := ChildPrefix(prefix);
    var item := p + "/{lookup_id}";
    [ Route(GET, p, []),
      Route(GET, item, []),
      Route(POST, p, []),
      Route(PUT, item, []),
      Route(PATCH, item, []),
      Route(DELETE, item, []) ]
  }

  /** Six routes, pairwise distinct, so none shadows another. */
  lemma LookupRoutesDistinct(prefix: string)
    ensures |LookupRoutes(prefix)| == 6 && DistinctPairs(LookupRoutes(prefix))
  {
    assert |ChildPrefix(prefix) + "/{lookup_id}"| > |ChildPrefix(prefix)|;
  }

  /** List and create on the prefix, the four item routes below it, every
      method used, no tags. */
  lemma LookupRoutesShape(prefix: string)
    ensures (set r | r in LookupRoutes(prefix) :: r.verb) == {GET, POST, PUT, PATCH, DELETE}
    ensures forall r | r in LookupRoutes(prefix) :: r.tags == []
    ensures forall r | r in LookupRoutes(prefix) ::
              r.path == ChildPrefix(prefix) || r.path == ChildPrefix(prefix) + "/{lookup_id}"
    ensures forall r | r in LookupRoutes(prefix) && r.path == ChildPrefix(prefix) :: r.verb == GET || r.verb == POST
  {
    var routes := LookupRoutes(prefix);
    assert |ChildPrefix(prefix) + "/{lookup_id}"| > |ChildPrefix(prefix)|;
    assert routes[0] in routes && routes[2] in routes && routes[3] in routes;
    assert routes[4] in routes && routes[5] in routes;
  }

  class CRUDLookupRouter {
    const prefix: string
    const db: Database
    const model: ModelName
    const modelOut: Option<ModelName>
    const collectionName: string
    const localField: string
    const foreignField: string
    const parent: Parent
    /** `convert_to`, which no file of this repository defines */
    const convert: Converter

    /** `CRUDLookupRouter(parent_router, child_args)` once `model_out` has
        resolved: the fields are set and the six routes appended to the
        parent's table. */
    constructor (parent: Parent, childArgs: CRUDLookup, convert: Converter)
      requires ModelOutOf(childArgs.modelOut, parent.modelOut).Ok?
      modifies parent.table
      ensures prefix == ChildPrefix(childArgs.prefix) && db == parent.db && model == childArgs.model
      ensures modelOut == ModelOutOf(childArgs.modelOut, parent.modelOut).value
      ensures collectionName == childArgs.collectionName
      ensures localField == childArgs.localField && foreignField == childArgs.foreignField
      ensures this.parent == parent && this.convert == convert
      ensures parent.table.routes == old(parent.table.routes) + LookupRoutes(childArgs.prefix)
    {
      prefix := ChildPrefix(childArgs.prefix);
      db := parent.db;
      model := childArgs.model;
      modelOut := ModelOutOf(childArgs.modelOut, parent.modelOut).value;
      collectionName := childArgs.collectionName;
      localField := childArgs.localField;
      foreignField := childArgs.foreignField;
      this.parent := parent;
      this.convert := convert;
      new;
      RegisterRoutes(childArgs.prefix);
    }

    /** The constructor as a whole: it raises AttributeError, before any
        route is registered, when `model_out` cannot be read. */
    static method Build(parent: Parent, childArgs: CRUDLookup, convert: Converter)
      returns (r: Result<CRUDLookupRouter>)
      modifies parent.table
      ensures r.Raise? <==> ModelOutOf(childArgs.modelOut, parent.modelOut).Raise?
      ensures r.Raise? ==> r.exc == AttributeError && parent.table.routes == old(parent.table.routes)
      ensures r.Ok? ==>
                && fresh(r.value) && r.value.parent == parent && r.value.prefix == ChildPrefix(childArgs.prefix)
                && r.value.modelOut == ModelOutOf(childArgs.modelOut, parent.modelOut).value
                && parent.table.routes == old(parent.table.routes) + LookupRoutes(childArgs.prefix)
    {
      var out := ModelOutOf(childArgs.modelOut, parent.modelOut);
      if out.Raise? {
        return Raise(out.exc);
      }
      var router := new CRUDLookupRouter(parent, childArgs, convert);
      r := Ok(router);
    }

    /** `_register_routes`, one `_add_api_route` at a time. The base class
        `CRUDLookupRouterFactory` is not part of this model; its
        `_add_api_route` is taken to delegate to the parent, as
        `CRUDEmbedRouterFactory._add_api_route` does, so the routes go into the
        parent's table. */
    method RegisterRoutes(childPrefix: string)
      requires prefix == ChildPrefix(childPrefix)
      modifies parent.table
      ensures parent.table.routes == old(parent.table.routes) + LookupRoutes(childPrefix)
    {
      parent.table.Add(Route(GET, prefix, []));
      parent.table.Add(Route(GET, prefix + "/{lookup_id}", []));
      parent.table.Add(Route(POST, prefix, []));
      parent.table.Add(Route(PUT, prefix + "/{lookup_id}", []));
      parent.table.Add(Route(PATCH, prefix + "/{lookup_id}", []));
      parent.table.Add(Route(DELETE, prefix + "/{lookup_id}", []));
    }

    /** The repository arguments the handlers pass, `foreign_field` before
        `local_field` as the repository orders them. */
    function Link(): (link: LookupRepository.Link)
      ensures link.collectionName == collectionName && link.parentCollectionName == parent.collectionName
      ensures link.foreignField == foreignField && link.localField == localField
      ensures link.parentModel == parent.model && link.modelOut == modelOut && link.convert == convert
    {
      LookupRepository.Link(collectionName, foreignField, localField, parent.collectionName, parent.model,
                            modelOut, convert)
    }

    /** `GET prefix`: the 404 branch is never taken, since the repository
        never returns None; a missing parent is an unhandled IndexError. */
    method GetAll(id: string) returns (o: Outcome<PyObj>)
      ensures o == NoneTo(LookupRepository.GetAllIn(db.aggregate, db.collections, id, Link()), 404)
      ensures !o.Http?
      ensures !IsHex24(id) ==> o == Unhandled(InvalidId)
    {
      var response := LookupRepository.GetAll(db, id, Link());
      o := NoneTo(response, 404);
    }

    /** `GET prefix/{lookup_id}`: the 404 branch is never taken either. */
    method GetOne(id: string, lookupId: string) returns (o: Outcome<PyObj>)
      ensures o == NoneTo(LookupRepository.GetOneIn(db.aggregate, db.collections, id, VStr(lookupId), Link(),
                                                    Placeholder), 404)
      ensures !o.Http?
      ensures !IsHex24(id) || !IsHex24(lookupId) ==> o == Unhandled(InvalidId)
    {
      var response := LookupRepository.GetOne(db, id, VStr(lookupId), Link(), Placeholder);
      o := NoneTo(response, 404);
    }

    /** `POST prefix`: never 422; the related document is inserted even when
        the request then fails on the parent id. */
    method CreateOne(id: string, data: Instance, newId: ObjectId) returns (o: Outcome<PyObj>)
      modifies db
      ensures var w := LookupRepository.CreateIn(db.aggregate, old(db.collections), id, data, Link(), newId);
              o == NoneTo(w.result, 422)
              && db.collections == WithCollection(old(db.collections), collectionName, w.docs)
      ensures !o.Http?
    {
      var response := LookupRepository.CreateOne(db, id, data, Link(), newId);
      o := NoneTo(response, 422);
    }

    /** `PUT prefix/{lookup_id}`: never 422. */
    method ReplaceOne(id: string, lookupId: string, data: Instance) returns (o: Outcome<PyObj>)
      modifies db
      ensures var w := LookupRepository.ReplaceIn(db.aggregate, old(db.collections), id, lookupId, data, Link(),
                                                  Placeholder);
              o == NoneTo(w.result, 422)
              && db.collections == WithCollection(old(db.collections), collectionName, w.docs)
      ensures !o.Http?
      ensures !IsHex24(lookupId) ==> o == Unhandled(InvalidId) && db.collections == old(db.collections)
    {
      WithSameDocs(db.collections, collectionName);
      var response := LookupRepository.ReplaceOne(db, id, lookupId, data, Link(), Placeholder);
      o := NoneTo(response, 422);
    }

    /** `PATCH prefix/{lookup_id}`: never 422. */
    method UpdateOne(id: string, lookupId: string, data: Instance) returns (o: Outcome<PyObj>)
      modifies db
      ensures var w := LookupRepository.UpdateIn(db.aggregate, db.applyUpdate, old(db.collections), id, lookupId,
                                                 data, Link(), Placeholder);
              o == NoneTo(w.result, 422)
              && db.collections == WithCollection(old(db.collections), collectionName, w.docs)
      ensures !o.Http?
      ensures !IsHex24(lookupId) ==> o == Unhandled(InvalidId) && db.collections == old(db.collections)
    {
      WithSameDocs(db.collections, collectionName);
      var response := LookupRepository.UpdateOne(db, id, lookupId, data, Link(), Placeholder);
      o := NoneTo(response, 422);
    }

    /** `DELETE prefix/{lookup_id}`: only `lookup_id` reaches the repository,
        the parent id plays no part; never 422. */
    method DeleteOne(id: string, lookupId: string) returns (o: Outcome<PyObj>)
      modifies db
      ensures var w := LookupRepository.DeleteIn(old(db.Docs(collectionName)), lookupId);
              o == NoneTo(w.result, 422)
              && db.collections == WithCollection(old(db.collections), collectionName, w.docs)
      ensures o == (if IsHex24(lookupId)
                    then Body(PyModel(Instance(LookupRepository.DeletedModelOut, map["id" := VStr(lookupId)])))
                    else Unhandled(InvalidId))
    {
      var response := LookupRepository.DeleteOne(db, collectionName, lookupId);
      o := NoneTo(response, 422);
    }
  }
}
