/** `CRUDEmbedRouter` (core/router/embed/CRUDEmbedRouter.py): the routes for
    the documents embedded in one array field of the parent's model, registered
    into the parent router's table, and their handlers. */
module EmbedRouter {
  import opened Base
  import opened ObjectIds
  import opened Documents
  import opened MongoModels
  import opened Store
  import opened Routes
  import EmbedRepository

  /** `CRUDEmbed(model, embed_name)`: the sub-model of a field and the
      field's name. */
  datatype CRUDEmbed = CRUDEmbed(model: ModelName, embedName: string)

  /** The table `_register_routes` appends, in order. */
  function EmbedRoutes(embedName: string): seq<Route>
  {
    var p := ChildPrefix(embedName);
    var item := p + "/{embed_id}";
    [ Route(GET, p, [embedName]),
      Route(GET, item, [embedName]),
      Route(POST, p, [embedName]),
      Route(PATCH, item, [embedName]),
      Route(DELETE, item, [embedName]) ]
  }

  /** Five routes, pairwise distinct, no PUT, all under the prefix and
      tagged with the embed name. */
  lemma EmbedRoutesShape(embedName: string)
    ensures |EmbedRoutes(embedName)| == 5 && DistinctPairs(EmbedRoutes(embedName))
    ensures (set r | r in EmbedRoutes(embedName) :: r.verb) == {GET, POST, PATCH, DELETE}
    ensures forall r | r in EmbedRoutes(embedName) :: r.tags == [embedName]
    ensures forall r | r in EmbedRoutes(embedName) ::
              r.path == ChildPrefix(embedName) || r.path == ChildPrefix(embedName) + "/{embed_id}"
  {
    var routes := EmbedRoutes(embedName);
    assert |ChildPrefix(embedName) + "/{embed_id}"| > |ChildPrefix(embedName)|;
    assert routes[0] in routes && routes[2] in routes && routes[3] in routes && routes[4] in routes;
  }

  class CRUDEmbedRouter {
    const prefix: string
    const db: Database
    const model: ModelName
    const embedName: string
    const parent: Parent

    /** `CRUDEmbedRouter(parent_router, child_args)`: the fields are set and
        the five routes are appended to the parent's table. */
    constructor (parent: Parent, childArgs: CRUDEmbed)
      modifies parent.table
      ensures prefix == ChildPrefix(childArgs.embedName) && embedName == childArgs.embedName
      ensures model == childArgs.model && db == parent.db && this.parent == parent
      ensures parent.table.routes == old(parent.table.routes) + EmbedRoutes(childArgs.embedName)
    {
      prefix := ChildPrefix(childArgs.embedName);
      db := parent.db;
      model := childArgs.model;
      embedName := childArgs.embedName;
      this.parent := parent;
      new;
      RegisterRoutes();
    }

    /** `_register_routes`, one `_add_api_route` at a time. */
    method RegisterRoutes()
      requires prefix == ChildPrefix(embedName)
      modifies parent.table
      ensures parent.table.routes == old(parent.table.routes) + EmbedRoutes(embedName)
    {
      var tags := [embedName];
      parent.table.Add(Route(GET, prefix, tags));
      parent.table.Add(Route(GET, prefix + "/{embed_id}", tags));
      parent.table.Add(Route(POST, prefix, tags));
      parent.table.Add(Route(PATCH, prefix + "/{embed_id}", tags));
      parent.table.Add(Route(DELETE, prefix + "/{embed_id}", tags));
    }

    /** `GET prefix`: 404 exactly when the repository swallowed a malformed
        id or a failing pipeline, or the parent has no elements. */
    method GetAll(id: string) returns (o: Outcome<seq<PyObj>>)
      ensures o == EmptyTo404(EmbedRepository.GetAllIn(db.aggregate, db.collections, id,
                                                       parent.collectionName, embedName, model))
      ensures o == Http(404) <==>
                || !IsHex24(id)
                || var found := db.aggregate(db.collections, parent.collectionName,
                                             EmbedRepository.AllPipeline(Parse(id).value, embedName));
                   found.Raise? || found.value == []
      ensures !o.Unhandled?
    {
      var response := EmbedRepository.GetAll(db, id, parent.collectionName, embedName, model);
      o := EmptyTo404(response);
    }

    /** `GET prefix/{embed_id}`: 404 exactly when the repository gives None,
        and never an unhandled exception. */
    method GetOne(id: string, embedId: string) returns (o: Outcome<PyObj>)
      ensures o == NoneTo(Ok(EmbedRepository.GetOneIn(db.aggregate, db.collections, id, embedId,
                                                      parent.collectionName, embedName, model)), 404)
      ensures !o.Unhandled?
    {
      var response := EmbedRepository.GetOne(db, id, embedId, parent.collectionName, embedName, model);
      o := NoneTo(Ok(response), 404);
    }

    /** `POST prefix`: the 422 branch is never taken, since the repository
        returns the built element or raises: InvalidId, or the error of a push
        the server refuses. */
    method CreateOne(id: string, data: Instance, newId: ObjectId) returns (o: Outcome<PyObj>)
      modifies db
      ensures var w := EmbedRepository.CreateIn(old(db.Docs(parent.collectionName)), db.applyUpdate, id,
                                                embedName, data, model, newId);
              o == NoneTo(w.result, 422)
              && db.collections == WithCollection(old(db.collections), parent.collectionName, w.docs)
      ensures !o.Http?
      ensures !IsHex24(id) ==> o == Unhandled(InvalidId)
      ensures o.Unhandled? <==>
                || !IsHex24(id)
                || UpdateFirst(old(db.Docs(parent.collectionName)), db.applyUpdate, IdIs(VOid(Parse(id).value)),
                               Push(embedName, VDoc(MongoDoc(data, true, newId)))).Raise?
    {
      var response := EmbedRepository.CreateOne(db, id, parent.collectionName, embedName, data, model, newId);
      if IsHex24(id) {
        EmbedRepository.CreatedElementHasId(old(db.Docs(parent.collectionName)), db.applyUpdate, id,
                                            embedName, data, model, newId);
      }
      o := NoneTo(response, 422);
    }

    /** `PATCH prefix/{embed_id}`: the 422 branch is never taken either; a
        malformed id or an update the server refuses goes up unhandled. */
    method UpdateOne(id: string, embedId: string, data: Instance) returns (o: Outcome<PyObj>)
      modifies db
      ensures var w := EmbedRepository.UpdateIn(old(db.Docs(parent.collectionName)), db.applyUpdate, id, embedId,
                                                embedName, data, model);
              o == NoneTo(w.result, 422)
              && db.collections == WithCollection(old(db.collections), parent.collectionName, w.docs)
      ensures !o.Http?
      ensures !IsHex24(id) || !IsHex24(embedId) ==> o == Unhandled(InvalidId)
      ensures o.Unhandled? <==>
                || !IsHex24(id) || !IsHex24(embedId)
                || UpdateFirst(old(db.Docs(parent.collectionName)), db.applyUpdate,
                               EmbedRepository.ElementFilter(Parse(id).value, Parse(embedId).value, embedName),
                               EmbedRepository.PositionalSet(embedName, MongoDoc(data, false, Placeholder))).Raise?
    {
      var response := EmbedRepository.UpdateOne(db, id, embedId, parent.collectionName, embedName, data, model);
      o := NoneTo(response, 422);
    }

    /** `DELETE prefix/{embed_id}`: 422 exactly when the deletion is not
        confirmed, the record otherwise. */
    method DeleteOne(id: string, embedId: string) returns (o: Outcome<PyObj>)
      modifies db
      ensures var w := EmbedRepository.DeleteIn(db.aggregate, db.applyUpdate, old(db.collections), id, embedId,
                                                parent.collectionName, embedName, model);
              o == NoneTo(Ok(w.result), 422)
              && db.collections == WithCollection(old(db.collections), parent.collectionName, w.docs)
      ensures o == Http(422) || o == Body(EmbedRepository.Deleted)
    {
      var response := EmbedRepository.DeleteOne(db, id, embedId, parent.collectionName, embedName, model);
      o := NoneTo(Ok(response), 422);
    }
  }
}
