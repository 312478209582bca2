/** `CRUDRouter` (core/router/CRUDRouter.py): the six routes of a collection,
    then one lookup router per descriptor and one embed router per sub-model
    field, all registered into the same table, and the six handlers. */
module CRUDRouters {
  import opened Base
  import opened ObjectIds
  import opened Documents
  import opened MongoModels
  import opened Store
  import opened Routes
  import opened EmbedRouter
  import opened LookupRouter
  import RouterRepository

  /** What `issubclass(field.type_, MongoModel)` finds for a field of the
      model: a `MongoModel` subclass, another type (or something `issubclass`
      rejects), or no `type_` attribute at all, as under pydantic 2. */
  datatype FieldKind = SubModel(model: ModelName) | OtherType | NoTypeAttr

  /** One entry of `model.__fields__`. */
  datatype Field = Field(name: string, kind: FieldKind)

  /** The table `_register_routes` appends, in order. */
  function CrudRoutes(): seq<Route>
  {
    [ Route(GET, "/", []),
      Route(GET, "/{id}", []),
      Route(POST, "/", []),
      Route(PATCH, "/{id}", []),
      Route(PUT, "/{id}", []),
      Route(DELETE, "/{id}", []) ]
  }

  /** Six routes, pairwise distinct, so none shadows another. */
  lemma CrudRoutesDistinct()
    ensures |CrudRoutes()| == 6 && DistinctPairs(CrudRoutes())
  {
    var routes := CrudRoutes();
    assert routes[0].path == routes[2].path && routes[1].path == routes[3].path;
  }

  /** List and create on `/`, the four item routes on `/{id}`, every method
      used, no tags. */
  lemma CrudRoutesShape()
    ensures (set r | r in CrudRoutes() :: r.verb) == {GET, POST, PUT, PATCH, DELETE}
    ensures forall r | r in CrudRoutes() :: r.tags == [] && (r.path == "/" || r.path == "/{id}")
    ensures forall r | r in CrudRoutes() && r.path == "/" :: r.verb == GET || r.verb == POST
  {
    var routes := CrudRoutes();
    assert routes[0] in routes && routes[2] in routes && routes[3] in routes;
    assert routes[4] in routes && routes[5] in routes;
  }

  /** The routes the lookup loop registered, and whether it was cut short. */
  datatype Built = Built(routes: seq<Route>, failed: bool)

  /** The lookup loop over `lookups`: each descriptor whose `model_out`
      resolves appends its six routes; the first that does not raises, which
      ends the loop. */
  function LookupPart(parentOut: Attr, lookups: seq<CRUDLookup>): Built
    decreases |lookups|
  {
    if lookups == [] then Built([], false)
    else
      var before := LookupPart(parentOut, lookups[..|lookups| - 1]);
      var d := lookups[|lookups| - 1];
      if before.failed then before
      else if ModelOutOf(d.modelOut, parentOut).Raise? then Built(before.routes, true)
      else Built(before.routes + LookupRoutes(d.prefix), false)
  }

  /** Slicing the front part of a concatenation. */
  lemma SliceOfFront(front: seq<Route>, back: seq<Route>, lo: nat, hi: nat)
    requires lo <= hi <= |front|
    ensures (front + back)[lo..hi] == front[lo..hi]
  {
  }

  /** Slicing the back part of a concatenation. */
  lemma SliceOfBack(front: seq<Route>, back: seq<Route>)
    ensures (front + back)[|front|..|front| + |back|] == back
  {
  }

  /** A failure happens exactly when some descriptor's `model_out` cannot be
      read. */
  lemma {:induction false} LookupPartFails(parentOut: Attr, lookups: seq<CRUDLookup>)
    ensures LookupPart(parentOut, lookups).failed <==>
              exists i | 0 <= i < |lookups| :: ModelOutOf(lookups[i].modelOut, parentOut).Raise?
    decreases |lookups|
  {
    if lookups != [] {
      var n := |lookups| - 1;
      var init := lookups[..n];
      LookupPartFails(parentOut, init);
      if LookupPart(parentOut, init).failed {
        var i :| 0 <= i < n && ModelOutOf(init[i].modelOut, parentOut).Raise?;
        assert init[i] == lookups[i];
      } else if ModelOutOf(lookups[n].modelOut, parentOut).Ok? {
        forall i | 0 <= i < |lookups|
          ensures ModelOutOf(lookups[i].modelOut, parentOut).Ok?
        {
          if i < n {
            assert init[i] == lookups[i];
          }
        }
      }
    }
  }

  /** Without a failure, one block of six routes per descriptor, in list
      order. */
  lemma {:induction false} LookupPartBlocks(parentOut: Attr, lookups: seq<CRUDLookup>)
    requires !LookupPart(parentOut, lookups).failed
    ensures |LookupPart(parentOut, lookups).routes| == 6 * |lookups|
    ensures forall i | 0 <= i < |lookups| ::
              LookupPart(parentOut, lookups).routes[6 * i .. 6 * i + 6] == LookupRoutes(lookups[i].prefix)
    decreases |lookups|
  {
    if lookups != [] {
      var n := |lookups| - 1;
      var init := lookups[..n];
      var before := LookupPart(parentOut, init).routes;
      var block := LookupRoutes(lookups[n].prefix);
      LookupPartBlocks(parentOut, init);
      var routes := LookupPart(parentOut, lookups).routes;
      assert routes == before + block;
      forall i | 0 <= i < |lookups|
        ensures routes[6 * i .. 6 * i + 6] == LookupRoutes(lookups[i].prefix)
      {
        if i < n {
          SliceOfFront(before, block, 6 * i, 6 * i + 6);
          assert init[i] == lookups[i];
        } else {
          SliceOfBack(before, block);
        }
      }
    }
  }

  /** A failure ends the loop: the descriptors after it change nothing. */
  lemma {:induction false} LookupPartStops(parentOut: Attr, lookups: seq<CRUDLookup>, k: nat)
    requires k <= |lookups| && LookupPart(parentOut, lookups[..k]).failed
    ensures LookupPart(parentOut, lookups) == LookupPart(parentOut, lookups[..k])
    decreases |lookups|
  {
    if k < |lookups| {
      var n := |lookups| - 1;
      assert lookups[..n][..k] == lookups[..k];
      LookupPartStops(parentOut, lookups[..n], k);
    } else {
      assert lookups[..k] == lookups;
    }
  }

  /** The names of the sub-model fields, in field order. */
  function EmbedNames(fields: seq<Field>): (names: seq<string>)
    ensures |names| <= |fields|
    ensures forall i | 0 <= i < |fields| && fields[i].kind.SubModel? :: fields[i].name in names
    ensures forall n | n in names :: exists i | 0 <= i < |fields| :: fields[i].kind.SubModel? && fields[i].name == n
    decreases |fields|
  {
    if fields == [] then []
    else
      var n := |fields| - 1;
      var init := EmbedNames(fields[..n]);
      assert forall i | 0 <= i < n :: fields[..n][i] == fields[i];
      if fields[n].kind.SubModel? then init + [fields[n].name] else init
  }

  /** The names of a prefix of the fields are a prefix of the names. */
  lemma {:induction false} EmbedNamesPrefix(fields: seq<Field>, k: nat)
    requires k <= |fields|
    ensures EmbedNames(fields[..k]) <= EmbedNames(fields)
    decreases |fields|
  {
    if k < |fields| {
      var n := |fields| - 1;
      assert fields[..n][..k] == fields[..k];
      EmbedNamesPrefix(fields[..n], k);
      var front, all := EmbedNames(fields[..k]), EmbedNames(fields);
      var init := EmbedNames(fields[..n]);
      assert all == init || all == init + [fields[n].name];
      assert init[..|front|] == front;
      assert all[..|init|] == init;
      assert all[..|front|] == init[..|front|];
    } else {
      assert fields[..k] == fields;
    }
  }

  /** Field order: the name of a sub-model field comes right after the names
      of the sub-model fields before it, so the names keep the fields' order. */
  lemma EmbedNamesInFieldOrder(fields: seq<Field>, i: nat)
    requires i < |fields| && fields[i].kind.SubModel?
    ensures |EmbedNames(fields[..i])| < |EmbedNames(fields)|
    ensures EmbedNames(fields)[|EmbedNames(fields[..i])|] == fields[i].name
  {
    assert fields[..i + 1][..i] == fields[..i];
    assert EmbedNames(fields[..i + 1]) == EmbedNames(fields[..i]) + [fields[i].name];
    EmbedNamesPrefix(fields, i + 1);
  }

  /** The field loop over `fields`: a sub-model field appends the five
      routes of its embed router, any other field is skipped. */
  function EmbedPart(fields: seq<Field>): seq<Route>
    decreases |fields|
  {
    if fields == [] then []
    else
      var n := |fields| - 1;
      EmbedPart(fields[..n]) + (if fields[n].kind.SubModel? then EmbedRoutes(fields[n].name) else [])
  }

  /** One block of five routes per sub-model field, in field order. */
  lemma {:induction false} EmbedPartBlocks(fields: seq<Field>)
    ensures |EmbedPart(fields)| == 5 * |EmbedNames(fields)|
    ensures forall i | 0 <= i < |EmbedNames(fields)| ::
              EmbedPart(fields)[5 * i .. 5 * i + 5] == EmbedRoutes(EmbedNames(fields)[i])
    decreases |fields|
  {
    if fields != [] {
      var n := |fields| - 1;
      EmbedPartBlocks(fields[..n]);
      var before := EmbedPart(fields[..n]);
      var names := EmbedNames(fields[..n]);
      if fields[n].kind.SubModel? {
        var block := EmbedRoutes(fields[n].name);
        var routes := EmbedPart(fields);
        assert routes == before + block;
        assert EmbedNames(fields) == names + [fields[n].name];
        forall i | 0 <= i < |EmbedNames(fields)|
          ensures routes[5 * i .. 5 * i + 5] == EmbedRoutes(EmbedNames(fields)[i])
        {
          if i < |names| {
            SliceOfFront(before, block, 5 * i, 5 * i + 5);
          } else {
            SliceOfBack(before, block);
          }
        }
      }
    }
  }

  /** The whole table a `CRUDRouter` ends with: its own six routes, the
      lookup routes, and the embed routes unless a lookup failed. */
  function TableOf(lookups: seq<CRUDLookup>, fields: seq<Field>): (routes: seq<Route>)
    ensures |routes| >= 6 && routes[..6] == CrudRoutes()
  {
    assert |CrudRoutes()| == 6;
    var l := LookupPart(Missing, lookups);
    CrudRoutes() + l.routes + (if l.failed then [] else EmbedPart(fields))
  }

  /** As shipped, a `CRUDLookup` has no `model_out` and a `CRUDRouter` has
      none either, so any lookup fails at the first descriptor: the router
      keeps only its own six routes and registers no embed router at all. */
  lemma AsShippedLookupsDropChildren(lookups: seq<CRUDLookup>, fields: seq<Field>)
    requires lookups != [] && !lookups[0].modelOut.AttrSome?
    ensures TableOf(lookups, fields) == CrudRoutes()
  {
    assert lookups[..1][..0] == [];
    assert LookupPart(Missing, lookups[..1]) == Built([], true);
    LookupPartStops(Missing, lookups, 1);
  }

  class CRUDRouter {
    const model: ModelName
    const db: Database
    const collectionName: string
    const table: RouteTable

    /** What a child router sees of this one; `model_out` is never set on a
        `CRUDRouter`. */
    function AsParent(): (p: Parent)
      ensures p.model == model && p.db == db && p.collectionName == collectionName
      ensures p.modelOut == Missing && p.table == table
    {
      Parent(model, db, collectionName, Missing, table)
    }

    /** `CRUDRouter(model, db, collection_name, lookups)`; `fields` is
        `model.__fields__` and `convert` the `convert_to` that no file of this
        repository defines. The lookup loop and the field loop run inside one
        `try`, so a lookup that raises ends both, and construction still
        completes. */
    constructor (model: ModelName, fields: seq<Field>, db: Database, collectionName: string,
                 lookups: seq<CRUDLookup>, convert: Converter)
      ensures this.model == model && this.db == db && this.collectionName == collectionName
      ensures fresh(table)
      ensures table.routes == TableOf(lookups, fields)
    {
      this.model := model;
      this.db := db;
      this.collectionName := collectionName;
      table := new RouteTable();
      new;
      RegisterRoutes();
      var parent := AsParent();
      var failed := false;
      var i := 0;
      while i < |lookups|
        invariant 0 <= i <= |lookups|
        invariant !LookupPart(Missing, lookups[..i]).failed
        invariant table.routes == CrudRoutes() + LookupPart(Missing, lookups[..i]).routes
      {
        assert lookups[..i + 1][..i] == lookups[..i];
        var child := CRUDLookupRouter.Build(parent, lookups[i], convert);
        if child.Raise? {
          failed := true;
          LookupPartStops(Missing, lookups, i + 1);
          break;
        }
        i := i + 1;
      }
      if !failed {
        assert lookups[..i] == lookups;
        var j := 0;
        while j < |fields|
          invariant 0 <= j <= |fields|
          invariant table.routes == CrudRoutes() + LookupPart(Missing, lookups).routes + EmbedPart(fields[..j])
        {
          assert fields[..j + 1][..j] == fields[..j];
          if fields[j].kind.SubModel? {
            var embed := new CRUDEmbedRouter(parent, CRUDEmbed(fields[j].kind.model, fields[j].name));
          }
          j := j + 1;
        }
        assert fields[..j] == fields;
      }
    }

    /** `_register_routes`. */
    method RegisterRoutes()
      modifies table
      ensures table.routes == old(table.routes) + CrudRoutes()
    {
      table.Add(Route(GET, "/", []));
      table.Add(Route(GET, "/{id}", []));
      table.Add(Route(POST, "/", []));
      table.Add(Route(PATCH, "/{id}", []));
      table.Add(Route(PUT, "/{id}", []));
      table.Add(Route(DELETE, "/{id}", []));
    }

    /** `GET /`: 404 exactly when the collection is empty, otherwise one
        model per document. */
    method GetAll() returns (o: Outcome<seq<PyObj>>)
      ensures o == EmptyTo404(LoadAll(model, db.Docs(collectionName)))
      ensures o == Http(404) <==> db.Docs(collectionName) == []
    {
      var response := RouterRepository.GetAll(db, model, collectionName);
      o := EmptyTo404(response);
    }

    /** `GET /{id}`: 404 exactly when no document has `_id == ObjectId(id)`;
        a malformed id is an unhandled InvalidId. */
    method GetOne(id: string) returns (o: Outcome<PyObj>)
      ensures o == NoneTo(RouterRepository.GetOneIn(db.Docs(collectionName), model, id), 404)
      ensures o.Unhandled? <==> !IsHex24(id)
      ensures o.Http? <==> IsHex24(id) && FirstMatch(db.Docs(collectionName), IdIs(VOid(Parse(id).value))).None?
    {
      var response := RouterRepository.GetOne(db, model, collectionName, id);
      o := NoneTo(response, 404);
    }

    /** `POST /`: never 422; the created document comes back, or an
        unhandled DuplicateKeyError when its `_id` is taken. */
    method CreateOne(data: Instance, newId: ObjectId) returns (o: Outcome<PyObj>)
      modifies db
      ensures var w := RouterRepository.CreateIn(old(db.Docs(collectionName)), model, data, newId);
              o == NoneTo(w.result, 422)
              && db.collections == WithCollection(old(db.collections), collectionName, w.docs)
      ensures !o.Http?
      ensures o.Unhandled? <==> IdTaken(old(db.Docs(collectionName)), Inserted(data, newId)["_id"])
    {
      var stored := Inserted(data, newId);
      if !IdTaken(db.Docs(collectionName), stored["_id"]) {
        RouterRepository.CreateReturnsInserted(db.Docs(collectionName), model, data, newId);
        assert stored != map[] by { assert "_id" in stored; }
      }
      var response := RouterRepository.CreateOne(db, model, collectionName, data, newId);
      o := NoneTo(response, 422);
    }

    /** `PUT /{id}`: 422 exactly when no document has the id. */
    method ReplaceOne(id: string, data: Instance) returns (o: Outcome<PyObj>)
      modifies db
      ensures var w := RouterRepository.ReplaceIn(old(db.Docs(collectionName)), model, id, data);
              o == NoneTo(w.result, 422)
              && db.collections == WithCollection(old(db.collections), collectionName, w.docs)
      ensures o.Http? <==>
                IsHex24(id) && FirstMatch(old(db.Docs(collectionName)), IdIs(VOid(Parse(id).value))).None?
    {
      if IsHex24(id) {
        RouterRepository.ReplaceRereadsReplacement(db.Docs(collectionName), model, id, data);
      }
      var response := RouterRepository.ReplaceOne(db, model, collectionName, id, data);
      o := NoneTo(response, 422);
    }

    /** `PATCH /{id}`: 422 when no document has the id; when one does and
        the update keeps its `_id`, the updated document comes back; an
        update the server refuses goes up unhandled. */
    method UpdateOne(id: string, data: Instance) returns (o: Outcome<PyObj>)
      modifies db
      ensures var w := RouterRepository.UpdateIn(old(db.Docs(collectionName)), db.applyUpdate, model, id, data);
              o == NoneTo(w.result, 422)
              && db.collections == WithCollection(old(db.collections), collectionName, w.docs)
      ensures IsHex24(id) && FirstMatch(old(db.Docs(collectionName)), IdIs(VOid(Parse(id).value))).None? ==>
                o == Http(422)
      ensures !IsHex24(id) ==> o == Unhandled(InvalidId)
      ensures o.Unhandled? <==>
                || !IsHex24(id)
                || UpdateFirst(old(db.Docs(collectionName)), db.applyUpdate, IdIs(VOid(Parse(id).value)),
                               Set(MongoDoc(data, false, Placeholder))).Raise?
    {
      if IsHex24(id) {
        RouterRepository.UpdateRereadsUpdated(db.Docs(collectionName), db.applyUpdate, model, id, data);
      }
      var response := RouterRepository.UpdateOne(db, model, collectionName, id, data);
      o := NoneTo(response, 422);
    }

    /** `DELETE /{id}`: never 422; the record `{"id": id}` whether or not a
        document was removed. */
    method DeleteOne(id: string) returns (o: Outcome<PyObj>)
      modifies db
      ensures var w := RouterRepository.DeleteIn(old(db.Docs(collectionName)), id);
              o == NoneTo(w.result, 422)
              && db.collections == WithCollection(old(db.collections), collectionName, w.docs)
      ensures o == (if IsHex24(id) then Body(PyDict(map["id" := VStr(id)])) else Unhandled(InvalidId))
    {
      var response := RouterRepository.DeleteOne(db, collectionName, id);
      o := NoneTo(response, 422);
    }
  }
}
