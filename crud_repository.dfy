/** `CRUDRepository` (core/repositories/CRUDRepository.py): create, read,
    replace, update and delete on one collection, keyed by a configurable
    identifier field, with an optional output model. */
module CRUDRepositories {
  import opened Base
  import opened ObjectIds
  import opened Documents
  import opened MongoModels
  import opened Naming
  import opened Store

  /** `_is_valid_objectid`: whether `ObjectId(value)` succeeds, InvalidId and
      TypeError being caught. */
  function IsValidObjectId(v: Value): (b: bool)
    ensures forall newId: ObjectId :: b <==> ObjectIdOf(v, newId).Ok?
  {
    match v
    case VStr(s) => IsHex24(s)
    case VOid(_) => true
    case VNone => true
    case _ => false
  }

  /** `_get_identifier_value`: the value as an ObjectId when it converts, the
      value itself otherwise. `newId` is what `ObjectId(None)` would generate. */
  function IdentifierValue(v: Value, newId: ObjectId): Value {
    if IsValidObjectId(v) then VOid(ObjectIdOf(v, newId).value) else v
  }

  /** On a path id: an ObjectId exactly when the string is 24 hexadecimal
      digits, and then the one whose string form is the input in lower case;
      otherwise the string itself. No string raises. */
  lemma PathIdentifier(s: string, newId: ObjectId)
    ensures IdentifierValue(VStr(s), newId).VOid? <==> IsHex24(s)
    ensures IsHex24(s) ==> Str(IdentifierValue(VStr(s), newId).oid) == LowerHex(s)
    ensures !IsHex24(s) ==> IdentifierValue(VStr(s), newId) == VStr(s)
  {
    if IsHex24(s) {
      StrParse(s);
    }
  }

  class CRUDRepository {
    const model: ModelName
    const db: Database
    const collectionName: string
    /** The identifier field as configured, after `_to_lower_camel_case`. */
    const identifierField: string
    const modelOut: Option<ModelName>
    const convert: Converter

    /** `__init__` for a non-empty identifier field; `New` is the whole call. */
    constructor (model: ModelName, db: Database, collectionName: string, identifierField: string,
                 modelOut: Option<ModelName>, convert: Converter)
      requires identifierField != ""
      ensures this.model == model && this.db == db && this.collectionName == collectionName
      ensures this.identifierField == ToLowerCamelCase(identifierField).value
      ensures this.modelOut == modelOut && this.convert == convert
    {
      this.model := model;
      this.db := db;
      this.collectionName := collectionName;
      this.identifierField := ToLowerCamelCase(identifierField).value;
      this.modelOut := modelOut;
      this.convert := convert;
    }

    /** `CRUDRepository(...)`: an empty identifier field makes
        `_to_lower_camel_case` raise IndexError. */
    static method New(model: ModelName, db: Database, collectionName: string, identifierField: string,
                      modelOut: Option<ModelName>, convert: Converter) returns (r: Result<CRUDRepository>)
      ensures r.Raise? <==> identifierField == ""
      ensures r.Raise? ==> r.exc == IndexError
      ensures r.Ok? ==> fresh(r.value) && r.value.db == db && r.value.collectionName == collectionName
                        && r.value.identifierField == ToLowerCamelCase(identifierField).value
    {
      if identifierField == "" {
        return Raise(IndexError);
      }
      var repository := new CRUDRepository(model, db, collectionName, identifierField, modelOut, convert);
      r := Ok(repository);
    }

    /** A stored document as the repository returns it: `from_mongo`, then
        `convert_to(model_out)` when an output model is configured. */
    function Present(d: Document): (r: Result<PyObj>)
      ensures r.Ok? ==> r.value != PyNone
      ensures modelOut.None? ==> r == Ok(Load(model, Some(d)))
    {
      var m := Load(model, Some(d));
      if modelOut.None? then Ok(m) else ConvertTo(m, convert, modelOut)
    }

    /** The same on a driver reply that may be None: `from_mongo(None)` is
        None, and None has no `convert_to`. */
    function PresentReply(reply: Option<Document>): (r: Result<PyObj>)
      ensures r == Ok(PyNone) <==> reply.None? && modelOut.None?
      ensures reply.None? && modelOut.Some? ==> r == Raise(AttributeError)
      ensures reply.Some? ==> r == Present(reply.value) && r != Ok(PyNone)
    {
      match reply
      case None => if modelOut.None? then Ok(PyNone) else Raise(AttributeError)
      case Some(d) => Present(d)
    }

    /** `find_all` on the documents `docs`: every document presented, in cursor
        order, or the exception of the first one that fails. */
    function PresentAll(docs: seq<Document>): (r: Result<seq<PyObj>>)
      ensures r.Ok? <==> forall i | 0 <= i < |docs| :: Present(docs[i]).Ok?
      ensures r.Ok? ==> |r.value| == |docs| && forall i | 0 <= i < |docs| :: Present(docs[i]) == Ok(r.value[i])
      ensures r.Raise? ==> exists i | 0 <= i < |docs| ::
                Present(docs[i]) == Raise(r.exc) && forall j | 0 <= j < i :: Present(docs[j]).Ok?
    {
      if docs == [] then Ok([])
      else
        var n := |docs| - 1;
        var init := docs[..n];
        assert forall i | 0 <= i < n :: init[i] == docs[i];
        match PresentAll(init)
        case Raise(e) => Raise(e)
        case Ok(xs) =>
          match Present(docs[n])
          case Raise(e) => Raise(e)
          case Ok(x) => Ok(xs + [x])
    }

    /** A failure among the first `k` documents is the failure of the whole. */
    lemma {:induction false} PresentAllStops(docs: seq<Document>, k: nat)
      requires k <= |docs| && PresentAll(docs[..k]).Raise?
      ensures PresentAll(docs) == PresentAll(docs[..k])
      decreases |docs|
    {
      if k < |docs| {
        var init := docs[..|docs| - 1];
        assert init[..k] == docs[..k];
        PresentAllStops(init, k);
      } else {
        assert docs[..k] == docs;
      }
    }

    /** `find_all`. */
    method FindAll() returns (r: Result<seq<PyObj>>)
      ensures r == PresentAll(db.Docs(collectionName))
    {
      var docs := db.Find(collectionName);
      var documents: seq<PyObj> := [];
      var i := 0;
      while i < |docs|
        invariant 0 <= i <= |docs|
        invariant PresentAll(docs[..i]) == Ok(documents)
      {
        assert docs[..i + 1][..i] == docs[..i];
        var mongoModel := Present(docs[i]);
        if mongoModel.Raise? {
          PresentAllStops(docs, i + 1);
          return Raise(mongoModel.exc);
        }
        documents := documents + [mongoModel.value];
        i := i + 1;
      }
      assert docs[..i] == docs;
      r := Ok(documents);
    }

    /** The filter `{identifier_field: _get_identifier_value(id)}`. */
    function IdFilter(id: Value, newId: ObjectId): Filter {
      [Eq(identifierField, IdentifierValue(id, newId))]
    }

    /** `find_one(id)` on the documents `docs`: None exactly when no document
        holds the resolved value under the identifier field. */
    function FindOneIn(docs: seq<Document>, id: Value, newId: ObjectId): (r: Result<PyObj>)
      ensures r == Ok(PyNone) <==> forall j | 0 <= j < |docs| :: !Matches(docs[j], IdFilter(id, newId))
      ensures r != Ok(PyNone) ==>
                exists j | 0 <= j < |docs| :: Matches(docs[j], IdFilter(id, newId)) && r == Present(docs[j])
    {
      match FirstMatch(docs, IdFilter(id, newId))
      case None => Ok(PyNone)
      case Some(i) => Present(docs[i])
    }

    /** `find_one(id)`; `newId` is what `ObjectId(None)` would generate. */
    method FindOne(id: Value, newId: ObjectId) returns (r: Result<PyObj>)
      ensures r == FindOneIn(db.Docs(collectionName), id, newId)
    {
      var identifierValue := IdentifierValue(id, newId);
      var response := db.FindOne(collectionName, [Eq(identifierField, identifierValue)]);
      if response == None {
        return Ok(PyNone);
      }
      r := Present(response.value);
    }

    /** `create_one(data)` on the documents `docs`: a probe with `find_one` on
        the data's identifier value, then one insert and a re-read by
        `inserted_id`. `probeId` is what `ObjectId(None)` would generate in the
        probe, `newId` the `_id` the driver would generate. */
    function CreateIn(docs: seq<Document>, data: Instance, probeId: ObjectId, newId: ObjectId): Write<Result<PyObj>> {
      match FindOneIn(docs, Get(data.fields, identifierField), probeId)
      case Raise(e) => Write(Raise(e), docs)
      case Ok(existing) =>
        if PyTruthy(existing) then Write(Ok(PyNone), docs)
        else
          var stored := Inserted(data, newId);
          if IdTaken(docs, stored["_id"]) then Write(Raise(DuplicateKeyError), docs)
          else Write(PresentReply(FindFirst(docs + [stored], IdIs(stored["_id"]))), docs + [stored])
    }

    /** `create_one` inserts nothing and returns None when the probe finds a
        document; otherwise it inserts once and returns that very document. */
    lemma CreateOneOutcome(docs: seq<Document>, data: Instance, probeId: ObjectId, newId: ObjectId)
      ensures var probe := FindOneIn(docs, Get(data.fields, identifierField), probeId);
              var stored := Inserted(data, newId);
              var w := CreateIn(docs, data, probeId, newId);
              && (w.docs == docs || w.docs == docs + [stored])
              && (probe.Raise? ==> w == Write(probe, docs))
              && (probe.Ok? && PyTruthy(probe.value) ==> w == Write(Ok(PyNone), docs))
              && (probe.Ok? && !PyTruthy(probe.value) && IdTaken(docs, stored["_id"]) ==>
                    w == Write(Raise(DuplicateKeyError), docs))
              && (probe.Ok? && !PyTruthy(probe.value) && !IdTaken(docs, stored["_id"]) ==>
                    w == Write(Present(stored), docs + [stored]))
    {
      var stored := Inserted(data, newId);
      if !IdTaken(docs, stored["_id"]) {
        FindAppended(docs, stored);
      }
    }

    /** `create_one(data)`. */
    method CreateOne(data: Instance, probeId: ObjectId, newId: ObjectId) returns (r: Result<PyObj>)
      modifies db
      ensures var w := CreateIn(old(db.Docs(collectionName)), data, probeId, newId);
              r == w.result && db.collections == WithCollection(old(db.collections), collectionName, w.docs)
    {
      var identifierValue := Get(data.fields, identifierField);
      var doesDocumentExist := FindOne(identifierValue, probeId);
      if doesDocumentExist.Raise? {
        return Raise(doesDocumentExist.exc);
      }
      if PyTruthy(doesDocumentExist.value) {
        return Ok(PyNone);
      }
      var document := Mongo(data, false, Placeholder);
      var inserted := db.InsertOne(collectionName, document, newId);
      if inserted.Raise? {
        return Raise(inserted.exc);
      }
      var response := db.FindOne(collectionName, IdIs(inserted.value));
      r := PresentReply(response);
    }

    /** `replace_one(id, data)` on the documents `docs`: only the first match is
        replaced, keeping its `_id`; None when nothing matches. */
    function ReplaceIn(docs: seq<Document>, id: Value, data: Instance, newId: ObjectId): (w: Write<Result<PyObj>>)
      ensures |w.docs| == |docs|
      ensures forall j | 0 <= j < |docs| && w.docs[j] != docs[j] :: FirstMatch(docs, IdFilter(id, newId)) == Some(j)
      ensures w.result == Ok(PyNone) ==> FirstMatch(docs, IdFilter(id, newId)).None?
      ensures FirstMatch(docs, IdFilter(id, newId)).None? ==> w == Write(PresentReply(None), docs)
      // on a match the stored document becomes the serialised body under the
      // stored `_id`, and is what comes back; a body naming another `_id` is
      // refused, which `findAndModify` reports as OperationFailure
      ensures FirstMatch(docs, IdFilter(id, newId)).Some? ==>
                var i := FirstMatch(docs, IdFilter(id, newId)).value;
                var body := MongoDoc(data, false, Placeholder);
                if "_id" in body && "_id" in docs[i] && body["_id"] != docs[i]["_id"]
                then w == Write(Raise(OperationFailure), docs)
                else && w.docs[i] - {"_id"} == body - {"_id"}
                     && ("_id" in docs[i] ==> "_id" in w.docs[i] && w.docs[i]["_id"] == docs[i]["_id"])
                     && w.result == Present(w.docs[i])
    {
      match FirstMatch(docs, IdFilter(id, newId))
      case None => Write(PresentReply(None), docs)
      case Some(i) =>
        match Replacement(docs[i], MongoDoc(data, false, Placeholder))
        case Raise(_) => Write(Raise(OperationFailure), docs)
        case Ok(d) => Write(Present(d), docs[i := d])
    }

    /** `replace_one(id, data)`. */
    method ReplaceOne(id: Value, data: Instance, newId: ObjectId) returns (r: Result<PyObj>)
      modifies db
      ensures var w := ReplaceIn(old(db.Docs(collectionName)), id, data, newId);
              r == w.result && db.collections == WithCollection(old(db.collections), collectionName, w.docs)
    {
      var identifierValue := IdentifierValue(id, newId);
      var document := Mongo(data, false, Placeholder);
      var response := db.FindOneAndReplace(collectionName, [Eq(identifierField, identifierValue)], document);
      if response.Raise? {
        return Raise(response.exc);
      }
      r := PresentReply(response.value);
    }

    /** `update_one(id, data)` on the documents `docs`: `{"$set": mongo()}` on
        the first match only; None when nothing matches, and OperationFailure
        when the server refuses the update. */
    function UpdateIn(docs: seq<Document>, id: Value, data: Instance, newId: ObjectId): (w: Write<Result<PyObj>>)
      ensures |w.docs| == |docs|
      ensures forall j | 0 <= j < |docs| && w.docs[j] != docs[j] :: FirstMatch(docs, IdFilter(id, newId)) == Some(j)
      ensures w.result == Ok(PyNone) ==> FirstMatch(docs, IdFilter(id, newId)).None?
      ensures FirstMatch(docs, IdFilter(id, newId)).None? ==> w == Write(PresentReply(None), docs)
      ensures FirstMatch(docs, IdFilter(id, newId)).Some? ==>
                var i := FirstMatch(docs, IdFilter(id, newId)).value;
                var updated := db.applyUpdate(docs[i], Set(MongoDoc(data, false, Placeholder)));
                && (updated.Raise? ==> w == Write(Raise(OperationFailure), docs))
                && (updated.Ok? ==> w.docs[i] == updated.value && w.result == Present(w.docs[i]))
    {
      match FirstMatch(docs, IdFilter(id, newId))
      case None => Write(PresentReply(None), docs)
      case Some(i) =>
        match db.applyUpdate(docs[i], Set(MongoDoc(data, false, Placeholder)))
        case Raise(_) => Write(Raise(OperationFailure), docs)
        case Ok(d) => Write(Present(d), docs[i := d])
    }

    /** With a server that applies `$set` as MongoDB does: a body naming
        another `_id` than the matched document's is refused, which
        `findAndModify` reports as OperationFailure, and nothing is written;
        otherwise the matched document gains or overwrites exactly the body's
        fields, and that document comes back. */
    lemma UpdateSetsBody(docs: seq<Document>, id: Value, data: Instance, newId: ObjectId)
      requires ServerSet(db.applyUpdate) && PlainKeys(MongoDoc(data, false, Placeholder))
      requires FirstMatch(docs, IdFilter(id, newId)).Some?
      ensures var i := FirstMatch(docs, IdFilter(id, newId)).value;
              var body := MongoDoc(data, false, Placeholder);
              var w := UpdateIn(docs, id, data, newId);
              if "_id" in body && "_id" in docs[i] && body["_id"] != docs[i]["_id"]
              then w == Write(Raise(OperationFailure), docs)
              else && w.docs == docs[i := docs[i] + body]
                   && w.docs[i].Keys == docs[i].Keys + body.Keys
                   && (forall k | k in body :: w.docs[i][k] == body[k])
                   && w.result == Present(docs[i] + body)
    {
      var i := FirstMatch(docs, IdFilter(id, newId)).value;
      var body := MongoDoc(data, false, Placeholder);
      assert db.applyUpdate(docs[i], Set(body)) == SetTopLevel(docs[i], body);
    }

    /** `update_one(id, data)`. */
    method UpdateOne(id: Value, data: Instance, newId: ObjectId) returns (r: Result<PyObj>)
      modifies db
      ensures var w := UpdateIn(old(db.Docs(collectionName)), id, data, newId);
              r == w.result && db.collections == WithCollection(old(db.collections), collectionName, w.docs)
    {
      var identifierValue := IdentifierValue(id, newId);
      var document := Mongo(data, false, Placeholder);
      var response := db.FindOneAndUpdate(collectionName, [Eq(identifierField, identifierValue)], Set(document));
      if response.Raise? {
        return Raise(response.exc);
      }
      r := PresentReply(response.value);
    }

    /** `delete_one(id)` on the documents `docs`: at most the first matching
        document is removed, and it is returned through `from_mongo` alone;
        None when nothing matches. */
    function DeleteIn(docs: seq<Document>, id: Value, newId: ObjectId): (w: Write<PyObj>)
      ensures w.result == PyNone <==> FirstMatch(docs, IdFilter(id, newId)).None?
      ensures w.result == PyNone ==> w.docs == docs
      ensures w.result != PyNone ==>
                exists i | 0 <= i < |docs| ::
                  && Matches(docs[i], IdFilter(id, newId))
                  && w.result == Load(model, Some(docs[i]))
                  && multiset(w.docs) + multiset{docs[i]} == multiset(docs)
    {
      match FirstMatch(docs, IdFilter(id, newId))
      case None => Write(PyNone, docs)
      case Some(i) =>
        assert docs == docs[..i] + [docs[i]] + docs[i + 1..];
        Write(Load(model, Some(docs[i])), RemoveAt(docs, i))
    }

    /** `delete_one(id)`. */
    method DeleteOne(id: Value, newId: ObjectId) returns (r: PyObj)
      modifies db
      ensures var w := DeleteIn(old(db.Docs(collectionName)), id, newId);
              r == w.result && db.collections == WithCollection(old(db.collections), collectionName, w.docs)
    {
      var identifierValue := IdentifierValue(id, newId);
      var response := db.FindOneAndDelete(collectionName, [Eq(identifierField, identifierValue)]);
      r := if response.Some? then Load(model, Some(response.value)) else PyNone;
    }
  }
}
