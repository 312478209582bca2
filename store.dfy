/** The document store as the repositories see it: named collections of
    documents, queried by field-equality filters. How MongoDB applies an update
    operator to a matched document and how it evaluates an aggregation pipeline
    are the server's business; the store receives both as functions
    (`applyUpdate`, `aggregate`) and the repositories are checked for the
    filters, updates and pipelines they build, not for what the server does
    with them. */
module Store {
  import opened Base
  import opened Documents
  import opened ObjectIds

  /** One entry of a query filter. */
  datatype Cond =
    | Eq(field: string, value: Value)                     // {field: value}
    | ElemEq(array: string, field: string, value: Value)  // {"array.field": value}
  {
    /** The key the entry is written under in the filter dict. */
    function Key(): string {
      match this
      case Eq(f, _) => f
      case ElemEq(a, f, _) => a + "." + f
    }
  }

  /** A filter dict: all of its entries must hold. */
  type Filter = seq<Cond>

  /** An update document. A positional `{"$set": {"a.$": x}}` is a `Set` whose
      key ends in ".$". */
  datatype Update =
    | Set(fields: Document)              // {"$set": fields}
    | Push(field: string, elem: Value)   // {"$push": {field: elem}}
    | Pull(field: string, cond: Filter)  // {"$pull": {field: cond}}

  /** One aggregation stage. */
  datatype Stage =
    | Match(filter: Filter)
    | Lookup(fromCollection: string, localField: string, foreignField: string,
             asField: string, pipeline: Option<seq<Stage>>)
    | Unwind(path: string, preserveNullAndEmptyArrays: bool)
    | ReplaceRoot(newRoot: string)

  /** What `replace_one` and `update_one` report. */
  datatype UpdateResult = UpdateResult(matchedCount: nat, upsertedId: Option<Value>)

  /** How the server applies an update operator to one matched document, or
      the error with which it refuses to (the write then changes nothing). */
  type UpdateEngine = (Document, Update) -> Result<Document>

  /** How the server evaluates a pipeline on a collection, or fails doing so. */
  type AggregateEngine = (map<string, seq<Document>>, string, seq<Stage>) -> Result<seq<Document>>

  predicate ElemHas(e: Value, field: string, v: Value) {
    e.VDoc? && field in e.fields && e.fields[field] == v
  }

  predicate Holds(doc: Document, c: Cond) {
    match c
    case Eq(f, v) => f in doc && doc[f] == v
    case ElemEq(a, f, v) =>
      a in doc && doc[a].VList? && exists i | 0 <= i < |doc[a].items| :: ElemHas(doc[a].items[i], f, v)
  }

  predicate Matches(doc: Document, filter: Filter) {
    forall i | 0 <= i < |filter| :: Holds(doc, filter[i])
  }

  /** The filter `{"_id": v}`. */
  function IdIs(v: Value): Filter {
    [Eq("_id", v)]
  }

  /** The position of the first document in natural order that the filter matches. */
  function FirstMatch(docs: seq<Document>, filter: Filter): (r: Option<nat>)
    ensures r.Some? ==> r.value < |docs| && Matches(docs[r.value], filter)
    ensures r.Some? ==> forall j | 0 <= j < r.value :: !Matches(docs[j], filter)
    ensures r.None? <==> forall j | 0 <= j < |docs| :: !Matches(docs[j], filter)
  {
    if docs == [] then None
    else if Matches(docs[0], filter) then Some(0)
    else match FirstMatch(docs[1..], filter)
      case None => None
      case Some(k) => Some(k + 1)
  }

  /** The first matching document, if any. */
  function FindFirst(docs: seq<Document>, filter: Filter): (r: Option<Document>)
    ensures r.None? <==> forall j | 0 <= j < |docs| :: !Matches(docs[j], filter)
    ensures r.Some? ==> r.value in docs && Matches(r.value, filter)
  {
    match FirstMatch(docs, filter)
    case None => None
    case Some(i) => Some(docs[i])
  }

  /** The document as `insert_one` stores it: the driver adds `_id` when missing. */
  function WithId(doc: Document, newId: ObjectId): (full: Document)
    ensures "_id" in full
    ensures "_id" in doc ==> full == doc
    ensures "_id" !in doc ==> full == doc["_id" := VOid(newId)]
  {
    if "_id" in doc then doc else doc["_id" := VOid(newId)]
  }

  predicate IdTaken(docs: seq<Document>, id: Value) {
    exists j | 0 <= j < |docs| :: "_id" in docs[j] && docs[j]["_id"] == id
  }

  /** A whole-document replacement keeps the stored `_id`; a replacement that
      names a different `_id` is refused by the server. */
  function Replacement(stored: Document, doc: Document): (r: Result<Document>)
    ensures r.Raise? <==> "_id" in doc && "_id" in stored && doc["_id"] != stored["_id"]
    ensures r.Ok? && "_id" in stored ==> "_id" in r.value && r.value["_id"] == stored["_id"]
    ensures r.Ok? ==> r.value - {"_id"} == doc - {"_id"}
  {
    if "_id" in doc && "_id" in stored && doc["_id"] != stored["_id"] then Raise(WriteError)
    else if "_id" in stored then Ok(doc["_id" := stored["_id"]])
    else Ok(doc)
  }

  /** The documents without the one at position `i`; the others keep their
      order. */
  function RemoveAt(docs: seq<Document>, i: nat): (r: seq<Document>)
    requires i < |docs|
    ensures |r| == |docs| - 1
    ensures multiset(r) + multiset{docs[i]} == multiset(docs)
    ensures forall j | 0 <= j < |r| :: r[j] == if j < i then docs[j] else docs[j + 1]
  {
    assert docs == docs[..i] + [docs[i]] + docs[i + 1..];
    docs[..i] + docs[i + 1..]
  }

  /** The documents of a collection in natural order; a collection never
      written to is empty. */
  function DocsOf(colls: map<string, seq<Document>>, name: string): seq<Document> {
    if name in colls then colls[name] else []
  }

  /** The collection map after `name` holds `docs`; a collection that was never
      created and stays empty is not created. */
  function WithCollection(colls: map<string, seq<Document>>, name: string, docs: seq<Document>): map<string, seq<Document>> {
    if name !in colls && docs == [] then colls else colls[name := docs]
  }

  /** Writing a collection's own documents back changes nothing. */
  lemma WithSameDocs(colls: map<string, seq<Document>>, name: string)
    ensures WithCollection(colls, name, DocsOf(colls, name)) == colls
  {
    if name in colls {
      assert colls[name := colls[name]] == colls;
    }
  }

  /** What a write on one collection returns, and that collection's documents
      afterwards. */
  datatype Write<T> = Write(result: T, docs: seq<Document>)

  /** A document appended under a fresh `_id` is the one a re-read by that
      `_id` finds. */
  lemma FindAppended(docs: seq<Document>, d: Document)
    requires "_id" in d && !IdTaken(docs, d["_id"])
    ensures FindFirst(docs + [d], IdIs(d["_id"])) == Some(d)
  {
    var all := docs + [d];
    var f := IdIs(d["_id"]);
    assert Matches(all[|docs|], f);
    forall j | 0 <= j < |docs|
      ensures !Matches(all[j], f)
    {
      assert all[j] == docs[j];
      assert !("_id" in docs[j] && docs[j]["_id"] == d["_id"]);
      assert !Holds(all[j], f[0]);
    }
    assert FirstMatch(all, f) == Some(|docs|);
  }

  /** Writing a document that still matches over the first match leaves it the
      first match. */
  lemma FirstMatchKept(docs: seq<Document>, filter: Filter, i: nat, d: Document)
    requires FirstMatch(docs, filter) == Some(i) && Matches(d, filter)
    ensures FirstMatch(docs[i := d], filter) == Some(i)
  {
    var after := docs[i := d];
    assert Matches(after[i], filter);
    assert forall j | 0 <= j < i :: after[j] == docs[j];
    var k := FirstMatch(after, filter);
    assert k.Some? && k.value <= i;
  }

  /** The documents after `update` is applied to the first one matching
      `filter`, if any, or the server's error, which writes nothing. */
  function UpdateFirst(docs: seq<Document>, apply: UpdateEngine, filter: Filter, u: Update)
    : (r: Result<seq<Document>>)
    ensures FirstMatch(docs, filter).None? ==> r == Ok(docs)
    ensures r.Raise? <==> FirstMatch(docs, filter).Some? && apply(docs[FirstMatch(docs, filter).value], u).Raise?
    ensures r.Raise? ==> r.exc == apply(docs[FirstMatch(docs, filter).value], u).exc
    ensures r.Ok? ==> |r.value| == |docs|
    ensures r.Ok? ==> forall j | 0 <= j < |docs| && FirstMatch(docs, filter) != Some(j) :: r.value[j] == docs[j]
    ensures r.Ok? && FirstMatch(docs, filter).Some? ==>
              r.value[FirstMatch(docs, filter).value] == apply(docs[FirstMatch(docs, filter).value], u).value
  {
    match FirstMatch(docs, filter)
    case None => Ok(docs)
    case Some(i) =>
      match apply(docs[i], u)
      case Raise(e) => Raise(e)
      case Ok(d) => Ok(docs[i := d])
  }

  /** A `$set` key that names a top-level field: no dotted path, no
      positional operator. */
  predicate PlainKeys(fields: Document) {
    forall k | k in fields :: '.' !in k
  }

  /** `{"$set": fields}` with top-level keys as the server applies it: every
      key is written over the document's own, and a changed `_id` is refused
      because `_id` is immutable. */
  function SetTopLevel(d: Document, fields: Document): (r: Result<Document>)
    ensures r.Raise? <==> "_id" in fields && "_id" in d && fields["_id"] != d["_id"]
    ensures r.Ok? ==> r.value.Keys == d.Keys + fields.Keys
    ensures r.Ok? ==> forall k | k in r.value :: r.value[k] == if k in fields then fields[k] else d[k]
  {
    if "_id" in fields && "_id" in d && fields["_id"] != d["_id"] then Raise(WriteError) else Ok(d + fields)
  }

  /** `{"$push": {field: v}}` as the server applies it: `v` appended to an
      array, a one-element array for a missing field, and an error for a field
      that holds anything but an array. */
  function PushTo(d: Document, field: string, v: Value): (r: Result<Document>)
    ensures r.Raise? <==> field in d && !d[field].VList?
    ensures r.Ok? ==> r.value.Keys == d.Keys + {field}
    ensures r.Ok? ==> forall k | k in d && k != field :: r.value[k] == d[k]
    ensures r.Ok? ==> r.value[field].VList? && |r.value[field].items| > 0 && r.value[field].items[|r.value[field].items| - 1] == v
    ensures r.Ok? ==> r.value[field].items[..|r.value[field].items| - 1] == if field in d then d[field].items else []
  {
    if field !in d then Ok(d[field := VList([v])])
    else if d[field].VList? then Ok(d[field := VList(d[field].items + [v])])
    else Raise(WriteError)
  }

  /** An engine that applies a top-level `$set` as the server does. */
  ghost predicate ServerSet(apply: UpdateEngine) {
    forall d: Document, fields: Document | PlainKeys(fields) :: apply(d, Set(fields)) == SetTopLevel(d, fields)
  }

  /** An engine that applies `$push` on a top-level field as the server does. */
  ghost predicate ServerPush(apply: UpdateEngine) {
    forall d: Document, field: string, v: Value | '.' !in field :: apply(d, Push(field, v)) == PushTo(d, field, v)
  }

  class Database {
    var collections: map<string, seq<Document>>
    const applyUpdate: UpdateEngine
    const aggregate: AggregateEngine

    constructor (collections: map<string, seq<Document>>, applyUpdate: UpdateEngine, aggregate: AggregateEngine)
      ensures this.collections == collections
      ensures this.applyUpdate == applyUpdate && this.aggregate == aggregate
    {
      this.collections := collections;
      this.applyUpdate := applyUpdate;
      this.aggregate := aggregate;
    }

    function Docs(name: string): seq<Document>
      reads this
    {
      DocsOf(collections, name)
    }

    /** `db[name].find()`, read to the end. */
    method Find(name: string) returns (docs: seq<Document>)
      ensures docs == Docs(name)
    {
      docs := Docs(name);
    }

    /** `db[name].find_one(filter)`. */
    method FindOne(name: string, filter: Filter) returns (r: Option<Document>)
      ensures r == FindFirst(Docs(name), filter)
    {
      r := FindFirst(Docs(name), filter);
    }

    /** `db[name].aggregate(pipeline)`, read to the end. */
    method Aggregate(name: string, pipeline: seq<Stage>) returns (r: Result<seq<Document>>)
      ensures r == aggregate(collections, name, pipeline)
    {
      r := aggregate(collections, name, pipeline);
    }

    /** `db[name].insert_one(doc)`, reporting `inserted_id`. */
    method InsertOne(name: string, doc: Document, newId: ObjectId) returns (r: Result<Value>)
      modifies this
      ensures var full := WithId(doc, newId);
              if IdTaken(old(Docs(name)), full["_id"])
              then r == Raise(DuplicateKeyError) && collections == old(collections)
              else r == Ok(full["_id"]) && collections == old(collections)[name := old(Docs(name)) + [full]]
    {
      var full := WithId(doc, newId);
      if IdTaken(Docs(name), full["_id"]) {
        r := Raise(DuplicateKeyError);
      } else {
        collections := collections[name := Docs(name) + [full]];
        r := Ok(full["_id"]);
      }
    }

    /** `db[name].replace_one(filter, doc)`, without upsert. */
    method ReplaceOne(name: string, filter: Filter, doc: Document) returns (r: Result<UpdateResult>)
      modifies this
      ensures var docs := old(Docs(name));
              match FirstMatch(docs, filter)
              case None => r == Ok(UpdateResult(0, None)) && collections == old(collections)
              case Some(i) =>
                match Replacement(docs[i], doc)
                case Raise(e) => r == Raise(e) && collections == old(collections)
                case Ok(d) => r == Ok(UpdateResult(1, None)) && collections == old(collections)[name := docs[i := d]]
    {
      var docs := Docs(name);
      match FirstMatch(docs, filter)
      case None =>
        r := Ok(UpdateResult(0, None));
      case Some(i) =>
        match Replacement(docs[i], doc)
        case Raise(e) =>
          r := Raise(e);
        case Ok(d) =>
          collections := collections[name := docs[i := d]];
          r := Ok(UpdateResult(1, None));
    }

    /** `db[name].update_one(filter, update)`, without upsert; an update the
        server refuses raises and writes nothing. */
    method UpdateOne(name: string, filter: Filter, update: Update) returns (r: Result<UpdateResult>)
      modifies this
      ensures r.Ok? ==> r.value.upsertedId == None
      ensures var docs := old(Docs(name));
              match FirstMatch(docs, filter)
              case None => r == Ok(UpdateResult(0, None)) && collections == old(collections)
              case Some(i) =>
                match applyUpdate(docs[i], update)
                case Raise(e) => r == Raise(e) && collections == old(collections)
                case Ok(d) => r == Ok(UpdateResult(1, None)) && collections == old(collections)[name := docs[i := d]]
    {
      var docs := Docs(name);
      match FirstMatch(docs, filter)
      case None =>
        r := Ok(UpdateResult(0, None));
      case Some(i) =>
        match applyUpdate(docs[i], update)
        case Raise(e) =>
          r := Raise(e);
        case Ok(d) =>
          collections := collections[name := docs[i := d]];
          r := Ok(UpdateResult(1, None));
    }

    /** `db[name].delete_one(filter)`, reporting `deleted_count`. */
    method DeleteOne(name: string, filter: Filter) returns (deletedCount: nat)
      modifies this
      ensures var docs := old(Docs(name));
              match FirstMatch(docs, filter)
              case None => deletedCount == 0 && collections == old(collections)
              case Some(i) => deletedCount == 1 && collections == old(collections)[name := RemoveAt(docs, i)]
    {
      var docs := Docs(name);
      match FirstMatch(docs, filter)
      case None =>
        deletedCount := 0;
      case Some(i) =>
        collections := collections[name := RemoveAt(docs, i)];
        deletedCount := 1;
    }

    /** `db[name].find_one_and_replace(filter, doc, return_document=AFTER)`.
        It runs the `findAndModify` command, so a replacement the server
        refuses comes back as OperationFailure, not as a write error. */
    method FindOneAndReplace(name: string, filter: Filter, doc: Document) returns (r: Result<Option<Document>>)
      modifies this
      ensures var docs := old(Docs(name));
              match FirstMatch(docs, filter)
              case None => r == Ok(None) && collections == old(collections)
              case Some(i) =>
                match Replacement(docs[i], doc)
                case Raise(_) => r == Raise(OperationFailure) && collections == old(collections)
                case Ok(d) => r == Ok(Some(d)) && collections == old(collections)[name := docs[i := d]]
    {
      var docs := Docs(name);
      match FirstMatch(docs, filter)
      case None =>
        r := Ok(None);
      case Some(i) =>
        match Replacement(docs[i], doc)
        case Raise(_) =>
          r := Raise(OperationFailure);
        case Ok(d) =>
          collections := collections[name := docs[i := d]];
          r := Ok(Some(d));
    }

    /** `db[name].find_one_and_update(filter, update, return_document=AFTER)`;
        an update the server refuses writes nothing and, through the
        `findAndModify` command, raises OperationFailure whatever the engine's
        error. */
    method FindOneAndUpdate(name: string, filter: Filter, update: Update) returns (r: Result<Option<Document>>)
      modifies this
      ensures var docs := old(Docs(name));
              match FirstMatch(docs, filter)
              case None => r == Ok(None) && collections == old(collections)
              case Some(i) =>
                match applyUpdate(docs[i], update)
                case Raise(_) => r == Raise(OperationFailure) && collections == old(collections)
                case Ok(d) => r == Ok(Some(d)) && collections == old(collections)[name := docs[i := d]]
    {
      var docs := Docs(name);
      match FirstMatch(docs, filter)
      case None =>
        r := Ok(None);
      case Some(i) =>
        match applyUpdate(docs[i], update)
        case Raise(_) =>
          r := Raise(OperationFailure);
        case Ok(d) =>
          collections := collections[name := docs[i := d]];
          r := Ok(Some(d));
    }

    /** `db[name].find_one_and_delete(filter)`. */
    method FindOneAndDelete(name: string, filter: Filter) returns (r: Option<Document>)
      modifies this
      ensures var docs := old(Docs(name));
              match FirstMatch(docs, filter)
              case None => r == None && collections == old(collections)
              case Some(i) => r == Some(docs[i]) && collections == old(collections)[name := RemoveAt(docs, i)]
    {
      var docs := Docs(name);
      match FirstMatch(docs, filter)
      case None =>
        r := None;
      case Some(i) =>
        collections := collections[name := RemoveAt(docs, i)];
        r := Some(docs[i]);
    }
  }
}
