/** `MongoModel` (core/models/mongo_model.py): the renaming between the wire
    key `id` of a model and the storage key `_id` of a document.

    pydantic itself is foreign: building a model from keyword arguments is
    taken to keep the keyword dict as the instance's fields (an underscore name
    such as `_id` is never a pydantic field), and `self.dict(...)` gives those
    fields back. */
module MongoModels {
  import opened Base
  import opened Documents
  import opened ObjectIds
  import opened Store

  /** The name of a model class. */
  type ModelName = string

  /** A model instance: its class and its field values. */
  datatype Instance = Instance(model: ModelName, fields: Document)

  /** What the repositories hand back: None, a plain dict, or a model instance. */
  datatype PyObj = PyNone | PyDict(entries: Document) | PyModel(inst: Instance)

  /** `convert_to(model=...)`, reshaping into an output model: the
      repositories call it on model instances, but `MongoModel` does not define
      it and neither does any other file of this repository, so callers receive
      it as a parameter. */
  type Converter = (Instance, Option<ModelName>) -> Result<Instance>

  /** Python truthiness of what a repository returns: None and the empty dict
      are false; a model instance defines no `__bool__` and is always true. */
  predicate PyTruthy(o: PyObj) {
    match o
    case PyNone => false
    case PyDict(entries) => entries != map[]
    case PyModel(_) => true
  }

  /** `obj.convert_to(model=out)`: only a model instance has the method. */
  function ConvertTo(obj: PyObj, convert: Converter, out: Option<ModelName>): Result<PyObj> {
    match obj
    case PyModel(inst) =>
      (match convert(inst, out)
       case Ok(i) => Ok(PyModel(i))
       case Raise(e) => Raise(e))
    case _ => Raise(AttributeError)
  }

  /** Stands for the id argument of `mongo(add_id=False)`, which never
      generates one. */
  const Placeholder: ObjectId := [0, 0, 0, 0, 0, 0, 0, 0, 0, 0, 0, 0]

  /** A Python dict object, for the places where one is changed in place. */
  class Dict {
    var entries: Document

    constructor (entries: Document)
      ensures this.entries == entries
    {
      this.entries := entries;
    }
  }

  /** `MongoModel.__init__(**pydict)`: the keyword arguments become the fields,
      and a truthy `_id` keyword is stored as the `id` field. */
  function Construct(model: ModelName, pydict: Document): (inst: Instance)
    ensures inst.model == model && "_id" !in inst.fields
    ensures forall k | k != "_id" && k != "id" ::
              (k in inst.fields <==> k in pydict) && (k in pydict ==> inst.fields[k] == pydict[k])
    ensures Truthy(Get(pydict, "_id")) ==> "id" in inst.fields && inst.fields["id"] == pydict["_id"]
    ensures !Truthy(Get(pydict, "_id")) ==>
              ("id" in inst.fields <==> "id" in pydict) && ("id" in pydict ==> inst.fields["id"] == pydict["id"])
  {
    var kept := pydict - {"_id"};
    if Truthy(Get(pydict, "_id")) then Instance(model, kept["id" := pydict["_id"]])
    else Instance(model, kept)
  }

  /** What `cls.from_mongo(data)` returns, `data` being None or a dict. */
  function Load(model: ModelName, data: Option<Document>): (r: PyObj)
    ensures data == None ==> r == PyNone
    ensures data == Some(map[]) ==> r == PyDict(map[])
    ensures data.Some? && data.value != map[] ==>
              && r.PyModel? && r.inst.model == model
              && "_id" !in r.inst.fields
              && "id" in r.inst.fields && r.inst.fields["id"] == Get(data.value, "_id")
              && forall k | k != "_id" && k != "id" ::
                   (k in r.inst.fields <==> k in data.value)
                   && (k in data.value ==> r.inst.fields[k] == data.value[k])
  {
    match data
    case None => PyNone
    case Some(d) =>
      if d == map[] then PyDict(d)
      else PyModel(Construct(model, (d - {"_id"})["id" := Get(d, "_id")]))
  }

  /** `MongoModel.from_mongo(data)`: None and the empty dict are returned as they
      are; otherwise `_id` is popped out of the caller's dict, in place, and its
      value (None when absent) is passed to the constructor as `id`. */
  method FromMongo(model: ModelName, data: Dict?) returns (r: PyObj)
    modifies data
    ensures data == null ==> r == PyNone
    ensures data != null ==> r == Load(model, Some(old(data.entries)))
    ensures data != null ==> data.entries == old(data.entries) - {"_id"}
  {
    if data == null {
      return PyNone;
    }
    if data.entries == map[] {
      return PyDict(data.entries);
    }
    var mid := Get(data.entries, "_id");
    data.entries := data.entries - {"_id"};
    r := PyModel(Construct(model, data.entries["id" := mid]));
  }

  /** The dict `mongo(add_id)` returns: the non-None fields, with `id` renamed
      to `_id` when `_id` is absent, and with `newId` under `_id` when both are
      absent and `addId` holds. */
  function MongoDoc(inst: Instance, addId: bool, newId: ObjectId): (parsed: Document)
    ensures forall k | k in parsed :: parsed[k] != VNone
    ensures forall k | k != "id" && k != "_id" ::
              (k in parsed <==> k in inst.fields && inst.fields[k] != VNone)
              && (k in parsed ==> parsed[k] == inst.fields[k])
    // an `_id` already present is never overwritten
    ensures Get(inst.fields, "_id") != VNone ==>
              && "_id" in parsed && parsed["_id"] == inst.fields["_id"]
              && ("id" in parsed <==> Get(inst.fields, "id") != VNone)
    // otherwise a present `id` moves to `_id`, keeping its value
    ensures Get(inst.fields, "_id") == VNone && Get(inst.fields, "id") != VNone ==>
              "_id" in parsed && parsed["_id"] == inst.fields["id"] && "id" !in parsed
    // with neither, an `_id` appears only when asked for, and then it is `newId`
    ensures Get(inst.fields, "_id") == VNone && Get(inst.fields, "id") == VNone ==>
              "id" !in parsed && ("_id" in parsed <==> addId) && (addId ==> parsed["_id"] == VOid(newId))
  {
    var dumped := ExcludeNone(inst.fields);
    var renamed := if "_id" !in dumped && "id" in dumped then (dumped - {"id"})["_id" := dumped["id"]] else dumped;
    if "_id" !in renamed && "id" !in renamed && addId then renamed["_id" := VOid(newId)] else renamed
  }

  /** `MongoModel.mongo(add_id)`, step by step on the dumped dict. */
  method Mongo(inst: Instance, addId: bool, newId: ObjectId) returns (parsed: Document)
    ensures parsed == MongoDoc(inst, addId, newId)
  {
    parsed := ExcludeNone(inst.fields);
    if "_id" !in parsed && "id" in parsed {
      var v := parsed["id"];
      parsed := parsed - {"id"};
      parsed := parsed["_id" := v];
    }
    if "_id" !in parsed && "id" !in parsed && addId {
      parsed := parsed["_id" := VOid(newId)];
    }
  }

  /** Storage to model and back: a stored document with a non-None `_id`, no
      `id` key and no None values is reproduced exactly by `mongo()`. */
  lemma MongoAfterLoad(model: ModelName, d: Document, addId: bool, newId: ObjectId)
    requires "_id" in d && d["_id"] != VNone && "id" !in d
    requires forall k | k in d :: d[k] != VNone
    ensures Load(model, Some(d)).PyModel?
    ensures MongoDoc(Load(model, Some(d)).inst, addId, newId) == d
  {
    var inst := Load(model, Some(d)).inst;
    var out := MongoDoc(inst, addId, newId);
    assert Get(inst.fields, "_id") == VNone && Get(inst.fields, "id") == d["_id"];
    assert out.Keys == d.Keys;
  }

  /** Model to storage and back: `from_mongo(mongo())` restores the `id` value
      under `id` and every other non-None field. */
  lemma LoadAfterMongo(inst: Instance, addId: bool, newId: ObjectId)
    requires "_id" !in inst.fields && Get(inst.fields, "id") != VNone
    ensures Load(inst.model, Some(MongoDoc(inst, addId, newId)))
            == PyModel(Instance(inst.model, ExcludeNone(inst.fields)))
  {
    var d := MongoDoc(inst, addId, newId);
    assert "_id" in d;
    var back := Load(inst.model, Some(d)).inst;
    assert back.fields.Keys == ExcludeNone(inst.fields).Keys;
  }

  /** `[model.from_mongo(d) for d in docs]`: one model per document, in order. */
  function LoadAll(model: ModelName, docs: seq<Document>): (r: seq<PyObj>)
    ensures |r| == |docs|
    ensures forall i | 0 <= i < |docs| :: r[i] == Load(model, Some(docs[i]))
  {
    seq(|docs|, i requires 0 <= i < |docs| => Load(model, Some(docs[i])))
  }

  /** The document `insert_one(inst.mongo())` stores: `mongo()` invents no id,
      and the driver adds `_id` (`newId`) when there is none. */
  function Inserted(inst: Instance, newId: ObjectId): Document {
    WithId(MongoDoc(inst, false, Placeholder), newId)
  }
}
