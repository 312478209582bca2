# fastapi-crudrouter-mongodb, modelled in Dafny

fastapi-crudrouter-mongodb generates FastAPI routes over a MongoDB collection.
Given a pydantic `MongoModel`, a database handle and a collection name, a
`CRUDRouter` does three things:

- it registers list, get, create, replace, update and delete routes;
- it builds child routers for related collections (`CRUDLookup` descriptors,
  which give `CRUDLookupRouter`);
- it builds child routers for sub-model fields (`CRUDEmbedRouter`).

Each route handler calls a repository function. That function does three
things:

- it builds a filter, an update document or an aggregation pipeline;
- it talks to the driver;
- it turns stored documents into models through `MongoModel.from_mongo`.

The handler then maps a `None` or an empty result to an HTTP status.
`CRUDRepository` is a stand-alone, class-based repository with a configurable
identifier field and an optional output model. `CRUDRouterService` is a
service layer over the router repository.

This project models that deterministic core.

- **Identifier transforms.** This covers:
  - `_to_lower_camel_case`, with a reference scan definition it is proved
    equal to;
  - the "ObjectId if it parses, else the raw value" resolution of ids;
  - `MongoObjectId` validation and serialisation.

  BSON ObjectIds are twelve bytes with a 24-hex-digit text form (`Parse`,
  `Str`). Round trips are proved in both directions.
- **The `id`/`_id` renaming** of `MongoModel`. `from_mongo` pops `_id` from the
  caller's dict in place. `mongo()` rebuilds the storage dict step by step.
  Both round trips are proved.
- **Repositories over an abstract store.**
  - `Store.Database` holds named collections of documents in natural order.
  - An equality filter `{k: v}` matches a document whose top-level key `k`
    holds exactly `v`. `insert_one`, `replace_one`, `find_one_and_*` and
    `delete_one` act on the first such document in natural order.
  - How the server applies an update operator and evaluates an aggregation
    pipeline are parameters (`applyUpdate`, `aggregate`). The update engine
    returns either the new document or the error with which the server
    refuses the update, and a refused update changes nothing.
  - MongoDB's own meaning of a top-level `$set` and a `$push` is written out
    (`Store.SetTopLevel`, `Store.PushTo`). Lemmas that assume an engine
    following it (`Store.ServerSet`, `Store.ServerPush`) show concrete
    refusals: a PATCH body with another `_id`, and a push onto a field that
    holds a single sub-document.
  - The repositories are checked for the filters, updates (`$set`, `$push`,
    `$pull`, positional `.$`) and pipelines (`$match`, `$lookup`, `$unwind`,
    `$replaceRoot`) they build.
  - Each write operation is a method on the database. Its `ensures` ties the
    result and the new collection to a function of the old documents. Lemmas
    then state what the source promises about that function: None exactly
    when nothing matches, the duplicate probe, the re-read key, and the
    confirmed or unconditional delete records.
- **Routers.**
  - The route table is a `RouteTable` object that child routers append to.
  - Each router's `(method, path, tags)` list is proved pairwise distinct.
  - The `CRUDRouter` constructor runs the lookup loop and the field loop
    inside one `try`, and the model proves what table it ends with.
  - Every handler's outcome (`Body`, `Http(code)` or `Unhandled(exc)`) is
    stated as a function of the repository result.

Values of the program are modelled as follows:

- **Documents** are `map<string, Value>`; key order is not modelled.
- **Exceptions** are `Result.Raise(exc)`.
- **Generated ids.** `ObjectId()` and the `_id` the driver generates are
  parameters (`newId`, `probeId`), because they are time- and random-based.
- **`convert_to`** is a `Converter` parameter. The repositories call it on
  model instances, but `MongoModel` (core/models/mongo_model.py) does not
  define it, and neither does any other file of this repository.

Constructing a pydantic model is taken to keep its keyword dict as its
fields. An underscore name such as `_id` is never a pydantic field.

As shipped, `CRUDLookup` (core/models/CRUDLookup.py) has no `model_out`
attribute and `CRUDRouter` never sets one, yet `CRUDLookupRouter.__init__`
reads both. The model gives that attribute three states, `Missing`,
`AttrNone` and `AttrSome`. With the shipped classes the first lookup raises
AttributeError. `CRUDRouter.__init__` catches it, and the router then has its
own six routes and no child routes at all, embeds included
(`CRUDRouters.AsShippedLookupsDropChildren`). A descriptor that does carry
`model_out` is handled by the same model.

## Model

Source paths are relative to the repository root; `core/` abbreviates
`fastapi_crudrouter_mongodb/core/`.

| member | source | states |
|---|---|---|
| Naming.ToLowerCamelCase | fastapi_crudrouter_mongodb/core/repositories/CRUDRepository.py:31-39 | raises IndexError exactly for the empty name (`snake_str[0]`) |
| Naming.CamelCaseIsScan | fastapi_crudrouter_mongodb/core/repositories/CRUDRepository.py:28-29 | `_to_camel_case` (lower, split on `_`, capitalise, join) equals a single left-to-right scan that drops each underscore and upper-cases the next kept character |
| Naming.LowerCamelCaseIsScan | fastapi_crudrouter_mongodb/core/repositories/CRUDRepository.py:31-39 | for a non-empty name not starting with `_`, `_to_lower_camel_case` is that scan started in lower case |
| Naming.UnderscoreNameKept | fastapi_crudrouter_mongodb/core/repositories/CRUDRepository.py:32-34 | a name starting with `_` is returned unchanged, so the default identifier `_id` stays `_id` |
| Naming.LowerCamelCaseShape | fastapi_crudrouter_mongodb/core/repositories/CRUDRepository.py:38-39 | otherwise the result has no underscore, its length is the input's minus its underscores, and it starts with the lower-cased first character |
| Naming.NotIdempotent | fastapi_crudrouter_mongodb/core/repositories/CRUDRepository.py:28-39 | `"user_name"` gives `"userName"`, and `"userName"` gives `"username"`: the conversion is not idempotent |
| ObjectIds.Parse | fastapi_crudrouter_mongodb/core/models/mongo_object_id_model.py:13-15 | `ObjectId(s)` succeeds exactly when `s` is 24 hexadecimal digits |
| ObjectIds.ParseStr | fastapi_crudrouter_mongodb/core/models/mongo_object_id_model.py:27 | reading back the string form of an ObjectId gives the same ObjectId |
| ObjectIds.StrParse | fastapi_crudrouter_mongodb/core/models/mongo_object_id_model.py:14-15 | the string form of a parsed id is the input in lower case |
| ObjectIds.StrInjective | fastapi_crudrouter_mongodb/core/models/mongo_object_id_model.py:27 | distinct ObjectIds serialise to distinct strings |
| MongoObjectIdModel.StrHandler | fastapi_crudrouter_mongodb/core/models/mongo_object_id_model.py:23-26 | the wrapped string validator accepts exactly strings and returns them unchanged |
| MongoObjectIdModel.ValidateObjectId | fastapi_crudrouter_mongodb/core/models/mongo_object_id_model.py:9-17 | an ObjectId is returned as is; a non-string is rejected by the string validator first; a string is accepted iff it is 24 hex digits, giving those bytes, and otherwise raises ValueError |
| MongoObjectIdModel.Serialize | fastapi_crudrouter_mongodb/core/models/mongo_object_id_model.py:27 | the serialised form is always a valid ObjectId string |
| MongoObjectIdModel.SerializeRoundTrip | fastapi_crudrouter_mongodb/core/models/mongo_object_id_model.py:9-27 | validating the serialised string gives back the same ObjectId |
| MongoObjectIdModel.ValidateIdempotent | fastapi_crudrouter_mongodb/core/models/mongo_object_id_model.py:9-17 | re-validating an accepted id, as an ObjectId or as its string, gives the same id |
| Documents.ExcludeNone | fastapi_crudrouter_mongodb/core/models/mongo_model.py:20-27 | `exclude_none=True` keeps exactly the non-None entries, with their values |
| MongoModels.Construct | fastapi_crudrouter_mongodb/core/models/mongo_model.py:36-39 | keys other than `id`/`_id` pass through unchanged; a truthy `_id` keyword becomes the `id` field; otherwise `id` is the keyword's own |
| MongoModels.Load | fastapi_crudrouter_mongodb/core/models/mongo_model.py:11-17 | None and `{}` are returned as they are; otherwise a model whose `id` is the document's `_id` (None when absent) and whose other fields are the document's |
| MongoModels.FromMongo | fastapi_crudrouter_mongodb/core/models/mongo_model.py:11-17 | returns `Load` of the dict and removes `_id` from the caller's dict in place |
| MongoModels.MongoDoc | fastapi_crudrouter_mongodb/core/models/mongo_model.py:19-34 | no None value survives; an existing `_id` is never overwritten; `id` moves to `_id` with its value when `_id` is absent; a new `_id` appears only with `add_id` and neither key |
| MongoModels.Mongo | fastapi_crudrouter_mongodb/core/models/mongo_model.py:19-34 | the step-by-step dict mutation computes `MongoDoc` |
| MongoModels.MongoAfterLoad | fastapi_crudrouter_mongodb/core/models/mongo_model.py:11-34 | a stored document with a non-None `_id`, no `id` key and no None values is reproduced exactly by `mongo()` after `from_mongo` |
| MongoModels.LoadAfterMongo | fastapi_crudrouter_mongodb/core/models/mongo_model.py:16-31 | `from_mongo(mongo())` restores the `id` value under `id` and every other non-None field |
| CRUDRepositories.IsValidObjectId | fastapi_crudrouter_mongodb/core/repositories/CRUDRepository.py:41-46 | true exactly when `ObjectId(value)` would succeed |
| CRUDRepositories.PathIdentifier | fastapi_crudrouter_mongodb/core/repositories/CRUDRepository.py:48-51 | a path id resolves to an ObjectId exactly when it is 24 hex digits (the one whose string is the input in lower case), otherwise to the string itself; no string raises |
| CRUDRepositories.CRUDRepository.constructor | fastapi_crudrouter_mongodb/core/repositories/CRUDRepository.py:11-25 | the fields are set, the identifier field after `_to_lower_camel_case` |
| CRUDRepositories.CRUDRepository.New | fastapi_crudrouter_mongodb/core/repositories/CRUDRepository.py:11-25 | construction raises IndexError exactly for an empty identifier field |
| CRUDRepositories.CRUDRepository.Present | fastapi_crudrouter_mongodb/core/repositories/CRUDRepository.py:91-95 | a stored document is never presented as None; without an output model it is `from_mongo` of the document |
| CRUDRepositories.CRUDRepository.PresentReply | fastapi_crudrouter_mongodb/core/repositories/CRUDRepository.py:145-149 | with no reply: None without an output model, AttributeError (None has no `convert_to`) with one; a reply is presented and is never None |
| CRUDRepositories.CRUDRepository.PresentAll | fastapi_crudrouter_mongodb/core/repositories/CRUDRepository.py:64-70 | one presented element per document in cursor order, or the exception of the first document that fails |
| CRUDRepositories.CRUDRepository.PresentAllStops | fastapi_crudrouter_mongodb/core/repositories/CRUDRepository.py:65-69 | a failure in a prefix of the cursor is the failure of the whole loop |
| CRUDRepositories.CRUDRepository.FindAll | fastapi_crudrouter_mongodb/core/repositories/CRUDRepository.py:57-70 | the loop returns `PresentAll` of the collection |
| CRUDRepositories.CRUDRepository.FindOneIn | fastapi_crudrouter_mongodb/core/repositories/CRUDRepository.py:87-95 | None exactly when no document holds the resolved value under the identifier field; otherwise a matching document presented |
| CRUDRepositories.CRUDRepository.FindOne | fastapi_crudrouter_mongodb/core/repositories/CRUDRepository.py:76-95 | returns `FindOneIn` of the collection |
| CRUDRepositories.CRUDRepository.CreateOneOutcome | fastapi_crudrouter_mongodb/core/repositories/CRUDRepository.py:110-123 | when the probe finds a document, None and nothing inserted; otherwise one insert and the inserted document itself re-read; a taken `_id` raises DuplicateKeyError and inserts nothing |
| CRUDRepositories.CRUDRepository.CreateOne | fastapi_crudrouter_mongodb/core/repositories/CRUDRepository.py:98-123 | result and new collection are `CreateIn` of the old documents |
| CRUDRepositories.CRUDRepository.ReplaceIn | fastapi_crudrouter_mongodb/core/repositories/CRUDRepository.py:141-149 | only the first matching document can change; with no match, nothing is written and the reply is None; on a match, a body with another `_id` is refused and nothing is written, the refusal surfacing as OperationFailure because `find_one_and_replace` runs the `findAndModify` command; otherwise the document becomes the body under the stored `_id` and is what comes back |
| CRUDRepositories.CRUDRepository.ReplaceOne | fastapi_crudrouter_mongodb/core/repositories/CRUDRepository.py:126-149 | result and new collection are `ReplaceIn` of the old documents |
| CRUDRepositories.CRUDRepository.UpdateIn | fastapi_crudrouter_mongodb/core/repositories/CRUDRepository.py:167-176 | `$set` of `mongo()` on the first match only; with no match the reply is None; on a match, a refusal by the engine raises OperationFailure (the `findAndModify` command's failure) and nothing is written, otherwise the updated document is stored and comes back |
| CRUDRepositories.CRUDRepository.UpdateSetsBody | fastapi_crudrouter_mongodb/core/repositories/CRUDRepository.py:167-176 | with MongoDB's `$set`: a body naming another `_id` than the match is refused, raising OperationFailure through `findAndModify`, and nothing is written; otherwise the match gains or overwrites exactly the body's fields, keeps the rest, and comes back |
| CRUDRepositories.CRUDRepository.UpdateOne | fastapi_crudrouter_mongodb/core/repositories/CRUDRepository.py:152-176 | result and new collection are `UpdateIn` of the old documents |
| CRUDRepositories.CRUDRepository.DeleteIn | fastapi_crudrouter_mongodb/core/repositories/CRUDRepository.py:188-192 | None exactly when nothing matches, and then nothing changes; otherwise exactly one matching document is removed (as a multiset) and returned through `from_mongo` |
| CRUDRepositories.CRUDRepository.DeleteOne | fastapi_crudrouter_mongodb/core/repositories/CRUDRepository.py:179-192 | result and new collection are `DeleteIn` of the old documents |
| RouterRepository.GetAll | fastapi_crudrouter_mongodb/core/router/CRUDRouterRepository.py:5-12 | one `from_mongo` per stored document, in cursor order |
| RouterRepository.GetOneIn | fastapi_crudrouter_mongodb/core/router/CRUDRouterRepository.py:15-20 | InvalidId exactly for a malformed id; None exactly when no `_id` equals `ObjectId(id)`; otherwise `from_mongo` of the first document with that `_id` |
| RouterRepository.NoStringFallback | fastapi_crudrouter_mongodb/core/router/CRUDRouterRepository.py:19-20 | in a collection whose `_id`s are strings nothing is ever found |
| RouterRepository.GetOne | fastapi_crudrouter_mongodb/core/router/CRUDRouterRepository.py:15-20 | returns `GetOneIn` of the collection |
| RouterRepository.CreateReturnsInserted | fastapi_crudrouter_mongodb/core/router/CRUDRouterRepository.py:23-29 | with a free `_id`, exactly the stored document is appended and re-read; its `_id` is the data's `id`, or the driver's new id when the data has none |
| RouterRepository.CreateOne | fastapi_crudrouter_mongodb/core/router/CRUDRouterRepository.py:23-29 | result and new collection are `CreateIn` of the old documents |
| RouterRepository.ReplaceRereadsReplacement | fastapi_crudrouter_mongodb/core/router/CRUDRouterRepository.py:36-38 | None exactly when no document has the id; otherwise the re-read by `ObjectId(id)` finds the replacement, which kept its `_id` |
| RouterRepository.ReplaceIn | fastapi_crudrouter_mongodb/core/router/CRUDRouterRepository.py:32-38 | a malformed id raises InvalidId before any write; the collection keeps its length |
| RouterRepository.ReplaceOne | fastapi_crudrouter_mongodb/core/router/CRUDRouterRepository.py:32-38 | result and new collection are `ReplaceIn` of the old documents |
| RouterRepository.UpdateRereadsUpdated | fastapi_crudrouter_mongodb/core/router/CRUDRouterRepository.py:45-47 | None when no document has the id; a refused `$set` raises its error and writes nothing; when the `$set` keeps the `_id`, the re-read finds the updated document |
| RouterRepository.UpdateIn | fastapi_crudrouter_mongodb/core/router/CRUDRouterRepository.py:41-47 | a malformed id raises InvalidId before any write; otherwise the collection becomes the `$set` of `mongo()` on the document with `_id == ObjectId(id)`, or a refused update raises and writes nothing; the collection keeps its length |
| RouterRepository.UpdateWithServerSet | fastapi_crudrouter_mongodb/core/router/CRUDRouterRepository.py:41-47 | with MongoDB's `$set` and a match: a body whose `_id` is not `ObjectId(id)` raises WriteError and nothing is written; otherwise the document becomes itself overlaid with the body, and that is what is re-read |
| RouterRepository.UpdateOne | fastapi_crudrouter_mongodb/core/router/CRUDRouterRepository.py:41-47 | result and new collection are `UpdateIn` of the old documents |
| RouterRepository.DeleteIn | fastapi_crudrouter_mongodb/core/router/CRUDRouterRepository.py:50-55 | `{"id": id}` whether or not a document was deleted; InvalidId exactly for a malformed id, with nothing deleted; with a match exactly the first document with that `_id` is removed (as a multiset, the old collection is the new one plus it), otherwise nothing changes |
| RouterRepository.DeleteOne | fastapi_crudrouter_mongodb/core/router/CRUDRouterRepository.py:50-55 | result and new collection are `DeleteIn` of the old documents |
| EmbedRepository.OnePipeline | fastapi_crudrouter_mongodb/core/router/embed/CRUDEmbedRouterRepository.py:40-58 | the `get_all` pipeline plus one trailing match on the element `_id` |
| EmbedRepository.GetAllIn | fastapi_crudrouter_mongodb/core/router/embed/CRUDEmbedRouterRepository.py:6-32 | `[]` exactly when the id is malformed, the pipeline fails or yields nothing; otherwise one model per yielded document |
| EmbedRepository.GetAll | fastapi_crudrouter_mongodb/core/router/embed/CRUDEmbedRouterRepository.py:6-32 | the loop returns `GetAllIn` |
| EmbedRepository.GetOneIn | fastapi_crudrouter_mongodb/core/router/embed/CRUDEmbedRouterRepository.py:35-64 | None exactly when an id is malformed, the pipeline fails or yields nothing; otherwise the first yielded document as a model |
| EmbedRepository.GetOne | fastapi_crudrouter_mongodb/core/router/embed/CRUDEmbedRouterRepository.py:35-64 | the loop returns `GetOneIn` |
| EmbedRepository.CreateIn | fastapi_crudrouter_mongodb/core/router/embed/CRUDEmbedRouterRepository.py:67-77 | a malformed parent id raises InvalidId and writes nothing; otherwise the write is the `$push` of the element built with `add_id=True` onto `embed_name` of the parent with `_id == ObjectId(id)`, and the built element comes back; a refused push raises and writes nothing |
| EmbedRepository.CreatedElementHasId | fastapi_crudrouter_mongodb/core/router/embed/CRUDEmbedRouterRepository.py:71-77 | a returned element always has a non-None id (the data's `_id`, else its `id`, else the new one); a missing parent changes nothing and the element still comes back |
| EmbedRepository.CreatePushesElement | fastapi_crudrouter_mongodb/core/router/embed/CRUDEmbedRouterRepository.py:71-77 | with MongoDB's `$push` and a matching parent: a field holding a non-array (a single sub-model) raises WriteError and nothing is written; otherwise the element is appended after the field's earlier elements and the parent's other fields stay |
| EmbedRepository.CreateOne | fastapi_crudrouter_mongodb/core/router/embed/CRUDEmbedRouterRepository.py:67-77 | result and new collection are `CreateIn` of the old documents |
| EmbedRepository.ElementFilter | fastapi_crudrouter_mongodb/core/router/embed/CRUDEmbedRouterRepository.py:86 | the filter is `_id == ObjectId(id)` and `embed_name._id == ObjectId(embed_id)`: it matches exactly a parent with that `_id` whose `embed_name` array holds an element with that `_id` |
| EmbedRepository.PositionalSet | fastapi_crudrouter_mongodb/core/router/embed/CRUDEmbedRouterRepository.py:87 | the update is a `$set` of the single key `embed_name + ".$"` to the element |
| EmbedRepository.UpdateIn | fastapi_crudrouter_mongodb/core/router/embed/CRUDEmbedRouterRepository.py:80-90 | a malformed id raises InvalidId with nothing written; otherwise the write is the positional `$set` (`PositionalSet`) on the parent that `ElementFilter` matches, and the element built with `add_id=False` comes back whether or not anything matched; a refused update raises and writes nothing |
| EmbedRepository.UpdateOne | fastapi_crudrouter_mongodb/core/router/embed/CRUDEmbedRouterRepository.py:80-90 | result and new collection are `UpdateIn` of the old documents |
| EmbedRepository.DeleteIn | fastapi_crudrouter_mongodb/core/router/embed/CRUDEmbedRouterRepository.py:93-104 | `{"deleted": True}` exactly when both ids are valid, the `$pull` by the element's `_id` goes through and the follow-up `get_one` on the new state finds nothing; None otherwise, a malformed id or a refused pull included, and those write nothing |
| EmbedRepository.DeleteOne | fastapi_crudrouter_mongodb/core/router/embed/CRUDEmbedRouterRepository.py:93-104 | result and new collection are `DeleteIn` of the old collections |
| LookupRepository.OnePipeline | fastapi_crudrouter_mongodb/core/router/lookup/CRUDLookupRouterRepository.py:54-73 | the `get_all` match, its lookup restricted by an inner match on the related `_id`, then an unwind of the path `"$" + collection_name` that keeps a parent without match |
| LookupRepository.FirstConverted | fastapi_crudrouter_mongodb/core/router/lookup/CRUDLookupRouterRepository.py:33-37 | never None: a failing pipeline raises, an empty one raises IndexError (`models[0]`), otherwise a model |
| LookupRepository.LoadFirstConverted | fastapi_crudrouter_mongodb/core/router/lookup/CRUDLookupRouterRepository.py:74-78 | the loop computes `FirstConverted` |
| LookupRepository.GetAllIn | fastapi_crudrouter_mongodb/core/router/lookup/CRUDLookupRouterRepository.py:7-37 | a malformed id raises InvalidId, a missing parent IndexError; a success is always a model |
| LookupRepository.GetAll | fastapi_crudrouter_mongodb/core/router/lookup/CRUDLookupRouterRepository.py:7-37 | returns `GetAllIn` |
| LookupRepository.GetOneIn | fastapi_crudrouter_mongodb/core/router/lookup/CRUDLookupRouterRepository.py:40-78 | the parent id is checked first, then the related id; a success is always a model |
| LookupRepository.GetOne | fastapi_crudrouter_mongodb/core/router/lookup/CRUDLookupRouterRepository.py:40-78 | returns `GetOneIn` |
| LookupRepository.CreateIn | fastapi_crudrouter_mongodb/core/router/lookup/CRUDLookupRouterRepository.py:81-106 | the related collection (never the parent's) gains exactly the inserted document unless its `_id` is taken; the result is `get_one` of the parent on the new collections, with the inserted `_id` |
| LookupRepository.CreateOne | fastapi_crudrouter_mongodb/core/router/lookup/CRUDLookupRouterRepository.py:81-106 | result and new related collection are `CreateIn` |
| LookupRepository.ReplacedIn | fastapi_crudrouter_mongodb/core/router/lookup/CRUDLookupRouterRepository.py:124 | nothing changes when no related document has the id; WriteError exactly when one does and the body names another `_id`; otherwise that first match becomes the body under the matched `_id` and every other document stays |
| LookupRepository.ReplaceIn | fastapi_crudrouter_mongodb/core/router/lookup/CRUDLookupRouterRepository.py:109-135 | a malformed related id raises first with nothing written; the replacement (`ReplacedIn`) is written before the parent id is looked at; after it the result is `get_one` of the parent on the new collections |
| LookupRepository.ReplaceOne | fastapi_crudrouter_mongodb/core/router/lookup/CRUDLookupRouterRepository.py:109-135 | result and new related collection are `ReplaceIn` |
| LookupRepository.UpdateIn | fastapi_crudrouter_mongodb/core/router/lookup/CRUDLookupRouterRepository.py:138-166 | a malformed related id raises with nothing written; otherwise the write is the `$set` of `mongo()` on the related document with `_id == ObjectId(lookup_id)`, a refused update raising with nothing written; after it the result is `get_one` of the parent on the new collections |
| LookupRepository.UpdateSetsRelated | fastapi_crudrouter_mongodb/core/router/lookup/CRUDLookupRouterRepository.py:153-155 | with MongoDB's `$set` and a matching related document: a body naming another `_id` raises WriteError and nothing is written; otherwise the body's fields are laid over the document and the rest stays |
| LookupRepository.UpdateOne | fastapi_crudrouter_mongodb/core/router/lookup/CRUDLookupRouterRepository.py:138-166 | result and new related collection are `UpdateIn` |
| LookupRepository.DeleteIn | fastapi_crudrouter_mongodb/core/router/lookup/CRUDLookupRouterRepository.py:169-178 | a `DeletedModelOut` with `id = lookup_id` whether or not anything was deleted; InvalidId exactly for a malformed id; with a match exactly the first related document with that `_id` is removed (as a multiset), otherwise nothing changes |
| LookupRepository.DeleteOne | fastapi_crudrouter_mongodb/core/router/lookup/CRUDLookupRouterRepository.py:169-178 | result and new related collection are `DeleteIn` |
| Routes.RouteTable.Add | fastapi_crudrouter_mongodb/core/router/embed/CRUDEmbedRouterFactory.py:15-16 | a child's route is appended to the parent's table |
| Routes.NoneTo | fastapi_crudrouter_mongodb/core/router/CRUDRouter.py:58-60 | the status exactly for None, the response unchanged otherwise, and a repository exception passes through |
| Routes.EmptyTo404 | fastapi_crudrouter_mongodb/core/router/CRUDRouter.py:50-52 | 404 exactly for the empty list, the list unchanged otherwise |
| CRUDRouters.CrudRoutesDistinct | fastapi_crudrouter_mongodb/core/router/CRUDRouter.py:95-138 | six routes with pairwise distinct (method, path) |
| CRUDRouters.CrudRoutesShape | fastapi_crudrouter_mongodb/core/router/CRUDRouter.py:95-138 | every method is used, only `/` and `/{id}` appear, list and create on `/`, no tags |
| CRUDRouters.LookupPartFails | fastapi_crudrouter_mongodb/core/router/CRUDRouter.py:33-45 | the lookup loop fails exactly when some descriptor's `model_out` cannot be read |
| CRUDRouters.LookupPartBlocks | fastapi_crudrouter_mongodb/core/router/CRUDRouter.py:34-35 | without a failure, one block of six lookup routes per descriptor, in list order |
| CRUDRouters.LookupPartStops | fastapi_crudrouter_mongodb/core/router/CRUDRouter.py:33-45 | after a failure the remaining descriptors change nothing |
| CRUDRouters.EmbedNames | fastapi_crudrouter_mongodb/core/router/CRUDRouter.py:36-42 | exactly the names of the sub-model fields |
| CRUDRouters.EmbedNamesInFieldOrder | fastapi_crudrouter_mongodb/core/router/CRUDRouter.py:36-42 | field order: the name of the i-th field, when a sub-model, comes right after the names of the sub-model fields before it |
| CRUDRouters.EmbedPartBlocks | fastapi_crudrouter_mongodb/core/router/CRUDRouter.py:36-42 | one block of five embed routes per sub-model field, in field order, named by the field |
| CRUDRouters.TableOf | fastapi_crudrouter_mongodb/core/router/CRUDRouter.py:31-35 | the router's own six routes come first, before any child's |
| CRUDRouters.AsShippedLookupsDropChildren | fastapi_crudrouter_mongodb/core/router/CRUDRouter.py:33-45 | with a first descriptor lacking a `model_out`, the table is the six own routes only: no lookup and no embed routes |
| CRUDRouters.CRUDRouter.AsParent | fastapi_crudrouter_mongodb/core/router/CRUDRouter.py:30-31 | a child sees the model, database, collection and table, and no `model_out` |
| CRUDRouters.CRUDRouter.constructor | fastapi_crudrouter_mongodb/core/router/CRUDRouter.py:30-45 | the two loops leave the table equal to `TableOf(lookups, fields)` |
| CRUDRouters.CRUDRouter.RegisterRoutes | fastapi_crudrouter_mongodb/core/router/CRUDRouter.py:95-138 | appends the six routes in source order |
| CRUDRouters.CRUDRouter.GetAll | fastapi_crudrouter_mongodb/core/router/CRUDRouter.py:47-53 | 404 exactly when the collection is empty |
| CRUDRouters.CRUDRouter.GetOne | fastapi_crudrouter_mongodb/core/router/CRUDRouter.py:55-61 | 404 exactly when no document has the id; unhandled exactly for a malformed id |
| CRUDRouters.CRUDRouter.CreateOne | fastapi_crudrouter_mongodb/core/router/CRUDRouter.py:63-69 | never 422; unhandled exactly when the stored `_id` is taken |
| CRUDRouters.CRUDRouter.ReplaceOne | fastapi_crudrouter_mongodb/core/router/CRUDRouter.py:71-77 | 422 exactly when the id is valid and no document has it |
| CRUDRouters.CRUDRouter.UpdateOne | fastapi_crudrouter_mongodb/core/router/CRUDRouter.py:79-85 | 422 when no document has the id; unhandled InvalidId for a malformed id; unhandled exactly for a malformed id or an update the server refuses |
| CRUDRouters.CRUDRouter.DeleteOne | fastapi_crudrouter_mongodb/core/router/CRUDRouter.py:87-93 | never 422: the record `{"id": id}` or an unhandled InvalidId |
| Routes.ChildPrefix | fastapi_crudrouter_mongodb/core/router/embed/CRUDEmbedRouter.py:12 | `"/{id}/"` followed by the child's name: the embed name here, the descriptor's prefix in CRUDLookupRouter.py:12 |
| EmbedRouter.EmbedRoutesShape | fastapi_crudrouter_mongodb/core/router/embed/CRUDEmbedRouter.py:59-105 | five distinct routes, methods GET, POST, PATCH, DELETE and no PUT, all on the prefix or below it, all tagged `[embed_name]` |
| EmbedRouter.CRUDEmbedRouter.constructor | fastapi_crudrouter_mongodb/core/router/embed/CRUDEmbedRouter.py:11-17 | the fields are set and the five routes appended to the parent's table |
| EmbedRouter.CRUDEmbedRouter.RegisterRoutes | fastapi_crudrouter_mongodb/core/router/embed/CRUDEmbedRouter.py:59-105 | appends the five routes in source order |
| EmbedRouter.CRUDEmbedRouter.GetAll | fastapi_crudrouter_mongodb/core/router/embed/CRUDEmbedRouter.py:19-25 | 404 exactly when the id is malformed, the pipeline fails or yields nothing; never unhandled |
| EmbedRouter.CRUDEmbedRouter.GetOne | fastapi_crudrouter_mongodb/core/router/embed/CRUDEmbedRouter.py:27-33 | 404 exactly when the repository gives None; never unhandled |
| EmbedRouter.CRUDEmbedRouter.CreateOne | fastapi_crudrouter_mongodb/core/router/embed/CRUDEmbedRouter.py:35-41 | never 422; unhandled InvalidId for a malformed parent id; unhandled exactly for a malformed parent id or a push the server refuses |
| EmbedRouter.CRUDEmbedRouter.UpdateOne | fastapi_crudrouter_mongodb/core/router/embed/CRUDEmbedRouter.py:43-49 | never 422; unhandled InvalidId for a malformed id; unhandled exactly for a malformed id or a positional update the server refuses |
| EmbedRouter.CRUDEmbedRouter.DeleteOne | fastapi_crudrouter_mongodb/core/router/embed/CRUDEmbedRouter.py:51-57 | 422 or `{"deleted": True}` |
| LookupRouter.ModelOutOf | fastapi_crudrouter_mongodb/core/router/lookup/CRUDLookupRouter.py:15-19 | the descriptor's `model_out` when set, else the parent's; AttributeError exactly when an attribute that is read is missing |
| LookupRouter.LookupRoutesDistinct | fastapi_crudrouter_mongodb/core/router/lookup/CRUDLookupRouter.py:137-185 | six routes with pairwise distinct (method, path) |
| LookupRouter.LookupRoutesShape | fastapi_crudrouter_mongodb/core/router/lookup/CRUDLookupRouter.py:137-185 | all five methods, GET and POST on the prefix, the rest below it, no tags |
| LookupRouter.CRUDLookupRouter.constructor | fastapi_crudrouter_mongodb/core/router/lookup/CRUDLookupRouter.py:11-24 | the fields are set, `model_out` resolved, and the six routes appended to the parent's table |
| LookupRouter.CRUDLookupRouter.Build | fastapi_crudrouter_mongodb/core/router/lookup/CRUDLookupRouter.py:11-24 | AttributeError, with no route registered, exactly when `model_out` cannot be read |
| LookupRouter.CRUDLookupRouter.RegisterRoutes | fastapi_crudrouter_mongodb/core/router/lookup/CRUDLookupRouter.py:137-185 | appends the six routes in source order |
| LookupRouter.CRUDLookupRouter.Link | fastapi_crudrouter_mongodb/core/router/lookup/CRUDLookupRouter.py:28-37 | the handlers pass `foreign_field` and `local_field` in the repository's order, with the parent's collection and model |
| LookupRouter.CRUDLookupRouter.GetAll | fastapi_crudrouter_mongodb/core/router/lookup/CRUDLookupRouter.py:26-42 | never 404 (the repository never returns None); a malformed id is unhandled |
| LookupRouter.CRUDLookupRouter.GetOne | fastapi_crudrouter_mongodb/core/router/lookup/CRUDLookupRouter.py:44-61 | never 404; a malformed id is unhandled |
| LookupRouter.CRUDLookupRouter.CreateOne | fastapi_crudrouter_mongodb/core/router/lookup/CRUDLookupRouter.py:63-80 | never 422; the related collection is written as `CreateIn` says |
| LookupRouter.CRUDLookupRouter.ReplaceOne | fastapi_crudrouter_mongodb/core/router/lookup/CRUDLookupRouter.py:82-102 | never 422; a malformed related id is unhandled and writes nothing |
| LookupRouter.CRUDLookupRouter.UpdateOne | fastapi_crudrouter_mongodb/core/router/lookup/CRUDLookupRouter.py:104-124 | never 422; a malformed related id is unhandled and writes nothing |
| LookupRouter.CRUDLookupRouter.DeleteOne | fastapi_crudrouter_mongodb/core/router/lookup/CRUDLookupRouter.py:126-135 | only `lookup_id` matters: the `DeletedModelOut` record for a valid one, an unhandled InvalidId otherwise |
| RouterService.CallAsWritten | fastapi_crudrouter_mongodb/core/router/CRUDRouterService.py:50-52 | a call with more positional arguments than parameters raises TypeError |
| RouterService.ServiceCallsAsWritten | fastapi_crudrouter_mongodb/core/router/CRUDRouterService.py:43-150 | every operation but delete passes `model_out` as one argument too many, and so raises TypeError as written |
| RouterService.ListOrEmpty | fastapi_crudrouter_mongodb/core/router/CRUDRouterService.py:53 | `response if len(response) else []` is always the list itself |
| RouterService.StatusesDisagree | fastapi_crudrouter_mongodb/core/router/CRUDRouterService.py:67-68 | an empty collection is 404 in `CRUDRouter` but `[]` here; a missing document is 404 there but 400 here |
| RouterService.CRUDRouterService.constructor | fastapi_crudrouter_mongodb/core/router/CRUDRouterService.py:29-41 | the four fields are set |
| RouterService.CRUDRouterService.GetAll | fastapi_crudrouter_mongodb/core/router/CRUDRouterService.py:43-53 | one model per document, the empty list included, never a status |
| RouterService.CRUDRouterService.GetOne | fastapi_crudrouter_mongodb/core/router/CRUDRouterService.py:55-70 | 400 exactly when no document has the id; unhandled exactly for a malformed id |
| RouterService.CRUDRouterService.CreateOne | fastapi_crudrouter_mongodb/core/router/CRUDRouterService.py:72-88 | 422 on None, the response otherwise |
| RouterService.CRUDRouterService.ReplaceOne | fastapi_crudrouter_mongodb/core/router/CRUDRouterService.py:90-110 | 422 exactly when the id is valid and no document has it |
| RouterService.CRUDRouterService.UpdateOne | fastapi_crudrouter_mongodb/core/router/CRUDRouterService.py:112-132 | 422 when no document has the id |
| RouterService.CRUDRouterService.DeleteOne | fastapi_crudrouter_mongodb/core/router/CRUDRouterService.py:134-150 | never 422: the record `{"id": id}` or an unhandled InvalidId |

## Left out

- Async execution, Motor cursors and the network are not modelled. A cursor read to the end is a sequence.
- MongoDB's semantics for aggregation stages are not modelled. The pipeline is evaluated by the parameter `aggregate`, so results that depend on it are stated relative to that function.
- How the server applies an update operator is the parameter `applyUpdate`. It returns the new document or the error of a refused update. Only a top-level `$set` (`Store.SetTopLevel`) and a `$push` (`Store.PushTo`) are given MongoDB's meaning, and only in the lemmas that assume `Store.ServerSet` or `Store.ServerPush`. `$set` on dotted keys, `$pull` and the positional `.$` keep the engine's meaning. The engine sees the document and the update but not the filter, so which array element the positional `.$` picks is left out.
- Filters: an equality `{k: v}` matches only a top-level key `k` holding exactly `v`, and `{a.f: v}` (`Store.ElemEq`) matches only an array `a` with an element whose `f` is `v`. MongoDB also matches an array under `k` that contains `v`, a dotted `k` as a path into sub-documents, and `a.f` on a single sub-document `a`. Every write and read through a filter is stated with this narrower matching.
- EmbedRepository.ElementFilter: `embed_name._id` is matched only inside an array. A single sub-model field also gets an embed router, since `issubclass(field.type_, MongoModel)` holds for it (core/router/CRUDRouter.py:38). MongoDB matches `embed_name._id` against that sub-document, but this filter does not match it.
- EmbedRepository.UpdateIn: for a single sub-model field, MongoDB matches the parent and then refuses the positional `$set` (there is no array for `.$`), so the request fails unhandled. Here the filter matches nothing, nothing is written, and the element comes back.
- CRUDRepositories.CRUDRepository.FindOneIn: matches the identifier field by top-level key equality only, so a document whose identifier field is an array containing the value, or an identifier field written as a dotted path, is not found here though MongoDB would find it.
- CRUDRepositories.CRUDRepository.CreateOneOutcome: the duplicate probe uses the same top-level key equality as `FindOneIn`, with the same gaps.
- Naming.CamelCaseIsScan: `lower()` and `capitalize()` are modelled on ASCII letters only. Python maps every Unicode letter, e.g. `"Émail".lower()` is `"émail"`, which this model leaves as `"Émail"`.
- Naming.LowerCamelCaseIsScan: the same ASCII-only case mapping as `CamelCaseIsScan`.
- Naming.LowerCamelCaseShape: the same ASCII-only case mapping. Python's full mapping can also change the length, e.g. `"ß".capitalize()` is `"Ss"`, so the length equation holds only for names whose letters map one to one.
- pydantic is not modelled: validation, aliases, `CamelModel`, JSON-schema hooks and `convert_to`. The repositories call `convert_to` on model instances, but `MongoModel` does not define it and neither does any other file of this repository, so it is a parameter. Model construction keeps the keyword dict as the fields, and `self.dict()` returns them.
- `ObjectId()` and the driver's generated `_id` are time- and random-based. They are parameters.
- `ObjectId(v)` is modelled for strings, ObjectIds and None only. The 12-byte `bytes` form, and whitespace or other quirks of `bytes.fromhex`, are left out.
- CRUDRepositories.CRUDRepository.CreateOne: the source calls `data.to_mongo()`. `MongoModel` (core/models/mongo_model.py) defines no `to_mongo`, and neither does any other file of this repository. It is modelled as `mongo()` with its default `add_id=False`.
- CRUDRepositories.CRUDRepository.ReplaceOne: `data.to_mongo()` is modelled as `mongo()`, as for `CreateOne`.
- CRUDRepositories.CRUDRepository.UpdateOne: `data.to_mongo()` is modelled as `mongo()`, as for `CreateOne`.
- LookupRepository.CreateOne: `data.to_mongo()` is modelled as `mongo()`, as in `CRUDRepository`.
- LookupRepository.ReplaceOne: `data.to_mongo()` is modelled as `mongo()`, as in `CRUDRepository`.
- LookupRepository.UpdateOne: `data.to_mongo()` is modelled as `mongo()`, as in `CRUDRepository`.
- The guard `if self.identifier_field is None: return None` in `create_one` (core/repositories/CRUDRepository.py:111-112) is dead: the field is always a string after `__init__`. It has no counterpart in the model.
- The deprecated wrappers `get_all`/`get_one` of `CRUDRepository` only return un-awaited coroutines and are not modelled.
- `print(e)` in `CRUDRouter.__init__` is I/O and is not modelled; the caught exception is.
- FastAPI is not modelled beyond a route's method, path and tags: summaries, descriptions, response models and request parsing are left out, as is the rendering of `HTTPException`.
- The factory classes (`CRUDRouterFactory`, `CRUDEmbedRouterFactory`) only delegate. Their one modelled fact is that a child's routes go into the parent's table. The handler swap in `CRUDEmbedRouterFactory` (`_replace_one` to the parent's `_update_one`, `_update_one` to the parent's `_delete_one`) is not modelled. `CRUDEmbedRouter` overrides `_update_one`. It inherits the swapped `_replace_one` but never calls it, because it registers no PUT route.
- core/router/lookup/CRUDLookupRouterFactory.py is not part of this model. `CRUDLookupRouter` is assumed to append its routes to the parent's table, through an `_add_api_route` that delegates to the parent as core/router/embed/CRUDEmbedRouterFactory.py:15-16 does (`LookupRouter.CRUDLookupRouter.RegisterRoutes`).
- core/models/CRUDEmbed.py and core/models/deleted_mongo_model.py are not part of this model. `CRUDEmbed` is modelled from its use, as a model and a field name. `DeletedModelOut` is taken to be a `MongoModel` whose `from_mongo({"_id": x})` gives `id = x`.
- CRUDRouters.CRUDRouter.constructor: a field counts as an embed when its kind is a sub-model, and any other kind, including a missing `.type_` attribute, is skipped. Which pydantic versions expose `.type_` is not modelled.

## Findings

| source | as written | input that shows it | evidently intended | confidence | as-written member | corrected member |
|---|---|---|---|---|---|---|
| fastapi_crudrouter_mongodb/core/router/CRUDRouterService.py:50-52 | `get_all`, `get_one`, `create_one`, `replace_one` and `update_one` pass `self.model_out` as an extra positional argument to functions of CRUDRouterRepository.py that take no such parameter | any call, e.g. `get_one("0123456789abcdef01234567")`: five arguments against four parameters, so TypeError before the repository runs | each repository function called with its own parameters, the result mapped to 400/422 or returned | not executed | RouterService.ServiceCallsAsWritten | RouterService.CRUDRouterService.GetOne |
