/** Optional values, the Python exceptions the library raises or lets through,
    and a result type that carries either a value or a raised exception. */
module Base {

  datatype Option<+T> = None | Some(value: T)

  /** The exceptions that can escape from the modelled code paths. */
  datatype Exc =
    | InvalidId          // bson.errors.InvalidId: a string that is not an ObjectId
    | ValueError         // raised by MongoObjectId.validate_object_id
    | ValidationError    // pydantic's string validator rejects a non-string
    | IndexError         // indexing an empty str or list
    | AttributeError     // attribute looked up on an object that lacks it
    | TypeError          // a value of the wrong type handed to a constructor
    | DuplicateKeyError  // insert of a document whose _id is already stored
    | WriteError         // a write the server refuses: a changed _id, an operator on a field of the wrong type
    | OperationFailure   // a command the server rejects: an aggregation pipeline, or a
                         // find-and-modify it refuses (pymongo reports it as a failed command)

  /** The value of a Python expression: a result, or the exception it raised. */
  datatype Result<+T> = Ok(value: T) | Raise(exc: Exc)
}
