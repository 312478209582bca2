/** `MongoObjectId` (core/models/mongo_object_id_model.py): the pydantic field
    type for ObjectIds. Validation wraps pydantic's string validator, and the
    field is serialised as its string form. */
module MongoObjectIdModel {
  import opened Base
  import opened Documents
  import opened ObjectIds

  /** pydantic's string validator, the `handler` the wrap validator receives:
      strings pass, anything else is a validation error. */
  function StrHandler(field: Value): (r: Result<string>)
    ensures r.Ok? <==> field.VStr?
    ensures r.Ok? ==> r.value == field.s
  {
    if field.VStr? then Ok(field.s) else Raise(ValidationError)
  }

  /** `MongoObjectId.validate_object_id(field, handler)`. */
  function ValidateObjectId(field: Value): (r: Result<ObjectId>)
    // an ObjectId is returned as it is
    ensures field.VOid? ==> r == Ok(field.oid)
    // a string is accepted exactly when it spells an ObjectId, and then gives its bytes
    ensures field.VStr? ==> (r.Ok? <==> IsHex24(field.s))
    ensures field.VStr? && IsHex24(field.s) ==> r == Parse(field.s)
    ensures field.VStr? && !IsHex24(field.s) ==> r == Raise(ValueError)
    // anything else is rejected by the string validator first
    ensures !field.VOid? && !field.VStr? ==> r == Raise(ValidationError)
  {
    if field.VOid? then Ok(field.oid)
    else
      match StrHandler(field)
      case Raise(e) => Raise(e)
      case Ok(value) =>
        if IsHex24(value) then Ok(Parse(value).value) else Raise(ValueError)
  }

  /** The field's serialisation: `str(oid)`. */
  function Serialize(o: ObjectId): (s: string)
    ensures IsHex24(s)
  {
    Str(o)
  }

  /** Validating the serialised form gives back the same ObjectId. */
  lemma SerializeRoundTrip(o: ObjectId)
    ensures ValidateObjectId(VStr(Serialize(o))) == Ok(o)
  {
    ParseStr(o);
  }

  /** Validation is idempotent on what it accepts: re-validating the result,
      whether as an ObjectId or as its string, gives the same ObjectId. */
  lemma ValidateIdempotent(field: Value)
    requires ValidateObjectId(field).Ok?
    ensures var o := ValidateObjectId(field).value;
            ValidateObjectId(VOid(o)) == Ok(o) && ValidateObjectId(VStr(Serialize(o))) == Ok(o)
  {
    SerializeRoundTrip(ValidateObjectId(field).value);
  }
}
