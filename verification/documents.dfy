/** The untyped values the tool moves around: query templates, parameter values
    and decoded documents are all Go `map[string]any` trees. */
module Documents {

  /** A value of Go type `any` as it appears in a query or a decoded document;
      values no contract looks inside are kept as `Opaque`. */
  datatype Value =
    | Null
    | Bool(b: bool)
    | Int(i: int)
    | Float(r: real)
    | Str(s: string)
    | List(items: seq<Value>)
    | Object(fields: map<string, Value>)
    | Opaque(bsonType: string)   // BSON-specific values (ObjectID, dates, ...) kept uninterpreted

  /** A document or a query filter: field name to value. */
  type Document = map<string, Value>
}
