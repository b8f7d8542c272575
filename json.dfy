/** JavaScript values as the auth and profile forms hold them: objects whose
    fields are written by name, with `undefined` for a missing field. */
module Json {

  datatype Value = Undefined | Null | Bool(b: bool) | Str(s: string) | Obj(fields: map<string, Value>)
  {
    /** JavaScript truthiness for these values. */
    predicate Truthy()
    {
      match this
      case Undefined => false
      case Null => false
      case Bool(b) => b
      case Str(s) => s != ""
      case Obj(_) => true
    }
  }

  type Object = map<string, Value>

  /** `o[key]`: a missing field reads as `undefined`. */
  function Get(o: Object, key: string): (v: Value)
    ensures key in o ==> v == o[key]
    ensures key !in o ==> v == Undefined
  {
    if key in o then o[key] else Undefined
  }

  /** `{ ...v }` for an object, `undefined`, `null` or a boolean: the object's
      own fields, or none. */
  function Spread(v: Value): (o: Object)
    ensures v.Obj? ==> o == v.fields
    ensures !v.Obj? ==> o == map[]
  {
    if v.Obj? then v.fields else map[]
  }
}
