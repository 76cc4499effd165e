/** The JavaScript values the registration functions receive and store.
    Only as much of a value's structure is kept as the registration layer
    and the `IsOptional` predicate look at. */
module JsValues {

  /** An optional argument or property: `None` stands for `undefined`/omitted. */
  datatype Option<+T> = None | Some(value: T)

  /** A class (a JavaScript `Function` used as a constructor). Two classes
      may share a `name`; `id` tells them apart. The name of an anonymous
      class is the empty string. */
  datatype ClassRef = ClassRef(id: nat, name: string)

  /** A JavaScript value. Numbers are kept as integers: no arithmetic is
      done on them here, they are only stored and compared. */
  datatype Value =
    | Undefined
    | Null
    | Bool(b: bool)
    | Number(n: int)
    | Str(s: string)
    | Array(items: seq<Value>)
    | Object(fields: map<string, Value>)

  /** An object being annotated or validated: what `object.constructor`
      yields, and for each property name the value `object[name]` yields,
      whether the property is the object's own or inherited (an accessor on
      the prototype, for one). */
  datatype Instance = Instance(ctor: ClassRef, props: map<string, Value>)

  /** `object[propertyName]`: a property that is not present reads as `undefined`. */
  function Get(o: Instance, propertyName: string): Value {
    if propertyName in o.props then o.props[propertyName] else Undefined
  }

  /** JavaScript `x !== null && x !== undefined`. */
  predicate IsPresent(v: Value) {
    !v.Null? && !v.Undefined?
  }
}
