/** JavaScript values as the checkout resolvers see them, and the two
    language rules the resolvers lean on: strict equality (`===` / `!==`)
    and reading a property that may be missing. */
module JsValues {

  /** A JavaScript value. Primitives carry their content; an object or array
      is represented only by its identity, because `===` compares objects by
      reference. Numbers are exact reals: NaN is not representable. */
  datatype JsValue =
    | Undefined
    | Null
    | Bool(b: bool)
    | Num(n: real)
    | Str(s: string)
    | Ref(id: nat)

  /** A plain object: its own enumerable properties. */
  type Record = map<string, JsValue>

  /** Strict equality, case by case as the language defines it: values of
      different types are never equal, `undefined` and `null` are only equal
      to themselves, primitives compare by content, objects by identity. */
  predicate StrictEquals(x: JsValue, y: JsValue)
  {
    match (x, y)
    case (Undefined, Undefined) => true
    case (Null, Null) => true
    case (Bool(a), Bool(b)) => a == b
    case (Num(a), Num(b)) => a == b
    case (Str(a), Str(b)) => a == b
    case (Ref(a), Ref(b)) => a == b
    case _ => false
  }

  /** Without NaN, strict equality is exactly equality of the modelled value;
      in particular `null !== undefined` and `"" !== null`. */
  lemma StrictEqualsIsIdentity(x: JsValue, y: JsValue)
    ensures StrictEquals(x, y) <==> x == y
  {
  }

  /** Property read `obj.key`: a missing property reads as `undefined`. */
  function Get(obj: Record, key: string): (v: JsValue)
    ensures key !in obj ==> v == Undefined
    ensures key in obj ==> v == obj[key]
  {
    if key in obj then obj[key] else Undefined
  }

  /** The value bound by a destructuring pattern `{key = null}`: the default
      replaces exactly `undefined`, so a property that is absent or holds
      `undefined` becomes `null`, and every other value is kept. */
  function DefaultNull(v: JsValue): (r: JsValue)
    ensures r != Undefined
    ensures v != Undefined ==> r == v
    ensures v == Undefined ==> r == Null
  {
    if v == Undefined then Null else v
  }
}
