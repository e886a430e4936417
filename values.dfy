/**
 * The dynamically typed Python values an Element stores in its backing
 * dictionary, the BoundingBox they may hold, and the exceptions raised
 * when they are used with the wrong shape.
 */
module Values {
  import opened Wrappers

  /** A normalised rectangle (x1, y1) - (x2, y2) on a page. */
  datatype BoundingBox = BoundingBox(x1: real, y1: real, x2: real, y2: real)
  {
    /** `bbox.coordinates`: the four corners as a plain tuple of numbers. */
    function Coordinates(): Value
    {
      Tuple([Num(x1), Num(y1), Num(x2), Num(y2)])
    }
  }

  /** A Python value as far as the element model can tell them apart. */
  datatype Value =
    | Null                                // None
    | Bool(b: bool)
    | Num(n: real)                        // int or float
    | Str(s: string)
    | Bytes(bytes: seq<bv8>)
    | Tuple(items: seq<Value>)
    | List(items: seq<Value>)
    | Dict(entries: map<string, Value>)
    | Box(box: BoundingBox)               // a BoundingBox object
    | Opaque(id: nat)                     // any other object (a Table, an image, ...)

  /** The exceptions the modelled code can raise. */
  datatype Error =
    | KeyError(key: string)
    | TypeError(reason: string)
    | AttributeError(name: string)
    | JsonDecodeError(raw: string)

  /** Whether `hash(v)` succeeds: dicts and lists, and tuples holding them, are unhashable. */
  predicate Hashable(v: Value)
  {
    match v
    case Dict(_) => false
    case List(_) => false
    case Tuple(items) => forall x | x in items :: Hashable(x)
    case _ => true
  }

  /** `v[key]` for a string key. */
  function Subscript(v: Value, key: string): (r: Result<Value, Error>)
    ensures r.Ok? <==> v.Dict? && key in v.entries
    ensures r.Ok? ==> r.value == v.entries[key]
    ensures v.Dict? && key !in v.entries ==> r == Err(KeyError(key))
  {
    match v
    case Dict(m) => if key in m then Ok(m[key]) else Err(KeyError(key))
    case _ => Err(TypeError("object is not subscriptable by a string"))
  }

  /** `container[key] = x` for a string key, giving the updated container. */
  function AssignItem(container: Value, key: string, x: Value): (r: Result<Value, Error>)
    ensures r.Ok? <==> container.Dict?
    ensures r.Ok? ==> r.value.Dict? && r.value.entries.Keys == container.entries.Keys + {key}
    ensures r.Ok? ==> Subscript(r.value, key) == Ok(x)
    ensures r.Ok? ==> forall k :: k in container.entries && k != key ==> r.value.entries[k] == container.entries[k]
    ensures r.Err? ==> r.error.TypeError?
  {
    match container
    case Dict(m) => Ok(Dict(m[key := x]))
    case _ => Err(TypeError("object does not support item assignment"))
  }

  /** Python's `t in allowed` for a set of strings: hashing `t` may raise. */
  function MemberOf(t: Value, allowed: set<string>): (r: Result<bool, Error>)
    ensures r.Err? <==> !Hashable(t)
    ensures r == Ok(true) <==> t.Str? && t.s in allowed
    ensures r.Err? ==> r.error.TypeError?
  {
    if !Hashable(t) then Err(TypeError("unhashable type")) else Ok(t.Str? && t.s in allowed)
  }
}
