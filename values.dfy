/** JavaScript values as the circuit and its fields see them.

    Every JavaScript object the model looks into (the face, the context, the
    intermediate objects a dotted path creates, a field's observable, the
    function a `method` field publishes) lives on the heap of module Face and
    is referred to by `Obj(id)`; two objects are equal exactly when their ids
    are, which is JavaScript's `===` on objects. */
module Values {

  type ObjId = nat

  /** Identity of a listener callback registered with `Circuit.watch`. */
  type ListenerId = nat

  datatype Value =
    | Undefined
    | Null
    | Bool(b: bool)
    | Num(n: int)
    | Str(s: string)
    | Obj(id: ObjId)
      /** The `arguments` object of call number `call` of a published
          function, with the values it carries. Every call makes a new one,
          so two of them are `===` exactly when they belong to the same call. */
    | Args(call: nat, items: seq<Value>)

  /** JavaScript truthiness, used by the `if (!obj)` test when walking a path. */
  predicate Truthy(v: Value)
  {
    match v
    case Undefined => false
    case Null => false
    case Bool(b) => b
    case Num(n) => n != 0
    case Str(s) => s != ""
    case Obj(_) => true
    case Args(_, _) => true
  }

  datatype Option<+T> = None | Some(value: T)

  /** The two versions of the library: the older source (`Src`) and the
      newer distributed build (`Dist`). */
  datatype Variant = Src | Dist

  /** Regrouping a concatenation, stated once so that proofs over large
      states need not rediscover it. */
  lemma AppendAssoc<T>(a: seq<T>, b: seq<T>, c: seq<T>)
    ensures (a + b) + c == a + (b + c)
  {
  }
}
