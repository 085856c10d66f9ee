/** JSON values as the Ruby side sees them after `JSON.parse`, and Ruby's
    `dig` over them. Ruby's nil is `JNull`: a missing key and an explicit
    null read the same. */
module Json {
  import opened Wrappers

  datatype Json =
    | JNull
    | JBool(b: bool)
    | JNum(n: int)
    | JStr(s: string)
    | JArr(items: seq<Json>)
    | JObj(fields: seq<(string, Json)>)
  {
    /** Ruby truthiness: everything except nil and false. */
    predicate Truthy() {
      !(JNull? || this == JBool(false))
    }
  }

  /** A step of a `dig` path: a Hash key or an Array index. */
  datatype Key = KStr(name: string) | KIdx(index: nat)

  /** `hash[name]`: the value of the last field with that name (a later
      duplicate key overwrites an earlier one when Ruby builds the Hash),
      nil when there is none. */
  function Lookup(fields: seq<(string, Json)>, name: string): (v: Json)
    ensures v != JNull ==> exists i :: 0 <= i < |fields| && fields[i] == (name, v)
    decreases |fields|
  {
    if |fields| == 0 then JNull
    else if fields[|fields| - 1].0 == name then fields[|fields| - 1].1
    else Lookup(fields[..|fields| - 1], name)
  }

  /** The field at `i` is what a lookup finds when no later field has the
      same name. */
  lemma {:induction false} LookupAt(fields: seq<(string, Json)>, name: string, i: nat)
    requires i < |fields| && fields[i].0 == name
    requires forall k :: i < k < |fields| ==> fields[k].0 != name
    ensures Lookup(fields, name) == fields[i].1
    decreases |fields|
  {
    if i < |fields| - 1 {
      LookupAt(fields[..|fields| - 1], name, i);
    }
  }

  /** One step of `dig`: `Err` where Ruby raises (an Array indexed by a
      String, or a value that has no `dig`); nil where the key is absent. */
  function DigStep(j: Json, k: Key): Result<Json>
  {
    match j
    case JObj(fields) =>
      (match k
       case KStr(name) => Ok(Lookup(fields, name))
       case KIdx(_) => Ok(JNull))
    case JArr(items) =>
      (match k
       case KIdx(i) => Ok(if i < |items| then items[i] else JNull)
       case KStr(_) => Err)
    case _ => Err
  }

  /** The outcome of a step that may raise a Ruby exception. */
  datatype Result<+T> = Ok(value: T) | Err

  /** `j.dig(k1, k2, ...)`: stops at the first nil, raises where a step
      raises. */
  function Dig(j: Json, path: seq<Key>): Result<Json>
    decreases |path|
  {
    if |path| == 0 then Ok(j)
    else
      match DigStep(j, path[0])
      case Err => Err
      case Ok(v) => if v == JNull then Ok(JNull) else Dig(v, path[1..])
  }
}
