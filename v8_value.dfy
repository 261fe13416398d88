/**
 * The part of the V8 value model the binding layer depends on: a runtime value,
 * positional access to a call's arguments, and the "undefined means default"
 * rule that every converter's `opt` follows.
 */
module V8Value {

  /** Identity of a V8 heap object. */
  type ObjId = nat

  /** A V8 value as the binding layer sees it. */
  datatype RtValue =
    | Undefined
    | Null
    | Boolean(b: bool)
    | Number(n: int)
    | Str(s: string)
    | Object(id: ObjId)

  /**
   * `args[i]` of a `FunctionCallbackInfo`: the i-th actual argument, or
   * `undefined` when the script passed fewer than i + 1 arguments.
   */
  function ArgAt(args: seq<RtValue>, i: nat): (v: RtValue)
    ensures i >= |args| ==> v == Undefined
    ensures i < |args| ==> v == args[i]
  {
    if i < |args| then args[i] else Undefined
  }

  /**
   * `V8Type<T>::opt(handle, def)`: the default when the value is undefined,
   * otherwise the same conversion `get` performs.
   */
  function Opt<T>(get: RtValue -> T, v: RtValue, def: T): (r: T)
    ensures v.Undefined? ==> r == def
    ensures !v.Undefined? ==> r == get(v)
  {
    if v.Undefined? then def else get(v)
  }
}
