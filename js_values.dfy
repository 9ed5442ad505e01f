/**
 * The dynamic JavaScript values that travel through the relay: webhook
 * payloads, command data and configuration objects. Objects are maps from
 * property name to value (property order is not kept).
 */
module JsValues {
  import opened Strings

  datatype Option<+T> = None | Some(value: T)

  /** A JavaScript value as the relay sees it; numbers are integral. */
  datatype JsValue =
    | Undefined
    | Null
    | Bool(b: bool)
    | Num(n: int)
    | Str(s: string)
    | Arr(items: seq<JsValue>)
    | Obj(fields: map<string, JsValue>)

  /** How a call ends: with a value or with a thrown `Error` carrying a message. */
  datatype Completion<+T> = Normal(value: T) | Threw(message: string)

  /** JavaScript truthiness: `undefined`, `null`, `false`, `0` and `''` are falsy. */
  predicate Truthy(v: JsValue) {
    match v
    case Undefined => false
    case Null => false
    case Bool(b) => b
    case Num(n) => n != 0
    case Str(s) => s != ""
    case Arr(_) => true
    case Obj(_) => true
  }

  /** An optional string (an environment variable, a configured id) is truthy iff present and non-empty. */
  predicate IsSet(o: Option<string>) {
    o.Some? && o.value != ""
  }

  /** An optional string as a JavaScript value: `undefined` when absent. */
  function OptString(o: Option<string>): (v: JsValue)
    ensures Truthy(v) <==> IsSet(o)
  {
    match o
    case None => Undefined
    case Some(s) => Str(s)
  }

  /** `typeof v === 'object'`, which holds for `null`, arrays and objects. */
  predicate IsObjectType(v: JsValue) {
    v.Null? || v.Arr? || v.Obj?
  }

  /** `key in v` on an object (arrays hold no named key of the relay's). */
  predicate HasKey(v: JsValue, key: string) {
    v.Obj? && key in v.fields
  }

  /** `String(v)`, the conversion a template literal applies. */
  function ToJsString(v: JsValue): string
    decreases v, 0
  {
    match v
    case Undefined => "undefined"
    case Null => "null"
    case Bool(b) => if b then "true" else "false"
    case Num(n) => IntToString(n)
    case Str(s) => s
    case Arr(items) => JoinWith(seq(|items|, i requires 0 <= i < |items| => ElementString(items[i])), ",")
    case Obj(_) => "[object Object]"
  }

  /** An array element as `Array.prototype.join` renders it: `null` and `undefined` become empty. */
  function ElementString(v: JsValue): string
    decreases v, 1
  {
    if v.Undefined? || v.Null? then "" else ToJsString(v)
  }

  /** A list of strings as a JavaScript array of strings. */
  function StrArray(xs: seq<string>): (v: JsValue)
    ensures v.Arr? && |v.items| == |xs|
    ensures forall i :: 0 <= i < |xs| ==> v.items[i] == Str(xs[i])
  {
    Arr(seq(|xs|, i requires 0 <= i < |xs| => Str(xs[i])))
  }

  /** `obj[key]` on a value that is neither `null` nor `undefined`. */
  function Lookup(v: JsValue, key: string): JsValue {
    if v.Obj? && key in v.fields then v.fields[key] else Undefined
  }

  /** The reduce of `get`: `obj?.[key]` for each key in turn. */
  function GetPath(v: JsValue, keys: seq<string>): JsValue
    decreases |keys|
  {
    if keys == [] then v
    else if v.Undefined? || v.Null? then Undefined
    else GetPath(Lookup(v, keys[0]), keys[1..])
  }

  /** Following a path in two parts is following the first part and then the second from where it ends. */
  lemma {:induction false} GetPathAppend(v: JsValue, a: seq<string>, b: seq<string>)
    ensures GetPath(v, a + b) == GetPath(GetPath(v, a), b)
    decreases |a|
  {
    if a == [] {
      assert a + b == b;
    } else if v.Undefined? || v.Null? {
      GetPathUndefined(b);
    } else {
      assert (a + b)[0] == a[0] && (a + b)[1..] == a[1..] + b;
      GetPathAppend(Lookup(v, a[0]), a[1..], b);
    }
  }

  /** A one-key path on an object is a plain lookup. */
  lemma GetPathOne(v: JsValue, key: string)
    requires v.Obj?
    ensures GetPath(v, [key]) == Lookup(v, key)
  {
    assert [key][1..] == [];
  }

  /** A two-key path is a lookup in the object the first key finds. */
  lemma GetPathTwo(v: JsValue, outer: string, inner: string)
    requires v.Obj? && Lookup(v, outer).Obj?
    ensures GetPath(v, [outer, inner]) == Lookup(Lookup(v, outer), inner)
  {
    assert [outer, inner][1..] == [inner];
    GetPathOne(Lookup(v, outer), inner);
  }

  /** Once a key is missing, every longer path gives `undefined`. */
  lemma {:induction false} GetPathUndefined(keys: seq<string>)
    ensures GetPath(Undefined, keys) == Undefined
  {
  }
}
