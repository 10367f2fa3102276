/**
 JSON-like values as the services handle them. An object is a finite map, so the order
 of its keys is not part of a value; `Undefined` is what JavaScript reads at an absent
 key, and can also be stored under one.
 */
module Json {
  import opened Strings

  datatype Json =
    | Undefined
    | Null
    | Bool(b: bool)
    | Num(n: int)
    | Str(s: string)
    | Arr(items: seq<Json>)
    | Obj(fields: map<string, Json>)

  /** `typeof v === 'object'` for a truthy `v`: an array or an object. */
  predicate IsContainer(v: Json)
  {
    v.Arr? || v.Obj?
  }

  predicate Truthy(v: Json)
  {
    match v
    case Undefined => false
    case Null => false
    case Bool(b) => b
    case Num(n) => n != 0
    case Str(s) => s != ""
    case Arr(_) => true
    case Obj(_) => true
  }

  /** A value JSON text can carry: `undefined` occurs nowhere in it. */
  predicate Proper(v: Json)
  {
    match v
    case Undefined => false
    case Arr(items) => forall i :: 0 <= i < |items| ==> Proper(items[i])
    case Obj(fields) => forall k :: k in fields ==> Proper(fields[k])
    case _ => true
  }

  /** `obj[key]` on a plain object. */
  function Field(fields: map<string, Json>, key: string): Json
  {
    if key in fields then fields[key] else Undefined
  }

  function SignedDecimal(n: int): string
  {
    if n < 0 then "-" + Decimal(-n) else Decimal(n)
  }

  /** `String(v)`, also the key JavaScript uses in `obj[v]`. */
  function Text(v: Json): string
    decreases v, 0
  {
    match v
    case Undefined => "undefined"
    case Null => "null"
    case Bool(b) => if b then "true" else "false"
    case Num(n) => SignedDecimal(n)
    case Str(s) => s
    case Arr(items) => JoinTexts(items, ",")
    case Obj(_) => "[object Object]"
  }

  /** `items.join(sep)`: null and undefined print as nothing. */
  function JoinTexts(items: seq<Json>, sep: string): string
    decreases items, 1
  {
    if items == [] then ""
    else
      var first := if items[0].Undefined? || items[0].Null? then "" else Text(items[0]);
      if |items| == 1 then first else first + sep + JoinTexts(items[1..], sep)
  }
}
