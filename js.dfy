/** The JavaScript values the interception layer and the titles look at. */
module Js {
  import opened Wrappers

  /** What kind of object a value is:
      - a plain object, with the texts `JSON.stringify` gives for it (compact
        and indented by two spaces), its `Symbol.toStringTag` ("" when it has
        none) and, when its class defines its own `toString` (a `URL` gives
        its `href`, a `Date` its date text), the text that gives;
      - an array, with its elements and its two JSON texts;
      - a function;
      - an `Error`. */
  datatype ObjKind =
    | Plain(json: string, prettyJson: string, toStringTag: string, ownText: Option<string>)
    | ArrayObj(elems: seq<JsValue>, json: string, prettyJson: string)
    | Function(name: string, arity: nat, source: string)
    | ErrorObj(name: string, message: string)

  /** Numbers are integers here. `Tracked(target)` is the `Proxy` that the
      interception layer wraps around a promise; `Watched(callback, index)` is
      the anonymous arrow function that stands in for the callback passed as
      argument `index` of an intercepted call. */
  datatype JsValue =
    | Undefined
    | Null
    | Bool(b: bool)
    | Num(n: int)
    | Str(s: string)
    | Obj(props: map<string, JsValue>, ctorName: string, kind: ObjKind)
    | Tracked(target: JsValue)
    | Watched(callback: JsValue, index: nat)

  /** JavaScript's `!!o`. */
  predicate Truthy(o: JsValue)
  {
    match o
    case Undefined => false
    case Null => false
    case Bool(b) => b
    case Num(n) => n != 0
    case Str(s) => s != ""
    case Obj(_, _, _) => true
    case Tracked(_) => true
    case Watched(_, _) => true
  }

  /** The property name under which a tracked promise hands out its target. */
  const UntrackedKey := "__untrackedPromise"

  /** Property read `o[key]`. A tracked promise answers `__untrackedPromise`
      with its target and forwards every other read to it. */
  function Get(o: JsValue, key: string): (v: JsValue)
    ensures o.Tracked? && key == UntrackedKey ==> v == o.target
  {
    match o
    case Obj(props, _, _) => if key in props then props[key] else Undefined
    case Tracked(t) => if key == UntrackedKey then t else Get(t, key)
    case _ => Undefined
  }

  /** `Array.isArray(o)`: only an array has `filter`. */
  predicate IsArray(o: JsValue)
  {
    o.Obj? && o.kind.ArrayObj?
  }

  /** `typeof o === "function"`; a proxy has the type of its target. */
  predicate IsFunction(o: JsValue)
  {
    match o
    case Obj(_, _, kind) => kind.Function?
    case Tracked(t) => IsFunction(t)
    case Watched(_, _) => true
    case _ => false
  }

  /** `fn.name || ""`: an arrow function built inline has the empty name. */
  function NameOf(fn: JsValue): string
  {
    match fn
    case Obj(_, _, Function(name, _, _)) => name
    case Tracked(t) => NameOf(t)
    case _ => ""
  }

  /** `a || b`. */
  function Or(a: JsValue, b: JsValue): (r: JsValue)
    ensures Truthy(a) ==> r == a
    ensures !Truthy(a) ==> r == b
  {
    if Truthy(a) then a else b
  }

  /** The decimal digits of a natural number. */
  function NatToString(n: nat): (s: string)
    ensures |s| >= 1
    decreases n
  {
    var digit := ["0", "1", "2", "3", "4", "5", "6", "7", "8", "9"][n % 10];
    if n < 10 then digit else NatToString(n / 10) + digit
  }

  /** Template-literal conversion of an integer. */
  function IntToString(n: int): string
  {
    if n < 0 then "-" + NatToString(-n) else NatToString(n)
  }
}
