// Property lookup on a plain JavaScript object literal used as a table:
// `table[key]` finds an own property, else a member every object inherits
// from `Object.prototype` (a function, or the prototype itself for
// `__proto__`), else `undefined`. The client's rate, style and colour
// tables are all read this way, with a caller-supplied key.
module JsObject {

  /** The names every object literal inherits from `Object.prototype`. */
  const PrototypeNames: set<string> := {
    "constructor", "hasOwnProperty", "isPrototypeOf", "propertyIsEnumerable",
    "toLocaleString", "toString", "valueOf", "__proto__",
    "__defineGetter__", "__defineSetter__", "__lookupGetter__", "__lookupSetter__"
  }

  /** What `table[key]` yields: an own value, the inherited member named
      `name` (never nullish, always truthy), or `undefined`. */
  datatype Property<V> = Own(value: V) | Inherited(name: string) | Undefined

  /** `table[key]` on a literal whose own properties are `own`. */
  function Get<V>(own: map<string, V>, key: string): (r: Property<V>)
    ensures r.Own? <==> key in own
    ensures r.Own? ==> r.value == own[key]
    ensures r.Inherited? <==> key !in own && key in PrototypeNames
    ensures r.Inherited? ==> r.name == key
  {
    if key in own then Own(own[key])
    else if key in PrototypeNames then Inherited(key)
    else Undefined
  }

  /** `p ?? fallback`: only `undefined` falls back. */
  function Nullish<V>(p: Property<V>, fallback: V): (r: Property<V>)
    ensures r != Undefined
    ensures p.Undefined? ==> r == Own(fallback)
    ensures !p.Undefined? ==> r == p
  {
    if p.Undefined? then Own(fallback) else p
  }

  /** `p || fallback` for a string-valued table: `undefined` and the empty
      string are falsy and fall back; an inherited member is truthy and
      is kept. */
  function OrElse(p: Property<string>, fallback: string): (r: Property<string>)
    ensures r != Undefined
    ensures r.Inherited? <==> p.Inherited?
    ensures p.Own? && p.value != "" ==> r == p
    ensures p.Undefined? || p == Own("") ==> r == Own(fallback)
  {
    match p
    case Own(s) => if s == "" then Own(fallback) else p
    case Inherited(_) => p
    case Undefined => Own(fallback)
  }
}
