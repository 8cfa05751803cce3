/** The dropoff award exactly as the handler performs it on `pullerPoints`,
    which is a plain JavaScript object literal, not a dictionary: a lookup
    of a key the object does not own falls through to Object.prototype. */
module PointsAsWritten {
  import opened Rides

  /** The values a property of `pullerPoints` can hold or read back. */
  datatype JsValue = Undefined | Number(n: int) | Text(s: string) | NativeFunction(name: string)

  /** Keys every object literal inherits from Object.prototype as methods,
      with the name of the native function each one reads back. */
  const InheritedMethods: map<string, string> := map[
    "constructor" := "Object",
    "hasOwnProperty" := "hasOwnProperty",
    "isPrototypeOf" := "isPrototypeOf",
    "propertyIsEnumerable" := "propertyIsEnumerable",
    "toLocaleString" := "toLocaleString",
    "toString" := "toString",
    "valueOf" := "valueOf",
    "__defineGetter__" := "__defineGetter__",
    "__defineSetter__" := "__defineSetter__",
    "__lookupGetter__" := "__lookupGetter__",
    "__lookupSetter__" := "__lookupSetter__"]

  /** `obj[key]`: an own property, else an inherited method, else undefined. */
  function Get(own: map<string, JsValue>, key: string): (v: JsValue)
    ensures key in own ==> v == own[key]
    ensures key !in own && key !in InheritedMethods ==> v == Undefined
    ensures key !in own && key in InheritedMethods ==> v.NativeFunction?
  {
    if key in own then own[key]
    else if key in InheritedMethods then NativeFunction(InheritedMethods[key])
    else Undefined
  }

  /** `v + n` for a defined `v`: numeric addition on a number, otherwise
      string concatenation with the number's decimal text (a native
      function converts to its `function name() { [native code] }` text). */
  function Plus(v: JsValue, n: nat): JsValue
    requires v != Undefined
  {
    match v
    case Number(x) => Number(x + n)
    case Text(s) => Text(s + Decimal(n))
    case NativeFunction(name) => Text(NativeSource(name) + Decimal(n))
  }

  /** The text a native function converts to. */
  function NativeSource(name: string): string {
    "function " + name + "() { [native code] }"
  }

  /** The award as written: `if (pullerPoints[id] !== undefined) pullerPoints[id] += 10;
      else pullerPoints[id] = 10;`. */
  function AwardAsWritten(own: map<string, JsValue>, pullerId: string): map<string, JsValue> {
    var current := Get(own, pullerId);
    if current != Undefined then own[pullerId := Plus(current, BasePointsPerRide as nat)]
    else own[pullerId := Number(BasePointsPerRide)]
  }

  /** A point ledger as the object literal that holds it. */
  function AsObject(points: map<string, int>): (own: map<string, JsValue>)
    ensures own.Keys == points.Keys
    ensures forall p :: p in points ==> own[p] == Number(points[p])
  {
    map p | p in points :: Number(points[p])
  }

  /** For every puller id that is neither an inherited method name nor
      `__proto__`, the code as written performs exactly the intended award. */
  lemma AwardAsWrittenAgrees(points: map<string, int>, p: string)
    requires p !in InheritedMethods && p != "__proto__"
    ensures AwardAsWritten(AsObject(points), p) == AsObject(Award(points, p))
  {
  }

  /** The discrepancy: a first completed ride for puller "toString" leaves
      that puller's total as a string instead of the number 10, so the total
      no longer equals the base award times the completed rides. */
  lemma InheritedNameBreaksTotal()
    ensures var after := AwardAsWritten(AsObject(InitialPoints), "toString");
            && after["toString"] == Text(NativeSource("toString") + "10")
            && after["toString"] != AsObject(Award(InitialPoints, "toString"))["toString"]
  {
  }
}
