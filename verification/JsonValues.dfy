/** The JSON values that the agent stores and sends, with the few Python coercions
    the delivery code applies to values it reads back from disk. */
module JsonValues {
  import opened Wrappers
  import Integers

  /** The value of a JSON number that Python reads as a float. */
  datatype FloatValue = Finite(r: real) | NotANumber | Infinite(positive: bool)

  datatype Json =
    | Null
    | Bool(b: bool)
    | Num(n: int)
    | Float(f: FloatValue)
    | Str(s: string)
    | Arr(items: seq<Json>)
    | Obj(entries: Object)

  /** Keys of a report record. The two underscore fields stay on the agent. */
  datatype Key =
    | ReportIdKey | ReportTypeKey | StartedAtKey | CompletedAtKey | ActionIdKey | ChecksKey
    | PersistedAtKey | AttemptsKey
    | OtherKey(name: string)

  /** A JSON object. */
  datatype Object = Object(fields: map<Key, Json>)

  /** Python truthiness of a decoded value. */
  predicate Truthy(v: Json) {
    match v
    case Null => false
    case Bool(b) => b
    case Num(n) => n != 0
    case Float(f) => f != Finite(0.0)
    case Str(s) => s != ""
    case Arr(items) => items != []
    case Obj(o) => o.fields != map[]
  }

  /** Towards zero, as `int` rounds a float. */
  function Truncate(r: real): int {
    if r >= 0.0 then r.Floor else -((-r).Floor)
  }

  /** Rounding never moves away from zero and moves by less than one. */
  lemma TruncateIsTowardsZero(r: real)
    ensures r >= 0.0 ==> 0 <= Truncate(r) && Truncate(r) as real <= r < (Truncate(r) + 1) as real
    ensures r <= 0.0 ==> Truncate(r) <= 0 && (Truncate(r) - 1) as real < r <= Truncate(r) as real
  {
  }

  /** `int(v)`; None stands for the TypeError, ValueError or OverflowError it raises. */
  function IntOf(v: Json): Option<int> {
    match v
    case Num(n) => Some(n)
    case Bool(b) => Some(if b then 1 else 0)
    case Float(f) => if f.Finite? then Some(Truncate(f.r)) else None
    case Str(s) => Integers.IntegerOf(s)
    case _ => None
  }
}
