/** Shared vocabulary: optional values, JavaScript request fields and their truthiness. */
module Common {

  /** A nullable column or an optional result. */
  datatype Option<+T> = None | Some(value: T) {
    function GetOr(default: T): T {
      match this
      case Some(v) => v
      case None => default
    }
  }

  /** A field of a JSON request body as a JavaScript handler sees it:
      missing (`undefined`), an explicit `null`, or a value. */
  datatype Field<+T> = Undefined | Null | Value(v: T)

  /** JavaScript truthiness of a string field: `undefined`, `null` and "" are falsy. */
  predicate TruthyStr(f: Field<string>) {
    f.Value? && f.v != ""
  }

  /** JavaScript truthiness of a numeric field: `undefined`, `null` and 0 are falsy. */
  predicate TruthyInt(f: Field<int>) {
    f.Value? && f.v != 0
  }

  /** JavaScript truthiness of an id taken from a decoded token (`undefined` or 0 is falsy). */
  predicate PresentId(id: Option<int>) {
    id.Some? && id.value != 0
  }

  /** `s || null` for a string field stored in a nullable column. */
  function StrOrNull(f: Field<string>): (r: Option<string>)
    ensures r.Some? <==> TruthyStr(f)
    ensures r.Some? ==> r.value == f.v && r.value != ""
  {
    if TruthyStr(f) then Some(f.v) else None
  }

  /** `s || fallback` for a string field. */
  function StrOr(f: Field<string>, fallback: string): (r: string)
    ensures TruthyStr(f) ==> r == f.v
    ensures !TruthyStr(f) ==> r == fallback
  {
    if TruthyStr(f) then f.v else fallback
  }

  /** `n || null` for a numeric field stored in a nullable column. */
  function IntOrNull(f: Field<int>): (r: Option<int>)
    ensures r.Some? <==> TruthyInt(f)
    ensures r.Some? ==> r.value == f.v && r.value != 0
  {
    if TruthyInt(f) then Some(f.v) else None
  }

  /** `n || fallback` for a numeric field. */
  function IntOr(f: Field<int>, fallback: int): (r: int)
    ensures TruthyInt(f) ==> r == f.v
    ensures !TruthyInt(f) ==> r == fallback
  {
    if TruthyInt(f) then f.v else fallback
  }

  /** `f !== undefined ? f : current` for a nullable column: a missing field keeps the
      stored value, an explicit `null` clears it. */
  function Patch<T>(f: Field<T>, current: Option<T>): (r: Option<T>)
    ensures f.Undefined? ==> r == current
    ensures f.Null? ==> r == None
    ensures f.Value? ==> r == Some(f.v)
  {
    match f
    case Undefined => current
    case Null => None
    case Value(v) => Some(v)
  }

  /** Some element of a non-empty set, in no particular order. */
  method Pick<T>(s: set<T>) returns (x: T)
    requires s != {}
    ensures x in s
  {
    if forall y :: y !in s {
      assert false;
    }
    x :| x in s;
  }
}
