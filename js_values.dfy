/**
 * JavaScript values as they reach the request handlers of the recipe API:
 * a property of a parsed JSON body is missing (`undefined`), `null`, or a
 * value, and the handlers combine such properties with the `||` operator,
 * which keeps its left operand only when that operand is truthy.
 */
module JsValues {

  datatype Option<+T> = None | Some(value: T)

  /** A property read from a parsed JSON request body. */
  datatype Field<+T> = Undefined | NullValue | Given(value: T)

  /** A stored value that may be `null`. */
  datatype Nullable<+T> = Null | NonNull(value: T)

  // JS truthiness, by the type the property is expected to have.
  // `undefined` and `null` are falsy; so are "" and 0;
  // an array, even an empty one, is an object and therefore truthy.

  predicate TruthyString(f: Field<string>) {
    f.Given? && f.value != ""
  }

  predicate TruthyNumber(f: Field<int>) {
    f.Given? && f.value != 0
  }

  predicate TruthyArray<T>(f: Field<seq<T>>) {
    f.Given?
  }

  predicate TruthyBool(f: Field<bool>) {
    f.Given? && f.value
  }

  // `f || d` for each of those types.

  function StringOr(f: Field<string>, d: string): string {
    if TruthyString(f) then f.value else d
  }

  function NumberOr(f: Field<int>, d: int): int {
    if TruthyNumber(f) then f.value else d
  }

  function ArrayOr<T>(f: Field<seq<T>>, d: seq<T>): seq<T> {
    if TruthyArray(f) then f.value else d
  }

  function BoolOr(f: Field<bool>, d: bool): bool {
    if TruthyBool(f) then f.value else d
  }

  function StringOrNullable(f: Field<string>, d: Nullable<string>): Nullable<string> {
    if TruthyString(f) then NonNull(f.value) else d
  }

  function NumberOrNullable(f: Field<int>, d: Nullable<int>): Nullable<int> {
    if TruthyNumber(f) then NonNull(f.value) else d
  }

  /** `f !== undefined ? f : d`: an explicit `null` is applied too. */
  function UnlessUndefined<T>(f: Field<T>, d: Nullable<T>): Nullable<T> {
    match f
    case Undefined => d
    case NullValue => Null
    case Given(v) => NonNull(v)
  }
}
