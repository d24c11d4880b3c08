/**
 * JavaScript values as the TypeScript sources see them: a slot that may be
 * `undefined`, `null` or hold a value, the truthiness rule that `if (x)` and
 * `x || y` apply to it, and the text a template literal `${x}` produces.
 */
module JsValues {

  /** A property or variable of declared type `T | null | undefined`. */
  datatype Js<+T> = Undefined | Null | Val(v: T)

  /**
   * JavaScript truthiness of a slot whose type has exactly one falsy value
   * `zero`: "" for strings, 0 for numbers, false for booleans.
   * (NaN, the second falsy number, is not modelled.)
   */
  predicate TruthyWith<T(==)>(x: Js<T>, zero: T) {
    x.Val? && x.v != zero
  }

  /** Truthiness of a string slot: present and not "". */
  predicate Truthy(s: Js<string>) {
    TruthyWith(s, "")
  }

  /** `a || b` on string slots. */
  function Or(a: Js<string>, b: Js<string>): Js<string> {
    if Truthy(a) then a else b
  }

  /** `a || b` on object or array slots: every object, even `[]`, is truthy. */
  function OrObject<T>(a: Js<T>, b: Js<T>): Js<T> {
    if a.Val? then a else b
  }

  /** `x || d` where `x` is a number, boolean or string slot with falsy value `zero`. */
  function OrElse<T(==)>(x: Js<T>, zero: T, d: T): T {
    if TruthyWith(x, zero) then x.v else d
  }

  /** The text `${s}` yields for a string slot. */
  function Show(s: Js<string>): string {
    match s
    case Undefined => "undefined"
    case Null => "null"
    case Val(t) => t
  }

  /** `(scope)` when the scope is truthy, nothing otherwise: the rule both formatters share. */
  function ScopePart(scope: Js<string>): string {
    if Truthy(scope) then "(" + scope.v + ")" else ""
  }

  /** null, undefined and "" are all omitted; any other string is wrapped in parentheses. */
  lemma ScopePartOmitsFalsy(scope: Js<string>)
    ensures ScopePart(scope) == "" <==> !Truthy(scope)
    ensures Truthy(scope) ==> |ScopePart(scope)| == |scope.v| + 2
  {
  }
}
