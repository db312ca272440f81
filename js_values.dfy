/**
 * The few JavaScript value rules the SDK leans on, stated once.
 *
 * Identity slots and most options are "a string or null"; the SDK tests them
 * with `||`, so the empty string counts as absent exactly like null does.
 * A caller-supplied parameter that may also be `undefined` (and is then
 * skipped rather than cleared) is a `Param`.
 */
module JsValues {

  datatype Option<+T> = None | Some(value: T)

  datatype Result<+T, +E> = Ok(value: T) | Err(error: E)

  /** A string-or-null value that JavaScript treats as true. */
  predicate Truthy(v: Option<string>) {
    v.Some? && v.value != ""
  }

  /** `v || null`: falsy values (null, "") become null. */
  function OrNull(v: Option<string>): Option<string> {
    if Truthy(v) then v else None
  }

  /** `a || b` on string-or-null operands. */
  function Or(a: Option<string>, b: Option<string>): Option<string> {
    if Truthy(a) then a else b
  }

  /** `s || fallback` where the fallback is a plain string. */
  function OrElse(a: Option<string>, fallback: string): string {
    if Truthy(a) then a.value else fallback
  }

  /** An argument that may be left `undefined`, or given (possibly as null). */
  datatype Param = Undefined | Given(value: Option<string>)

  /** `p !== undefined ? p : current`. */
  function Override(p: Param, current: Option<string>): Option<string> {
    if p.Given? then p.value else current
  }

  /** `if (p !== undefined) slot = p || null`. */
  function Assign(p: Param, current: Option<string>): Option<string> {
    if p.Given? then OrNull(p.value) else current
  }

  /** `!!x` on an optional boolean option. */
  function IsSet(b: Option<bool>): bool {
    b.Some? && b.value
  }

  /** `typeof o === "boolean" ? o : current`. */
  function BoolOr(o: Option<bool>, current: bool): bool {
    if o.Some? then o.value else current
  }

  /** `typeof o === "number" ? o : current`. */
  function NatOr(o: Option<nat>, current: nat): nat {
    if o.Some? then o.value else current
  }

  function Min(a: nat, b: nat): nat {
    if a <= b then a else b
  }
}
