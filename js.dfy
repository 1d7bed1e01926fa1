/**
 * The shapes of the untyped inputs the route handlers see: fields of a parsed
 * JSON request body and environment variables, with JavaScript truthiness.
 */
module Js {

  /**
   * A field of a parsed JSON body.  `Absent` is a missing field or `null`;
   * `Other` is any non-string value (number, boolean, array, object), with
   * its truthiness, whether string interpolation can render it, and the text
   * it then produces.
   */
  datatype Value = Absent | Str(s: string) | Other(truthy: bool, renders: bool, shown: string)

  /** JavaScript truthiness of a body field: the empty string is falsy. */
  predicate Truthy(v: Value)
    ensures v == Absent || v == Str("") ==> !Truthy(v)
    ensures v.Str? && v.s != "" ==> Truthy(v)
  {
    match v
    case Absent => false
    case Str(s) => s != ""
    case Other(t, _, _) => t
  }

  /** What `${v}` renders for a truthy field. */
  function Shown(v: Value): (r: string)
    requires Truthy(v)
    ensures v.Str? ==> r == v.s && r != ""
  {
    match v
    case Str(s) => s
    case Other(_, _, shown) => shown
  }

  /**
   * Whether `${v}` can render the field.  String conversion throws for a JSON
   * object whose own `toString` key holds a value that is not a function;
   * `renders` is false for such objects.  Every other value renders.
   */
  predicate Renders(v: Value)
  {
    !v.Other? || v.renders
  }

  /** An environment variable, as `process.env` reports it. */
  datatype EnvVar = Unset | Set(value: string)

  /**
   * A credential is usable when the variable is truthy (set and non-empty)
   * and is not the placeholder the project's sample configuration ships with.
   */
  predicate Configured(key: EnvVar, placeholder: string)
    ensures Configured(key, placeholder) ==> key != Unset && key != Set("") && key != Set(placeholder)
    ensures key.Set? && key.value != "" && key.value != placeholder ==> Configured(key, placeholder)
  {
    key.Set? && key.value != "" && key.value != placeholder
  }
}
