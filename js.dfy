/**
 * The two pieces of JavaScript value semantics the step components rely on:
 * reading an array element, which yields `undefined` past the end instead of
 * failing, and interpolating such an element into a template literal, where
 * `undefined` is rendered as the text "undefined".
 */
module Js {

  /** The result of reading `a[i]`: an element, or `undefined`. */
  datatype Lookup<+T> = Undefined | Defined(value: T)

  /** `a[i]` for an array `a` and a number `i`. */
  function Index<T>(a: seq<T>, i: int): (r: Lookup<T>)
    ensures r.Defined? <==> 0 <= i < |a|
    ensures r.Defined? ==> r.value == a[i]
  {
    if 0 <= i < |a| then Defined(a[i]) else Undefined
  }

  /** The text `${v}` produces for a string value or `undefined`. */
  function TemplateText(v: Lookup<string>): (s: string)
    ensures v.Defined? ==> s == v.value
    ensures v.Undefined? ==> s == "undefined"
  {
    match v
    case Defined(text) => text
    case Undefined => "undefined"
  }
}
