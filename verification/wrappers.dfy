/** Optional values, results and outcomes shared by every module of the model, and JavaScript's `??`. */
module Wrappers {

  /** An optional value: `None` stands for a JavaScript property that is absent or `undefined`. */
  datatype Option<+T> = None | Some(value: T)

  /** A value or the error that an operation threw instead of returning it. */
  datatype Result<+R, +E> = Ok(value: R) | Err(error: E)

  /** The outcome of an operation that returns nothing when it succeeds. */
  datatype Outcome<+E> = Pass | Fail(error: E)

  /** JavaScript's `a ?? b` on an optional value: `a` unless it is absent. */
  function Coalesce<T>(a: Option<T>, b: Option<T>): Option<T>
  {
    if a.Some? then a else b
  }

  /** JavaScript's `a ?? d` when `d` is a concrete default. */
  function GetOr<T>(a: Option<T>, d: T): T
  {
    if a.Some? then a.value else d
  }

  /** Truthiness of an optional string: present and not empty. */
  predicate Truthy(s: Option<string>)
  {
    s.Some? && s.value != ""
  }

  /**
   * The value of the first layer that is present, or `d` when none is: what a chain
   * `a ?? b ?? … ?? d` evaluates to.
   */
  function FirstDefined<T>(layers: seq<Option<T>>, d: T): (r: T)
    ensures (forall i :: 0 <= i < |layers| ==> layers[i].None?) ==> r == d
    ensures forall i :: 0 <= i < |layers| && layers[i].Some? && (forall j :: 0 <= j < i ==> layers[j].None?)
              ==> r == layers[i].value
  {
    if layers == [] then d
    else if layers[0].Some? then layers[0].value
    else FirstDefined(layers[1..], d)
  }

  /** `a ?? b ?? d` is the first present of the two layers, else the default. */
  lemma CoalesceChain<T>(a: Option<T>, b: Option<T>, d: T)
    ensures GetOr(Coalesce(a, b), d) == FirstDefined([a, b], d)
  {
    if a.None? && b.Some? {
      assert [a, b][1].Some?;
    }
  }
}
