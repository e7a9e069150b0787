/** The few JavaScript value notions the calculator depends on, over exact reals.

    A number input's `parseFloat` result and the optional VAT percentage are
    both modelled as `Option<real>`: for a parse result `None` stands for NaN,
    for the VAT percentage it stands for `null`. Infinities are not modelled.
 */
module JsValues {

  datatype Option<+T> = None | Some(value: T) {

    /** The wrapped value, or `default` when there is none */
    function ValueOr(default: T): (r: T)
      ensures Some? ==> r == value
      ensures None? ==> r == default
    {
      match this
      case Some(v) => v
      case None => default
    }
  }

  /** JavaScript truthiness of a number-or-nothing: NaN, `null` and zero
      (positive or negative; reals have a single zero) are falsy, every
      other number is truthy. */
  predicate Truthy(x: Option<real>) {
    x.Some? && x.value != 0.0
  }
}
