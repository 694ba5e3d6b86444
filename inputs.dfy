/**
 * The text typed into an amount field, as the point-of-sale screens read it.
 * The screens turn the text into a number with JavaScript's `Number(...)` and
 * test it with `isNaN`; this model takes the text as already classified.
 */
module Inputs {
  import opened Wrappers

  /** An amount field: left empty, holding a (whole) number, or holding text that is not a number. */
  datatype AmountInput = Blank | Numeric(amount: int) | NotANumber

  /** `Number(text)`: the empty text reads as 0, text that is not a number as NaN (None). */
  function AsNumber(input: AmountInput): (r: Option<int>)
    ensures r.None? <==> input.NotANumber?
    ensures input.Blank? ==> r == Some(0)
    ensures input.Numeric? ==> r == Some(input.amount)
  {
    match input
    case Blank => Some(0)
    case Numeric(n) => Some(n)
    case NotANumber => None
  }

  /** `!text || isNaN(Number(text))` is false: the field is filled in with a number. */
  predicate Accepted(input: AmountInput)
  {
    input.Numeric?
  }
}
