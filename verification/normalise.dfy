/** The `onChange` handlers of the form: how a parsed input becomes the value
    stored in the component's state. */
module Normalise {
  import opened JsValues

  /** Upper bound of both percentage inputs. */
  const MaxPercent: real := 100.0

  /** The four plain numeric fields (hourly rate, shooting hours,
      post-production hours, extra fees): `parseFloat(v) || 0`.
      A falsy parse (NaN, or zero) is replaced by the literal 0, so NaN
      becomes 0 and every number, negative ones included, is kept. */
  function PlainNumber(parsed: Option<real>): (r: real)
    ensures parsed.None? ==> r == 0.0
    ensures parsed.Some? ==> r == parsed.value
  {
    if Truthy(parsed) then parsed.value else 0.0
  }

  /** The clamp shared by the URSSAF and VAT handlers: NaN or a negative
      value becomes 0, then a value above 100 becomes 100. */
  function Percent(parsed: Option<real>): (r: real)
    ensures 0.0 <= r <= MaxPercent
    ensures parsed.None? ==> r == 0.0
    ensures parsed.Some? && parsed.value < 0.0 ==> r == 0.0
    ensures parsed.Some? && parsed.value > MaxPercent ==> r == MaxPercent
    ensures parsed.Some? && 0.0 <= parsed.value <= MaxPercent ==> r == parsed.value
  {
    var v := if parsed.None? || parsed.value < 0.0 then 0.0 else parsed.value;
    if v > MaxPercent then MaxPercent else v
  }

  /** The optional VAT field: the empty string clears it to `null`,
      anything else is parsed and clamped like the URSSAF percentage. */
  function OptionalPercent(raw: string, parsed: Option<real>): (r: Option<real>)
    ensures r.None? <==> raw == ""
    ensures r.Some? ==> 0.0 <= r.value <= MaxPercent
    ensures r.Some? ==> r.value == Percent(parsed)
  {
    if raw == "" then None else Some(Percent(parsed))
  }

  /** Independent reference: the textbook clamp of `x` into `[lo, hi]`. */
  function Clamp(x: real, lo: real, hi: real): real
    requires lo <= hi
  {
    if x < lo then lo else if hi < x then hi else x
  }

  /** The percentage handler is the clamp into [0,100] of the parsed value,
      NaN being read as 0. */
  lemma PercentIsClamp(parsed: Option<real>)
    ensures Percent(parsed) == Clamp(parsed.ValueOr(0.0), 0.0, MaxPercent)
  {
  }

  /** Feeding a normalised percentage back through the handler changes
      nothing, so re-entering the displayed value is harmless. */
  lemma PercentIdempotent(parsed: Option<real>)
    ensures Percent(Some(Percent(parsed))) == Percent(parsed)
  {
  }

  /** The result is 0 exactly when the parse failed or was not positive,
      and 100 exactly when it was at least 100. */
  lemma PercentExtremes(parsed: Option<real>)
    ensures Percent(parsed) == 0.0 <==> parsed.None? || parsed.value <= 0.0
    ensures Percent(parsed) == MaxPercent <==> parsed.Some? && parsed.value >= MaxPercent
  {
  }

  /** Named corollary of `PlainNumber`'s contract: `parseFloat(v) || 0`
      is not a clamp, so a negative number passes through unchanged. */
  lemma PlainNumberKeepsNegatives(x: real)
    ensures PlainNumber(Some(x)) == x
    ensures x < 0.0 ==> PlainNumber(Some(x)) < 0.0
  {
  }

  /** Re-entering a stored plain value is harmless too. */
  lemma PlainNumberIdempotent(parsed: Option<real>)
    ensures PlainNumber(Some(PlainNumber(parsed))) == PlainNumber(parsed)
  {
  }
}
