/** The calculator page as a whole: the stored inputs, the stored outputs,
    the edits the form's handlers apply, and the effect that recomputes the
    outputs after every change of an input. */
module Form {
  import opened JsValues
  import opened Normalise
  import opened Fees

  /** One `onChange` event, carrying what `parseFloat` made of the field's
      text (`None` for NaN). The VAT field also needs the raw text, since
      its handler tests for the empty string before parsing. */
  datatype Edit =
    | SetHourlyRate(parsed: Option<real>)
    | SetShootingHours(parsed: Option<real>)
    | SetPostProdHours(parsed: Option<real>)
    | SetExtraFees(parsed: Option<real>)
    | SetUrssafPct(parsed: Option<real>)
    | SetVatPct(raw: string, parsed: Option<real>)

  /** The six input fields, to say which one an edit touches. */
  datatype Field = HourlyRate | ShootingHours | PostProdHours | ExtraFees | UrssafPct | VatPct

  /** The component's state: the six stored inputs and the five stored outputs. */
  datatype Page = Page(inputs: Inputs, outputs: Outputs)

  /** Every `useState` starts at 0, except the VAT percentage, which starts
      at `null`. */
  const Initial: Page :=
    Page(Inputs(0.0, 0.0, 0.0, 0.0, 0.0, None), Outputs(0.0, 0.0, 0.0, 0.0, 0.0))

  function FieldOf(e: Edit): Field {
    match e
    case SetHourlyRate(_) => HourlyRate
    case SetShootingHours(_) => ShootingHours
    case SetPostProdHours(_) => PostProdHours
    case SetExtraFees(_) => ExtraFees
    case SetUrssafPct(_) => UrssafPct
    case SetVatPct(_, _) => VatPct
  }

  /** `a` and `b` hold the same value in field `f`. */
  predicate SameOn(a: Inputs, b: Inputs, f: Field) {
    match f
    case HourlyRate => a.hourlyRate == b.hourlyRate
    case ShootingHours => a.shootingHours == b.shootingHours
    case PostProdHours => a.postProdHours == b.postProdHours
    case ExtraFees => a.extraFees == b.extraFees
    case UrssafPct => a.urssafPct == b.urssafPct
    case VatPct => a.vatPct == b.vatPct
  }

  /** `a` and `b` agree on every input field except possibly `f`. */
  predicate SameExcept(a: Inputs, b: Inputs, f: Field) {
    forall g :: g != f ==> SameOn(a, b, g)
  }

  /** The stored outputs are those of the stored inputs: nothing is stale. */
  predicate Consistent(p: Page) {
    p.outputs == Compute(p.inputs)
  }

  /** What the handlers guarantee of the stored inputs. */
  predicate Valid(p: Page) {
    Consistent(p) && PercentsInRange(p.inputs)
  }

  /** The handler of one field: it normalises the parsed value and stores
      it in that field, leaving the other five untouched. */
  function ApplyEdit(i: Inputs, e: Edit): (r: Inputs)
    ensures SameExcept(i, r, FieldOf(e))
    ensures e.SetHourlyRate? ==> r.hourlyRate == PlainNumber(e.parsed)
    ensures e.SetShootingHours? ==> r.shootingHours == PlainNumber(e.parsed)
    ensures e.SetPostProdHours? ==> r.postProdHours == PlainNumber(e.parsed)
    ensures e.SetExtraFees? ==> r.extraFees == PlainNumber(e.parsed)
    ensures e.SetUrssafPct? ==> r.urssafPct == Percent(e.parsed)
    ensures e.SetVatPct? ==> r.vatPct == OptionalPercent(e.raw, e.parsed)
    ensures PercentsInRange(i) ==> PercentsInRange(r)
    ensures e.SetVatPct? ==> (r.vatPct.None? <==> e.raw == "")
  {
    match e
    case SetHourlyRate(p) => i.(hourlyRate := PlainNumber(p))
    case SetShootingHours(p) => i.(shootingHours := PlainNumber(p))
    case SetPostProdHours(p) => i.(postProdHours := PlainNumber(p))
    case SetExtraFees(p) => i.(extraFees := PlainNumber(p))
    case SetUrssafPct(p) => i.(urssafPct := Percent(p))
    case SetVatPct(raw, p) => i.(vatPct := OptionalPercent(raw, p))
  }

  /** An edit followed by the effect it triggers, which recomputes all five
      outputs from the new inputs. */
  function Step(p: Page, e: Edit): (r: Page)
    ensures r.inputs == ApplyEdit(p.inputs, e)
    ensures Consistent(r)
    ensures SameExcept(p.inputs, r.inputs, FieldOf(e))
    ensures Valid(p) ==> Valid(r)
  {
    var i := ApplyEdit(p.inputs, e);
    Page(i, Compute(i))
  }

  /** The page after a sequence of edits, in order. */
  function Run(p: Page, edits: seq<Edit>): Page
    decreases |edits|
  {
    if |edits| == 0 then p else Run(Step(p, edits[0]), edits[1..])
  }

  /** The inputs after a sequence of handler calls, in order, ignoring the
      effect. */
  function Replay(i: Inputs, edits: seq<Edit>): Inputs
    decreases |edits|
  {
    if |edits| == 0 then i else Replay(ApplyEdit(i, edits[0]), edits[1..])
  }

  /** The effect never feeds back into the inputs: the stored inputs after
      a run are those the handlers alone produce, and once at least one edit
      has run, the stored outputs are the formula applied to them. */
  lemma {:induction false} RunIsReplay(p: Page, edits: seq<Edit>)
    ensures Run(p, edits).inputs == Replay(p.inputs, edits)
    ensures |edits| > 0 ==> Run(p, edits).outputs == Compute(Replay(p.inputs, edits))
    decreases |edits|
  {
    if |edits| > 0 {
      RunIsReplay(Step(p, edits[0]), edits[1..]);
    }
  }

  /** The initial state already agrees with the formula: every output
      starting at 0 is what the effect computes from the initial inputs. */
  lemma InitialIsValid()
    ensures Valid(Initial)
    ensures DisplayVat(Initial.inputs, Initial.outputs) == NotApplicable
  {
  }

  /** Every sequence of edits keeps the page valid: the outputs are never
      stale and the percentages never leave [0,100]. */
  lemma {:induction false} RunPreservesValid(p: Page, edits: seq<Edit>)
    requires Valid(p)
    ensures Valid(Run(p, edits))
    decreases |edits|
  {
    if |edits| > 0 {
      RunPreservesValid(Step(p, edits[0]), edits[1..]);
    }
  }

  /** Every page the user can reach from the initial one is valid. */
  lemma ReachableIsValid(edits: seq<Edit>)
    ensures Valid(Run(Initial, edits))
  {
    InitialIsValid();
    RunPreservesValid(Initial, edits);
  }

  /** Edits that do not touch field `f` leave it as it was. */
  lemma {:induction false} RunFrame(p: Page, edits: seq<Edit>, f: Field)
    requires forall k :: 0 <= k < |edits| ==> FieldOf(edits[k]) != f
    ensures SameOn(p.inputs, Run(p, edits).inputs, f)
    decreases |edits|
  {
    if |edits| > 0 {
      RunFrame(Step(p, edits[0]), edits[1..], f);
    }
  }
}
