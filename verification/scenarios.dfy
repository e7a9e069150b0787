/** Concrete sessions on the calculator page, from the initial state. */
module Scenarios {
  import opened JsValues
  import opened Normalise
  import opened Fees
  import opened Form

  /** The base fields of the worked example: rate 50, 5 hours of shooting,
      3 of post-production, 20 of extra fees, 25 % URSSAF. */
  const BaseEdits: seq<Edit> := [
    SetHourlyRate(Some(50.0)),
    SetShootingHours(Some(5.0)),
    SetPostProdHours(Some(3.0)),
    SetExtraFees(Some(20.0)),
    SetUrssafPct(Some(25.0))
  ]

  /** The inputs of the worked example, with VAT field `vat`. */
  function ExampleInputs(vat: Option<real>): Inputs {
    Inputs(50.0, 5.0, 3.0, 20.0, 25.0, vat)
  }

  /** The inputs stored after the worked example's edits, ending with a VAT
      edit; by `Form.RunIsReplay` the page then shows `Compute` of them. */
  function SessionInputs(raw: string, vat: Option<real>): Inputs {
    Replay(Initial.inputs, BaseEdits + [SetVatPct(raw, vat)])
  }

  /** With 20 % VAT: gross 420, charges 105, net 315, VAT 84, TTC 504,
      and the VAT line shows the amount. */
  lemma WorkedExampleWithVat()
    ensures Compute(SessionInputs("20", Some(20.0))) == Outputs(420.0, 105.0, 315.0, 84.0, 504.0)
    ensures DisplayVat(SessionInputs("20", Some(20.0)), Compute(SessionInputs("20", Some(20.0)))) == Amount(84.0)
  {
    ReplayExample("20", Some(20.0));
    ExampleOutputs(Some(20.0), 84.0);
  }

  /** The same example on the page itself: after the edits and the effect
      they trigger, the stored outputs are the worked example's amounts. */
  lemma WorkedExampleOnPage()
    ensures Run(Initial, BaseEdits + [SetVatPct("20", Some(20.0))]).outputs
         == Outputs(420.0, 105.0, 315.0, 84.0, 504.0)
  {
    RunIsReplay(Initial, BaseEdits + [SetVatPct("20", Some(20.0))]);
    WorkedExampleWithVat();
  }

  /** With the VAT field emptied: no VAT, TTC equal to the gross, and the
      VAT line shows "N/A". */
  lemma WorkedExampleWithoutVat()
    ensures Compute(SessionInputs("", None)) == Outputs(420.0, 105.0, 315.0, 0.0, 420.0)
    ensures DisplayVat(SessionInputs("", None), Compute(SessionInputs("", None))) == NotApplicable
  {
    ReplayExample("", None);
    ExampleOutputs(None, 0.0);
  }

  /** With VAT set to 0 the amount is 0 as for an empty field, but the VAT
      line shows that amount rather than "N/A". */
  lemma WorkedExampleWithZeroVat()
    ensures Compute(SessionInputs("0", Some(0.0))) == Outputs(420.0, 105.0, 315.0, 0.0, 420.0)
    ensures DisplayVat(SessionInputs("0", Some(0.0)), Compute(SessionInputs("0", Some(0.0)))) == Amount(0.0)
  {
    ReplayExample("0", Some(0.0));
    ExampleOutputs(Some(0.0), 0.0);
  }

  /** The formula on the example inputs: the VAT-independent amounts are
      fixed, and the VAT amount is the given one. */
  lemma ExampleOutputs(vat: Option<real>, amount: real)
    requires vat == None || vat == Some(0.0) || vat == Some(20.0)
    requires amount == (if vat == Some(20.0) then 84.0 else 0.0)
    ensures Compute(ExampleInputs(vat)) == Outputs(420.0, 105.0, 315.0, amount, 420.0 + amount)
  {
    var o := Compute(ExampleInputs(vat));
    assert o.totalBrut == 420.0;
    assert o.chargesUrssaf == 105.0;
    VatIsPercentOfGross(ExampleInputs(vat));
  }

  /** The handlers alone, on the worked example's edits: a VAT edit whose
      text is empty exactly when its parse is absent, and whose parse is in
      range, stores that parse. */
  lemma ReplayExample(raw: string, vat: Option<real>)
    requires raw == "" <==> vat.None?
    requires vat.Some? ==> 0.0 <= vat.value <= MaxPercent
    ensures SessionInputs(raw, vat) == ExampleInputs(vat)
  {
    ReplayAppend(Initial.inputs, BaseEdits, [SetVatPct(raw, vat)]);
    ReplayBase();
    var i := Replay(Initial.inputs, BaseEdits);
    assert [SetVatPct(raw, vat)][1..] == [];
    assert Replay(i, [SetVatPct(raw, vat)]) == ApplyEdit(i, SetVatPct(raw, vat));
  }

  /** The handlers accept a negative hourly rate, so a reachable page can
      show a negative gross. */
  lemma NegativeRateIsReachable()
    ensures Replay(Initial.inputs, [SetHourlyRate(Some(-10.0)), SetShootingHours(Some(1.0))]).hourlyRate == -10.0
    ensures Compute(Replay(Initial.inputs, [SetHourlyRate(Some(-10.0)), SetShootingHours(Some(1.0))])).totalBrut == -10.0
  {
    var e := [SetHourlyRate(Some(-10.0)), SetShootingHours(Some(1.0))];
    var i1 := ApplyEdit(Initial.inputs, e[0]);
    var i2 := ApplyEdit(i1, e[1]);
    assert e[1..][1..] == [];
    assert Replay(Initial.inputs, e) == Replay(i1, e[1..]) == i2;
    assert i2 == Inputs(-10.0, 1.0, 0.0, 0.0, 0.0, None);
  }

  /** Out-of-range URSSAF entries: -5 is stored as 0 and 150 as 100. */
  lemma UrssafOutOfRange()
    ensures ApplyEdit(Initial.inputs, SetUrssafPct(Some(-5.0))).urssafPct == 0.0
    ensures ApplyEdit(Initial.inputs, SetUrssafPct(Some(150.0))).urssafPct == 100.0
  {
  }

  /** The five base edits land in the five base fields. */
  lemma ReplayBase()
    ensures Replay(Initial.inputs, BaseEdits) == Inputs(50.0, 5.0, 3.0, 20.0, 25.0, None)
  {
    var e := BaseEdits;
    var i1 := ApplyEdit(Initial.inputs, e[0]);
    var i2 := ApplyEdit(i1, e[1]);
    var i3 := ApplyEdit(i2, e[2]);
    var i4 := ApplyEdit(i3, e[3]);
    var i5 := ApplyEdit(i4, e[4]);
    assert i5 == Inputs(50.0, 5.0, 3.0, 20.0, 25.0, None);
    assert e[1..][1..][1..][1..][1..] == [];
    assert Replay(Initial.inputs, e) == Replay(i1, e[1..]) == Replay(i2, e[2..])
        == Replay(i3, e[3..]) == Replay(i4, e[4..]) == i5;
  }

  /** Replaying two sequences of edits is replaying their concatenation. */
  lemma {:induction false} ReplayAppend(i: Inputs, a: seq<Edit>, b: seq<Edit>)
    ensures Replay(i, a + b) == Replay(Replay(i, a), b)
    decreases |a|
  {
    if |a| > 0 {
      assert (a + b)[0] == a[0];
      assert (a + b)[1..] == a[1..] + b;
      ReplayAppend(ApplyEdit(i, a[0]), a[1..], b);
    } else {
      assert a + b == b;
    }
  }
}
