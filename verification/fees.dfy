/** The fee formula recomputed by the component's effect, and the VAT
    display choice of the results section. */
module Fees {
  import opened JsValues
  import opened Normalise

  /** The six values the form stores: hourly rate, shooting hours,
      post-production hours, extra fees, URSSAF percentage and the optional
      VAT percentage (`None` for `null`). */
  datatype Inputs = Inputs(
    hourlyRate: real,
    shootingHours: real,
    postProdHours: real,
    extraFees: real,
    urssafPct: real,
    vatPct: Option<real>)

  /** The five derived amounts: gross ("brut"), URSSAF charges, net,
      VAT and the total including VAT ("TTC"). */
  datatype Outputs = Outputs(
    totalBrut: real,
    chargesUrssaf: real,
    totalNet: real,
    vatAmount: real,
    totalTtc: real)

  /** What the VAT line of the results shows. */
  datatype VatDisplay = NotApplicable | Amount(value: real)

  /** Base inputs as the HTML `min="0"` attributes suggest, though no code
      enforces them. */
  predicate NonNegativeBase(i: Inputs) {
    && i.hourlyRate >= 0.0
    && i.shootingHours >= 0.0
    && i.postProdHours >= 0.0
    && i.extraFees >= 0.0
  }

  /** Percentages as the URSSAF and VAT handlers leave them. */
  predicate PercentsInRange(i: Inputs) {
    && 0.0 <= i.urssafPct <= MaxPercent
    && (i.vatPct.Some? ==> 0.0 <= i.vatPct.value <= MaxPercent)
  }

  /** One run of the effect: all five amounts from the six inputs. The VAT
      amount is guarded by JavaScript truthiness of `vatPct`. */
  function Compute(i: Inputs): (o: Outputs)
    ensures o.chargesUrssaf + o.totalNet == o.totalBrut
    ensures o.totalTtc == o.totalBrut + o.vatAmount
    ensures i.vatPct.None? ==> o.vatAmount == 0.0 && o.totalTtc == o.totalBrut
  {
    var brut := (i.shootingHours + i.postProdHours) * i.hourlyRate + i.extraFees;
    var charges := (i.urssafPct / 100.0) * brut;
    var net := brut - charges;
    var vat := if Truthy(i.vatPct) then (i.vatPct.value / 100.0) * brut else 0.0;
    Outputs(brut, charges, net, vat, brut + vat)
  }

  /** The VAT line shows an amount whenever a VAT percentage is set, even
      zero, and "N/A" only when it is `null`. */
  function DisplayVat(i: Inputs, o: Outputs): (d: VatDisplay)
    ensures d.NotApplicable? <==> i.vatPct.None?
    ensures d.Amount? ==> d.value == o.vatAmount
  {
    if i.vatPct.Some? then Amount(o.vatAmount) else NotApplicable
  }

  /** The gross is every billed hour, shooting or post-production, at the
      hourly rate, plus the extra fees. */
  lemma GrossIsBilledHoursPlusFees(i: Inputs)
    ensures Compute(i).totalBrut
         == i.shootingHours * i.hourlyRate + i.postProdHours * i.hourlyRate + i.extraFees
  {
  }

  /** At a non-negative rate, more hours of either kind never lower the gross;
      more extra fees raise it by exactly their increase. */
  lemma GrossMonotone(i: Inputs, j: Inputs)
    requires i.hourlyRate == j.hourlyRate >= 0.0
    requires i.shootingHours <= j.shootingHours
    requires i.postProdHours <= j.postProdHours
    requires i.extraFees <= j.extraFees
    ensures Compute(i).totalBrut <= Compute(j).totalBrut
    ensures i.shootingHours == j.shootingHours && i.postProdHours == j.postProdHours ==>
              Compute(j).totalBrut - Compute(i).totalBrut == j.extraFees - i.extraFees
  {
    var hi := i.shootingHours + i.postProdHours;
    var hj := j.shootingHours + j.postProdHours;
    assert hi * i.hourlyRate <= hj * i.hourlyRate by {
      assert (hj - hi) * i.hourlyRate >= 0.0;
    }
  }

  /** The URSSAF charges and the net split the gross: the net is the gross
      scaled by the share URSSAF leaves. */
  lemma ChargesSplitGross(i: Inputs)
    ensures Compute(i).chargesUrssaf + Compute(i).totalNet == Compute(i).totalBrut
    ensures Compute(i).totalNet == (1.0 - i.urssafPct / 100.0) * Compute(i).totalBrut
  {
  }

  /** The VAT amount in both cases of the truthiness test: `null` or zero
      gives no VAT and a TTC equal to the gross; a non-zero percentage gives
      that share of the gross, added to it. */
  lemma VatCases(i: Inputs)
    ensures !Truthy(i.vatPct) ==> Compute(i).vatAmount == 0.0 && Compute(i).totalTtc == Compute(i).totalBrut
    ensures Truthy(i.vatPct) ==>
              && Compute(i).vatAmount == (i.vatPct.value / 100.0) * Compute(i).totalBrut
              && Compute(i).totalTtc == Compute(i).totalBrut + Compute(i).vatAmount
  {
  }

  /** The truthiness guard only matters for `null`: for every input the VAT
      amount is the percentage share of the gross, an absent percentage
      counting as 0. */
  lemma VatIsPercentOfGross(i: Inputs)
    ensures Compute(i).vatAmount == (i.vatPct.ValueOr(0.0) / 100.0) * Compute(i).totalBrut
  {
  }

  /** A share of at most 100 percent of a non-negative amount lies between
      0 and that amount. */
  lemma ShareBounds(pct: real, amount: real)
    requires 0.0 <= pct <= MaxPercent
    requires 0.0 <= amount
    ensures 0.0 <= (pct / 100.0) * amount <= amount
  {
    var f := pct / 100.0;
    assert 0.0 <= f <= 1.0;
    ProductNonNegative(f, amount);
    assert amount - f * amount == (1.0 - f) * amount;
    assert (1.0 - f) * amount >= 0.0;
  }

  /** With non-negative base inputs and percentages in range, every amount
      lies between 0 and the gross, and the TTC between the gross and twice it. */
  lemma AmountsBounded(i: Inputs)
    requires NonNegativeBase(i)
    requires PercentsInRange(i)
    ensures 0.0 <= Compute(i).totalBrut
    ensures 0.0 <= Compute(i).chargesUrssaf <= Compute(i).totalBrut
    ensures 0.0 <= Compute(i).totalNet <= Compute(i).totalBrut
    ensures 0.0 <= Compute(i).vatAmount <= Compute(i).totalBrut
    ensures Compute(i).totalBrut <= Compute(i).totalTtc <= 2.0 * Compute(i).totalBrut
  {
    GrossNonNegative(i);
    ChargesWithinGross(i);
    VatWithinGross(i);
  }

  /** Non-negative base inputs give a non-negative gross. */
  lemma GrossNonNegative(i: Inputs)
    requires NonNegativeBase(i)
    ensures 0.0 <= Compute(i).totalBrut
  {
    ProductNonNegative(i.shootingHours + i.postProdHours, i.hourlyRate);
  }

  /** The URSSAF charges of a non-negative gross lie between 0 and it. */
  lemma ChargesWithinGross(i: Inputs)
    requires 0.0 <= Compute(i).totalBrut
    requires 0.0 <= i.urssafPct <= MaxPercent
    ensures 0.0 <= Compute(i).chargesUrssaf <= Compute(i).totalBrut
  {
    ShareBounds(i.urssafPct, Compute(i).totalBrut);
  }

  /** The VAT amount of a non-negative gross lies between 0 and it. */
  lemma VatWithinGross(i: Inputs)
    requires 0.0 <= Compute(i).totalBrut
    requires i.vatPct.Some? ==> 0.0 <= i.vatPct.value <= MaxPercent
    ensures 0.0 <= Compute(i).vatAmount <= Compute(i).totalBrut
  {
    VatIsPercentOfGross(i);
    ShareBounds(i.vatPct.ValueOr(0.0), Compute(i).totalBrut);
  }

  /** Sign of a product of non-negative reals. */
  lemma ProductNonNegative(a: real, b: real)
    requires 0.0 <= a && 0.0 <= b
    ensures 0.0 <= a * b
  {
  }

  /** Without the non-negativity of the base inputs the bounds fail: a
      negative hourly rate, which the handlers accept, gives a negative
      gross and negative charges. */
  lemma NegativeRateGivesNegativeGross(i: Inputs)
    requires i.hourlyRate < 0.0
    requires i.shootingHours + i.postProdHours > 0.0
    requires i.extraFees == 0.0
    requires 0.0 < i.urssafPct
    ensures Compute(i).totalBrut < 0.0
    ensures Compute(i).chargesUrssaf < 0.0
  {
    var h := i.shootingHours + i.postProdHours;
    ProductPositive(h, -i.hourlyRate);
    assert h * i.hourlyRate < 0.0;
    var b := Compute(i).totalBrut;
    ProductPositive(i.urssafPct / 100.0, -b);
  }

  /** Sign of a product of positive reals. */
  lemma ProductPositive(a: real, b: real)
    requires 0.0 < a && 0.0 < b
    ensures 0.0 < a * b
  {
  }
}
