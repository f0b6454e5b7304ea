/** The Cost Sheet form script: its number parsing, the read-only rule for
    the base price, the header recalculation's zero branch, the schedule
    recalculation with rates inferred from the header, and the grand total. */
module CostSheetForm {
  import opened Wrappers
  import opened Frappe
  import opened Records
  import opened Pricing
  import CostSheetDoc

  /** What `parseFloat` / `parseInt` make of a field value: a number, or NaN
      for a blank or non-numeric value. */
  datatype Parsed = Number(x: real) | NaN

  /** The parse of a stored optional number. */
  function ParsedOf(v: Option<real>): Parsed
  {
    if v.Some? then Number(v.value) else NaN
  }

  /** The script's `flt`: the parsed number, 0 for NaN. */
  function JsFlt(p: Parsed): (r: real)
    ensures p.NaN? ==> r == 0.0
  {
    if p.NaN? then 0.0 else p.x
  }

  /** The script's `flt` and the server's agree on stored values. */
  lemma JsFltMatchesServer(v: Option<real>)
    ensures JsFlt(ParsedOf(v)) == Flt(v)
  {
  }

  /** The script's `cint`: base-10 `parseInt` keeps the integer part, that
      is it truncates toward zero, and NaN becomes 0. */
  function JsCint(p: Parsed): (r: int)
    ensures p.NaN? ==> r == 0
    ensures p.Number? && p.x >= 0.0 ==> 0 <= r && r as real <= p.x < r as real + 1.0
    ensures p.Number? && p.x < 0.0 ==> r <= 0 && r as real - 1.0 < p.x <= r as real
  {
    if p.NaN? then 0
    else if p.x >= 0.0 then p.x.Floor
    else -((-p.x).Floor)
  }

  /** `toggle_basic_price_editability`: the base price is editable only on
      a Negotiated sheet. */
  predicate BasicPriceReadOnly(costSheetType: string)
  {
    costSheetType != "Negotiated"
  }

  /** Where the form locks the base price, a Standard sheet's save ignores
      whatever base price the user entered; where the form leaves it open,
      a non-zero entry survives the save. */
  lemma ReadOnlyMatchesSave(costSheetType: string, user: Option<real>, other: Option<real>, unitBase: Option<real>)
    ensures costSheetType == "Standard" ==>
            BasicPriceReadOnly(costSheetType)
            && CostSheetDoc.TypedBasePrice(costSheetType, user, unitBase)
               == CostSheetDoc.TypedBasePrice(costSheetType, other, unitBase)
    ensures !BasicPriceReadOnly(costSheetType) && Truthy(user) ==>
            CostSheetDoc.TypedBasePrice(costSheetType, user, unitBase) == user
  {
  }

  /** The header fields the form shows. */
  datatype FormHeader = FormHeader(fullUnitValue: real, header: Header)

  /** `recalc_header_from_base`, on the already parsed area, base price and
      value excluding base price: with no area the six header figures
      become 0 on the form alone and the full unit value stays; otherwise
      the server preview's figures are taken, full unit value included. */
  function RecalcHeaderFromBase(area: real, base: real, exBp: real, current: FormHeader, s: Settings): (r: FormHeader)
    ensures area <= 0.0 ==> r == FormHeader(current.fullUnitValue, ZeroHeader)
    ensures area > 0.0 ==>
            r.header == CostSheetDoc.ComputeHeaderValues(Some(base), Some(area), Some(exBp), s).header
            && r.fullUnitValue == r.header.aosValue
  {
    if area <= 0.0 then FormHeader(current.fullUnitValue, ZeroHeader)
    else
      var v := CostSheetDoc.ComputeHeaderValues(Some(base), Some(area), Some(exBp), s);
      FormHeader(v.fullUnitValue, v.header)
  }

  /** The zero branch is the one place where the form and the server part
      ways: both zero the header, but the server preview also zeroes the
      full unit value while the form keeps the old one. */
  lemma ZeroBranchKeepsFullValue(area: real, base: real, exBp: real, current: FormHeader, s: Settings)
    requires area <= 0.0
    ensures RecalcHeaderFromBase(area, base, exBp, current, s).header
         == CostSheetDoc.ComputeHeaderValues(Some(base), Some(area), Some(exBp), s).header
    ensures RecalcHeaderFromBase(area, base, exBp, current, s).fullUnitValue
            != CostSheetDoc.ComputeHeaderValues(Some(base), Some(area), Some(exBp), s).fullUnitValue
            <==> current.fullUnitValue != 0.0
  {
  }

  /** The GST and TDS rates read back from the header: each amount as a
      percentage of the AOS value, or 5 and 1 when there is no AOS value. */
  function InferredRates(aos: real, aosGst: real, tdsAmount: real): (rates: (real, real))
    ensures aos > 0.0 ==> rates.0 * aos == aosGst * 100.0 && rates.1 * aos == tdsAmount * 100.0
    ensures aos <= 0.0 ==> rates == (5.0, 1.0)
  {
    if aos > 0.0 then ((aosGst / aos) * 100.0, (tdsAmount / aos) * 100.0) else (5.0, 1.0)
  }

  /** On a header the AOS chain produced, the inferred GST rate is the
      configured one up to the rounding of the GST amount: the error times
      the AOS value is at most half a rupee. */
  lemma {:induction false} InferredGstRateClose(aos: real, area: real, gst: real, tds: real)
    requires aos > 0.0 && area > 0.0
    ensures var h := AosHeader(aos, area, gst, tds);
            -0.5 < (InferredRates(h.aosValue, h.aosGst, h.tdsAmount).0 - gst) * aos <= 0.5
  {
    var h := AosHeader(aos, area, gst, tds);
    var rate := InferredRates(h.aosValue, h.aosGst, h.tdsAmount).0;
    assert h.aosValue == aos;
    assert h.aosGst == Round2(aos * gst / 100.0);
    assert rate * aos == h.aosGst * 100.0;
    assert (rate - gst) * aos == rate * aos - gst * aos;
  }

  /** One row as the form recomputes it: unrounded amounts. */
  function JsRow(d: ScheduleRow, aos: real, gstRate: real, tdsRate: real): (r: ScheduleRow)
    ensures r.(amount := d.amount, gstAmount := d.gstAmount, tdsAmount := d.tdsAmount, netPayable := d.netPayable) == d
  {
    var amount := aos * Flt(d.percentage) / 100.0;
    var gstAmount := amount * gstRate / 100.0;
    var tdsAmount := amount * tdsRate / 100.0;
    d.(amount := amount, gstAmount := gstAmount, tdsAmount := tdsAmount,
       netPayable := amount + gstAmount - tdsAmount)
  }

  /** The form's unrounded row amount is within half a paisa of the amount
      the save stores for the same AOS value. */
  lemma JsRowCloseToSave(d: ScheduleRow, aos: real, gst: real, tds: real, jsGst: real, jsTds: real)
    ensures -0.005 <= JsRow(d, aos, jsGst, jsTds).amount - CostSheetDoc.SpreadRow(d, aos, gst, tds).amount < 0.005
  {
    CostSheetDoc.SpreadRowBounds(d, aos, gst, tds);
  }

  /** `recalc_schedule_amounts`: every row in place, with the rates read
      back from the header. */
  method RecalcScheduleAmounts(rows: array<ScheduleRow>, aos: real, aosGst: real, tdsAmount: real)
    modifies rows
    ensures forall i :: 0 <= i < rows.Length ==>
              rows[i] == JsRow(old(rows[i]), aos, InferredRates(aos, aosGst, tdsAmount).0,
                               InferredRates(aos, aosGst, tdsAmount).1)
  {
    var rates := InferredRates(aos, aosGst, tdsAmount);
    var i := 0;
    while i < rows.Length
      invariant 0 <= i <= rows.Length
      invariant forall k :: 0 <= k < i ==> rows[k] == JsRow(old(rows[k]), aos, rates.0, rates.1)
      invariant forall k :: i <= k < rows.Length ==> rows[k] == old(rows[k])
    {
      rows[i] := JsRow(rows[i], aos, rates.0, rates.1);
      i := i + 1;
    }
  }

  /** The form's grand total: the header's AOS value with GST plus the
      before-registration total, blanks counting as 0. */
  function GrandTotal(aosValueGst: Option<real>, beforeRegistrationTotal: Option<real>): (r: real)
    ensures r - Flt(beforeRegistrationTotal) == Flt(aosValueGst)
  {
    Flt(aosValueGst) + Flt(beforeRegistrationTotal)
  }

  /** The form recomputes the header from a Cost Sheet's base price, area
      and value excluding base price (numbers once the form has read them),
      then adds the server's before-registration total for the same area:
      the result is the grand total a save of that document stores
      (`CostSheet.Validate` ensures `Priced`, whose last conjunct is this
      `SavedGrandTotal`). */
  lemma GrandTotalMatchesSave(area: real, base: real, exBp: real, current: FormHeader, s: Settings)
    ensures GrandTotal(Some(RecalcHeaderFromBase(area, base, exBp, current, s).header.aosValueGst),
                       Some(CostSheetDoc.ComputeBeforeRegistration(Some(area), s).total))
            == CostSheetDoc.SavedGrandTotal(CostSheetDoc.ComputeHeaderValues(Some(base), Some(area), Some(exBp), s).header,
                                            CostSheetDoc.ComputeBeforeRegistration(Some(area), s))
  {
  }
}
