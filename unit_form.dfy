/** The Unit form's client-side recalculation: the floor-rise rule and the
    totals. Unlike the server, facing and corner premiums are flat amounts,
    documentation charges are included and nothing is rounded. */
module UnitForm {
  import opened Wrappers
  import opened Frappe

  /** The fields of the Unit form that the recalculation reads. The form
      reads `area_in_sft`, not the `salable_area` that the server reads. */
  datatype UnitFormDoc = UnitFormDoc(
    areaInSft: Option<real>,
    basicPricePerSft: Option<real>,
    infraChargesPerSft: Option<real>,
    amenitiesChargesPerSft: Option<real>,
    facingPremiumCharges: Option<real>,
    cornerPremiumCharges: Option<real>,
    carParkingAmount: Option<real>,
    documentationCharges: Option<real>,
    gstRate: Option<real>,
    tdsRate: Option<real>,
    floorRiseRate: Option<real>,
    isFloorRiseApplicable: bool,
    floor: Option<string>)

  datatype FloorRise = FloorRise(effectiveRate: real, charges: real)

  /** The floor-rise rule: with floor rise applicable and a floor chosen,
      floors from the fifth up pay the rate once per floor above the fourth
      (a falsy rate means 20 per sq ft); otherwise nothing. */
  function FloorRiseFor(applicable: bool, floor: Option<string>, floorNumber: Option<int>, rate: Option<real>, area: real): (f: FloorRise)
    ensures !applicable || !Present(floor) ==> f == FloorRise(0.0, 0.0)
    ensures f.charges == f.effectiveRate * area
    ensures applicable && Present(floor) && floorNumber.Some? && floorNumber.value >= 5
            ==> f.effectiveRate == (floorNumber.value - 4) as real * Or(rate, 20.0)
    ensures floorNumber.None? || floorNumber.value < 5 ==> f == FloorRise(0.0, 0.0)
  {
    if applicable && Present(floor) then
      var n := if floorNumber.Some? then floorNumber.value else 0;
      var r := Or(rate, 20.0);
      if n >= 5 then FloorRise((n - 4) as real * r, (n - 4) as real * r * area)
      else FloorRise(0.0, 0.0)
    else FloorRise(0.0, 0.0)
  }

  /** With a non-negative rate, a higher floor never pays a lower floor-rise rate. */
  lemma FloorRiseMonotone(floor: Option<string>, low: int, high: int, rate: Option<real>, area: real)
    requires low <= high
    requires Or(rate, 20.0) >= 0.0
    ensures FloorRiseFor(true, floor, Some(low), rate, area).effectiveRate
         <= FloorRiseFor(true, floor, Some(high), rate, area).effectiveRate
  {
    var r := Or(rate, 20.0);
    if Present(floor) && low >= 5 {
      assert (high - 4) as real * r - (low - 4) as real * r == (high - low) as real * r;
      assert (high - low) as real * r >= 0.0;
    } else if Present(floor) && high >= 5 {
      assert (high - 4) as real * r >= 0.0;
    }
  }

  /** The totals the form sets from the components. */
  datatype Totals = Totals(
    fullUnitValue: real,
    valueExcludingBp: real,
    aosValue: real,
    aosValueGst: real,
    tds: real,
    netPayable: real)

  /** The figures the form sets: the informational amounts, the floor rise
      and the totals. */
  datatype FormValues = FormValues(
    infraChargesAmt: real,
    amenitiesChargesAmt: real,
    floorRise: FloorRise,
    totals: Totals)

  /** `calculate_totals`: full value is the sum of every component, value
      excluding base price is that sum without the base amount, the AOS
      value is the full value, and net payable adds GST and deducts TDS at
      the form's rates (5 % and 1 % when falsy), all unrounded. */
  function CalculateTotals(d: UnitFormDoc, base: real, infraAmt: real, amenitiesAmt: real, floorRise: real): (v: Totals)
    ensures v.valueExcludingBp == v.fullUnitValue - base
    ensures v.aosValue == v.fullUnitValue
    ensures v.aosValueGst == v.fullUnitValue * (100.0 + Or(d.gstRate, 5.0)) / 100.0
    ensures v.netPayable == v.fullUnitValue * (100.0 + Or(d.gstRate, 5.0) - Or(d.tdsRate, 1.0)) / 100.0
    ensures v.fullUnitValue == base + infraAmt + amenitiesAmt + floorRise
                               + Or(d.facingPremiumCharges, 0.0) + Or(d.cornerPremiumCharges, 0.0)
                               + Or(d.carParkingAmount, 0.0) + Or(d.documentationCharges, 0.0)
  {
    var full := base + infraAmt + amenitiesAmt + floorRise
                + Or(d.facingPremiumCharges, 0.0) + Or(d.cornerPremiumCharges, 0.0)
                + Or(d.carParkingAmount, 0.0) + Or(d.documentationCharges, 0.0);
    var exBp := infraAmt + amenitiesAmt + floorRise
                + Or(d.facingPremiumCharges, 0.0) + Or(d.cornerPremiumCharges, 0.0)
                + Or(d.carParkingAmount, 0.0) + Or(d.documentationCharges, 0.0);
    var gst := Or(d.gstRate, 5.0);
    var withGst := full * (1.0 + gst / 100.0);
    var tds := full * (Or(d.tdsRate, 1.0) / 100.0);
    Totals(full, exBp, full, withGst, tds, withGst - tds)
  }

  /** `recalculate`: the amounts per square foot times the area, the floor
      rise (from the Floor's number, fetched only when floor rise applies),
      then the totals. */
  function Recalculate(d: UnitFormDoc, floorNumber: Option<int>): (v: FormValues)
    ensures v.totals.valueExcludingBp == v.totals.fullUnitValue - Or(d.basicPricePerSft, 0.0) * Or(d.areaInSft, 0.0)
    ensures v.totals.aosValue == v.totals.fullUnitValue
    ensures v.totals.netPayable == v.totals.fullUnitValue * (100.0 + Or(d.gstRate, 5.0) - Or(d.tdsRate, 1.0)) / 100.0
    ensures !d.isFloorRiseApplicable || !Present(d.floor) ==> v.floorRise == FloorRise(0.0, 0.0)
    ensures v.floorRise == FloorRiseFor(d.isFloorRiseApplicable, d.floor, floorNumber, d.floorRiseRate, Or(d.areaInSft, 0.0))
    ensures v.infraChargesAmt == Or(d.infraChargesPerSft, 0.0) * Or(d.areaInSft, 0.0)
    ensures v.amenitiesChargesAmt == Or(d.amenitiesChargesPerSft, 0.0) * Or(d.areaInSft, 0.0)
  {
    var area := Or(d.areaInSft, 0.0);
    var base := Or(d.basicPricePerSft, 0.0) * area;
    var infraAmt := Or(d.infraChargesPerSft, 0.0) * area;
    var amenitiesAmt := Or(d.amenitiesChargesPerSft, 0.0) * area;
    var rise := FloorRiseFor(d.isFloorRiseApplicable, d.floor, floorNumber, d.floorRiseRate, area);
    var totals := CalculateTotals(d, base, infraAmt, amenitiesAmt, rise.charges);
    FormValues(infraAmt, amenitiesAmt, rise, totals)
  }

  /** The form's full unit value is the sum of its components: base price,
      infra and amenities times the area, the floor-rise charge and the
      flat facing, corner, car-parking and documentation amounts. */
  lemma RecalculateFull(d: UnitFormDoc, floorNumber: Option<int>)
    ensures var area := Or(d.areaInSft, 0.0);
            Recalculate(d, floorNumber).totals.fullUnitValue
            == Or(d.basicPricePerSft, 0.0) * area + Or(d.infraChargesPerSft, 0.0) * area
               + Or(d.amenitiesChargesPerSft, 0.0) * area
               + FloorRiseFor(d.isFloorRiseApplicable, d.floor, floorNumber, d.floorRiseRate, area).charges
               + Or(d.facingPremiumCharges, 0.0) + Or(d.cornerPremiumCharges, 0.0)
               + Or(d.carParkingAmount, 0.0) + Or(d.documentationCharges, 0.0)
  {
  }
}
