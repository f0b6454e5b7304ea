/** How the price formulas of the Unit, its form, the Cost Sheet and the
    recompute patches relate. Each variant keeps its own definition in its
    own module; these lemmas say where the variants agree and show one
    input where they do not. */
module Drift {
  import opened Wrappers
  import opened Frappe
  import opened Records
  import opened Pricing
  import UnitDoc
  import UnitForm
  import Patches
  import CostSheetDoc

  /** The Unit's rates as the doc-charges patch reads them from a record. */
  function PatchRates(u: Patches.StoredUnit, s: Settings, amenities: real, infra: real): UnitDoc.Rates
  {
    UnitDoc.Rates(Patches.Area(u), Flt(u.basicPricePerSft), Flt(u.floorRiseRate),
                  Flt(u.facingPremiumCharges), Flt(u.cornerPremiumCharges),
                  Flt(u.carParkingAmount), amenities, infra,
                  Patches.PatchGst(u, s), Patches.PatchTds(u, s))
  }

  /** The doc-charges patch and the Unit's own save agree on every figure for
      a unit whose documentation charge resolves to 0, whatever the
      amenities and infra rates (neither enters either formula). */
  lemma DocPatchMatchesUnitWithoutDocCharge(u: Patches.StoredUnit, s: Settings, amenities: real, infra: real)
    requires Patches.Area(u) > 0.0 && Patches.DocCharge(u, s) == 0.0
    ensures var v, w := UnitDoc.DynamicValues(PatchRates(u, s, amenities, infra)), Patches.DocChargeUpdate(u, s);
            && w.fullUnitValue == v.fullUnitValue
            && w.valueExcludingBp == v.valueExcludingBp
            && w.header == v.header
  {
    var r := PatchRates(u, s, amenities, infra);
    assert UnitDoc.Premiums(r) == Patches.DocPremiums(u);
    assert Flt(u.carParkingAmount) + Patches.DocCharge(u, s) == r.carParking;
  }

  /** A Cost Sheet priced at the Unit's base price and value excluding base
      price, with the same tax rates, carries the Unit's AOS header. */
  lemma CostSheetHeaderMatchesUnit(r: UnitDoc.Rates, s: Settings)
    requires r.area > 0.0
    requires r.gst == Or(s.gstRate, 5.0) && r.tds == Or(s.tdsRate, 1.0)
    ensures var v := UnitDoc.DynamicValues(r);
            CostSheetDoc.ComputeHeaderValues(Some(r.base), Some(r.area), Some(v.valueExcludingBp), s).header == v.header
  {
    var x := UnitDoc.DynamicValues(r).valueExcludingBp;
    UnitDoc.DynamicValuesHeader(r);
    CostSheetDoc.HeaderChain(r.base, r.area, x, r.gst, r.tds, s);
  }

  /** A Standard Cost Sheet takes the Unit's base price, so it carries the
      Unit's AOS header, and its full unit value, which is that AOS value, is
      within rounding of the Unit's full unit value. */
  lemma StandardCostSheetMatchesUnit(r: UnitDoc.Rates, unitBase: Option<real>, user: Option<real>, s: Settings)
    requires r.area > 0.0 && r.base == Flt(unitBase)
    requires r.gst == Or(s.gstRate, 5.0) && r.tds == Or(s.tdsRate, 1.0)
    ensures var v := UnitDoc.DynamicValues(r);
            var c := CostSheetDoc.ComputeHeaderValues(CostSheetDoc.TypedBasePrice("Standard", user, unitBase),
                                                      Some(r.area), Some(v.valueExcludingBp), s);
            && c.header == v.header
            && -0.015 < c.fullUnitValue - v.fullUnitValue < 0.015
  {
    assert CostSheetDoc.TypedBasePrice("Standard", user, unitBase) == Some(r.base);
    CostSheetHeaderMatchesUnit(r, s);
    UnitDoc.DynamicValuesBounds(r);
  }

  /** With car parking and the amenities and infra rates all 0 and a
      documentation charge on the unit, the car-park-free patch writes the
      figures the doc-charges patch wrote. */
  lemma CarParkFreeMatchesDocPatch(u: Patches.StoredUnit, s: Settings)
    requires Patches.Area(u) > 0.0
    requires Flt(u.carParkingAmount) == 0.0 && Flt(u.amenitiesChargesPerSft) == 0.0 && Flt(u.infraChargesPerSft) == 0.0
    requires Truthy(u.documentationCharges)
    ensures var v, w := Patches.DocChargeUpdate(u, s), Patches.CarParkFreeUpdate(u, s);
            && w.fullUnitValue == v.fullUnitValue
            && w.valueExcludingBp == v.valueExcludingBp
            && w.header == v.header
  {
    assert Patches.CarParkFreePremiums(u) == Patches.DocPremiums(u);
    assert Flt(u.documentationCharges) == Flt(u.carParkingAmount) + Patches.DocCharge(u, s);
  }

  /** Without a documentation charge on the unit the two patches part: for
      1000 sq ft with no premiums, the doc-charges patch falls back to the
      settings default of 100 and the car-park-free patch charges nothing. */
  lemma BlankDocChargeDrift(u: Patches.StoredUnit, s: Settings)
    requires u.salableArea == Some(1000.0) && u.documentationCharges.None?
    requires u.floorRiseRate.None? && u.facingPremiumCharges.None? && u.cornerPremiumCharges.None?
    requires u.carParkingAmount.None? && u.amenitiesChargesPerSft.None? && u.infraChargesPerSft.None?
    requires s.defaultDocumentationCharges == Some(100.0)
    ensures Patches.DocChargeUpdate(u, s).valueExcludingBp == 100.0
    ensures Patches.CarParkFreeUpdate(u, s).valueExcludingBp == 0.0
  {
    assert Patches.DocPremiums(u) == 0.0 && Patches.CarParkFreePremiums(u) == 0.0;
    assert Patches.DocCharge(u, s) == 100.0;
    Round2Cents(10000);
    assert 1000.0 * 0.0 + (0.0 + 100.0) == 10000 as real / 100.0;
    assert 1000.0 * 0.0 + 0.0 == 0.0;
    Round2Zero();
  }

  /** For a unit with no premiums, amenities, infra, floor rise or
      documentation charge, the form's unrounded full value is within
      rounding of the server's. */
  lemma FormMatchesServerForPlainUnit(d: UnitForm.UnitFormDoc, floorNumber: Option<int>, r: UnitDoc.Rates)
    requires r.area > 0.0 && Or(d.areaInSft, 0.0) == r.area && Or(d.basicPricePerSft, 0.0) == r.base
    requires Or(d.carParkingAmount, 0.0) == r.carParking
    requires r.rise == 0.0 && r.facing == 0.0 && r.corner == 0.0
    requires Or(d.infraChargesPerSft, 0.0) == 0.0 && Or(d.amenitiesChargesPerSft, 0.0) == 0.0
    requires Or(d.facingPremiumCharges, 0.0) == 0.0 && Or(d.cornerPremiumCharges, 0.0) == 0.0
    requires Or(d.documentationCharges, 0.0) == 0.0 && !d.isFloorRiseApplicable
    ensures -0.005 <= UnitForm.Recalculate(d, floorNumber).totals.fullUnitValue
                      - UnitDoc.DynamicValues(r).fullUnitValue < 0.005
  {
    UnitForm.RecalculateFull(d, floorNumber);
    assert UnitForm.Recalculate(d, floorNumber).totals.fullUnitValue == r.base * r.area + r.carParking;
    UnitDoc.DynamicValuesFull(r);
    assert r.area * (r.base + UnitDoc.Premiums(r)) == r.base * r.area by {
      assert UnitDoc.Premiums(r) == 0.0;
    }
  }

  /** Where the variants part: the form adds the facing premium once, as a
      flat amount, while the server charges it per square foot. For 1000 sq
      ft at 3000 with a facing premium of 50 and nothing else, the form shows
      3,000,050 and the server stores 3,050,000. */
  lemma FacingPremiumDrift(d: UnitForm.UnitFormDoc, floorNumber: Option<int>)
    requires d.areaInSft == Some(1000.0) && d.basicPricePerSft == Some(3000.0) && d.facingPremiumCharges == Some(50.0)
    requires d.infraChargesPerSft.None? && d.amenitiesChargesPerSft.None? && d.cornerPremiumCharges.None?
    requires d.carParkingAmount.None? && d.documentationCharges.None? && !d.isFloorRiseApplicable
    ensures UnitForm.Recalculate(d, floorNumber).totals.fullUnitValue == 3000050.0
    ensures UnitDoc.DynamicValues(UnitDoc.Rates(1000.0, 3000.0, 0.0, 50.0, 0.0, 0.0, 0.0, 0.0, 5.0, 1.0)).fullUnitValue
         == 3050000.0
  {
    var r := UnitDoc.Rates(1000.0, 3000.0, 0.0, 50.0, 0.0, 0.0, 0.0, 0.0, 5.0, 1.0);
    assert UnitDoc.Premiums(r) == 50.0;
    Round2Cents(305000000);
    assert 305000000 as real / 100.0 == 1000.0 * (3000.0 + 50.0) + 0.0;
  }
}
