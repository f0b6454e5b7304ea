/** The one-off data patches that recompute or backfill the stored figures
    of every Unit record. Each patch reads the Unit table, computes the new
    figures per record and writes them back; here the table is a sequence
    of records and a patch returns the table as it stands after its writes,
    position by position, together with its `updated` counter. */
module Patches {
  import opened Wrappers
  import opened Frappe
  import opened Records
  import opened Pricing

  /** A Unit record as the patches see it: the stored inputs (every one may
      be blank) and the stored figures they overwrite. */
  datatype StoredUnit = StoredUnit(
    name: string,
    salableArea: Option<real>,
    basicPricePerSft: Option<real>,
    floorRiseRate: Option<real>,
    facingPremiumCharges: Option<real>,
    cornerPremiumCharges: Option<real>,
    carParkingAmount: Option<real>,
    documentationCharges: Option<real>,
    amenitiesChargesPerSft: Option<real>,
    infraChargesPerSft: Option<real>,
    gstRate: Option<real>,
    tdsRate: Option<real>,
    unitBaseAmount: real,
    fullUnitValue: real,
    valueExcludingBp: real,
    header: Header,
    facingPremiumAmount: real,
    cornerPremiumAmount: real)

  /** `flt(u.salable_area or 0)`. */
  function Area(u: StoredUnit): real
  {
    Flt(u.salableArea)
  }

  /** The number of records with a positive area: the ones the recompute
      patches write. */
  function CountPositive(units: seq<StoredUnit>): (n: nat)
    ensures n <= |units|
  {
    if units == [] then 0
    else CountPositive(units[..|units| - 1]) + (if Area(units[|units| - 1]) > 0.0 then 1 else 0)
  }

  /** `u.gst_rate or settings.gst_rate or 5` and the TDS counterpart. */
  function PatchGst(u: StoredUnit, s: Settings): real
  {
    Or(u.gstRate, Or(s.gstRate, 5.0))
  }

  function PatchTds(u: StoredUnit, s: Settings): real
  {
    Or(u.tdsRate, Or(s.tdsRate, 1.0))
  }

  // ---------------- update_unit_value_with_doc_charges ----------------

  /** A blank or zero documentation charge falls back to the settings
      default (itself 0 when blank). */
  function DocCharge(u: StoredUnit, s: Settings): (d: real)
    ensures Truthy(u.documentationCharges) ==> d == u.documentationCharges.value
    ensures !Truthy(u.documentationCharges) ==> d == Flt(s.defaultDocumentationCharges)
  {
    Or(u.documentationCharges, Flt(s.defaultDocumentationCharges))
  }

  /** The record the doc-charges patch writes for a unit with a positive
      area: the base amount, value excluding base price with car parking and
      documentation charges as flat amounts, full unit value, the AOS
      header, and the documentation charge it used. Amenities and infra
      rates are read but enter no figure. Nothing else changes. */
  function DocChargeUpdate(u: StoredUnit, s: Settings): (v: StoredUnit)
    requires Area(u) > 0.0
    ensures v.(unitBaseAmount := u.unitBaseAmount, fullUnitValue := u.fullUnitValue,
               valueExcludingBp := u.valueExcludingBp, header := u.header,
               documentationCharges := u.documentationCharges) == u
    ensures v.documentationCharges == Some(DocCharge(u, s))
    ensures v.unitBaseAmount == BaseAmount(Area(u), Flt(u.basicPricePerSft))
  {
    var f := Recompute(Area(u), Flt(u.basicPricePerSft), DocPremiums(u),
                       Flt(u.carParkingAmount) + DocCharge(u, s), PatchGst(u, s), PatchTds(u, s));
    u.(unitBaseAmount := BaseAmount(Area(u), Flt(u.basicPricePerSft)), fullUnitValue := f.full, valueExcludingBp := f.exBp,
       header := f.header, documentationCharges := Some(DocCharge(u, s)))
  }

  /** The doc-charges figures: value excluding base price is the per-square-
      foot premiums times the area plus car parking and the documentation
      charge, full unit value adds the base price times the area, and the
      header is the AOS chain on a value within rounding of the full unit
      value, with the unit's own tax rates falling back to the settings. */
  lemma DocChargeFigures(u: StoredUnit, s: Settings)
    requires Area(u) > 0.0
    ensures var v := DocChargeUpdate(u, s);
            && -0.01 < v.fullUnitValue - v.valueExcludingBp - Area(u) * Flt(u.basicPricePerSft) < 0.01
            && -0.005 < v.valueExcludingBp - (Area(u) * DocPremiums(u) + Flt(u.carParkingAmount) + DocCharge(u, s)) <= 0.005
            && -0.015 < v.header.aosValue - v.fullUnitValue < 0.015
            && v.header == AosHeader(v.header.aosValue, Area(u), PatchGst(u, s), PatchTds(u, s))
  {
    RecomputeBounds(Area(u), Flt(u.basicPricePerSft), DocPremiums(u),
                    Flt(u.carParkingAmount) + DocCharge(u, s), PatchGst(u, s), PatchTds(u, s));
    RecomputeHeader(Area(u), Flt(u.basicPricePerSft), DocPremiums(u),
                    Flt(u.carParkingAmount) + DocCharge(u, s), PatchGst(u, s), PatchTds(u, s));
  }

  /** Floor rise, facing and corner, all per square foot. */
  function DocPremiums(u: StoredUnit): real
  {
    Flt(u.floorRiseRate) + Flt(u.facingPremiumCharges) + Flt(u.cornerPremiumCharges)
  }

  /** The doc-charges figures do not depend on the amenities or infra rate. */
  lemma DocChargeIgnoresAmenities(u: StoredUnit, s: Settings, amenities: Option<real>, infra: Option<real>)
    requires Area(u) > 0.0
    ensures var v, v' := DocChargeUpdate(u, s), DocChargeUpdate(u.(amenitiesChargesPerSft := amenities, infraChargesPerSft := infra), s);
            && v'.unitBaseAmount == v.unitBaseAmount && v'.fullUnitValue == v.fullUnitValue
            && v'.valueExcludingBp == v.valueExcludingBp && v'.header == v.header
            && v'.documentationCharges == v.documentationCharges
  {
    var u' := u.(amenitiesChargesPerSft := amenities, infraChargesPerSft := infra);
    assert Area(u') == Area(u) && DocPremiums(u') == DocPremiums(u) && DocCharge(u', s) == DocCharge(u, s);
    assert PatchGst(u', s) == PatchGst(u, s) && PatchTds(u', s) == PatchTds(u, s);
    assert u'.basicPricePerSft == u.basicPricePerSft && u'.carParkingAmount == u.carParkingAmount;
    var f := Recompute(Area(u), Flt(u.basicPricePerSft), DocPremiums(u),
                       Flt(u.carParkingAmount) + DocCharge(u, s), PatchGst(u, s), PatchTds(u, s));
    var f' := Recompute(Area(u'), Flt(u'.basicPricePerSft), DocPremiums(u'),
                        Flt(u'.carParkingAmount) + DocCharge(u', s), PatchGst(u', s), PatchTds(u', s));
    assert f' == f;
  }

  /** The fallback is written back: running the patch again on its own
      output finds a documentation charge and uses it. */
  lemma DocChargeFallbackStored(u: StoredUnit, s: Settings, s': Settings)
    requires Area(u) > 0.0
    requires Truthy(Some(DocCharge(u, s)))
    ensures DocCharge(DocChargeUpdate(u, s), s') == DocCharge(u, s)
  {
  }

  /** `execute` of the doc-charges patch: records with no positive area are
      skipped and not counted; every other record is rewritten. */
  method DocChargesPatch(units: seq<StoredUnit>, s: Settings) returns (table: seq<StoredUnit>, updated: nat)
    ensures |table| == |units|
    ensures forall i :: 0 <= i < |units| ==>
              table[i] == (if Area(units[i]) > 0.0 then DocChargeUpdate(units[i], s) else units[i])
    ensures updated == CountPositive(units) <= |units|
  {
    table := units;
    updated := 0;
    var i := 0;
    while i < |units|
      invariant 0 <= i <= |units| && |table| == |units|
      invariant forall j :: 0 <= j < i ==>
                  table[j] == (if Area(units[j]) > 0.0 then DocChargeUpdate(units[j], s) else units[j])
      invariant forall j :: i <= j < |units| ==> table[j] == units[j]
      invariant updated == CountPositive(units[..i])
    {
      assert units[..i + 1][..i] == units[..i];
      var u := units[i];
      if Area(u) <= 0.0 {
        i := i + 1;
        continue;
      }
      table := table[i := DocChargeUpdate(u, s)];
      updated := updated + 1;
      i := i + 1;
    }
    assert units[..i] == units;
  }

  // ---------------- update_value_excluding_bp_without_car_park ----------------

  /** The record the car-park-free patch writes for a unit with a positive
      area: amenities and infra are per-square-foot premiums, documentation
      charges a flat amount with no settings fallback, and car parking
      enters no figure. Only the eight figures change. */
  function CarParkFreeUpdate(u: StoredUnit, s: Settings): (v: StoredUnit)
    requires Area(u) > 0.0
    ensures v.(fullUnitValue := u.fullUnitValue, valueExcludingBp := u.valueExcludingBp, header := u.header) == u
  {
    var f := Recompute(Area(u), Flt(u.basicPricePerSft), CarParkFreePremiums(u),
                       Flt(u.documentationCharges), PatchGst(u, s), PatchTds(u, s));
    u.(fullUnitValue := f.full, valueExcludingBp := f.exBp, header := f.header)
  }

  /** The car-park-free figures: value excluding base price is the five
      per-square-foot premiums times the area plus the documentation
      charge, with car parking left out; full unit value adds the base
      price times the area; the header is the AOS chain on a value within
      rounding of the full unit value. */
  lemma CarParkFreeFigures(u: StoredUnit, s: Settings)
    requires Area(u) > 0.0
    ensures var v := CarParkFreeUpdate(u, s);
            && -0.01 < v.fullUnitValue - v.valueExcludingBp - Area(u) * Flt(u.basicPricePerSft) < 0.01
            && -0.005 < v.valueExcludingBp - (Area(u) * CarParkFreePremiums(u) + Flt(u.documentationCharges)) <= 0.005
            && -0.015 < v.header.aosValue - v.fullUnitValue < 0.015
            && v.header == AosHeader(v.header.aosValue, Area(u), PatchGst(u, s), PatchTds(u, s))
  {
    RecomputeBounds(Area(u), Flt(u.basicPricePerSft), CarParkFreePremiums(u),
                    Flt(u.documentationCharges), PatchGst(u, s), PatchTds(u, s));
    RecomputeHeader(Area(u), Flt(u.basicPricePerSft), CarParkFreePremiums(u),
                    Flt(u.documentationCharges), PatchGst(u, s), PatchTds(u, s));
  }

  /** Floor rise, facing, corner, amenities and infra, all per square foot. */
  function CarParkFreePremiums(u: StoredUnit): real
  {
    Flt(u.floorRiseRate) + Flt(u.facingPremiumCharges) + Flt(u.cornerPremiumCharges)
    + Flt(u.amenitiesChargesPerSft) + Flt(u.infraChargesPerSft)
  }

  /** Car parking no longer enters the value excluding base price. */
  lemma CarParkFreeIgnoresCarParking(u: StoredUnit, s: Settings, carParking: Option<real>)
    requires Area(u) > 0.0
    ensures CarParkFreeUpdate(u.(carParkingAmount := carParking), s)
         == CarParkFreeUpdate(u, s).(carParkingAmount := carParking)
  {
  }

  /** `execute` of the car-park-free patch: an empty table returns at once;
      otherwise records with no positive area are skipped and not counted. */
  method CarParkFreePatch(units: seq<StoredUnit>, s: Settings) returns (table: seq<StoredUnit>, updated: nat)
    ensures |table| == |units|
    ensures forall i :: 0 <= i < |units| ==>
              table[i] == (if Area(units[i]) > 0.0 then CarParkFreeUpdate(units[i], s) else units[i])
    ensures updated == CountPositive(units) <= |units|
  {
    if |units| == 0 {
      return units, 0;
    }
    table := units;
    updated := 0;
    var i := 0;
    while i < |units|
      invariant 0 <= i <= |units| && |table| == |units|
      invariant forall j :: 0 <= j < i ==>
                  table[j] == (if Area(units[j]) > 0.0 then CarParkFreeUpdate(units[j], s) else units[j])
      invariant forall j :: i <= j < |units| ==> table[j] == units[j]
      invariant updated == CountPositive(units[..i])
    {
      assert units[..i + 1][..i] == units[..i];
      var u := units[i];
      if Area(u) <= 0.0 {
        i := i + 1;
        continue;
      }
      table := table[i := CarParkFreeUpdate(u, s)];
      updated := updated + 1;
      i := i + 1;
    }
    assert units[..i] == units;
  }

  // ---------------- backfill_facing_and_corner_premium_values ----------------

  /** The facing and corner amounts: each rate times the area, to cents.
      Only those two figures change. */
  function FacingCornerUpdate(u: StoredUnit): (v: StoredUnit)
    ensures v.(facingPremiumAmount := u.facingPremiumAmount, cornerPremiumAmount := u.cornerPremiumAmount) == u
    ensures -0.005 < v.facingPremiumAmount - Flt(u.facingPremiumCharges) * Area(u) <= 0.005
    ensures -0.005 < v.cornerPremiumAmount - Flt(u.cornerPremiumCharges) * Area(u) <= 0.005
  {
    u.(facingPremiumAmount := Round2(Flt(u.facingPremiumCharges) * Area(u)),
       cornerPremiumAmount := Round2(Flt(u.cornerPremiumCharges) * Area(u)))
  }

  /** `execute` of the facing/corner backfill: without both target columns
      nothing is written; otherwise records with a positive area get the two
      amounts and are counted. */
  method BackfillFacingAndCorner(hasFacingColumn: bool, hasCornerColumn: bool, units: seq<StoredUnit>)
    returns (table: seq<StoredUnit>, updated: nat)
    ensures !(hasFacingColumn && hasCornerColumn) ==> table == units && updated == 0
    ensures hasFacingColumn && hasCornerColumn ==>
              && |table| == |units|
              && (forall i :: 0 <= i < |units| ==>
                    table[i] == (if Area(units[i]) > 0.0 then FacingCornerUpdate(units[i]) else units[i]))
              && updated == CountPositive(units)
  {
    if !(hasFacingColumn && hasCornerColumn) {
      return units, 0;
    }
    if |units| == 0 {
      return units, 0;
    }
    table := units;
    updated := 0;
    var i := 0;
    while i < |units|
      invariant 0 <= i <= |units| && |table| == |units|
      invariant forall j :: 0 <= j < i ==>
                  table[j] == (if Area(units[j]) > 0.0 then FacingCornerUpdate(units[j]) else units[j])
      invariant forall j :: i <= j < |units| ==> table[j] == units[j]
      invariant updated == CountPositive(units[..i])
    {
      assert units[..i + 1][..i] == units[..i];
      var u := units[i];
      if Area(u) <= 0.0 {
        i := i + 1;
        continue;
      }
      table := table[i := FacingCornerUpdate(u)];
      updated := updated + 1;
      i := i + 1;
    }
    assert units[..i] == units;
  }

  // ---------------- backfill_unit_base_amount_values ----------------

  /** The base amount: base price times area, to cents, with no area guard.
      Only that figure changes, and it is the base amount the doc-charges
      patch stores (`DocChargeUpdate`), although the backfill multiplies
      in the other order. */
  function BaseAmountUpdate(u: StoredUnit): (v: StoredUnit)
    ensures v == u.(unitBaseAmount := BaseAmount(Area(u), Flt(u.basicPricePerSft)))
    ensures -0.005 < v.unitBaseAmount - Flt(u.basicPricePerSft) * Area(u) <= 0.005
    ensures Area(u) == 0.0 ==> v.unitBaseAmount == 0.0
  {
    Round2Zero();
    RoundedProductCommutes(Area(u), Flt(u.basicPricePerSft));
    u.(unitBaseAmount := Round2(Flt(u.basicPricePerSft) * Area(u)))
  }

  /** `execute` of the base-amount backfill: without the column nothing is
      written; otherwise every record is written and counted. */
  method BackfillUnitBaseAmount(hasColumn: bool, units: seq<StoredUnit>) returns (table: seq<StoredUnit>, updated: nat)
    ensures !hasColumn ==> table == units && updated == 0
    ensures hasColumn ==>
              && |table| == |units| == updated
              && forall i :: 0 <= i < |units| ==> table[i] == BaseAmountUpdate(units[i])
  {
    if !hasColumn {
      return units, 0;
    }
    if |units| == 0 {
      return units, 0;
    }
    table := units;
    updated := 0;
    var i := 0;
    while i < |units|
      invariant 0 <= i <= |units| && |table| == |units| && updated == i
      invariant forall j :: 0 <= j < i ==> table[j] == BaseAmountUpdate(units[j])
    {
      table := table[i := BaseAmountUpdate(units[i])];
      updated := updated + 1;
      i := i + 1;
    }
  }

  lemma RoundedProductCommutes(area: real, base: real)
    ensures Round2(base * area) == BaseAmount(area, base)
  {
    assert base * area == area * base;
  }
}
