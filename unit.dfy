/** The Unit document: hierarchy copy, defaulting from settings, and the price
    breakdown recomputed on every save. */
module UnitDoc {
  import opened Wrappers
  import opened Frappe
  import opened Records
  import opened Pricing

  /** The eleven figures the Unit derives on save. */
  datatype UnitValues = UnitValues(
    amenitiesChargesAmt: real,
    infraChargesAmt: real,
    floorRiseChargesAmt: real,
    fullUnitValue: real,
    valueExcludingBp: real,
    header: Header)

  const ZeroValues := UnitValues(0.0, 0.0, 0.0, 0.0, 0.0, ZeroHeader)

  /** The pricing inputs once read through `flt` and the tax defaults. */
  datatype Rates = Rates(
    area: real,
    base: real,
    rise: real,
    facing: real,
    corner: real,
    carParking: real,
    amenities: real,
    infra: real,
    gst: real,
    tds: real)

  /** Floor rise, facing and corner: the per-square-foot premiums that
      enter value excluding base price. */
  function Premiums(r: Rates): real
  {
    r.rise + r.facing + r.corner
  }

  /** The breakdown of unit.py. Facing and corner are per-square-foot rates
      here and car parking is a flat amount inside value excluding base
      price; amenities, infra and floor-rise amounts are the rates times the
      area. */
  function DynamicValues(r: Rates): (v: UnitValues)
    ensures r.area <= 0.0 ==> v == ZeroValues
  {
    if r.area <= 0.0 then ZeroValues
    else
      var f := Recompute(r.area, r.base, Premiums(r), r.carParking, r.gst, r.tds);
      UnitValues(PerSft(r.amenities, r.area), PerSft(r.infra, r.area), PerSft(r.rise, r.area), f.full, f.exBp, f.header)
  }

  /** What the figures mean together: full unit value and value excluding
      base price differ by the base amount, the AOS value equals the full
      unit value, and value excluding base price is the premiums times the
      area plus car parking, all up to the rounding of each figure to
      cents. */
  lemma DynamicValuesBounds(r: Rates)
    requires r.area > 0.0
    ensures var v := DynamicValues(r);
            && -0.01 < v.fullUnitValue - v.valueExcludingBp - r.area * r.base < 0.01
            && -0.015 < v.header.aosValue - v.fullUnitValue < 0.015
            && -0.005 < v.valueExcludingBp - (r.area * Premiums(r) + r.carParking) <= 0.005
  {
    RecomputeBounds(r.area, r.base, Premiums(r), r.carParking, r.gst, r.tds);
  }

  /** The informational amounts are their rates times the area, to cents;
      the floor-rise amount is informational only and is not added again. */
  lemma InformationalAmounts(r: Rates)
    requires r.area > 0.0
    ensures var v := DynamicValues(r);
            && -0.005 < v.amenitiesChargesAmt - r.amenities * r.area <= 0.005
            && -0.005 < v.infraChargesAmt - r.infra * r.area <= 0.005
            && -0.005 < v.floorRiseChargesAmt - r.rise * r.area <= 0.005
  {
    PerSftBounds(r.amenities, r.area);
    PerSftBounds(r.infra, r.area);
    PerSftBounds(r.rise, r.area);
  }

  /** The full unit value is the area times base price plus premiums, plus
      car parking, to cents. */
  lemma DynamicValuesFull(r: Rates)
    requires r.area > 0.0
    ensures -0.005 < DynamicValues(r).fullUnitValue - (r.area * (r.base + Premiums(r)) + r.carParking) <= 0.005
  {
    RecomputeBounds(r.area, r.base, Premiums(r), r.carParking, r.gst, r.tds);
  }

  /** The header is the AOS chain on base price times area plus value
      excluding base price, to cents. */
  lemma DynamicValuesHeader(r: Rates)
    requires r.area > 0.0
    ensures var v := DynamicValues(r);
            v.header == AosHeader(AosValue(r.base, r.area, v.valueExcludingBp), r.area, r.gst, r.tds)
  {
    RecomputeHeader(r.area, r.base, Premiums(r), r.carParking, r.gst, r.tds);
  }

  /** A worked example: 1000 sq ft at 3000 per sq ft,
      no premiums, GST 5 %, TDS 1 %. */
  lemma WorkedExample()
    ensures DynamicValues(Rates(1000.0, 3000.0, 0.0, 0.0, 0.0, 0.0, 0.0, 0.0, 5.0, 1.0))
         == UnitValues(0.0, 0.0, 0.0, 3000000.0, 0.0,
                       Header(3000000.0, 150000.0, 3150000.0, 30000.0, 3120000.0, 3120.0))
  {
    Round2Zero();
    Round2Cents(300000000);
    Round2Cents(15000000);
    Round2Cents(315000000);
    Round2Cents(3000000);
    Round2Cents(312000000);
    Round2Cents(312000);
  }

  /** Fill a rate from settings only when it is blank; an explicit 0 stays. */
  function FillBlank(current: Option<real>, setting: Option<real>): Option<real>
  {
    if current.None? then Some(Or(setting, 0.0)) else current
  }

  /** After defaulting, a second defaulting pass changes nothing, whatever
      the settings are by then. */
  lemma FillBlankIdempotent(current: Option<real>, s1: Option<real>, s2: Option<real>)
    ensures FillBlank(current, s1).Some?
    ensures FillBlank(FillBlank(current, s1), s2) == FillBlank(current, s1)
    ensures current.Some? ==> FillBlank(current, s1) == current
  {
  }

  /** The seven rates a user may leave blank, as entered. */
  datatype EnteredRates = EnteredRates(
    base: Option<real>, rise: Option<real>, facing: Option<real>, corner: Option<real>,
    carParking: Option<real>, amenities: Option<real>, infra: Option<real>)

  /** `apply_defaults` on the entered rates: each blank one is taken from the
      settings, each entered one (0 included) is kept. */
  function Defaulted(e: EnteredRates, s: Settings): EnteredRates
  {
    EnteredRates(FillBlank(e.base, s.basePricePerSft), FillBlank(e.rise, s.floorRiseRate),
                 FillBlank(e.facing, s.facingPremiumCharges), FillBlank(e.corner, s.cornerPremiumCharges),
                 FillBlank(e.carParking, s.carParkingAmount), FillBlank(e.amenities, s.amenitiesChargesPerSft),
                 FillBlank(e.infra, s.infraChargesPerSft))
  }

  /** Defaulting twice is defaulting once: after the first pass no rate is
      blank, so later settings no longer matter. */
  lemma DefaultedIdempotent(e: EnteredRates, s1: Settings, s2: Settings)
    ensures Defaulted(Defaulted(e, s1), s2) == Defaulted(e, s1)
  {
    FillBlankIdempotent(e.base, s1.basePricePerSft, s2.basePricePerSft);
    FillBlankIdempotent(e.rise, s1.floorRiseRate, s2.floorRiseRate);
    FillBlankIdempotent(e.facing, s1.facingPremiumCharges, s2.facingPremiumCharges);
    FillBlankIdempotent(e.corner, s1.cornerPremiumCharges, s2.cornerPremiumCharges);
    FillBlankIdempotent(e.carParking, s1.carParkingAmount, s2.carParkingAmount);
    FillBlankIdempotent(e.amenities, s1.amenitiesChargesPerSft, s2.amenitiesChargesPerSft);
    FillBlankIdempotent(e.infra, s1.infraChargesPerSft, s2.infraChargesPerSft);
  }

  /** A unit's place in the hierarchy: block, project and floor number. */
  datatype Location = Location(block: Option<string>, project: Option<string>, floorNumber: Option<int>)

  /** The selected Floor, if any, exists, and so does its Block, if it names one. */
  predicate FloorResolves(floorName: Option<string>, floors: map<string, Floor>, blocks: map<string, BlockRecord>)
  {
    Present(floorName) ==>
      floorName.value in floors
      && (Present(floors[floorName.value].block) ==> floors[floorName.value].block.value in blocks)
  }

  /** `set_hierarchy`: the Floor's block, when it names one, and that
      Block's project, when it has one, replace the current ones; the
      floor number becomes the Floor's, 0 when it has none. Without a
      Floor nothing changes. */
  function Placed(floorName: Option<string>, floors: map<string, Floor>, blocks: map<string, BlockRecord>,
                  current: Location): Location
    requires FloorResolves(floorName, floors, blocks)
  {
    if !Present(floorName) then current
    else
      var f := floors[floorName.value];
      Location(if Present(f.block) then f.block else current.block,
               if Present(f.block) && Present(blocks[f.block.value].project)
               then blocks[f.block.value].project else current.project,
               if f.floorNumber.Some? then f.floorNumber else Some(0))
  }

  class Unit {
    var floorName: Option<string>
    var block: Option<string>
    var project: Option<string>
    var floorNumber: Option<int>
    var status: Status

    var salableArea: Option<real>
    var basicPricePerSft: Option<real>
    var floorRiseRate: Option<real>
    var facingPremiumCharges: Option<real>
    var cornerPremiumCharges: Option<real>
    var carParkingAmount: Option<real>
    var amenitiesChargesPerSft: Option<real>
    var infraChargesPerSft: Option<real>
    var gstRate: Option<real>
    var tdsRate: Option<real>

    var amenitiesChargesAmt: real
    var infraChargesAmt: real
    var floorRiseChargesAmt: real
    var fullUnitValue: real
    var valueExcludingBp: real
    var aosValue: real
    var aosGst: real
    var aosValueGst: real
    var tdsAmount: real
    var netPayable: real
    var effectiveRatePerSft: real

    /** The inputs as calculate_dynamic_fields reads them: blanks are 0, and
        a falsy GST or TDS rate is 5 % or 1 %. */
    function Inputs(): Rates
      reads this`salableArea, this`basicPricePerSft, this`floorRiseRate, this`facingPremiumCharges,
            this`cornerPremiumCharges, this`carParkingAmount, this`amenitiesChargesPerSft,
            this`infraChargesPerSft, this`gstRate, this`tdsRate
    {
      Rates(Flt(salableArea), Flt(basicPricePerSft), Flt(floorRiseRate),
            Flt(facingPremiumCharges), Flt(cornerPremiumCharges), Flt(carParkingAmount),
            Flt(amenitiesChargesPerSft), Flt(infraChargesPerSft),
            Or(gstRate, 5.0), Or(tdsRate, 1.0))
    }

    function Entered(): EnteredRates
      reads this`basicPricePerSft, this`floorRiseRate, this`facingPremiumCharges, this`cornerPremiumCharges,
            this`carParkingAmount, this`amenitiesChargesPerSft, this`infraChargesPerSft
    {
      EnteredRates(basicPricePerSft, floorRiseRate, facingPremiumCharges, cornerPremiumCharges,
                   carParkingAmount, amenitiesChargesPerSft, infraChargesPerSft)
    }

    function Located(): Location
      reads this`block, this`project, this`floorNumber
    {
      Location(block, project, floorNumber)
    }

    /** The derived figures as stored on the document. */
    function Values(): UnitValues
      reads this`amenitiesChargesAmt, this`infraChargesAmt, this`floorRiseChargesAmt,
            this`fullUnitValue, this`valueExcludingBp, this`aosValue, this`aosGst,
            this`aosValueGst, this`tdsAmount, this`netPayable, this`effectiveRatePerSft
    {
      UnitValues(amenitiesChargesAmt, infraChargesAmt, floorRiseChargesAmt,
                 fullUnitValue, valueExcludingBp,
                 Header(aosValue, aosGst, aosValueGst, tdsAmount, netPayable, effectiveRatePerSft))
    }

    /** Copy block, project and floor number from the selected Floor and its
        Block. A missing Floor or Block is an error that aborts the save, so
        the document is left as it was. */
    method SetHierarchy(floors: map<string, Floor>, blocks: map<string, BlockRecord>) returns (r: Outcome<string>)
      modifies this`block, this`project, this`floorNumber
      ensures !Present(floorName) ==> r == Pass && unchanged(this)
      ensures r.Fail? ==> unchanged(this)
      ensures r.Fail? <==> !FloorResolves(floorName, floors, blocks)
      ensures r == Pass ==> Located() == Placed(floorName, floors, blocks, old(Located()))
    {
      if !Present(floorName) {
        return Pass;
      }
      if floorName.value !in floors {
        return Fail("Floor not found");
      }
      var f := floors[floorName.value];
      if Present(f.block) {
        if f.block.value !in blocks {
          return Fail("Block not found");
        }
        block := f.block;
        var b := blocks[f.block.value];
        if Present(b.project) {
          project := b.project;
        }
      }
      floorNumber := if f.floorNumber.Some? then f.floorNumber else Some(0);
      r := Pass;
    }

    /** Fill each blank rate from the settings (a falsy setting gives 0) and
        always take the GST and TDS rates from the settings. */
    method ApplyDefaults(s: Settings)
      modifies this`basicPricePerSft, this`floorRiseRate, this`facingPremiumCharges,
               this`cornerPremiumCharges, this`carParkingAmount, this`amenitiesChargesPerSft,
               this`infraChargesPerSft, this`gstRate, this`tdsRate
      ensures Entered() == Defaulted(old(Entered()), s)
      ensures gstRate == s.gstRate && tdsRate == s.tdsRate
    {
      basicPricePerSft := FillBlank(basicPricePerSft, s.basePricePerSft);
      floorRiseRate := FillBlank(floorRiseRate, s.floorRiseRate);
      facingPremiumCharges := FillBlank(facingPremiumCharges, s.facingPremiumCharges);
      cornerPremiumCharges := FillBlank(cornerPremiumCharges, s.cornerPremiumCharges);
      carParkingAmount := FillBlank(carParkingAmount, s.carParkingAmount);
      amenitiesChargesPerSft := FillBlank(amenitiesChargesPerSft, s.amenitiesChargesPerSft);
      infraChargesPerSft := FillBlank(infraChargesPerSft, s.infraChargesPerSft);
      gstRate := s.gstRate;
      tdsRate := s.tdsRate;
    }

    /** Overwrite the eleven derived figures from the current inputs. */
    method CalculateDynamicFields()
      modifies this`amenitiesChargesAmt, this`infraChargesAmt, this`floorRiseChargesAmt,
               this`fullUnitValue, this`valueExcludingBp, this`aosValue, this`aosGst,
               this`aosValueGst, this`tdsAmount, this`netPayable, this`effectiveRatePerSft
      ensures Values() == DynamicValues(Inputs())
      ensures Located() == old(Located()) && Entered() == old(Entered())
    {
      var v := DynamicValues(Inputs());
      ghost var i := Inputs();
      Store(v);
      assert Inputs() == i;
    }

    /** Write one set of derived figures. */
    method Store(v: UnitValues)
      modifies this`amenitiesChargesAmt, this`infraChargesAmt, this`floorRiseChargesAmt,
               this`fullUnitValue, this`valueExcludingBp, this`aosValue, this`aosGst,
               this`aosValueGst, this`tdsAmount, this`netPayable, this`effectiveRatePerSft
      ensures Values() == v
    {
      amenitiesChargesAmt, infraChargesAmt, floorRiseChargesAmt := v.amenitiesChargesAmt, v.infraChargesAmt, v.floorRiseChargesAmt;
      fullUnitValue, valueExcludingBp := v.fullUnitValue, v.valueExcludingBp;
      aosValue, aosGst, aosValueGst := v.header.aosValue, v.header.aosGst, v.header.aosValueGst;
      tdsAmount, netPayable, effectiveRatePerSft := v.header.tdsAmount, v.header.netPayable, v.header.effectiveRate;
    }

    /** The save hook: hierarchy, then defaults, then the breakdown. A
        missing Floor or Block aborts the save with the document as it was;
        otherwise the unit is placed under its Floor, its blank rates are
        filled from the settings, its tax rates are the settings', and the
        stored figures are the breakdown of the stored inputs. */
    method Validate(floors: map<string, Floor>, blocks: map<string, BlockRecord>, s: Settings) returns (r: Outcome<string>)
      modifies this`block, this`project, this`floorNumber
      modifies this`basicPricePerSft, this`floorRiseRate, this`facingPremiumCharges,
               this`cornerPremiumCharges, this`carParkingAmount, this`amenitiesChargesPerSft,
               this`infraChargesPerSft, this`gstRate, this`tdsRate
      modifies this`amenitiesChargesAmt, this`infraChargesAmt, this`floorRiseChargesAmt,
               this`fullUnitValue, this`valueExcludingBp, this`aosValue, this`aosGst,
               this`aosValueGst, this`tdsAmount, this`netPayable, this`effectiveRatePerSft
      ensures r.Fail? ==> unchanged(this)
      ensures r.Fail? <==> !FloorResolves(floorName, floors, blocks)
      ensures r == Pass ==> Located() == Placed(floorName, floors, blocks, old(Located()))
      ensures r == Pass ==> Entered() == Defaulted(old(Entered()), s) && gstRate == s.gstRate && tdsRate == s.tdsRate
      ensures r == Pass ==> Values() == DynamicValues(Inputs())
    {
      r := SetHierarchy(floors, blocks);
      if r.Fail? {
        return;
      }
      ApplyDefaults(s);
      CalculateDynamicFields();
    }
  }
}
