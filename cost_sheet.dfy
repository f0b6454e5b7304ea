/** The Cost Sheet document: the Unit snapshot, the pricing-mode rule, the
    availability gate, the one-time payment schedule population, the header
    figures, their spread over the schedule, the before-registration charges
    and the grand total; plus the three server helpers the form calls. */
module CostSheetDoc {
  import opened Wrappers
  import opened Frappe
  import opened Records
  import opened Pricing
  import UnitDoc

  // ---------------- get_payment_scheme_rows ----------------

  /** A row as returned by `get_payment_scheme_rows`. */
  datatype SchemeRow = SchemeRow(
    schemeCode: Option<string>,
    milestone: Option<string>,
    particulars: Option<string>,
    percentage: Option<real>,
    milestoneDate: Option<Date>)

  /** The block's tower-milestone dates by scheme code. Rows without a code
      are skipped; a later row for the same code overwrites an earlier one. */
  function MilestoneDates(tower: seq<TowerMilestone>): (dates: map<string, Option<Date>>)
    ensures "" !in dates
    ensures |dates| <= |tower|
  {
    if tower == [] then map[]
    else
      var dates := MilestoneDates(tower[..|tower| - 1]);
      var t := tower[|tower| - 1];
      if Present(t.schemeCode) then dates[t.schemeCode.value := t.milestoneDate] else dates
  }

  /** A code has a date exactly when some tower row carries it, and the date
      is the one of the last such row. */
  lemma {:induction false} MilestoneDatesLastWins(tower: seq<TowerMilestone>, code: string)
    ensures code in MilestoneDates(tower) <==>
            code != "" && exists j :: 0 <= j < |tower| && tower[j].schemeCode == Some(code)
    ensures code in MilestoneDates(tower) ==>
            exists j :: 0 <= j < |tower| && tower[j].schemeCode == Some(code)
                        && MilestoneDates(tower)[code] == tower[j].milestoneDate
                        && forall k :: j < k < |tower| ==> tower[k].schemeCode != Some(code)
  {
    if tower != [] {
      var init := tower[..|tower| - 1];
      var t := tower[|tower| - 1];
      MilestoneDatesLastWins(init, code);
      if t.schemeCode == Some(code) && code != "" {
        assert tower[|tower| - 1].schemeCode == Some(code);
      } else if code in MilestoneDates(init) {
        var j :| 0 <= j < |init| && init[j].schemeCode == Some(code)
                 && MilestoneDates(init)[code] == init[j].milestoneDate
                 && forall k :: j < k < |init| ==> init[k].schemeCode != Some(code);
        assert tower[j] == init[j];
      } else {
        forall j | 0 <= j < |tower| && tower[j].schemeCode == Some(code)
          ensures code == ""
        {
          if j < |init| {
            assert init[j] == tower[j];
          }
        }
      }
    }
  }

  /** `milestone_dates.get(code)`: a blank code is never a key. */
  function DateFor(dates: map<string, Option<Date>>, code: Option<string>): Option<Date>
  {
    if code.Some? && code.value in dates then dates[code.value] else None
  }

  function SchemeRowOf(d: TemplateRow, dates: map<string, Option<Date>>): SchemeRow
  {
    SchemeRow(d.schemeCode, d.milestone, d.particulars, d.percentage, DateFor(dates, d.schemeCode))
  }

  /** One row per template row, in template order, each with the date the
      block gives its scheme code (none without a block). A blank template
      gives no rows; an unknown template or block is an error. */
  function GetPaymentSchemeRows(template: Option<string>, block: Option<string>,
                                templates: map<string, seq<TemplateRow>>,
                                blocks: map<string, BlockRecord>): (r: Result<seq<SchemeRow>, string>)
    ensures !Present(template) ==> r == Ok([])
    ensures Present(template) ==>
            (r.Err? <==> template.value !in templates || (Present(block) && block.value !in blocks))
    ensures r.Ok? && Present(template) ==>
            var details := templates[template.value];
            && |r.value| == |details|
            && forall i :: 0 <= i < |details| ==>
                 && r.value[i].schemeCode == details[i].schemeCode
                 && r.value[i].milestone == details[i].milestone
                 && r.value[i].particulars == details[i].particulars
                 && r.value[i].percentage == details[i].percentage
                 && r.value[i].milestoneDate ==
                    (if Present(block) then DateFor(MilestoneDates(blocks[block.value].towerMilestones), details[i].schemeCode)
                     else None)
  {
    if !Present(template) then Ok([])
    else if template.value !in templates then Err("Payment Scheme Template not found")
    else if Present(block) && block.value !in blocks then Err("Block not found")
    else
      var dates := if Present(block) then MilestoneDates(blocks[block.value].towerMilestones) else map[];
      var details := templates[template.value];
      Ok(seq(|details|, i requires 0 <= i < |details| => SchemeRowOf(details[i], dates)))
  }

  // ---------------- pure rules ----------------

  /** The Unit figures the Cost Sheet keeps aside while validating. */
  datatype UnitContext = UnitContext(base: Option<real>, exBp: real, fullUnitValue: real, status: Status)

  /** The availability gate: a Cost Sheet is refused for a Booked, Blocked
      or Sold unit and allowed for any other status. */
  predicate Sellable(s: Status)
  {
    s != Booked && s != Blocked && s != Sold
  }

  /** The pricing-mode rule. "Standard" locks the base price to the Unit's
      (0 when the Unit has none); any other type keeps a non-zero user price
      and falls back to the Unit's when the user left it blank or 0. */
  function TypedBasePrice(costSheetType: string, user: Option<real>, unitBase: Option<real>): (r: Option<real>)
    ensures costSheetType == "Standard" ==> r == Some(Or(unitBase, 0.0))
    ensures costSheetType != "Standard" && Truthy(user) ==> r == user
    ensures costSheetType != "Standard" && !Truthy(user) ==> r == Some(Or(unitBase, 0.0))
  {
    if costSheetType == "Standard" then Some(Or(unitBase, 0.0))
    else if !Truthy(user) then Some(Or(unitBase, 0.0))
    else user
  }

  /** Applying the rule again to its own result changes nothing, so
      re-validating a Cost Sheet keeps its base price. */
  lemma TypedBasePriceIdempotent(costSheetType: string, user: Option<real>, unitBase: Option<real>)
    ensures TypedBasePrice(costSheetType, TypedBasePrice(costSheetType, user, unitBase), unitBase)
         == TypedBasePrice(costSheetType, user, unitBase)
  {
  }

  /** The header of the stateless preview `compute_header_values`. */
  datatype HeaderValues = HeaderValues(fullUnitValue: real, header: Header)

  /** `compute_header_values`: no area gives all zeros; otherwise the AOS
      value is base price times area plus value excluding base price, and
      the preview's full unit value is that same AOS value. */
  function ComputeHeaderValues(base: Option<real>, area: Option<real>, exBp: Option<real>, s: Settings): (v: HeaderValues)
    ensures Flt(area) <= 0.0 ==> v == HeaderValues(0.0, ZeroHeader)
    ensures Flt(area) > 0.0 ==> v.fullUnitValue == v.header.aosValue
  {
    var a := Flt(area);
    if a <= 0.0 then HeaderValues(0.0, ZeroHeader)
    else
      var aos := AosValue(Flt(base), a, Flt(exBp));
      HeaderValues(aos, AosHeader(aos, a, Or(s.gstRate, 5.0), Or(s.tdsRate, 1.0)))
  }

  /** The AOS value is within half a paisa of base price times area plus
      value excluding base price. */
  lemma HeaderValuesBounds(base: Option<real>, area: Option<real>, exBp: Option<real>, s: Settings)
    requires Flt(area) > 0.0
    ensures -0.005 < ComputeHeaderValues(base, area, exBp, s).header.aosValue - (Flt(base) * Flt(area) + Flt(exBp)) <= 0.005
  {
    AosValueBounds(Flt(base), Flt(area), Flt(exBp));
  }

  /** With an area, the preview's header is the AOS chain on base price
      times area plus value excluding base price, to cents, at the GST and
      TDS rates the settings give (5 % and 1 % when unset). */
  lemma HeaderChain(base: real, area: real, exBp: real, gst: real, tds: real, s: Settings)
    requires area > 0.0
    requires gst == Or(s.gstRate, 5.0) && tds == Or(s.tdsRate, 1.0)
    ensures ComputeHeaderValues(Some(base), Some(area), Some(exBp), s).header
         == AosHeader(AosValue(base, area, exBp), area, gst, tds)
  {
  }

  /** The before-registration charges. */
  datatype BeforeRegistration = BeforeRegistration(
    maintenanceCharges: real,
    maintenanceGst: real,
    corpusFund: real,
    moveInCharges: real,
    refundableCautionDeposit: real,
    registrationCharges: real,
    total: real)

  /** `compute_before_registration`: maintenance and corpus fund scale with
      the area, maintenance GST (18 % when unset) is on the maintenance,
      move-in, deposit and registration are flat settings, and the total is
      their sum to the nearest paisa. */
  function ComputeBeforeRegistration(area: Option<real>, s: Settings): (b: BeforeRegistration)
    ensures -0.005 < b.total - (b.maintenanceCharges + b.maintenanceGst + b.corpusFund
                                + b.moveInCharges + b.refundableCautionDeposit + b.registrationCharges) <= 0.005
    ensures b.moveInCharges == Flt(s.moveInCharges)
    ensures b.refundableCautionDeposit == Flt(s.refundableCautionDeposit)
    ensures b.registrationCharges == Flt(s.defaultRegistrationCharges)
    ensures Flt(area) == 0.0 ==> b.maintenanceCharges == 0.0 && b.maintenanceGst == 0.0 && b.corpusFund == 0.0
    ensures b.maintenanceCharges == PerSft(Flt(s.maintenanceRatePerSft), Flt(area))
    ensures b.maintenanceGst == Percent(b.maintenanceCharges, Or(s.maintenanceGstRate, 18.0))
    ensures b.corpusFund == PerSft(Flt(s.corpusFundRatePerSft), Flt(area))
  {
    var a := Flt(area);
    var maintenance := PerSft(Flt(s.maintenanceRatePerSft), a);
    var maintenanceGst := Percent(maintenance, Or(s.maintenanceGstRate, 18.0));
    var corpus := PerSft(Flt(s.corpusFundRatePerSft), a);
    var moveIn := Flt(s.moveInCharges);
    var deposit := Flt(s.refundableCautionDeposit);
    var registration := Flt(s.defaultRegistrationCharges);
    Round2Zero();
    var sum := maintenance + maintenanceGst + corpus + moveIn + deposit + registration;
    Round2Bounds(sum);
    BeforeRegistration(maintenance, maintenanceGst, corpus, moveIn, deposit, registration, Round2(sum))
  }

  /** Maintenance is the settings' rate times the area, to the nearest paisa. */
  lemma MaintenanceBounds(area: Option<real>, s: Settings)
    ensures -0.005 < ComputeBeforeRegistration(area, s).maintenanceCharges - Flt(s.maintenanceRatePerSft) * Flt(area) <= 0.005
  {
    PerSftBounds(Flt(s.maintenanceRatePerSft), Flt(area));
  }

  /** Maintenance GST is its rate (18 % when unset) of the maintenance, to the
      nearest paisa. */
  lemma MaintenanceGstBounds(area: Option<real>, s: Settings)
    ensures var b := ComputeBeforeRegistration(area, s);
            -0.005 < b.maintenanceGst - b.maintenanceCharges * Or(s.maintenanceGstRate, 18.0) / 100.0 <= 0.005
  {
    PercentBounds(ComputeBeforeRegistration(area, s).maintenanceCharges, Or(s.maintenanceGstRate, 18.0));
  }

  /** The corpus fund is the settings' rate times the area, to the nearest paisa. */
  lemma CorpusFundBounds(area: Option<real>, s: Settings)
    ensures -0.005 < ComputeBeforeRegistration(area, s).corpusFund - Flt(s.corpusFundRatePerSft) * Flt(area) <= 0.005
  {
    PerSftBounds(Flt(s.corpusFundRatePerSft), Flt(area));
  }


  // ---------------- spreading the AOS value over the schedule ----------------

  /** `flt(x * rate / 100, 2)`: `rate` percent of `x`, to cents. */
  function Percent(x: real, rate: real): real
  {
    Round2(x * rate / 100.0)
  }

  lemma PercentBounds(x: real, rate: real)
    ensures -0.005 < Percent(x, rate) - x * rate / 100.0 <= 0.005
  {
    Round2Bounds(x * rate / 100.0);
  }

  /** A share's net payable: the share plus its GST less its TDS, to cents. */
  function RowNet(amount: real, gst: real, tds: real): real
  {
    Round2(amount + Percent(amount, gst) - Percent(amount, tds))
  }

  /** One schedule row's share: the row's percentage of the AOS value, GST
      and TDS on that share, and the share's net payable. Only the four
      amounts change, and a zero AOS value gives a zero row. */
  function SpreadRow(d: ScheduleRow, aos: real, gst: real, tds: real): (r: ScheduleRow)
    ensures r.(amount := d.amount, gstAmount := d.gstAmount, tdsAmount := d.tdsAmount, netPayable := d.netPayable) == d
    ensures aos == 0.0 ==> r.amount == 0.0 && r.gstAmount == 0.0 && r.tdsAmount == 0.0 && r.netPayable == 0.0
  {
    var amount := Percent(aos, Flt(d.percentage));
    Round2Zero();
    d.(amount := amount, gstAmount := Percent(amount, gst), tdsAmount := Percent(amount, tds),
       netPayable := RowNet(amount, gst, tds))
  }

  /** Each of a row's amounts is within rounding of its formula: the share
      within half a paisa, the net payable within three half-paise of the
      share with GST added and TDS taken off. */
  lemma SpreadRowBounds(d: ScheduleRow, aos: real, gst: real, tds: real)
    ensures var r := SpreadRow(d, aos, gst, tds);
            && -0.005 < r.amount - aos * Flt(d.percentage) / 100.0 <= 0.005
            && -0.015 < r.netPayable - r.amount * (100.0 + gst - tds) / 100.0 < 0.015
  {
    PercentBounds(aos, Flt(d.percentage));
    RowNetBounds(Percent(aos, Flt(d.percentage)), gst, tds);
  }

  /** The net payable of a share, GST added and TDS taken off each to
      cents and the result to cents, stays within three half-paise of the
      unrounded formula. */
  lemma RowNetBounds(amount: real, gst: real, tds: real)
    ensures -0.015 < RowNet(amount, gst, tds) - amount * (100.0 + gst - tds) / 100.0 < 0.015
  {
    PercentBounds(amount, gst);
    PercentBounds(amount, tds);
    Round2Bounds(amount + Percent(amount, gst) - Percent(amount, tds));
    assert amount * (100.0 + gst - tds) / 100.0 == amount + amount * gst / 100.0 - amount * tds / 100.0;
  }

  /** Each schedule row's share of the AOS value, in place; with no AOS
      value every amount is zero. */
  function Spread(rows: seq<ScheduleRow>, aos: real, gst: real, tds: real): (r: seq<ScheduleRow>)
    ensures |r| == |rows|
    ensures aos == 0.0 ==> forall i :: 0 <= i < |r| ==> r[i].amount == 0.0 && r[i].netPayable == 0.0
  {
    seq(|rows|, i requires 0 <= i < |rows| => SpreadRow(rows[i], aos, gst, tds))
  }

  function Sum(xs: seq<real>): real
  {
    if xs == [] then 0.0 else Sum(xs[..|xs| - 1]) + xs[|xs| - 1]
  }

  /** Two lists that agree entry by entry within half a paisa agree in
      total within half a paisa per entry. */
  lemma {:induction false} SumWithin(xs: seq<real>, ys: seq<real>)
    requires |xs| == |ys|
    requires forall i :: 0 <= i < |xs| ==> -0.005 < xs[i] - ys[i] <= 0.005
    ensures -0.005 * |xs| as real <= Sum(xs) - Sum(ys) <= 0.005 * |xs| as real
  {
    if xs != [] {
      SumWithin(xs[..|xs| - 1], ys[..|ys| - 1]);
    }
  }

  /** Taking the same percentage share of every entry takes it of the total. */
  lemma {:induction false} SumScaled(ps: seq<real>, aos: real)
    ensures Sum(seq(|ps|, i requires 0 <= i < |ps| => aos * ps[i] / 100.0)) == aos * Sum(ps) / 100.0
  {
    var shares := seq(|ps|, i requires 0 <= i < |ps| => aos * ps[i] / 100.0);
    if ps == [] {
      assert shares == [];
    } else {
      var n := |ps|;
      var init := ps[..n - 1];
      SumScaled(init, aos);
      var initShares := seq(|init|, i requires 0 <= i < |init| => aos * init[i] / 100.0);
      assert forall k :: 0 <= k < n - 1 ==> shares[..n - 1][k] == initShares[k];
      assert shares[..n - 1] == initShares;
      var p0, p1 := Sum(init), ps[n - 1];
      assert aos * (p0 + p1) == aos * p0 + aos * p1;
    }
  }

  function Amounts(rows: seq<ScheduleRow>): seq<real>
  {
    seq(|rows|, i requires 0 <= i < |rows| => rows[i].amount)
  }

  function Percentages(rows: seq<ScheduleRow>): seq<real>
  {
    seq(|rows|, i requires 0 <= i < |rows| => Flt(rows[i].percentage))
  }

  /** The spread amounts add up to the AOS value times the total percentage,
      off by at most half a paisa per row. */
  lemma SpreadTotal(rows: seq<ScheduleRow>, aos: real, gst: real, tds: real)
    ensures -0.005 * |rows| as real <= Sum(Amounts(Spread(rows, aos, gst, tds))) - aos * Sum(Percentages(rows)) / 100.0
                                   <= 0.005 * |rows| as real
  {
    SpreadSharesClose(rows, aos, gst, tds);
    SumScaled(Percentages(rows), aos);
  }

  /** For a schedule totalling 100 % the spread amounts add up to the AOS
      value, off by at most half a paisa per row. */
  lemma SpreadTotalFull(rows: seq<ScheduleRow>, aos: real, gst: real, tds: real)
    requires Sum(Percentages(rows)) == 100.0
    ensures -0.005 * |rows| as real <= Sum(Amounts(Spread(rows, aos, gst, tds))) - aos <= 0.005 * |rows| as real
  {
    SpreadTotal(rows, aos, gst, tds);
    assert aos * Sum(Percentages(rows)) / 100.0 == aos;
  }

  /** Each spread amount is within half a paisa of its row's share. */
  lemma SpreadSharesClose(rows: seq<ScheduleRow>, aos: real, gst: real, tds: real)
    ensures var ps := Percentages(rows);
            -0.005 * |rows| as real
              <= Sum(Amounts(Spread(rows, aos, gst, tds))) - Sum(seq(|ps|, i requires 0 <= i < |ps| => aos * ps[i] / 100.0))
              <= 0.005 * |rows| as real
  {
    var ps := Percentages(rows);
    var shares := seq(|ps|, i requires 0 <= i < |ps| => aos * ps[i] / 100.0);
    var amounts := Amounts(Spread(rows, aos, gst, tds));
    forall i | 0 <= i < |amounts|
      ensures -0.005 < amounts[i] - shares[i] <= 0.005
    {
      assert amounts[i] == SpreadRow(rows[i], aos, gst, tds).amount;
      SpreadRowBounds(rows[i], aos, gst, tds);
    }
    SumWithin(amounts, shares);
  }

  /** A schedule row with its four amounts cleared. */
  function Unpriced(d: ScheduleRow): ScheduleRow
  {
    d.(amount := 0.0, gstAmount := 0.0, tdsAmount := 0.0, netPayable := 0.0)
  }

  /** The same rows, in the same order, up to their amounts. */
  predicate SameRows(a: seq<ScheduleRow>, b: seq<ScheduleRow>)
  {
    |a| == |b| && forall k :: 0 <= k < |a| ==> Unpriced(a[k]) == Unpriced(b[k])
  }

  /** Spreading keeps the rows: codes, milestones, percentages and dates
      stay as they were. */
  lemma SpreadSameRows(rows: seq<ScheduleRow>, aos: real, gst: real, tds: real)
    ensures SameRows(Spread(rows, aos, gst, tds), rows)
  {
    forall k | 0 <= k < |rows|
      ensures Unpriced(Spread(rows, aos, gst, tds)[k]) == Unpriced(rows[k])
    {
      var d := rows[k];
      var r := SpreadRow(d, aos, gst, tds);
      assert r.(amount := d.amount, gstAmount := d.gstAmount, tdsAmount := d.tdsAmount, netPayable := d.netPayable) == d;
    }
  }

  // ---------------- the document ----------------

  function NewScheduleRow(r: SchemeRow): ScheduleRow
  {
    ScheduleRow(None, r.schemeCode, r.milestone, None, r.particulars, r.percentage, r.milestoneDate, 0.0, 0.0, 0.0, 0.0)
  }

  /** The schedule rows a template gives an empty schedule, in template order. */
  function ScheduleFromScheme(rows: seq<SchemeRow>): (r: seq<ScheduleRow>)
    ensures |r| == |rows|
    ensures forall k :: 0 <= k < |r| ==>
              && r[k].schemeCode == rows[k].schemeCode && r[k].milestone == rows[k].milestone
              && r[k].particulars == rows[k].particulars && r[k].percentage == rows[k].percentage
              && r[k].milestoneDate == rows[k].milestoneDate && r[k].amount == 0.0 && r[k].netPayable == 0.0
  {
    seq(|rows|, k requires 0 <= k < |rows| => NewScheduleRow(rows[k]))
  }

  /** Fetching the template rows is attempted, and fails, only for an empty
      schedule with a template set. */
  predicate ScheduleFails(current: seq<ScheduleRow>, template: Option<string>, block: Option<string>,
                          templates: map<string, seq<TemplateRow>>, blocks: map<string, BlockRecord>)
  {
    Present(template) && current == [] && GetPaymentSchemeRows(template, block, templates, blocks).Err?
  }

  /** The schedule once populated: an empty schedule with a template set
      gets one row per template row; any other schedule is kept. */
  function PopulatedSchedule(current: seq<ScheduleRow>, template: Option<string>, block: Option<string>,
                             templates: map<string, seq<TemplateRow>>, blocks: map<string, BlockRecord>)
    : seq<ScheduleRow>
  {
    if Present(template) && current == [] then
      match GetPaymentSchemeRows(template, block, templates, blocks)
      case Ok(rows) => ScheduleFromScheme(rows)
      case Err(_) => current
    else current
  }

  /** The schedule once priced: spread at the AOS value with the settings'
      GST and TDS (5 % and 1 % when unset), or at 0 with 5 % and 1 % when
      there is no area. */
  function SpreadFor(rows: seq<ScheduleRow>, area: Option<real>, aos: real, s: Settings): seq<ScheduleRow>
  {
    if Flt(area) <= 0.0 then Spread(rows, 0.0, 5.0, 1.0)
    else Spread(rows, aos, Or(s.gstRate, 5.0), Or(s.tdsRate, 1.0))
  }

  /** The grand total a save stores: AOS value with GST plus the
      before-registration total. */
  function SavedGrandTotal(h: Header, b: BeforeRegistration): real
  {
    h.aosValueGst + b.total
  }

  /** What a Cost Sheet mirrors from its Unit, and the Unit figures it keeps
      aside for the rest of the save. */
  /** The Cost Sheet's own full unit value: 0 without an area, otherwise
      the Unit's stored full unit value when non-zero, else base price
      times area plus value excluding base price, to the paisa. */
  function DocFullUnitValue(base: Option<real>, area: Option<real>, exBp: real, stored: real): real
  {
    if Flt(area) <= 0.0 then 0.0
    else Round2(NonZeroOr(stored, Flt(base) * Flt(area) + exBp))
  }

  datatype Snapshot = Snapshot(project: Option<string>, block: Option<string>, floorNumber: Option<int>,
                               salableArea: Option<real>, valueExcludingBp: real, unitCtx: UnitContext)

  function SnapshotOf(u: UnitDoc.Unit): Snapshot
    reads u
  {
    Snapshot(u.project, u.block, u.floorNumber, u.salableArea, u.valueExcludingBp,
             UnitContext(u.basicPricePerSft, u.valueExcludingBp, u.fullUnitValue, u.status))
  }

  class CostSheet {
    var unit: Option<string>
    var costSheetType: string
    var project: Option<string>
    var block: Option<string>
    var floorNumber: Option<int>
    var salableArea: Option<real>
    var valueExcludingBp: real
    var basicPricePerSft: Option<real>
    var paymentSchemeTemplate: Option<string>
    var paymentSchedule: seq<ScheduleRow>
    var unitCtx: UnitContext

    var fullUnitValue: real
    var aosValue: real
    var aosGst: real
    var aosValueGst: real
    var tdsAmount: real
    var netPayable: real
    var effectiveRatePerSft: real

    var maintenanceCharges: real
    var maintenanceGst: real
    var corpusFund: real
    var moveInCharges: real
    var refundableCautionDeposit: real
    var registrationCharges: real
    var beforeRegistrationTotal: real
    var grandTotalPayable: real

    function Header(): Header
      reads this`aosValue, this`aosGst, this`aosValueGst, this`tdsAmount, this`netPayable, this`effectiveRatePerSft
    {
      Pricing.Header(aosValue, aosGst, aosValueGst, tdsAmount, netPayable, effectiveRatePerSft)
    }

    function Snapshotted(): Snapshot
      reads this`project, this`block, this`floorNumber, this`salableArea, this`valueExcludingBp, this`unitCtx
    {
      Snapshot(project, block, floorNumber, salableArea, valueExcludingBp, unitCtx)
    }

    function Charges(): BeforeRegistration
      reads this`maintenanceCharges, this`maintenanceGst, this`corpusFund, this`moveInCharges,
            this`refundableCautionDeposit, this`registrationCharges, this`beforeRegistrationTotal
    {
      BeforeRegistration(maintenanceCharges, maintenanceGst, corpusFund, moveInCharges,
                         refundableCautionDeposit, registrationCharges, beforeRegistrationTotal)
    }

    /** The figures a save leaves: the preview's header for this document's
        base price, area and value excluding base price, the document's own
        full unit value, the before-registration charges for its area, and
        the grand total of the two. */
    predicate Priced(s: Settings)
      reads this
    {
      && Header() == ComputeHeaderValues(basicPricePerSft, salableArea, Some(valueExcludingBp), s).header
      && fullUnitValue == DocFullUnitValue(basicPricePerSft, salableArea, valueExcludingBp, unitCtx.fullUnitValue)
      && Charges() == ComputeBeforeRegistration(salableArea, s)
      && grandTotalPayable == SavedGrandTotal(Header(), Charges())
    }

    /** Mirror the Unit's identifiers, area and value excluding base price,
        and keep its base price, full unit value and status aside. A blank
        or unknown Unit is an error before anything changes. */
    method PullUnitSnapshot(units: map<string, UnitDoc.Unit>) returns (r: Outcome<string>)
      modifies this`project, this`block, this`floorNumber, this`salableArea, this`valueExcludingBp, this`unitCtx
      ensures r.Fail? <==> !Present(unit) || unit.value !in units
      ensures r.Fail? ==> unchanged(this)
      ensures r == Pass ==>
        var u := units[unit.value];
        && project == u.project && block == u.block && floorNumber == u.floorNumber
        && salableArea == u.salableArea && valueExcludingBp == u.valueExcludingBp
        && unitCtx == UnitContext(u.basicPricePerSft, u.valueExcludingBp, u.fullUnitValue, u.status)
    {
      if !Present(unit) {
        return Fail("Please select a Unit.");
      }
      if unit.value !in units {
        return Fail("Unit not found");
      }
      var u := units[unit.value];
      project, block, floorNumber := u.project, u.block, u.floorNumber;
      salableArea, valueExcludingBp := u.salableArea, u.valueExcludingBp;
      unitCtx := UnitContext(u.basicPricePerSft, u.valueExcludingBp, u.fullUnitValue, u.status);
      r := Pass;
    }

    method ApplyTypeRules()
      modifies this`basicPricePerSft
      ensures basicPricePerSft == TypedBasePrice(costSheetType, old(basicPricePerSft), unitCtx.base)
    {
      if costSheetType == "Standard" {
        basicPricePerSft := Some(Or(unitCtx.base, 0.0));
      } else if !Truthy(basicPricePerSft) {
        basicPricePerSft := Some(Or(unitCtx.base, 0.0));
      }
    }

    method CheckUnitAvailability() returns (r: Outcome<string>)
      ensures r.Pass? <==> Sellable(unitCtx.status)
    {
      if !Sellable(unitCtx.status) {
        return Fail("Unit is not available and cannot be sold.");
      }
      r := Pass;
    }

    /** Populate the schedule from the template, with the block's milestone
        dates, only when a template is set and the schedule is empty. A
        schedule that already has rows is never touched. */
    method EnsurePaymentScheduleRows(templates: map<string, seq<TemplateRow>>, blocks: map<string, BlockRecord>)
      returns (r: Outcome<string>)
      modifies this`paymentSchedule
      ensures !(Present(paymentSchemeTemplate) && old(paymentSchedule) == []) ==>
              r == Pass && paymentSchedule == old(paymentSchedule)
      ensures Present(paymentSchemeTemplate) && old(paymentSchedule) == [] ==>
              match GetPaymentSchemeRows(paymentSchemeTemplate, block, templates, blocks)
              case Err(e) => r == Fail(e) && paymentSchedule == []
              case Ok(rows) => r == Pass && |paymentSchedule| == |rows|
                               && forall k :: 0 <= k < |rows| ==> paymentSchedule[k] == NewScheduleRow(rows[k])
      ensures r.Fail? <==> ScheduleFails(old(paymentSchedule), paymentSchemeTemplate, block, templates, blocks)
      ensures r == Pass ==>
              paymentSchedule == PopulatedSchedule(old(paymentSchedule), paymentSchemeTemplate, block, templates, blocks)
    {
      if !(Present(paymentSchemeTemplate) && paymentSchedule == []) {
        return Pass;
      }
      var res := GetPaymentSchemeRows(paymentSchemeTemplate, block, templates, blocks);
      if res.Err? {
        return Fail(res.error);
      }
      var rows := res.value;
      var i := 0;
      while i < |rows|
        invariant 0 <= i <= |rows|
        invariant |paymentSchedule| == i
        invariant forall k :: 0 <= k < i ==> paymentSchedule[k] == NewScheduleRow(rows[k])
      {
        paymentSchedule := paymentSchedule + [NewScheduleRow(rows[i])];
        i := i + 1;
      }
      assert paymentSchedule == ScheduleFromScheme(rows);
      r := Pass;
    }

    /** Distribute the AOS value over the schedule rows in place. */
    method SpreadScheduleAmounts(aos: real, gst: real, tds: real)
      modifies this`paymentSchedule
      ensures paymentSchedule == Spread(old(paymentSchedule), aos, gst, tds)
    {
      var i := 0;
      while i < |paymentSchedule|
        invariant 0 <= i <= |paymentSchedule| == |old(paymentSchedule)|
        invariant forall k :: 0 <= k < i ==> paymentSchedule[k] == SpreadRow(old(paymentSchedule)[k], aos, gst, tds)
        invariant forall k :: i <= k < |paymentSchedule| ==> paymentSchedule[k] == old(paymentSchedule)[k]
      {
        paymentSchedule := paymentSchedule[i := SpreadRow(paymentSchedule[i], aos, gst, tds)];
        i := i + 1;
      }
    }

    /** The document's own header computation. It agrees with the stateless
        preview except for the full unit value, which prefers the Unit's
        stored full unit value when that is non-zero. */
    method ComputeHeader(s: Settings)
      modifies this`fullUnitValue, this`aosValue, this`aosGst, this`aosValueGst, this`tdsAmount,
               this`netPayable, this`effectiveRatePerSft, this`paymentSchedule
      ensures Header() == ComputeHeaderValues(basicPricePerSft, salableArea, Some(valueExcludingBp), s).header
      ensures fullUnitValue == DocFullUnitValue(basicPricePerSft, salableArea, valueExcludingBp, unitCtx.fullUnitValue)
      ensures paymentSchedule == SpreadFor(old(paymentSchedule), salableArea, aosValue, s)
      ensures Snapshotted() == old(Snapshotted()) && basicPricePerSft == old(basicPricePerSft)
    {
      StoreHeader(ComputeHeaderValues(basicPricePerSft, salableArea, Some(valueExcludingBp), s).header);
      fullUnitValue := DocFullUnitValue(basicPricePerSft, salableArea, valueExcludingBp, unitCtx.fullUnitValue);
      if Flt(salableArea) <= 0.0 {
        SpreadScheduleAmounts(0.0, 5.0, 1.0);
      } else {
        SpreadScheduleAmounts(aosValue, Or(s.gstRate, 5.0), Or(s.tdsRate, 1.0));
      }
    }

    /** Write the six header figures. */
    method StoreHeader(h: Header)
      modifies this`aosValue, this`aosGst, this`aosValueGst, this`tdsAmount, this`netPayable, this`effectiveRatePerSft
      ensures Header() == h
    {
      aosValue, aosGst, aosValueGst, tdsAmount, netPayable, effectiveRatePerSft :=
        h.aosValue, h.aosGst, h.aosValueGst, h.tdsAmount, h.netPayable, h.effectiveRate;
    }

    method ComputeBeforeRegistrationFields(s: Settings)
      modifies this`maintenanceCharges, this`maintenanceGst, this`corpusFund, this`moveInCharges,
               this`refundableCautionDeposit, this`registrationCharges, this`beforeRegistrationTotal
      ensures Charges() == ComputeBeforeRegistration(salableArea, s)
      ensures Header() == old(Header())
      ensures Snapshotted() == old(Snapshotted()) && basicPricePerSft == old(basicPricePerSft)
    {
      StoreCharges(ComputeBeforeRegistration(salableArea, s));
    }

    /** Write the seven before-registration figures. */
    method StoreCharges(b: BeforeRegistration)
      modifies this`maintenanceCharges, this`maintenanceGst, this`corpusFund, this`moveInCharges,
               this`refundableCautionDeposit, this`registrationCharges, this`beforeRegistrationTotal
      ensures Charges() == b
    {
      maintenanceCharges, maintenanceGst, corpusFund := b.maintenanceCharges, b.maintenanceGst, b.corpusFund;
      moveInCharges, refundableCautionDeposit, registrationCharges :=
        b.moveInCharges, b.refundableCautionDeposit, b.registrationCharges;
      beforeRegistrationTotal := b.total;
    }

    method ComputeGrandTotal()
      modifies this`grandTotalPayable
      ensures grandTotalPayable == aosValueGst + beforeRegistrationTotal
      ensures grandTotalPayable == SavedGrandTotal(Header(), Charges())
      ensures Header() == old(Header()) && Charges() == old(Charges())
      ensures Snapshotted() == old(Snapshotted()) && basicPricePerSft == old(basicPricePerSft)
    {
      grandTotalPayable := aosValueGst + beforeRegistrationTotal;
    }

    /** The pricing half of the save hook: header, spread, charges and
        grand total, each from the fields the snapshot left. The schedule
        keeps its rows and only their amounts change. */
    method Price(s: Settings)
      modifies this`paymentSchedule,
               this`fullUnitValue, this`aosValue, this`aosGst, this`aosValueGst, this`tdsAmount,
               this`netPayable, this`effectiveRatePerSft,
               this`maintenanceCharges, this`maintenanceGst, this`corpusFund, this`moveInCharges,
               this`refundableCautionDeposit, this`registrationCharges, this`beforeRegistrationTotal,
               this`grandTotalPayable
      ensures Priced(s)
      ensures paymentSchedule == SpreadFor(old(paymentSchedule), salableArea, aosValue, s)
      ensures Snapshotted() == old(Snapshotted()) && basicPricePerSft == old(basicPricePerSft)
    {
      ComputeHeader(s);
      ComputeBeforeRegistrationFields(s);
      ComputeGrandTotal();
    }

    /** The save hook. A blank or unknown Unit fails before any figure is
        touched, and so does a Booked, Blocked or Sold one. On success the
        header, the charges and the grand total are those of the snapshot,
        and a schedule that already had rows keeps them. */
    method Validate(units: map<string, UnitDoc.Unit>, s: Settings,
                    templates: map<string, seq<TemplateRow>>, blocks: map<string, BlockRecord>)
      returns (r: Outcome<string>)
      modifies this`project, this`block, this`floorNumber, this`salableArea, this`valueExcludingBp, this`unitCtx,
               this`basicPricePerSft, this`paymentSchedule,
               this`fullUnitValue, this`aosValue, this`aosGst, this`aosValueGst, this`tdsAmount,
               this`netPayable, this`effectiveRatePerSft,
               this`maintenanceCharges, this`maintenanceGst, this`corpusFund, this`moveInCharges,
               this`refundableCautionDeposit, this`registrationCharges, this`beforeRegistrationTotal,
               this`grandTotalPayable
      ensures r.Pass? <==> Present(unit) && unit.value in units && old(Sellable(units[unit.value].status))
                           && !ScheduleFails(old(paymentSchedule), paymentSchemeTemplate, old(units[unit.value].block),
                                             templates, blocks)
      ensures r.Fail? ==> Header() == old(Header()) && paymentSchedule == old(paymentSchedule)
      // the snapshot, the type rule and the schedule rows
      ensures r == Pass ==>
              && Present(unit) && unit.value in units
              && (var u := units[unit.value];
                  && Snapshotted() == old(SnapshotOf(u))
                  && basicPricePerSft == TypedBasePrice(costSheetType, old(basicPricePerSft), old(u.basicPricePerSft))
                  && paymentSchedule == SpreadFor(PopulatedSchedule(old(paymentSchedule), paymentSchemeTemplate, old(u.block),
                                                                    templates, blocks),
                                                  salableArea, aosValue, s))
      ensures r == Pass ==> Priced(s)
    {
      r := Prepare(units, templates, blocks);
      if r.Fail? {
        return;
      }
      ghost var populated := paymentSchedule;
      Price(s);
      assert paymentSchedule == SpreadFor(populated, salableArea, aosValue, s);
    }

    /** The checking half of the save hook: snapshot, type rules,
        availability and schedule rows, stopping at the first failure. */
    method Prepare(units: map<string, UnitDoc.Unit>,
                   templates: map<string, seq<TemplateRow>>, blocks: map<string, BlockRecord>)
      returns (r: Outcome<string>)
      modifies this`project, this`block, this`floorNumber, this`salableArea, this`valueExcludingBp, this`unitCtx,
               this`basicPricePerSft, this`paymentSchedule
      ensures r.Pass? <==> Present(unit) && unit.value in units && old(Sellable(units[unit.value].status))
                           && !ScheduleFails(old(paymentSchedule), paymentSchemeTemplate, old(units[unit.value].block),
                                             templates, blocks)
      ensures r.Fail? ==> paymentSchedule == old(paymentSchedule)
      ensures r == Pass ==>
              && Present(unit) && unit.value in units
              && (var u := units[unit.value];
                  && Snapshotted() == old(SnapshotOf(u))
                  && basicPricePerSft == TypedBasePrice(costSheetType, old(basicPricePerSft), old(u.basicPricePerSft))
                  && paymentSchedule == PopulatedSchedule(old(paymentSchedule), paymentSchemeTemplate, old(u.block),
                                                          templates, blocks))
    {
      r := PullUnitSnapshot(units);
      if r.Fail? {
        return;
      }
      ApplyTypeRules();
      r := CheckUnitAvailability();
      if r.Fail? {
        return;
      }
      r := EnsurePaymentScheduleRows(templates, blocks);
    }
  }
}
