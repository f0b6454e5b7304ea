/** The Booking Order document: the unit status transitions on submit and
    cancel, the Cost Sheet snapshot and the balance payable. */
module BookingOrderDoc {
  import opened Wrappers
  import opened Frappe
  import opened Records
  import UnitDoc
  import CostSheetDoc

  // ---------------- the unit status state machine ----------------

  /** Submitting books an Available unit and refuses any other status. */
  function SubmitTransition(s: Status): (r: Result<Status, string>)
    ensures r.Ok? <==> s == Available
    ensures r.Ok? ==> r.value == Booked
  {
    if s != Available then Err("Unit is not available") else Ok(Booked)
  }

  /** Cancelling frees a Booked unit and leaves any other status alone. */
  function CancelTransition(s: Status): (r: Status)
    ensures s == Booked ==> r == Available
    ensures s != Booked ==> r == s
  {
    if s == Booked then Available else s
  }

  /** A second cancel changes nothing. */
  lemma CancelIdempotent(s: Status)
    ensures CancelTransition(CancelTransition(s)) == CancelTransition(s)
  {
  }

  /** Cancelling a booking that went through restores the unit's status. */
  lemma SubmitThenCancel(s: Status)
    requires SubmitTransition(s).Ok?
    ensures CancelTransition(SubmitTransition(s).value) == s
  {
  }

  /** A unit that can be booked can also be quoted, and once booked no new
      Cost Sheet is accepted for it until the booking is cancelled. */
  lemma BookingClosesCostSheets(s: Status)
    ensures SubmitTransition(s).Ok? ==> CostSheetDoc.Sellable(s)
    ensures SubmitTransition(s).Ok? ==> !CostSheetDoc.Sellable(SubmitTransition(s).value)
    ensures SubmitTransition(s).Ok? ==> CostSheetDoc.Sellable(CancelTransition(SubmitTransition(s).value))
  {
  }

  /** The Unit a Booking Order names, among the units on record. */
  function Target(unit: Option<string>, units: map<string, UnitDoc.Unit>): set<UnitDoc.Unit>
  {
    if Present(unit) && unit.value in units then {units[unit.value]} else {}
  }

  // ---------------- the document ----------------

  /** A Cost Sheet row as the snapshot copies it: every field, under a new
      row name. */
  function CopiedRow(row: ScheduleRow): ScheduleRow
  {
    row.(name := None)
  }

  /** The copy loop of the snapshot: the same rows in the same order. */
  method CopyRows(source: seq<ScheduleRow>) returns (copy: seq<ScheduleRow>)
    ensures |copy| == |source|
    ensures forall k :: 0 <= k < |copy| ==> copy[k] == CopiedRow(source[k])
  {
    copy := [];
    var i := 0;
    while i < |source|
      invariant 0 <= i <= |source|
      invariant |copy| == i
      invariant forall k :: 0 <= k < i ==> copy[k] == CopiedRow(source[k])
    {
      copy := copy + [CopiedRow(source[i])];
      i := i + 1;
    }
  }

  /** `_compute_balance`: grand total less the advance, blanks as 0. */
  function Balance(grandTotal: Option<real>, advancePaid: Option<real>): (r: real)
    ensures -0.005 < r - (Flt(grandTotal) - Flt(advancePaid)) <= 0.005
  {
    Round2(Or(grandTotal, 0.0) - Or(advancePaid, 0.0))
  }

  /** Amounts in whole paise give an exact balance. */
  lemma BalanceOfPaise(grandPaise: int, advancePaise: int)
    ensures Balance(Some(grandPaise as real / 100.0), Some(advancePaise as real / 100.0))
         == (grandPaise - advancePaise) as real / 100.0
  {
    Round2Cents(grandPaise - advancePaise);
    assert Or(Some(grandPaise as real / 100.0), 0.0) - Or(Some(advancePaise as real / 100.0), 0.0)
        == (grandPaise - advancePaise) as real / 100.0;
  }

  class BookingOrder {
    var unit: Option<string>
    var costSheet: Option<string>
    var partyType: Option<string>
    var party: Option<string>

    var project: Option<string>
    var block: Option<string>
    var floorNumber: Option<int>
    var salableArea: Option<real>
    var basicPricePerSft: Option<real>
    var aosValue: real
    var aosGst: real
    var aosValueGst: real
    var netPayable: real
    var grandTotalPayable: real
    var paymentSchemeTemplate: Option<string>
    var paymentSchedule: seq<ScheduleRow>

    var advancePaid: Option<real>
    var balancePayable: real

    /** `on_submit`: book the unit, or fail and leave it as it was. */
    method OnSubmit(units: map<string, UnitDoc.Unit>) returns (r: Outcome<string>)
      modifies Target(unit, units)`status
      ensures Target(unit, units) == {} ==> r.Fail?
      ensures forall u | u in Target(unit, units) ::
                (r == Pass <==> old(u.status) == Available)
                && u.status == (if r == Pass then Booked else old(u.status))
    {
      if !(Present(unit) && unit.value in units) {
        return Fail("Unit not found");
      }
      var u := units[unit.value];
      var next := SubmitTransition(u.status);
      if next.Err? {
        return Fail(next.error);
      }
      u.status := next.value;
      r := Pass;
    }

    /** `on_cancel`: free a Booked unit; otherwise do nothing. */
    method OnCancel(units: map<string, UnitDoc.Unit>)
      modifies Target(unit, units)`status
      ensures forall u | u in Target(unit, units) :: u.status == CancelTransition(old(u.status))
    {
      if Present(unit) && unit.value in units {
        var u := units[unit.value];
        if u.status == Booked {
          u.status := Available;
        }
      }
    }

    /** `_pull_cost_sheet_snapshot` once the Cost Sheet is found: mirror
        its figures and replace the schedule with a copy of its rows, in
        order. */
    method PullCostSheetSnapshot(cs: CostSheetDoc.CostSheet)
      modifies this`project, this`block, this`floorNumber, this`salableArea, this`basicPricePerSft,
               this`aosValue, this`aosGst, this`aosValueGst, this`netPayable, this`grandTotalPayable,
               this`paymentSchemeTemplate, this`paymentSchedule
      ensures && project == cs.project && block == cs.block && floorNumber == cs.floorNumber
              && salableArea == cs.salableArea && basicPricePerSft == cs.basicPricePerSft
              && aosValue == cs.aosValue && aosGst == cs.aosGst && aosValueGst == cs.aosValueGst
              && netPayable == cs.netPayable && grandTotalPayable == cs.grandTotalPayable
              && paymentSchemeTemplate == cs.paymentSchemeTemplate
      ensures |paymentSchedule| == |cs.paymentSchedule|
      ensures forall k :: 0 <= k < |paymentSchedule| ==> paymentSchedule[k] == CopiedRow(cs.paymentSchedule[k])
    {
      CopyFigures(cs);
      paymentSchedule := CopyRows(cs.paymentSchedule);
    }

    method CopyFigures(cs: CostSheetDoc.CostSheet)
      modifies this`project, this`block, this`floorNumber, this`salableArea, this`basicPricePerSft,
               this`aosValue, this`aosGst, this`aosValueGst, this`netPayable, this`grandTotalPayable,
               this`paymentSchemeTemplate
      ensures && project == cs.project && block == cs.block && floorNumber == cs.floorNumber
              && salableArea == cs.salableArea && basicPricePerSft == cs.basicPricePerSft
              && aosValue == cs.aosValue && aosGst == cs.aosGst && aosValueGst == cs.aosValueGst
              && netPayable == cs.netPayable && grandTotalPayable == cs.grandTotalPayable
              && paymentSchemeTemplate == cs.paymentSchemeTemplate
    {
      CopyPlacement(cs);
      CopyAmounts(cs);
    }

    method CopyPlacement(cs: CostSheetDoc.CostSheet)
      modifies this`project, this`block, this`floorNumber, this`salableArea, this`basicPricePerSft,
               this`paymentSchemeTemplate
      ensures && project == cs.project && block == cs.block && floorNumber == cs.floorNumber
              && salableArea == cs.salableArea && basicPricePerSft == cs.basicPricePerSft
              && paymentSchemeTemplate == cs.paymentSchemeTemplate
    {
      project, block, floorNumber := cs.project, cs.block, cs.floorNumber;
      salableArea, basicPricePerSft, paymentSchemeTemplate := cs.salableArea, cs.basicPricePerSft, cs.paymentSchemeTemplate;
    }

    method CopyAmounts(cs: CostSheetDoc.CostSheet)
      modifies this`aosValue, this`aosGst, this`aosValueGst, this`netPayable, this`grandTotalPayable
      ensures && aosValue == cs.aosValue && aosGst == cs.aosGst && aosValueGst == cs.aosValueGst
              && netPayable == cs.netPayable && grandTotalPayable == cs.grandTotalPayable
    {
      aosValue, aosGst, aosValueGst := cs.aosValue, cs.aosGst, cs.aosValueGst;
      netPayable, grandTotalPayable := cs.netPayable, cs.grandTotalPayable;
    }

    method ComputeBalance()
      modifies this`balancePayable
      ensures balancePayable == Balance(Some(grandTotalPayable), advancePaid)
    {
      var adv := Or(advancePaid, 0.0);
      var total := Or(Some(grandTotalPayable), 0.0);
      balancePayable := Round2(total - adv);
    }

    /** The save hook: snapshot, then balance. A blank or unknown Cost
        Sheet is an error before anything changes. */
    method Validate(costSheets: map<string, CostSheetDoc.CostSheet>) returns (r: Outcome<string>)
      modifies this`project, this`block, this`floorNumber, this`salableArea, this`basicPricePerSft,
               this`aosValue, this`aosGst, this`aosValueGst, this`netPayable, this`grandTotalPayable,
               this`paymentSchemeTemplate, this`paymentSchedule, this`balancePayable
      ensures r.Fail? <==> !Present(costSheet) || costSheet.value !in costSheets
      ensures r.Fail? ==> paymentSchedule == old(paymentSchedule) && grandTotalPayable == old(grandTotalPayable)
                          && balancePayable == old(balancePayable)
      ensures r == Pass ==>
              var cs := costSheets[costSheet.value];
              && project == cs.project && block == cs.block && floorNumber == cs.floorNumber
              && salableArea == cs.salableArea && basicPricePerSft == cs.basicPricePerSft
              && aosValue == cs.aosValue && aosGst == cs.aosGst && aosValueGst == cs.aosValueGst
              && netPayable == cs.netPayable && grandTotalPayable == cs.grandTotalPayable
              && paymentSchemeTemplate == cs.paymentSchemeTemplate
              && balancePayable == Balance(Some(cs.grandTotalPayable), advancePaid)
              && |paymentSchedule| == |cs.paymentSchedule|
              && forall k :: 0 <= k < |paymentSchedule| ==> paymentSchedule[k] == CopiedRow(cs.paymentSchedule[k])
    {
      if !Present(costSheet) {
        return Fail("Please select a Cost Sheet.");
      }
      if costSheet.value !in costSheets {
        return Fail("Cost Sheet not found");
      }
      PullCostSheetSnapshot(costSheets[costSheet.value]);
      ComputeBalance();
      r := Pass;
    }
  }
}
