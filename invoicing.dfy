/** Sales Invoices from a Booking Order's milestones: converting the
    booking's party into a Customer, the item defaults, the field mapping of
    one invoice and the choice of rows to invoice. */
module Invoicing {
  import opened Wrappers
  import opened Frappe
  import opened Records

  // ---------------- customers ----------------

  datatype Lead = Lead(leadName: Option<string>, convertedBy: Option<string>)
  datatype Opportunity = Opportunity(partyName: Option<string>, customer: Option<string>)
  datatype Customer = Customer(customerName: Option<string>, leadName: Option<string>)

  /** The CRM records `ensure_customer_from_party` reads and writes. */
  datatype Crm = Crm(leads: map<string, Lead>, opportunities: map<string, Opportunity>, customers: map<string, Customer>)

  /** A customer that already exists, or an error. */
  function ExistingCustomer(crm: Crm, name: Option<string>): Result<(string, Crm), string>
  {
    if Present(name) && name.value in crm.customers then Ok((name.value, crm)) else Err("Customer not found")
  }

  /** `ensure_customer_from_party`. A converted Lead or an Opportunity with a
      customer gives that customer; an unconverted one gets a new Customer,
      under the name `newName` the framework would assign (a blank or taken
      name fails the insert), and is marked converted to it; any other
      party type names a Customer directly. */
  function EnsureCustomerFromParty(crm: Crm, party: Option<string>, partyType: Option<string>, newName: string)
    : (r: Result<(string, Crm), string>)
    ensures r.Ok? ==> r.value.0 in r.value.1.customers
    ensures r.Ok? ==> forall k :: k in crm.customers ==> k in r.value.1.customers && r.value.1.customers[k] == crm.customers[k]
    ensures r.Ok? && partyType == Some("Lead") ==>
              Present(party) && party.value in r.value.1.leads && r.value.1.leads[party.value].convertedBy == Some(r.value.0)
    ensures r.Ok? && partyType == Some("Opportunity") ==>
              Present(party) && party.value in r.value.1.opportunities && r.value.1.opportunities[party.value].customer == Some(r.value.0)
    ensures partyType != Some("Lead") && partyType != Some("Opportunity") ==> r == ExistingCustomer(crm, party)
    ensures (partyType == Some("Lead") || partyType == Some("Opportunity")) && !Present(party) ==> r.Err?
    ensures partyType == Some("Lead") && Present(party) && party.value !in crm.leads ==> r.Err?
    ensures partyType == Some("Opportunity") && Present(party) && party.value !in crm.opportunities ==> r.Err?
    // a converted party: its customer, records unchanged
    ensures partyType == Some("Lead") && Present(party) && party.value in crm.leads && Present(crm.leads[party.value].convertedBy) ==>
              r == ExistingCustomer(crm, crm.leads[party.value].convertedBy)
    ensures partyType == Some("Opportunity") && Present(party) && party.value in crm.opportunities && Present(crm.opportunities[party.value].customer) ==>
              r == ExistingCustomer(crm, crm.opportunities[party.value].customer)
    // an unconverted party: exactly one new customer, named `newName`
    ensures partyType == Some("Lead") && Present(party) && party.value in crm.leads && !Present(crm.leads[party.value].convertedBy) ==>
              && (r.Ok? <==> newName != "" && newName !in crm.customers)
              && (r.Ok? ==> && r.value.0 == newName
                            && r.value.1.customers.Keys == crm.customers.Keys + {newName}
                            && r.value.1.customers[newName] == Customer(crm.leads[party.value].leadName, party)
                            && r.value.1.leads.Keys == crm.leads.Keys
                            && r.value.1.leads == crm.leads[party.value := crm.leads[party.value].(convertedBy := Some(newName))]
                            && r.value.1.opportunities == crm.opportunities)
    ensures partyType == Some("Opportunity") && Present(party) && party.value in crm.opportunities && !Present(crm.opportunities[party.value].customer) ==>
              && (r.Ok? <==> newName != "" && newName !in crm.customers)
              && (r.Ok? ==> && r.value.0 == newName
                            && r.value.1.customers.Keys == crm.customers.Keys + {newName}
                            && r.value.1.customers[newName] == Customer(OrText(crm.opportunities[party.value].partyName, Some("Customer " + party.value)), None)
                            && r.value.1.opportunities.Keys == crm.opportunities.Keys
                            && r.value.1.opportunities
                               == crm.opportunities[party.value := crm.opportunities[party.value].(customer := Some(newName))]
                            && r.value.1.leads == crm.leads)
  {
    if partyType == Some("Lead") then
      if !Present(party) || party.value !in crm.leads then Err("Lead not found")
      else
        var lead := crm.leads[party.value];
        if Present(lead.convertedBy) then ExistingCustomer(crm, lead.convertedBy)
        else if newName == "" || newName in crm.customers then Err("Customer could not be created")
        else
          Ok((newName, crm.(customers := crm.customers[newName := Customer(lead.leadName, party)],
                            leads := crm.leads[party.value := lead.(convertedBy := Some(newName))])))
    else if partyType == Some("Opportunity") then
      if !Present(party) || party.value !in crm.opportunities then Err("Opportunity not found")
      else
        var opp := crm.opportunities[party.value];
        if Present(opp.customer) then ExistingCustomer(crm, opp.customer)
        else if newName == "" || newName in crm.customers then Err("Customer could not be created")
        else
          var name := OrText(opp.partyName, Some("Customer " + party.value));
          Ok((newName, crm.(customers := crm.customers[newName := Customer(name, None)],
                            opportunities := crm.opportunities[party.value := opp.(customer := Some(newName))])))
    else ExistingCustomer(crm, party)
  }

  /** Converting a party twice creates nothing new: the second call returns
      the first call's customer and leaves the records as they are. */
  lemma EnsureCustomerIdempotent(crm: Crm, party: Option<string>, partyType: Option<string>, newName: string, again: string)
    requires EnsureCustomerFromParty(crm, party, partyType, newName).Ok?
    ensures var first := EnsureCustomerFromParty(crm, party, partyType, newName).value;
            EnsureCustomerFromParty(first.1, party, partyType, again) == Ok(first)
  {
  }

  // ---------------- item defaults ----------------

  datatype Item = Item(itemName: Option<string>, stockUom: Option<string>)
  datatype ItemDefault = ItemDefault(incomeAccount: Option<string>, sellingCostCenter: Option<string>)
  datatype CompanyDefaults = CompanyDefaults(defaultIncomeAccount: Option<string>, costCenter: Option<string>)

  /** The Item, Item Default and Company records `get_item_defaults` reads;
      Item Defaults are keyed by item code and company. */
  datatype Catalog = Catalog(
    items: map<string, Item>,
    itemDefaults: map<(string, string), ItemDefault>,
    companies: map<string, CompanyDefaults>)

  datatype ItemDefaults = ItemDefaults(itemName: Option<string>, uom: Option<string>,
                                       incomeAccount: Option<string>, costCenter: Option<string>)

  /** A missing record reads as one with every field blank. */
  function ItemOf(c: Catalog, code: string): Item
  {
    if code in c.items then c.items[code] else Item(None, None)
  }

  function ItemDefaultOf(c: Catalog, code: string, company: string): ItemDefault
  {
    if (code, company) in c.itemDefaults then c.itemDefaults[(code, company)] else ItemDefault(None, None)
  }

  function CompanyOf(c: Catalog, company: string): CompanyDefaults
  {
    if company in c.companies then c.companies[company] else CompanyDefaults(None, None)
  }

  /** `get_item_defaults`: nothing for a blank item code; otherwise the
      item's name and stock unit, and the item's income account and selling
      cost center for the company, each falling back to the company's own
      default when blank. */
  function GetItemDefaults(code: Option<string>, company: string, c: Catalog): (r: Option<ItemDefaults>)
    ensures !Present(code) <==> r.None?
    ensures Present(code) ==>
      var d := ItemDefaultOf(c, code.value, company);
      var co := CompanyOf(c, company);
      && r.value.itemName == ItemOf(c, code.value).itemName
      && r.value.uom == ItemOf(c, code.value).stockUom
      && (Present(d.incomeAccount) ==> r.value.incomeAccount == d.incomeAccount)
      && (!Present(d.incomeAccount) ==> r.value.incomeAccount == co.defaultIncomeAccount)
      && (Present(d.sellingCostCenter) ==> r.value.costCenter == d.sellingCostCenter)
      && (!Present(d.sellingCostCenter) ==> r.value.costCenter == co.costCenter)
  {
    if !Present(code) then None
    else
      var item := ItemOf(c, code.value);
      var d := ItemDefaultOf(c, code.value, company);
      var co := CompanyOf(c, company);
      Some(ItemDefaults(item.itemName, item.stockUom,
                        OrText(d.incomeAccount, co.defaultIncomeAccount),
                        OrText(d.sellingCostCenter, co.costCenter)))
  }

  // ---------------- one invoice ----------------

  /** The Booking Order fields the invoices read. */
  datatype BookingContext = BookingContext(
    name: string,
    unit: Option<string>,
    project: Option<string>,
    block: Option<string>,
    floorNumber: Option<int>,
    partyType: Option<string>,
    party: Option<string>,
    paymentSchedule: seq<ScheduleRow>)

  datatype InvoiceItem = InvoiceItem(
    itemCode: Option<string>,
    itemName: Option<string>,
    description: Option<string>,
    qty: int,
    uom: Option<string>,
    rate: real,
    amount: real,
    incomeAccount: Option<string>,
    costCenter: Option<string>,
    project: Option<string>)

  datatype SalesInvoice = SalesInvoice(
    company: string,
    bookingOrder: string,
    customer: Option<string>,
    unit: Option<string>,
    project: Option<string>,
    block: Option<string>,
    floorNumber: Option<int>,
    dueDate: Option<Date>,
    items: seq<InvoiceItem>)

  /** `_build_single_sales_invoice`: one item of quantity 1 priced at the
      milestone's amount, described by its milestone (or its particulars),
      due on the milestone date when there is one, carrying the booking's
      unit context. */
  function BuildSalesInvoice(bo: BookingContext, row: ScheduleRow, customer: Option<string>, company: string, c: Catalog)
    : (si: SalesInvoice)
    ensures |si.items| == 1
    ensures si.items[0].qty == 1 && si.items[0].rate == row.amount && si.items[0].amount == row.amount
    ensures si.items[0].itemCode == row.milestoneItem
    ensures si.items[0].description == (if Present(row.milestone) then row.milestone else row.particulars)
    ensures si.dueDate == row.milestoneDate
    ensures si.customer == customer && si.bookingOrder == bo.name && si.company == company
    ensures si.unit == bo.unit && si.project == bo.project && si.block == bo.block && si.floorNumber == bo.floorNumber
    ensures si.items[0].project == bo.project
    // the item's name, unit and accounts are the item defaults, or blank without an item code
    ensures !Present(row.milestoneItem) ==>
              si.items[0].itemName == None && si.items[0].uom == None
              && si.items[0].incomeAccount == None && si.items[0].costCenter == None
    ensures Present(row.milestoneItem) ==>
              var d := GetItemDefaults(row.milestoneItem, company, c).value;
              && si.items[0].itemName == d.itemName && si.items[0].uom == d.uom
              && si.items[0].incomeAccount == d.incomeAccount && si.items[0].costCenter == d.costCenter
  {
    var d := if Present(row.milestoneItem) then GetItemDefaults(row.milestoneItem, company, c) else None;
    var defaults := if d.Some? then d.value else ItemDefaults(None, None, None, None);
    SalesInvoice(company, bo.name, customer, bo.unit, bo.project, bo.block, bo.floorNumber,
                 if row.milestoneDate.Some? then row.milestoneDate else None,
                 [InvoiceItem(row.milestoneItem, defaults.itemName, OrText(row.milestone, row.particulars), 1,
                              defaults.uom, row.amount, row.amount, defaults.incomeAccount, defaults.costCenter,
                              bo.project)])
  }

  /** The invoice's customer: the party itself for a Customer party, the
      converted customer otherwise. */
  function ResolveCustomer(bo: BookingContext, crm: Crm, newName: string): (r: Result<(Option<string>, Crm), string>)
    ensures bo.partyType == Some("Customer") ==> r == Ok((bo.party, crm))
  {
    if bo.partyType == Some("Customer") then Ok((bo.party, crm))
    else
      match EnsureCustomerFromParty(crm, bo.party, bo.partyType, newName)
      case Err(e) => Err(e)
      case Ok(p) => Ok((Some(p.0), p.1))
  }

  /** Resolving again against the records the first resolution left gives
      the same customer and changes nothing. */
  lemma ResolveCustomerIdempotent(bo: BookingContext, crm: Crm, newName: string)
    requires ResolveCustomer(bo, crm, newName).Ok?
    ensures var first := ResolveCustomer(bo, crm, newName).value;
            ResolveCustomer(bo, first.1, newName) == Ok(first)
  {
    if bo.partyType != Some("Customer") {
      EnsureCustomerIdempotent(crm, bo.party, bo.partyType, newName, newName);
    }
  }

  // ---------------- choosing rows ----------------

  predicate Selected(row: ScheduleRow, selected: seq<string>)
  {
    row.name.Some? && row.name.value in selected
  }

  /** The schedule rows whose name was selected, in schedule order. */
  function Chosen(schedule: seq<ScheduleRow>, selected: seq<string>): (chosen: seq<ScheduleRow>)
    ensures |chosen| <= |schedule|
  {
    if schedule == [] then []
    else (if Selected(schedule[0], selected) then [schedule[0]] else []) + Chosen(schedule[1..], selected)
  }

  /** A row is chosen exactly when it is in the schedule and selected. */
  lemma {:induction false} ChosenRows(schedule: seq<ScheduleRow>, selected: seq<string>, row: ScheduleRow)
    ensures row in Chosen(schedule, selected) <==> row in schedule && Selected(row, selected)
  {
    if schedule != [] {
      ChosenRows(schedule[1..], selected, row);
      assert schedule == [schedule[0]] + schedule[1..];
    }
  }

  /** Choosing keeps schedule order: the rows chosen from an earlier part
      of the schedule come before those chosen from a later part. */
  lemma {:induction false} ChosenInOrder(front: seq<ScheduleRow>, back: seq<ScheduleRow>, selected: seq<string>)
    ensures Chosen(front + back, selected) == Chosen(front, selected) + Chosen(back, selected)
  {
    if front != [] {
      ChosenInOrder(front[1..], back, selected);
      assert (front + back)[1..] == front[1..] + back;
    } else {
      assert front + back == back;
    }
  }

  /** Selecting every row of a schedule whose rows all have names chooses
      the whole schedule, in order. */
  lemma {:induction false} ChooseAll(schedule: seq<ScheduleRow>, selected: seq<string>)
    requires forall i :: 0 <= i < |schedule| ==> Selected(schedule[i], selected)
    ensures Chosen(schedule, selected) == schedule
  {
    if schedule != [] {
      ChooseAll(schedule[1..], selected);
    }
  }

  /** The invoices of a batch, one per chosen row, in order. */
  function Batch(bo: BookingContext, rows: seq<ScheduleRow>, customer: Option<string>, company: string, c: Catalog)
    : (b: seq<SalesInvoice>)
    ensures |b| == |rows|
    ensures forall i :: 0 <= i < |b| ==>
              && b[i].customer == customer && b[i].bookingOrder == bo.name
              && |b[i].items| == 1 && b[i].items[0].amount == rows[i].amount
              && b[i].dueDate == rows[i].milestoneDate
  {
    seq(|rows|, i requires 0 <= i < |rows| => BuildSalesInvoice(bo, rows[i], customer, company, c))
  }

  /** What `make_sales_invoice` hands back: one unsaved invoice to open, or
      the saved invoices of a batch. */
  datatype InvoiceBatch = Opened(invoice: SalesInvoice) | Created(invoices: seq<SalesInvoice>)

  /** `make_sales_invoice`. No selection is an error. One chosen row opens
      one unsaved invoice; any other number of chosen rows, none included,
      creates one saved invoice per row. Every invoice goes to the customer
      the first resolution gives. */
  method MakeSalesInvoice(bo: BookingContext, selected: seq<string>, crm: Crm, newName: string,
                          company: string, c: Catalog) returns (r: Result<(InvoiceBatch, Crm), string>)
    ensures selected == [] ==> r.Err?
    ensures selected != [] && Chosen(bo.paymentSchedule, selected) == [] ==> r == Ok((Created([]), crm))
    ensures selected != [] && Chosen(bo.paymentSchedule, selected) != [] ==>
      var chosen := Chosen(bo.paymentSchedule, selected);
      match ResolveCustomer(bo, crm, newName)
      case Err(e) => r == Err(e)
      case Ok(p) =>
        r.Ok? && r.value.1 == p.1
        && (|chosen| == 1 ==> r.value.0 == Opened(BuildSalesInvoice(bo, chosen[0], p.0, company, c)))
        && (|chosen| > 1 ==> r.value.0 == Created(Batch(bo, chosen, p.0, company, c)))
  {
    if selected == [] {
      return Err("No milestones selected.");
    }
    var chosen := Chosen(bo.paymentSchedule, selected);
    if |chosen| == 1 {
      var res := ResolveCustomer(bo, crm, newName);
      if res.Err? {
        return Err(res.error);
      }
      return Ok((Opened(BuildSalesInvoice(bo, chosen[0], res.value.0, company, c)), res.value.1));
    }
    var invoices: seq<SalesInvoice> := [];
    var records := crm;
    var i := 0;
    while i < |chosen|
      invariant 0 <= i <= |chosen|
      invariant i == 0 ==> records == crm && invoices == []
      invariant i > 0 ==> ResolveCustomer(bo, crm, newName).Ok?
                          && records == ResolveCustomer(bo, crm, newName).value.1
                          && invoices == Batch(bo, chosen[..i], ResolveCustomer(bo, crm, newName).value.0, company, c)
    {
      if i > 0 {
        ResolveCustomerIdempotent(bo, crm, newName);
      }
      var res := ResolveCustomer(bo, records, newName);
      if res.Err? {
        return Err(res.error);
      }
      var si := BuildSalesInvoice(bo, chosen[i], res.value.0, company, c);
      ghost var before := invoices;
      invoices := invoices + [si];
      records := res.value.1;
      assert chosen[..i + 1] == chosen[..i] + [chosen[i]];
      BatchAppend(bo, chosen[..i], chosen[i], res.value.0, company, c);
      i := i + 1;
    }
    assert chosen[..|chosen|] == chosen;
    r := Ok((Created(invoices), records));
  }

  /** A batch over one more row is the batch so far plus that row's invoice. */
  lemma BatchAppend(bo: BookingContext, rows: seq<ScheduleRow>, row: ScheduleRow, customer: Option<string>, company: string, c: Catalog)
    ensures Batch(bo, rows + [row], customer, company, c)
            == Batch(bo, rows, customer, company, c) + [BuildSalesInvoice(bo, row, customer, company, c)]
  {
  }

  /** Every invoice of a batch goes to the same customer. */
  lemma BatchHasOneCustomer(bo: BookingContext, rows: seq<ScheduleRow>, customer: Option<string>, company: string, c: Catalog)
    ensures forall si | si in Batch(bo, rows, customer, company, c) :: si.customer == customer && |si.items| == 1
  {
  }
}
