# realapp pricing, booking and collection core in Dafny

This project models the deterministic core of *realapp*, a Frappe application for
selling real-estate units. The model covers:

- **The price breakdown of a Unit.** `apply_defaults` fills blank rates from the
  Realapp Settings. `calculate_dynamic_fields` derives the eleven figures: the
  informational amounts, full unit value, value excluding base price (ex-BP), and
  the AOS (agreement of sale) chain of AOS value, GST, AOS + GST, TDS, net payable
  and effective rate.
- **The Cost Sheet save hook.**
  - the Unit snapshot;
  - the Standard/Negotiated base-price rule;
  - the availability gate;
  - one-time population of the payment schedule from a template, with the block's
    milestone dates;
  - the header figures;
  - their spread over the schedule rows;
  - the before-registration charges and the grand total.

  It also covers the three server helpers the form calls.
- **The Cost Sheet and Unit form scripts.** These are the client-side variants of
  the same formulas.
- **The Booking Order.**
  - the Unit status transitions on submit and cancel;
  - the Cost Sheet snapshot and the balance;
  - Sales Invoices from chosen milestones, with Lead/Opportunity to Customer
    conversion and item defaults.
- **The Payment Scheme Template validation.**
- **The Block form's merge of tower-specific milestones.**
- **The Collection Report.** Its status classifier, its summary figures and its
  filter conditions.
- **The four data patches.** Two recompute the Unit figures with their own formula
  variants; two backfill amounts.

## Modules

**Value conventions**
- `Wrappers` holds `Option`, `Outcome` and `Result`.
- `Frappe` holds the framework's value conventions:
  - `Flt` is `flt(x)`;
  - `Round2` is `flt(x, 2)`, modelled as rounding half up to cents;
  - `Or` and `NonZeroOr` are Python's `x or d`;
  - `Present` and `OrText` cover text truthiness;
  - `Lower` lower-cases ASCII letters.
- `Records` holds the records read from the database.

**Pricing**
- `Pricing` holds the AOS chain shared by every Python calculator (`AosHeader`). It
  also holds the breakdown shared by the Unit and the two recompute patches
  (`Recompute`). Each variant calls it with its own premium and flat-amount sums.
- `UnitDoc` models the Unit document (`unit.py`).
- `UnitForm` models the Unit form (`unit.js`).

**Cost Sheet and booking**
- `CostSheetDoc` models the Cost Sheet document and its server helpers. `CostSheetForm`
  models its form script.
- `BookingOrderDoc` models the Booking Order document. `Invoicing` models invoice
  creation.

**Templates, blocks and reporting**
- `PaymentSchemeTemplateDoc` models the template validation.
- `BlockForm` models the Block form.
- `CollectionReport` models the report.

**Patches and cross-checks**
- `Patches` models the four patches.
- `Drift` relates the formula variants to each other.

## How the model is built

**Documents and tables**
- Documents whose fields the code assigns step by step are classes:
  - `Unit`, `CostSheet` and `BookingOrder`;
  - the Block's milestone table (`Block`).
- Their methods state the new state against specification functions.
- Child tables are `seq` fields that the methods reassign.
- `recalc_schedule_amounts` updates the form's rows in place, so it works on an
  `array`.

**Records and patches**
- Records fetched from the database are input values, as maps by name or as
  sequences.
- A patch returns the Unit table as it stands after its writes, together with its
  `updated` counter.

**Money and rounding**
- Money is `real`. `Round2` is the unique number of whole cents that is within half
  a cent of its argument, with ties rounded up. Half up is the model's choice: the
  framework's `flt` is not part of this model, and its rounding method is configurable.
- The lemmas about rounding use only two facts:
  - rounding moves a value by more than −0.005 and at most +0.005;
  - a whole number of cents is left unchanged.
- The strict lower bound of the first fact relies on ties rounding up. Under
  round-half-even a tie such as 0.125 goes down by exactly 0.005, so every bound of
  the form `x − 0.005 < Round2(x)` would then hold only non-strictly.

**Where the variants differ**
- The Unit, the doc-charges patch and the car-park-free patch each have their own
  function. They compute value excluding base price differently:
  - car parking is a flat amount in `unit.py`;
  - the doc-charges patch adds the documentation charge as well;
  - the car-park-free patch drops car parking and charges amenities and infra per
    square foot.
- The Unit form uses its own totals: facing and corner are flat amounts there, and
  nothing is rounded.
- `Drift` proves where these variants agree:
  - the Unit and the doc-charges patch write the same full value, ex-BP and
    header for a unit whose documentation charge resolves to 0;
  - the two patches write the same full value, ex-BP and header when car
    parking, amenities and infra are 0 and the unit carries a non-zero
    documentation charge;
  - a Cost Sheet priced at the Unit's base price and ex-BP, at the same GST and
    TDS rates, carries the Unit's AOS header;
  - the form's full value is within half a paisa of the server's for a unit
    with no facing, corner, floor rise, amenities, infra or documentation
    charge; no other figure is compared.
- `Drift` also exhibits two inputs on which they part:
  - a facing premium of 50 on 1000 sq ft: the form adds 50 and the server adds
    50,000;
  - a blank documentation charge with a settings default of 100: the
    doc-charges patch adds 100 to ex-BP and the car-park-free patch adds 0.

**Two behaviours worth knowing**
- The Cost Sheet's own save keeps the Unit's stored full unit value when that value
  is non-zero. The stateless preview always recomputes it. The model follows the
  code: `DocFullUnitValue` against `ComputeHeaderValues`.
- The Cost Sheet form's zero-area branch zeroes the header but leaves full unit
  value as it was. The server preview zeroes it as well. The model follows the
  code: `ZeroBranchKeepsFullValue`.

## Model

| member | source | states |
|---|---|---|
| Frappe.Round2Bounds | realapp/realapp/doctype/unit/unit.py:88-119 | `flt(x, 2)` moves an amount by more than −0.005 and at most +0.005 |
| Frappe.Round2Cents | realapp/realapp/doctype/unit/unit.py:88-119 | `flt(x, 2)` leaves an amount in whole cents unchanged |
| Frappe.Round2 | realapp/realapp/doctype/unit/unit.py:88-119 | `flt(x, 2)` is a whole number of cents more than −0.005 and at most +0.005 from `x` |
| Frappe.Lower | realapp/realapp/doctype/block/block.js:26 | lower-casing keeps the length, maps each ASCII capital to its small letter and keeps every other character |
| Pricing.AosHeader | realapp/realapp/doctype/unit/unit.py:106-119 | the AOS value is carried as given; GST, AOS + GST, TDS, net payable and effective rate are each whole cents (the same chain as the Cost Sheet's, cost_sheet.py lines 90-97) |
| Pricing.AosHeaderBounds | realapp/realapp/doctype/cost_sheet/cost_sheet.py:92-97 | net payable is within two paise of AOS·(100 + GST − TDS)/100; the effective rate times the area is within half a paisa per sq ft of net payable |
| Pricing.BaseAmount | realapp/patches/custom/update_unit_value_with_doc_charges.py:59 | the unit base amount is within half a paisa of area × base price |
| Pricing.PerSftBounds | realapp/realapp/doctype/cost_sheet/cost_sheet.py:121-123 | a per-sq-ft charge rounded to the paisa is within half a paisa of rate × area |
| Pricing.AosValueBounds | realapp/realapp/doctype/cost_sheet/cost_sheet.py:185 | the AOS value is within half a paisa of base × area + value excluding base price |
| Pricing.Recompute | realapp/realapp/doctype/unit/unit.py:94-119 | full value, ex-BP, AOS value and net payable are each whole cents, for the Unit's save and for both recompute patches that share it |
| Pricing.RecomputeBounds | realapp/realapp/doctype/unit/unit.py:94-106 | ex-BP is area·premiums + flat amounts; full value is area·(base + premiums) + flat; full − ex-BP is the base amount; the AOS value is within 1.5 paise of the full value (all up to rounding) |
| Pricing.RecomputeHeader | realapp/realapp/doctype/unit/unit.py:106-119 | the header is the AOS chain on Round2(base·area + ex-BP) |
| UnitDoc.DynamicValues | realapp/realapp/doctype/unit/unit.py:73-85 | with area ≤ 0 all eleven derived figures are 0 |
| UnitDoc.DynamicValuesBounds | realapp/realapp/doctype/unit/unit.py:94-106 | full value − ex-BP is the base amount; the AOS value is within rounding of the full value; ex-BP is area·(rise + facing + corner) + car parking |
| UnitDoc.DynamicValuesFull | realapp/realapp/doctype/unit/unit.py:94-97 | the full unit value is area·(base + rise + facing + corner) + car parking, to the paisa |
| UnitDoc.DynamicValuesHeader | realapp/realapp/doctype/unit/unit.py:106-119 | the AOS value is Round2(base·area + ex-BP), and GST, AOS + GST, TDS, net and effective rate follow the AOS chain at the unit's rates |
| UnitDoc.InformationalAmounts | realapp/realapp/doctype/unit/unit.py:88-90 | the amenities, infra and floor-rise amounts are each their rate times the area, to the paisa |
| UnitDoc.WorkedExample | realapp/realapp/doctype/unit/unit.py:94-119 | 1000 sq ft at 3000, GST 5 %, TDS 1 %: AOS 3,000,000, GST 150,000, AOS + GST 3,150,000, TDS 30,000, net 3,120,000, effective rate 3120 |
| UnitDoc.FillBlankIdempotent | realapp/realapp/doctype/unit/unit.py:47-51 | after defaulting the rate is present; an explicit value, 0 included, is kept; defaulting again, whatever the settings are by then, changes nothing |
| UnitDoc.Unit.SetHierarchy | realapp/realapp/doctype/unit/unit.py:15-31 | a blank Floor changes nothing; it fails, changing nothing, exactly when the Floor or the Floor's Block cannot be found; otherwise block, project and floor number are the placement the Floor gives: block and project overwritten only when supplied, floor number from the Floor, else 0 |
| UnitDoc.Unit.ApplyDefaults | realapp/realapp/doctype/unit/unit.py:33-55 | each of the seven rates is filled from its setting (0 when that is blank) only when blank, an explicit 0 kept; GST and TDS rates are always the settings' |
| UnitDoc.DefaultedIdempotent | realapp/realapp/doctype/unit/unit.py:47-51 | defaulting all seven rates a second time, under any settings, changes nothing |
| UnitDoc.Unit.CalculateDynamicFields | realapp/realapp/doctype/unit/unit.py:57-119 | the stored figures become the breakdown of the stored inputs, blanks read as 0 and falsy GST/TDS as 5/1 |
| UnitDoc.Unit.Validate | realapp/realapp/doctype/unit/unit.py:9-13 | fails exactly when the Floor or its Block cannot be found, and then changes nothing; on success placement is the Floor's, the seven rates are their defaults, the tax rates are the settings' and the figures are the breakdown of the result |
| UnitForm.FloorRiseFor | realapp/realapp/doctype/unit/unit.js:43-63 | with floor rise applicable and a floor chosen, floors from the fifth up pay (floor − 4)·rate, the rate 20 when falsy; otherwise rate and charge are 0; the charge is rate × area |
| UnitForm.FloorRiseMonotone | realapp/realapp/doctype/unit/unit.js:50-52 | with a non-negative rate a higher floor never has a lower effective floor-rise rate |
| UnitForm.CalculateTotals | realapp/realapp/doctype/unit/unit.js:68-101 | full value is the sum of all components with flat facing and corner; ex-BP is full minus base; AOS equals full; net is full·(100 + GST − TDS)/100 at rates 5 and 1 when falsy |
| UnitForm.Recalculate | realapp/realapp/doctype/unit/unit.js:33-65 | infra and amenities amounts are rate × area; the floor rise is that of the Floor's number, none without applicability and a floor; ex-BP is full minus base × area; net payable follows |
| UnitForm.RecalculateFull | realapp/realapp/doctype/unit/unit.js:33-76 | the form's full value is base·area + infra·area + amenities·area + floor rise + facing + corner + car parking + documentation |
| CostSheetDoc.MilestoneDates | realapp/realapp/doctype/cost_sheet/cost_sheet.py:149-154 | a blank code never gets a date, and there are at most as many codes as tower rows |
| CostSheetDoc.MilestoneDatesLastWins | realapp/realapp/doctype/cost_sheet/cost_sheet.py:149-154 | a code has a date exactly when a tower row carries it (blank codes never), and the date is that of the last such row |
| CostSheetDoc.GetPaymentSchemeRows | realapp/realapp/doctype/cost_sheet/cost_sheet.py:142-165 | blank template gives []; unknown template or block fails; otherwise one row per template row, in order, fields copied, date from the block's milestones by code or none |
| CostSheetDoc.TypedBasePrice | realapp/realapp/doctype/cost_sheet/cost_sheet.py:41-46 | Standard takes the Unit's base or 0; any other type keeps a non-zero user base and otherwise falls back to the Unit's base or 0 |
| CostSheetDoc.TypedBasePriceIdempotent | realapp/realapp/doctype/cost_sheet/cost_sheet.py:41-46 | applying the rule to its own result changes nothing, so re-validation keeps the base price |
| CostSheetDoc.ComputeHeaderValues | realapp/realapp/doctype/cost_sheet/cost_sheet.py:169-199 | area ≤ 0 gives all seven figures 0; otherwise the preview's full unit value is the AOS value |
| CostSheetDoc.HeaderValuesBounds | realapp/realapp/doctype/cost_sheet/cost_sheet.py:185 | the preview's AOS value is within half a paisa of base·area + ex-BP |
| CostSheetDoc.HeaderChain | realapp/realapp/doctype/cost_sheet/cost_sheet.py:181-198 | the preview's header is the AOS chain at the settings' GST and TDS rates (5 and 1 when falsy) |
| CostSheetDoc.ComputeBeforeRegistration | realapp/realapp/doctype/cost_sheet/cost_sheet.py:109-133 | maintenance and corpus are their rates × area to the paisa; maintenance GST is maintenance at the GST rate (18 when falsy) to the paisa; move-in, deposit and registration are the settings' values; the total is the six charges' sum to the paisa; no area gives no maintenance, GST or corpus |
| CostSheetDoc.MaintenanceBounds | realapp/realapp/doctype/cost_sheet/cost_sheet.py:114-121 | maintenance is within half a paisa of maintenance rate × area |
| CostSheetDoc.MaintenanceGstBounds | realapp/realapp/doctype/cost_sheet/cost_sheet.py:115-122 | maintenance GST is within half a paisa of maintenance × GST rate / 100, the rate 18 when falsy |
| CostSheetDoc.CorpusFundBounds | realapp/realapp/doctype/cost_sheet/cost_sheet.py:116-123 | the corpus fund is within half a paisa of corpus rate × area |
| CostSheetDoc.SpreadRow | realapp/realapp/doctype/cost_sheet/cost_sheet.py:101-107 | a row's share changes only its four amounts, and a zero AOS value gives a zero row |
| CostSheetDoc.SpreadRowBounds | realapp/realapp/doctype/cost_sheet/cost_sheet.py:104-107 | the amount is within half a paisa of AOS·pct/100; the net is within 1.5 paise of amount·(100 + GST − TDS)/100 |
| CostSheetDoc.RowNetBounds | realapp/realapp/doctype/cost_sheet/cost_sheet.py:105-107 | a share's net payable, with GST and TDS each rounded to cents and the result rounded, is within 1.5 paise of share·(100 + GST − TDS)/100 |
| CostSheetDoc.Spread | realapp/realapp/doctype/cost_sheet/cost_sheet.py:101-107 | one row per schedule row; a zero AOS value gives every row a zero amount and net payable |
| CostSheetDoc.SpreadSharesClose | realapp/realapp/doctype/cost_sheet/cost_sheet.py:103-104 | the spread amounts add up to the sum of the shares within half a paisa per row |
| CostSheetDoc.SpreadTotal | realapp/realapp/doctype/cost_sheet/cost_sheet.py:103-104 | the spread amounts add up to AOS × total percentage / 100 within half a paisa per row |
| CostSheetDoc.SpreadTotalFull | realapp/realapp/doctype/cost_sheet/cost_sheet.py:103-104 | for a schedule totalling 100 % the amounts add up to the AOS value within half a paisa per row |
| CostSheetDoc.SpreadSameRows | realapp/realapp/doctype/cost_sheet/cost_sheet.py:103-107 | spreading keeps every row's codes, milestones, percentages and dates, in order |
| CostSheetDoc.ScheduleFromScheme | realapp/realapp/doctype/cost_sheet/cost_sheet.py:53-64 | one schedule row per template row, in order, with the template's code, milestone, particulars, percentage and date, and zero amounts |
| CostSheetDoc.CostSheet.PullUnitSnapshot | realapp/realapp/doctype/cost_sheet/cost_sheet.py:21-39 | a blank or unknown Unit fails and changes nothing; otherwise identifiers, area and ex-BP are mirrored and base, full value and status kept aside |
| CostSheetDoc.CostSheet.ApplyTypeRules | realapp/realapp/doctype/cost_sheet/cost_sheet.py:41-46 | the base price becomes the pricing-mode rule applied to the old one |
| CostSheetDoc.CostSheet.CheckUnitAvailability | realapp/realapp/doctype/cost_sheet/cost_sheet.py:48-51 | fails exactly when the Unit is Booked, Blocked or Sold |
| CostSheetDoc.CostSheet.EnsurePaymentScheduleRows | realapp/realapp/doctype/cost_sheet/cost_sheet.py:53-64 | fails exactly when a template is set, the schedule is empty and the template or block cannot be found; rows are appended only with a template and an empty schedule, one new row per template row in order; a non-empty schedule is untouched |
| CostSheetDoc.CostSheet.SpreadScheduleAmounts | realapp/realapp/doctype/cost_sheet/cost_sheet.py:101-107 | every row, in place, becomes its share of the AOS value |
| CostSheetDoc.CostSheet.ComputeHeader | realapp/realapp/doctype/cost_sheet/cost_sheet.py:68-99 | the header is the preview's; full value is 0 without area and otherwise prefers the Unit's non-zero stored value (`DocFullUnitValue`, cost_sheet.py line 87); the rows are spread at AOS 0 and rates 5/1 without area, else at the AOS value and the settings' rates; snapshot and base price unchanged |
| CostSheetDoc.CostSheet.ComputeBeforeRegistrationFields | realapp/realapp/doctype/cost_sheet/cost_sheet.py:109-133 | the document's charges are exactly those of the stateless `compute_before_registration` |
| CostSheetDoc.CostSheet.ComputeGrandTotal | realapp/realapp/doctype/cost_sheet/cost_sheet.py:135-136 | grand total is AOS + GST plus the before-registration total, unrounded; header and charges unchanged |
| CostSheetDoc.CostSheet.Price | realapp/realapp/doctype/cost_sheet/cost_sheet.py:15-17 | the header is the preview's for the document's own base, area and ex-BP; full value, charges and grand total are the save's; the schedule is spread by the header's AOS value; snapshot and base price unchanged |
| CostSheetDoc.CostSheet.Prepare | realapp/realapp/doctype/cost_sheet/cost_sheet.py:11-14 | passes exactly when the Unit is given, known and sellable and the schedule population finds its template and block; on success the snapshot fields are the Unit's, the base price follows the pricing-mode rule and the schedule is the populated one; a failure leaves the schedule untouched |
| CostSheetDoc.CostSheet.Validate | realapp/realapp/doctype/cost_sheet/cost_sheet.py:10-17 | passes exactly when the Unit is given, known and sellable and the schedule population succeeds; a failure leaves header and schedule as they were; on success the snapshot is the Unit's, the base price follows the pricing-mode rule, the schedule is the populated one spread at the new AOS value, and header, full value, charges and grand total are the save's |
| CostSheetForm.JsFlt | realapp/realapp/doctype/cost_sheet/cost_sheet.js:210 | NaN reads as 0 |
| CostSheetForm.JsFltMatchesServer | realapp/realapp/doctype/cost_sheet/cost_sheet.js:210 | the script's `flt` agrees with the server's on stored values |
| CostSheetForm.JsCint | realapp/realapp/doctype/cost_sheet/cost_sheet.js:211 | NaN reads as 0; a number is truncated toward zero |
| CostSheetForm.ReadOnlyMatchesSave | realapp/realapp/doctype/cost_sheet/cost_sheet.js:85-88 | base price is read-only (`BasicPriceReadOnly`) exactly off Negotiated; on Standard the saved price ignores the entry; where editable, a non-zero entry survives the save |
| CostSheetForm.RecalcHeaderFromBase | realapp/realapp/doctype/cost_sheet/cost_sheet.js:133-162 | no area zeroes the six header figures and keeps full value; otherwise the preview's figures, full value equal to AOS |
| CostSheetForm.ZeroBranchKeepsFullValue | realapp/realapp/doctype/cost_sheet/cost_sheet.js:138-144 | in the zero branch form and preview agree on the header and differ on full value exactly when the form's was non-zero |
| CostSheetForm.InferredRates | realapp/realapp/doctype/cost_sheet/cost_sheet.js:168-169 | with AOS > 0 the rates are GST and TDS amounts as percentages of AOS; otherwise 5 and 1 |
| CostSheetForm.InferredGstRateClose | realapp/realapp/doctype/cost_sheet/cost_sheet.js:168 | on a header from the AOS chain the inferred GST rate times AOS is within half a rupee of the configured rate times AOS |
| CostSheetForm.JsRow | realapp/realapp/doctype/cost_sheet/cost_sheet.js:171-176 | the form's row changes only its four amounts |
| CostSheetForm.JsRowCloseToSave | realapp/realapp/doctype/cost_sheet/cost_sheet.js:172 | the form's unrounded amount is within half a paisa of the amount the save stores |
| CostSheetForm.RecalcScheduleAmounts | realapp/realapp/doctype/cost_sheet/cost_sheet.js:164-178 | every row, in place, gets the form's amounts at the inferred rates |
| CostSheetForm.GrandTotal | realapp/realapp/doctype/cost_sheet/cost_sheet.js:196-197 | grand total less the before-registration total is AOS + GST, blanks as 0 |
| CostSheetForm.GrandTotalMatchesSave | realapp/realapp/doctype/cost_sheet/cost_sheet.js:180-198 | recomputing the header from a base price, area and ex-BP and adding the server's before-registration total for that area gives `SavedGrandTotal` of the server's header and charges, the grand total `CostSheet.Validate` stores (its `Priced` ensures) |
| BookingOrderDoc.SubmitTransition | realapp/realapp/doctype/booking_order/booking_order.py:14-22 | submit succeeds exactly on Available, which becomes Booked |
| BookingOrderDoc.CancelTransition | realapp/realapp/doctype/booking_order/booking_order.py:24-30 | cancel turns Booked into Available and keeps any other status |
| BookingOrderDoc.CancelIdempotent | realapp/realapp/doctype/booking_order/booking_order.py:24-30 | a second cancel is a no-op |
| BookingOrderDoc.SubmitThenCancel | realapp/realapp/doctype/booking_order/booking_order.py:14-30 | cancelling a successful booking restores Available |
| BookingOrderDoc.BookingClosesCostSheets | realapp/realapp/doctype/booking_order/booking_order.py:17-21 | a bookable unit can be quoted; once booked the Cost Sheet gate refuses it; after cancel it accepts it again |
| BookingOrderDoc.CopyRows | realapp/realapp/doctype/booking_order/booking_order.py:55-68 | the copy has the same length and, in order, every field of the Cost Sheet's rows except the row name |
| BookingOrderDoc.Balance | realapp/realapp/doctype/booking_order/booking_order.py:70-74 | balance is grand total − advance, blanks as 0, to the paisa |
| BookingOrderDoc.BalanceOfPaise | realapp/realapp/doctype/booking_order/booking_order.py:72-74 | amounts in whole paise give the exact difference |
| BookingOrderDoc.BookingOrder.OnSubmit | realapp/realapp/doctype/booking_order/booking_order.py:14-22 | an Available unit becomes Booked; any other status, or a missing unit, fails and leaves the unit as it was; only the unit's status may change |
| BookingOrderDoc.BookingOrder.OnCancel | realapp/realapp/doctype/booking_order/booking_order.py:24-30 | the unit's status becomes the cancel transition of the old one; no unit changes nothing; only the unit's status may change |
| BookingOrderDoc.BookingOrder.PullCostSheetSnapshot | realapp/realapp/doctype/booking_order/booking_order.py:39-68 | the figures are the Cost Sheet's and the schedule is replaced by a copy of its rows, in order |
| BookingOrderDoc.BookingOrder.CopyFigures | realapp/realapp/doctype/booking_order/booking_order.py:42-52 | the eleven copied figures, placement, amounts and template, are the Cost Sheet's |
| BookingOrderDoc.BookingOrder.CopyPlacement | realapp/realapp/doctype/booking_order/booking_order.py:42-52 | project, block, floor, area, base price and template are the Cost Sheet's |
| BookingOrderDoc.BookingOrder.CopyAmounts | realapp/realapp/doctype/booking_order/booking_order.py:47-51 | AOS, GST, AOS + GST, net and grand total are the Cost Sheet's |
| BookingOrderDoc.BookingOrder.ComputeBalance | realapp/realapp/doctype/booking_order/booking_order.py:70-74 | the stored balance is the balance of the grand total and the advance |
| BookingOrderDoc.BookingOrder.Validate | realapp/realapp/doctype/booking_order/booking_order.py:10-12 | fails exactly when the Cost Sheet is blank or unknown, leaving schedule, grand total and balance as they were; otherwise project, block, floor, area, base price, AOS, GST, AOS + GST, net, grand total and template are the Cost Sheet's, the schedule is a copy of its rows in order and the balance is taken on that grand total |
| Invoicing.EnsureCustomerFromParty | realapp/realapp/doctype/booking_order/booking_order.py:196-237 | an unknown Lead or Opportunity fails; a converted one returns its customer with no record change; an unconverted one succeeds exactly when the new name is free, adds exactly that customer named from the Lead or Opportunity, and the only other record that changes is the party's own, whose link is set to the new customer; any other type names a customer directly |
| Invoicing.EnsureCustomerIdempotent | realapp/realapp/doctype/booking_order/booking_order.py:201-234 | a second conversion returns the first's customer and changes no record |
| Invoicing.GetItemDefaults | realapp/realapp/doctype/booking_order/booking_order.py:79-113 | nothing for a blank code; item name and stock UOM from the item; income account and cost center from the item default, falling back to the company's |
| Invoicing.BuildSalesInvoice | realapp/realapp/doctype/booking_order/booking_order.py:148-193 | one item of qty 1 at rate = amount = the row's amount, described by milestone or particulars, due on the milestone date, with the booking's unit context and project; item name, UOM, income account and cost center are the item defaults, all blank without an item code |
| Invoicing.ResolveCustomer | realapp/realapp/doctype/booking_order/booking_order.py:158-163 | a Customer party is used as is, with no record change |
| Invoicing.ResolveCustomerIdempotent | realapp/realapp/doctype/booking_order/booking_order.py:158-163 | resolving again against the records left by the first resolution gives the same customer and changes nothing |
| Invoicing.Chosen | realapp/realapp/doctype/booking_order/booking_order.py:132 | never more rows than the schedule has |
| Invoicing.ChosenRows | realapp/realapp/doctype/booking_order/booking_order.py:132 | a row is chosen exactly when it is in the schedule and its name is selected |
| Invoicing.ChosenInOrder | realapp/realapp/doctype/booking_order/booking_order.py:132 | rows chosen from an earlier part of the schedule come before those chosen from a later part |
| Invoicing.ChooseAll | realapp/realapp/doctype/booking_order/booking_order.py:132 | selecting every named row chooses the whole schedule in order |
| Invoicing.MakeSalesInvoice | realapp/realapp/doctype/booking_order/booking_order.py:118-145 | no selection fails; one chosen row opens one invoice; otherwise one invoice per chosen row, none included, all to the resolved customer |
| Invoicing.Batch | realapp/realapp/doctype/booking_order/booking_order.py:137-142 | one invoice per chosen row, in order, each for the same customer and booking, with one item of the row's amount, due on its date |
| Invoicing.BatchHasOneCustomer | realapp/realapp/doctype/booking_order/booking_order.py:139-142 | every invoice of a batch has the same customer and one item |
| CollectionReport.GetStatus | realapp/realapp/report/collection_report/collection_report.py:110-124 | each of the four labels holds exactly under its condition, the conditions taken in the code's order |
| CollectionReport.UnpaidPastDueIsPending | realapp/realapp/report/collection_report/collection_report.py:119-122 | an unpaid past-due row is Pending, not Overdue |
| CollectionReport.NoDueDateNeverOverdue | realapp/realapp/report/collection_report/collection_report.py:113-121 | a missing or blank due date is never Overdue |
| CollectionReport.EnrichRows | realapp/realapp/report/collection_report/collection_report.py:102-105 | every row gets its status and last remark, nothing else changes |
| CollectionReport.GetSummary | realapp/realapp/report/collection_report/collection_report.py:140-154 | five figures in a fixed order: the row count, the three column sums, and the outstanding over Overdue rows |
| CollectionReport.OverdueWithinOpen | realapp/realapp/report/collection_report/collection_report.py:145-146 | when every row marked Overdue owes something, the overdue amount lies between 0 and the total still owed |
| CollectionReport.EnrichedOverdueOwes | realapp/realapp/report/collection_report/collection_report.py:117-122 | every row marked Overdue owes a positive amount |
| CollectionReport.Total | realapp/realapp/report/collection_report/collection_report.py:143-145 | a column of non-negative amounts sums to a non-negative total |
| CollectionReport.OverdueAmount | realapp/realapp/report/collection_report/collection_report.py:146 | with no row marked Overdue the overdue amount is 0 |
| CollectionReport.TotalsBalance | realapp/realapp/report/collection_report/collection_report.py:143-145 | outstanding per row as the query computes it makes total outstanding = total invoiced − total collected |
| CollectionReport.BuildConditions | realapp/realapp/report/collection_report/collection_report.py:40-69 | docstatus first; each given filter adds its condition and value; the date range only with both ends; the count of conditions matches; the joined WHERE clause starts with `si.docstatus = 1` |
| CollectionReport.Sql | realapp/realapp/report/collection_report/collection_report.py:40-66 | every condition has non-empty SQL text |
| CollectionReport.WhereClause | realapp/realapp/report/collection_report/collection_report.py:69 | the clause is empty exactly without conditions and starts with the first condition's SQL |
| CollectionReport.SingleValueFilters | realapp/realapp/report/collection_report/collection_report.py:41-62 | the five single-value filters each add their condition and value exactly when given; the range is not touched |
| CollectionReport.PlacementFilters | realapp/realapp/report/collection_report/collection_report.py:41-54 | project, block and unit filters each add their condition and value exactly when given |
| CollectionReport.AddFilter | realapp/realapp/report/collection_report/collection_report.py:44-46 | a given filter appends its condition and records its value; every other parameter is unchanged |
| Patches.DocCharge | realapp/patches/custom/update_unit_value_with_doc_charges.py:40-44 | a truthy documentation charge is used, else the settings default (0 when blank) |
| Patches.DocChargeUpdate | realapp/patches/custom/update_unit_value_with_doc_charges.py:59-94 | only the base amount, full value, ex-BP, AOS header and documentation charge change; the charge used is written back; the base amount is area × base price to the paisa |
| Patches.DocChargeFigures | realapp/patches/custom/update_unit_value_with_doc_charges.py:49-78 | ex-BP is area·(rise + facing + corner) + car parking + doc charge; full adds base·area; the header is the AOS chain at the unit's, else settings', else 5/1 rates |
| Patches.DocChargeIgnoresAmenities | realapp/patches/custom/update_unit_value_with_doc_charges.py:46-47 | no figure depends on the amenities or infra rate |
| Patches.DocChargeFallbackStored | realapp/patches/custom/update_unit_value_with_doc_charges.py:93 | a second run finds the written-back charge and uses it |
| Patches.CountPositive | realapp/patches/custom/update_unit_value_with_doc_charges.py:96 | the `updated` counter never exceeds the number of records |
| Patches.DocChargesPatch | realapp/patches/custom/update_unit_value_with_doc_charges.py:33-96 | area ≤ 0 records are skipped and not counted; the others are rewritten; updated counts the positive-area records |
| Patches.CarParkFreeUpdate | realapp/patches/custom/update_value_excluding_bp_without_car_park.py:73-82 | only the eight figures change; documentation charge and base amount stay |
| Patches.CarParkFreeFigures | realapp/patches/custom/update_value_excluding_bp_without_car_park.py:58-71 | ex-BP is area·(rise + facing + corner + amenities + infra) + doc charge; full adds base·area; the header is the AOS chain |
| Patches.CarParkFreeIgnoresCarParking | realapp/patches/custom/update_value_excluding_bp_without_car_park.py:58-64 | car parking enters no figure |
| Patches.CarParkFreePatch | realapp/patches/custom/update_value_excluding_bp_without_car_park.py:35-84 | area ≤ 0 records are skipped and not counted; every other record gets the car-park-free figures; updated counts the positive-area records |
| Patches.FacingCornerUpdate | realapp/patches/custom/backfill_facing_and_corner_premium_values.py:30-36 | only the two amounts change, each rate × area to the paisa |
| Patches.BackfillFacingAndCorner | realapp/patches/custom/backfill_facing_and_corner_premium_values.py:11-37 | without both columns nothing is written; otherwise positive-area records get the amounts and are counted |
| Patches.BaseAmountUpdate | realapp/patches/custom/backfill_unit_base_amount_values.py:22-26 | only the base amount changes, base × area to the paisa, blanks as 0, and it equals the doc-charges patch's base amount |
| Patches.BackfillUnitBaseAmount | realapp/patches/custom/backfill_unit_base_amount_values.py:10-27 | without the column nothing is written; otherwise every record is written and counted |
| PaymentSchemeTemplateDoc.Validate | realapp/realapp/doctype/payment_scheme_template/payment_scheme_template.py:8-21 | passes exactly with distinct codes and a total ≤ 100; a repeat fails first, naming the first repeated code; an excess total fails with the total |
| PaymentSchemeTemplateDoc.Total | realapp/realapp/doctype/payment_scheme_template/payment_scheme_template.py:18 | non-negative percentages give a non-negative total |
| PaymentSchemeTemplateDoc.BlankPercentageCountsZero | realapp/realapp/doctype/payment_scheme_template/payment_scheme_template.py:18 | a blank percentage adds nothing to the total |
| PaymentSchemeTemplateDoc.TotalAppend | realapp/realapp/doctype/payment_scheme_template/payment_scheme_template.py:18 | the total of two row lists is the sum of their totals |
| BlockForm.NewMilestone | realapp/realapp/doctype/block/block.js:30-33 | a new milestone row has no date |
| BlockForm.Merge | realapp/realapp/doctype/block/block.js:25-35 | the table grows by at most one row per template row |
| BlockForm.MergeKeepsRows | realapp/realapp/doctype/block/block.js:23-35 | the existing rows, dates included, are kept as a prefix |
| BlockForm.MergeAddsOnlyTowerRows | realapp/realapp/doctype/block/block.js:25-33 | every appended row copies a tower-specific template row and has a code the table lacked |
| BlockForm.MergeCovers | realapp/realapp/doctype/block/block.js:25-35 | afterwards every tower-specific code of the template is present |
| BlockForm.MergeNothingNew | realapp/realapp/doctype/block/block.js:29 | a template whose tower-specific codes are all present adds nothing |
| BlockForm.MergeIdempotent | realapp/realapp/doctype/block/block.js:25-35 | choosing the same template twice merges once |
| BlockForm.MergeKeepsDistinct | realapp/realapp/doctype/block/block.js:29-34 | a table without repeated codes keeps none, even when the template repeats a code |
| BlockForm.TowerRows | realapp/realapp/doctype/block/block.js:25-26 | the tower-specific rows are exactly those whose lower-cased particulars are "tower specific" |
| BlockForm.MergeAppendsInOrder | realapp/realapp/doctype/block/block.js:25-35 | with new, distinct codes, one row per tower-specific template row is appended, in template order |
| BlockForm.Block.OnPaymentSchemeTemplate | realapp/realapp/doctype/block/block.js:17-39 | a blank or unknown template changes nothing; otherwise the table becomes the merge of the old table with the template's rows |
| Drift.DocPatchMatchesUnitWithoutDocCharge | realapp/patches/custom/update_unit_value_with_doc_charges.py:59-78 | with the documentation charge resolving to 0 the doc-charges patch writes the Unit save's full value, ex-BP and header |
| Drift.CostSheetHeaderMatchesUnit | realapp/realapp/doctype/cost_sheet/cost_sheet.py:181-198 | priced at the Unit's base and ex-BP at the same rates, the preview carries the Unit's AOS header |
| Drift.StandardCostSheetMatchesUnit | realapp/realapp/doctype/cost_sheet/cost_sheet.py:43-44 | a Standard sheet carries the Unit's header and its full value is within 1.5 paise of the Unit's |
| Drift.CarParkFreeMatchesDocPatch | realapp/patches/custom/update_value_excluding_bp_without_car_park.py:58-71 | with car parking, amenities and infra 0 and a doc charge on the unit, the two patches write the same figures |
| Drift.BlankDocChargeDrift | realapp/patches/custom/update_value_excluding_bp_without_car_park.py:48 | for 1000 sq ft with no premiums, car parking, amenities or infra and a blank documentation charge under a settings default of 100, the doc-charges patch writes ex-BP 100 and the car-park-free patch writes 0 |
| Drift.FormMatchesServerForPlainUnit | realapp/realapp/doctype/unit/unit.js:69-78 | with no premiums, amenities, infra, floor rise or doc charge the form's full value is within half a paisa of the server's |
| Drift.FacingPremiumDrift | realapp/realapp/doctype/unit/unit.js:69-76 | for 1000 sq ft at 3000 with a facing premium of 50, the form shows 3,000,050 and the server stores 3,050,000 |

## Left out

- **Framework persistence.** `get_doc`, `get_single`, `get_all`, `db.get_value`,
  `db.set_value`, `save`, `insert`, `commit`, logging and `msgprint` are not modelled.
  - Fetched records and settings are parameters.
  - A missing record is an error result.
  - Patch writes are the returned table.
  - The column checks of the backfills are boolean parameters.
- **The Collection Report query.** The SQL query, its joins, grouping and order are
  not modelled. Its result rows are the input of the report functions.
  - `get_last_remark` is a function parameter.
  - The WHERE clause is modelled as its list of conditions and values.
- **The clock.** `today()` is a parameter of `GetStatus`.
- **Date parsing.** Parsing a text due date is a function parameter.
- **Floating point.** Python and JavaScript floats are modelled as exact reals.
  - Rounding is `Round2`, half up by the model's choice. The strict lower bounds
    rely on that choice; other tie rules are not modelled.
  - `parseFloat`/`parseInt` prefix parsing is reduced to a number or NaN.
- **Unicode.** `Frappe.Lower` lower-cases ASCII letters only.
- **Form plumbing.** Not modelled:
  - form-event wiring and `frappe.call` sequencing;
  - `set_value` refreshes;
  - `pull_unit_numbers`, which only copies Unit fields onto the form;
  - the settings fetches in `unit.js` `refresh`;
  - the Cost Sheet form's `payment_scheme_template` handler, which reuses
    `get_payment_scheme_rows` and `recalc_schedule_amounts`.
- **Asynchronous form updates.** The asynchronous floor lookup in `unit.js` is a
  parameter: the Floor's number or none.
- **`BlockForm.Block.OnPaymentSchemeTemplate`** merges into the block's own
  milestone list, so every check sees the rows appended before it.
  - In the script this holds only when the table already exists.
  - When `tower_milestones` is still undefined, `block.js` checks a detached empty
    array. A template that repeats a tower-specific code would then append it twice.
  - The model treats the table as always present.
- **Invoicing.MakeSalesInvoice: the company default lookup.** The default lookup
  (`get_default("company")` or the first Company) is not modelled; the company is a
  parameter.
- **Invoicing.MakeSalesInvoice: customer naming.** The framework's naming of a new
  Customer is a parameter. A blank or taken name stands for a failed insert.
- **Invoicing.MakeSalesInvoice: invoice internals.** Posting and the rest of the
  Sales Invoice document are not modelled.
- **Invoicing.MakeSalesInvoice: selection parsing.** Parsing `selected_rows` from
  JSON is not modelled. The selection is a list of row names.
- **Re-validation.** Frappe's re-validation on submit is not modelled; each save
  hook is modelled once.
- **Schema migrations and UI-only scripts.** Not modelled:
  - the schema-migration patches that add columns;
  - the Booking Order and Collection Report form scripts;
  - the Realapp Settings controller.
- BookingOrderDoc.BookingOrder.OnSubmit: `unit.save` at booking_order.py:22 runs the
  Unit's own save hook (unit.py:9-13) again. The model changes only the status and does
  not re-run that hook's placement, defaults and breakdown.
- BookingOrderDoc.BookingOrder.OnCancel: `unit.save` at booking_order.py:30 runs the
  Unit's save hook again too. The model changes only the status.
- **BookingOrderDoc.BookingOrder.OnCancel: unknown Unit.** When the order names a Unit
  that cannot be fetched, `on_cancel` raises. The model changes nothing in that case
  and reports no error.
- **CollectionReport.BuildConditions: clause order.** It states which conditions
  and values appear and how many. It does not state their order after the first.
