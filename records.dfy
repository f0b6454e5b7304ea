/** The records that the calculators read from the database: the settings
    singleton, the unit status, floors, blocks, payment scheme templates and
    payment schedule rows. */
module Records {
  import opened Wrappers

  /** A calendar date as a day number; only its order matters here. */
  type Date = int

  /** Status text that is none of the four named statuses. */
  type OtherStatusText = t: string | t != "Available" && t != "Booked" && t != "Blocked" && t != "Sold"
    witness ""

  /** The Unit's lifecycle status field. `Other` stands for any other text,
      including a blank status. */
  datatype Status = Available | Booked | Blocked | Sold | Other(text: OtherStatusText)

  /** The Realapp Settings singleton. Every field may be unset. */
  datatype Settings = Settings(
    gstRate: Option<real>,
    tdsRate: Option<real>,
    basePricePerSft: Option<real>,
    floorRiseRate: Option<real>,
    facingPremiumCharges: Option<real>,
    cornerPremiumCharges: Option<real>,
    carParkingAmount: Option<real>,
    amenitiesChargesPerSft: Option<real>,
    infraChargesPerSft: Option<real>,
    defaultDocumentationCharges: Option<real>,
    maintenanceRatePerSft: Option<real>,
    maintenanceGstRate: Option<real>,
    corpusFundRatePerSft: Option<real>,
    moveInCharges: Option<real>,
    refundableCautionDeposit: Option<real>,
    defaultRegistrationCharges: Option<real>)

  datatype Floor = Floor(block: Option<string>, floorNumber: Option<int>)

  /** A Block row of the block's `tower_milestones` table. */
  datatype TowerMilestone = TowerMilestone(schemeCode: Option<string>, milestone: Option<string>, milestoneDate: Option<Date>)

  datatype BlockRecord = BlockRecord(project: Option<string>, towerMilestones: seq<TowerMilestone>)

  /** A row of a Payment Scheme Template's `payment_scheme_details`. */
  datatype TemplateRow = TemplateRow(schemeCode: Option<string>, milestone: Option<string>, particulars: Option<string>, percentage: Option<real>)

  /** A Payment Schedule row, child of a Cost Sheet or of a Booking Order.
      `name` is given by the framework when the parent is saved; rows
      appended in memory have none. */
  datatype ScheduleRow = ScheduleRow(
    name: Option<string>,
    schemeCode: Option<string>,
    milestone: Option<string>,
    milestoneItem: Option<string>,
    particulars: Option<string>,
    percentage: Option<real>,
    milestoneDate: Option<Date>,
    amount: real,
    gstAmount: real,
    tdsAmount: real,
    netPayable: real)
}
