/**
 * The incident dictionary that flows through intake: the keys the intake
 * rules read or write, the status marks they leave on it, and the mutable
 * holder (`IncidentDict`) every step updates in place.
 */
module Incidents {
  import opened Wrappers
  import opened PyValues

  /** An abstract reading of the wall clock (`datetime.now()`). */
  type Instant = int

  /** `Incident_Status_Dtm`: an ISO string of a clock reading, a Mongo `{"$date": ...}` wrapper, or the value the incident came with. */
  datatype Stamp = Iso(at: Instant) | MongoDate(at: Instant) | Carried(v: Value)

  /** The step of `get_modified_incident_dict` whose result carried status "Error". */
  datatype Stage = LinkStage | BandStage | FilterStage | CriteriaStage

  /** The exceptions the intake rules raise and catch. */
  datatype ErrorKind =
    | BandsMissing              // DataNotFoundError("Arrears Band not found")
    | BadNumber(text: string)   // ValueError from float(text)
    | BadOperand                // TypeError: an ordering, `lower()` or `re` call on the wrong kind of value
    | KeyMissing(key: string)   // KeyError(key)
    | NotModified(stage: Stage) // NotModifiedResponse raised by the intake pipeline

  /** `Status_Description`: a plain value, the exception object itself, or its `str()`. */
  datatype Description = Stated(v: Value) | Raised(e: ErrorKind) | Rendered(e: ErrorKind)

  /**
   * `Filtered_Reason`: a value the incident came with, or the text an F1
   * filter writes, which names the filter's rule and the incident values
   * that matched it (the exact wording of the f-string is not modelled).
   */
  datatype Reason = Carried(v: Value) | Matched(filterId: int, rule: Value, subject: seq<Value>)

  predicate ReasonTruthy(r: Option<Reason>)
  {
    match r
    case None => false
    case Some(Carried(v)) => Truthy(v)
    case Some(Matched(_, _, _)) => true
  }

  /** One element of `Product_Details`. */
  datatype Product = Product(customerRef: Option<Value>, province: Option<Value>, productStatus: Option<Value>)

  /** One element of `Contact_Details`. */
  datatype Contact = Contact(contactType: Option<Value>, contact: Option<Value>)

  /** One element of the linked-accounts list (`Account_Cross_Details`). */
  datatype LinkEntry = LinkEntry(incidentId: Value, caseId: Value, accountNum: Value, accountStatus: Value, outstandingBalance: Value)

  /** The module-level list `customer_link_accounts_details` that linking clears and refills. */
  class LinkedAccounts {
    var entries: seq<LinkEntry>

    constructor()
      ensures entries == []
    {
      entries := [];
    }
  }

  /**
   * What `Last_Actions` holds: a dictionary, of which only `Payment_Created`
   * is read, or anything else (the list of actions the intake request
   * declares, or `None`), which has no `.get`.
   */
  datatype LastActions = ActionsDict(paymentCreated: Option<Value>) | NotADict

  /**
   * The incident dictionary. `None` is a missing key; `Some(PyNone)` a key
   * holding `None`. The nested `Account_Details` and `Customer_Details`
   * dictionaries are flattened into the fields they contribute.
   */
  datatype Incident = Incident(
    incidentId: Option<Value>,          // Incident_Id
    accountNum: Option<Value>,          // Account_Num
    customerRef: Option<Value>,         // Customer_Ref
    arrears: Option<Value>,             // Arrears
    arrearsBand: Option<Value>,         // Arrears_Band
    legacyBand: Option<Value>,          // arrears_band (older revision)
    status: Option<Value>,              // Incident_Status
    statusDtm: Option<Stamp>,           // Incident_Status_Dtm
    description: Option<Description>,   // Status_Description
    filteredReason: Option<Reason>,     // Filtered_Reason
    creditClassId: Option<Value>,       // Account_Details.Credit_Class_Id
    customerSegment: Option<Value>,     // Account_Details.Customer_Segment
    customerTypeName: Option<Value>,    // Customer_Details.Customer_Type_Name
    customerName: Option<Value>,        // Customer_Details.Customer_Name
    fullAddress: Option<Value>,         // Customer_Details.Full_Address
    sourceType: Option<Value>,          // Source_Type
    productDetails: Option<seq<Product>>, // Product_Details
    contactDetails: Option<seq<Contact>>, // Contact_Details
    crossDetails: Option<LinkedAccounts>, // Account_Cross_Details (the list object itself)
    currentArrearsBand: Option<Value>,  // current_arrears_band
    actions: Option<Value>,             // Actions
    drcCommisionRule: Option<Value>,    // drc_commision_rule
    lastActions: Option<LastActions>,   // Last_Actions
    createdBy: Option<Value>            // Created_By
  )

  /** The incident dictionary object that every intake step receives and updates in place. */
  class IncidentDict {
    var doc: Incident

    constructor(d: Incident)
      ensures doc == d
    {
      doc := d;
    }
  }

  /**
   * What an older-revision intake step returns: the incident dictionary it
   * was given (updated in place) or a new empty dictionary `{}`.
   */
  datatype Returned = TheIncident | EmptyDict

  const ERROR := "Error"
  const REJECT_PENDING := "reject pending"

  /** `incident_dict.get("Incident_Status") == "Error"`. */
  predicate IsError(d: Incident)
  {
    d.status == Some(Str(ERROR))
  }

  /**
   * The three writes every `except` branch of intake makes: status "Error",
   * the ISO time of `now`, and the description.
   */
  function MarkError(d: Incident, now: Instant, desc: Description): (r: Incident)
    ensures IsError(r)
    ensures r.statusDtm == Some(Iso(now)) && r.description == Some(desc)
    ensures SameIntake(d, r) && r.filteredReason == d.filteredReason
  {
    d.(status := Some(Str(ERROR)), statusDtm := Some(Iso(now)), description := Some(desc))
  }

  /** The incident with a new status and status time, as a triggered F1 run leaves it. */
  function MarkRejectPending(d: Incident, now: Instant): (r: Incident)
    ensures r.status == Some(Str(REJECT_PENDING)) && r.statusDtm == Some(Iso(now))
    ensures SameIntake(d, r) && r.filteredReason == d.filteredReason && r.description == d.description
  {
    d.(status := Some(Str(REJECT_PENDING)), statusDtm := Some(Iso(now)))
  }

  /**
   * Two incidents agree on every key except the four that status marking
   * and filtering write (`Incident_Status`, its time, its description and
   * `Filtered_Reason`).
   */
  predicate SameIntake(a: Incident, b: Incident)
  {
    a.incidentId == b.incidentId && a.accountNum == b.accountNum && a.customerRef == b.customerRef
    && a.arrears == b.arrears && a.arrearsBand == b.arrearsBand && a.legacyBand == b.legacyBand
    && a.creditClassId == b.creditClassId && a.customerSegment == b.customerSegment
    && a.customerTypeName == b.customerTypeName && a.customerName == b.customerName
    && a.fullAddress == b.fullAddress && a.sourceType == b.sourceType
    && a.productDetails == b.productDetails && a.contactDetails == b.contactDetails
    && a.crossDetails == b.crossDetails && a.currentArrearsBand == b.currentArrearsBand
    && a.actions == b.actions && a.drcCommisionRule == b.drcCommisionRule
    && a.lastActions == b.lastActions && a.createdBy == b.createdBy
  }
}
