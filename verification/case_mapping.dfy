/**
 * Turning an incident into a case document: `assign_case_details_values`
 * fills a case template field by field from the incident (the contact list
 * built in a loop, one status-history entry appended), and
 * `map_incident_to_case_details` sets the case id last. The template and the
 * clock are parameters.
 */
module CaseMapping {
  import opened Wrappers
  import opened PyValues
  import opened Incidents

  /** One element of the case's `contact` list. */
  datatype CaseContact = CaseContact(mob: Value, email: Value, lan: Value, address: Value)

  /** One element of the case's `case_status` history. */
  datatype StatusEntry = StatusEntry(
    caseStatus: Value,          // case_status
    statusReason: Description,  // status_reason
    createdDtm: Option<Stamp>,  // created_dtm (None: the incident has no Incident_Status_Dtm)
    createdBy: Value,           // created_by
    notifiedDtm: Instant,       // notified_dtm
    expireDtm: Value            // expire_dtm
  )

  /**
   * The case document. Before assignment it holds whatever the template
   * holds; the timestamps are `None` until a clock reading is written.
   */
  datatype CaseDetails = CaseDetails(
    caseId: Option<int>,            // case_id
    incidentId: Value,              // incident_id
    accountNum: Value,              // account_num
    customerRef: Value,             // customer_ref
    createdDtm: Option<Instant>,    // created_dtm
    implementedDtm: Option<Instant>, // implemented_dtm
    area: Value,                    // area
    arrearsBand: Value,             // arrears_band
    bssArrearsAmount: Value,        // bss_arrears_amount
    currentArrearsAmount: Value,    // current_arrears_amount
    currentArrearsBand: Value,      // current_arrears_band
    actionType: Value,              // action_type
    drcCommisionRule: Value,        // drc_commision_rule
    lastPaymentDate: Value,         // last_payment_date
    caseCurrentStatus: Value,       // case_current_status
    filteredReason: Option<Reason>, // filtered_reason
    refProducts: seq<Product>,      // ref_products
    updatedAt: Option<Instant>,     // updatedAt
    contact: seq<CaseContact>,      // contact
    caseStatus: seq<StatusEntry>    // case_status
  )

  /** The case dictionary that `assign_case_details_values` fills in place. */
  class CaseDict {
    var doc: CaseDetails

    constructor(template: CaseDetails)
      ensures doc == template
    {
      doc := template;
    }
  }

  const BLANK := Str("")
  const OPEN_NO_AGENT := Str("Open No Agent")
  const ZERO_ARREARS := Num(0.0)

  /** The contact a `Contact_Details` element becomes: `Mob`, `email` and `Land` fill one slot, any other type is dropped. */
  function ContactOf(c: Contact): (r: Option<CaseContact>)
    ensures r.Some? <==> Get(c.contactType) in {Str("Mob"), Str("email"), Str("Land")}
    ensures r.Some? ==> r.value.address == BLANK
    ensures r.Some? && Get(c.contactType) == Str("Mob") ==> r.value.mob == Get(c.contact) && r.value.email == BLANK && r.value.lan == BLANK
    ensures r.Some? && Get(c.contactType) == Str("email") ==> r.value.email == Get(c.contact) && r.value.mob == BLANK && r.value.lan == BLANK
    ensures r.Some? && Get(c.contactType) == Str("Land") ==> r.value.lan == Get(c.contact) && r.value.mob == BLANK && r.value.email == BLANK
  {
    var t := Get(c.contactType);
    var v := Get(c.contact);
    if t == Str("Mob") then Some(CaseContact(v, BLANK, BLANK, BLANK))
    else if t == Str("email") then Some(CaseContact(BLANK, v, BLANK, BLANK))
    else if t == Str("Land") then Some(CaseContact(BLANK, BLANK, v, BLANK))
    else None
  }

  /** The contacts the loop collects, in input order. */
  function ContactList(cs: seq<Contact>): (r: seq<CaseContact>)
    ensures |r| <= |cs|
    ensures forall j :: 0 <= j < |r| ==> r[j].address == BLANK
    ensures forall j :: 0 <= j < |r| ==> exists i :: 0 <= i < |cs| && ContactOf(cs[i]) == Some(r[j])
  {
    if |cs| == 0 then []
    else
      var front := ContactList(cs[..|cs| - 1]);
      var last := ContactOf(cs[|cs| - 1]);
      var r := if last.Some? then front + [last.value] else front;
      assert forall j :: 0 <= j < |front| ==> exists i :: 0 <= i < |cs| && ContactOf(cs[i]) == Some(r[j]) by {
        forall j | 0 <= j < |front|
          ensures exists i :: 0 <= i < |cs| && ContactOf(cs[i]) == Some(r[j])
        {
          var i :| 0 <= i < |cs| - 1 && ContactOf(cs[..|cs| - 1][i]) == Some(front[j]);
          assert cs[i] == cs[..|cs| - 1][i];
        }
      }
      r
  }

  /** The contact loop of `assign_case_details_values`. */
  method BuildContacts(cs: seq<Contact>) returns (contacts: seq<CaseContact>)
    ensures contacts == ContactList(cs)
  {
    contacts := [];
    var i := 0;
    while i < |cs|
      invariant 0 <= i <= |cs|
      invariant contacts == ContactList(cs[..i])
    {
      assert cs[..i + 1][..i] == cs[..i];
      var contactType := Get(cs[i].contactType);
      var contactValue := Get(cs[i].contact);
      if contactType == Str("Mob") {
        contacts := contacts + [CaseContact(contactValue, BLANK, BLANK, BLANK)];
      } else if contactType == Str("email") {
        contacts := contacts + [CaseContact(BLANK, contactValue, BLANK, BLANK)];
      } else if contactType == Str("Land") {
        contacts := contacts + [CaseContact(BLANK, BLANK, contactValue, BLANK)];
      }
      i := i + 1;
    }
    assert cs[..i] == cs;
  }

  /** Collecting contacts distributes over concatenation: the list keeps the input order. */
  lemma {:induction false} ContactListAppend(a: seq<Contact>, b: seq<Contact>)
    ensures ContactList(a + b) == ContactList(a) + ContactList(b)
    decreases |b|
  {
    if |b| == 0 {
      assert a + b == a;
    } else {
      var b' := b[..|b| - 1];
      assert (a + b)[..|a + b| - 1] == a + b';
      assert (a + b)[|a + b| - 1] == b[|b| - 1];
      ContactListAppend(a, b');
    }
  }

  /** Every contact of a known type appears in the list. */
  lemma {:induction false} ContactListKeepsKnown(cs: seq<Contact>, i: int)
    requires 0 <= i < |cs| && ContactOf(cs[i]).Some?
    ensures ContactOf(cs[i]).value in ContactList(cs)
    decreases |cs|
  {
    var front := cs[..|cs| - 1];
    if i < |cs| - 1 {
      assert cs[i] == front[i];
      ContactListKeepsKnown(front, i);
    }
  }

  /** When every contact has a known type, the list maps them one to one, in order. */
  lemma {:induction false} ContactListAllKnown(cs: seq<Contact>)
    requires forall i :: 0 <= i < |cs| ==> ContactOf(cs[i]).Some?
    ensures |ContactList(cs)| == |cs|
    ensures forall i :: 0 <= i < |cs| ==> Some(ContactList(cs)[i]) == ContactOf(cs[i])
    decreases |cs|
  {
    if |cs| > 0 {
      var front := cs[..|cs| - 1];
      ContactListAllKnown(front);
      var r := ContactList(cs);
      assert r == ContactList(front) + [ContactOf(cs[|cs| - 1]).value];
      forall i | 0 <= i < |cs|
        ensures Some(r[i]) == ContactOf(cs[i])
      {
        if i < |cs| - 1 {
          assert front[i] == cs[i];
        }
      }
    }
  }

  /**
   * A truthy `Full_Address` goes into the first contact, or becomes the only
   * contact when there is none; a falsy one changes nothing.
   */
  function WithAddress(contacts: seq<CaseContact>, address: Value): (r: seq<CaseContact>)
    ensures !Truthy(address) ==> r == contacts
    ensures Truthy(address) ==> |r| == (if |contacts| == 0 then 1 else |contacts|) && r[0].address == address
    ensures Truthy(address) && |contacts| == 0 ==> r[0] == CaseContact(BLANK, BLANK, BLANK, address)
    ensures Truthy(address) && |contacts| > 0 ==> r[0] == contacts[0].(address := address) && r[1..] == contacts[1..]
  {
    if !Truthy(address) then contacts
    else if |contacts| > 0 then contacts[0 := contacts[0].(address := address)]
    else [CaseContact(BLANK, BLANK, BLANK, address)]
  }

  /** The status-history entry the case starts with. */
  function StatusEntryFor(d: Incident, now: Instant): StatusEntry
  {
    StatusEntry(
      GetDefault(d.status, OPEN_NO_AGENT),
      if d.description.Some? then d.description.value else Stated(Str("Pending")),
      d.statusDtm,
      GetDefault(d.createdBy, Str("admin")),
      now,
      PyNone)
  }

  /** `incident_data.get("Product_Details", [{}])[0]`, or `None` for the `IndexError` of an empty list. */
  function FirstProduct(d: Incident): Option<Product>
  {
    match d.productDetails
    case None => Some(Product(None, None, None))
    case Some(ps) => if |ps| == 0 then None else Some(ps[0])
  }

  /**
   * `incident_data.get("Last_Actions", {}).get("Payment_Created")`, or `None`
   * for the `AttributeError` of a `Last_Actions` that is not a dictionary.
   */
  function LastPaymentDate(d: Incident): Option<Value>
  {
    match d.lastActions
    case None => Some(PyNone)
    case Some(ActionsDict(paid)) => Some(Get(paid))
    case Some(NotADict) => None
  }

  /**
   * `assign_case_details_values(case_details, incident_data, current_time)`.
   * `None` is the `IndexError` an empty `Product_Details` list raises, or
   * the `AttributeError` of a `Last_Actions` that is not a dictionary.
   */
  function Assigned(t: CaseDetails, d: Incident, now: Instant): Option<CaseDetails>
  {
    match (FirstProduct(d), LastPaymentDate(d))
    case (None, _) => None
    case (_, None) => None
    case (Some(first), Some(paid)) =>
      Some(t.(
        incidentId := Get(d.incidentId),
        accountNum := GetDefault(d.accountNum, BLANK),
        customerRef := GetDefault(first.customerRef, Str("CUST-REF-UNKNOWN")),
        createdDtm := Some(now),
        implementedDtm := Some(now),
        area := GetDefault(first.province, Str("Unknown")),
        arrearsBand := GetDefault(d.arrearsBand, Str("AB-UNKNOWN")),
        bssArrearsAmount := GetDefault(d.arrears, ZERO_ARREARS),
        currentArrearsAmount := GetDefault(d.arrears, ZERO_ARREARS),
        currentArrearsBand := GetDefault(d.currentArrearsBand, Str("Default Band")),
        actionType := GetDefault(d.actions, Str("Recovery")),
        drcCommisionRule := GetDefault(d.drcCommisionRule, Str("Unknown")),
        lastPaymentDate := paid,
        caseCurrentStatus := GetDefault(d.status, OPEN_NO_AGENT),
        filteredReason := d.filteredReason,
        refProducts := if d.productDetails.Some? then d.productDetails.value else [],
        updatedAt := Some(now),
        contact := WithAddress(ContactList(if d.contactDetails.Some? then d.contactDetails.value else []), Get(d.fullAddress)),
        caseStatus := t.caseStatus + [StatusEntryFor(d, now)]))
  }

  /**
   * The keys written before a failure: `incident_id` and `account_num` before
   * the index into an empty `Product_Details`, and every key up to
   * `drc_commision_rule` before the `.get` on a `Last_Actions` that is not a
   * dictionary.
   */
  function WrittenBeforeFailure(t: CaseDetails, d: Incident, now: Instant): CaseDetails
  {
    var t' := t.(incidentId := Get(d.incidentId), accountNum := GetDefault(d.accountNum, BLANK));
    match FirstProduct(d)
    case None => t'
    case Some(first) =>
      t'.(customerRef := GetDefault(first.customerRef, Str("CUST-REF-UNKNOWN")),
          createdDtm := Some(now), implementedDtm := Some(now),
          area := GetDefault(first.province, Str("Unknown")),
          arrearsBand := GetDefault(d.arrearsBand, Str("AB-UNKNOWN")),
          bssArrearsAmount := GetDefault(d.arrears, ZERO_ARREARS),
          currentArrearsAmount := GetDefault(d.arrears, ZERO_ARREARS),
          currentArrearsBand := GetDefault(d.currentArrearsBand, Str("Default Band")),
          actionType := GetDefault(d.actions, Str("Recovery")),
          drcCommisionRule := GetDefault(d.drcCommisionRule, Str("Unknown")))
  }

  /**
   * `assign_case_details_values`, writing into the case dictionary. When it
   * fails, the keys written before the failing expression stay written.
   */
  method AssignCaseDetailsValues(c: CaseDict, d: Incident, now: Instant) returns (ok: bool)
    modifies c
    ensures ok <==> Assigned(old(c.doc), d, now).Some?
    ensures ok ==> c.doc == Assigned(old(c.doc), d, now).value
    ensures !ok ==> c.doc == WrittenBeforeFailure(old(c.doc), d, now)
  {
    c.doc := c.doc.(incidentId := Get(d.incidentId));
    c.doc := c.doc.(accountNum := GetDefault(d.accountNum, BLANK));
    var first := FirstProduct(d);
    if first.None? {
      return false;
    }
    var product := first.value;
    c.doc := c.doc.(customerRef := GetDefault(product.customerRef, Str("CUST-REF-UNKNOWN")),
                    createdDtm := Some(now), implementedDtm := Some(now),
                    area := GetDefault(product.province, Str("Unknown")),
                    arrearsBand := GetDefault(d.arrearsBand, Str("AB-UNKNOWN")),
                    bssArrearsAmount := GetDefault(d.arrears, ZERO_ARREARS),
                    currentArrearsAmount := GetDefault(d.arrears, ZERO_ARREARS),
                    currentArrearsBand := GetDefault(d.currentArrearsBand, Str("Default Band")),
                    actionType := GetDefault(d.actions, Str("Recovery")),
                    drcCommisionRule := GetDefault(d.drcCommisionRule, Str("Unknown")));
    var paid := LastPaymentDate(d);
    if paid.None? {
      return false;
    }
    c.doc := c.doc.(lastPaymentDate := paid.value,
                    caseCurrentStatus := GetDefault(d.status, OPEN_NO_AGENT),
                    filteredReason := d.filteredReason,
                    refProducts := if d.productDetails.Some? then d.productDetails.value else [],
                    updatedAt := Some(now));
    var contacts := BuildContacts(if d.contactDetails.Some? then d.contactDetails.value else []);
    var fullAddress := Get(d.fullAddress);
    if Truthy(fullAddress) {
      if |contacts| > 0 {
        contacts := contacts[0 := contacts[0].(address := fullAddress)];
      } else {
        contacts := contacts + [CaseContact(BLANK, BLANK, BLANK, fullAddress)];
      }
    }
    c.doc := c.doc.(contact := contacts);
    c.doc := c.doc.(caseStatus := c.doc.caseStatus + [StatusEntryFor(d, now)]);
    ok := true;
  }

  /**
   * What a filled case records: it fails exactly on an empty
   * `Product_Details` or a `Last_Actions` that is not a dictionary; otherwise
   * the last payment date is `Last_Actions.Payment_Created` (`None` when
   * either key is missing), both arrears amounts are the incident's
   * arrears (0.0 when absent), the current status agrees with the one status
   * entry appended to the template's history, that entry never expires and
   * was notified now, and the three timestamps are the same reading.
   */
  lemma AssignedOutcome(t: CaseDetails, d: Incident, now: Instant)
    ensures Assigned(t, d, now).None? <==> d.productDetails == Some([]) || d.lastActions == Some(NotADict)
    ensures var r := Assigned(t, d, now);
      r.Some? ==>
        (d.lastActions.None? ==> r.value.lastPaymentDate == PyNone)
        && (d.lastActions.Some? && d.lastActions.value.ActionsDict? ==>
              r.value.lastPaymentDate == Get(d.lastActions.value.paymentCreated))
        && r.value.bssArrearsAmount == r.value.currentArrearsAmount
        && (d.arrears.Some? ==> r.value.bssArrearsAmount == d.arrears.value)
        && (d.arrears.None? ==> r.value.bssArrearsAmount == ZERO_ARREARS)
        && |r.value.caseStatus| == |t.caseStatus| + 1 && r.value.caseStatus[..|t.caseStatus|] == t.caseStatus
        && r.value.caseCurrentStatus == r.value.caseStatus[|t.caseStatus|].caseStatus
        && r.value.caseStatus[|t.caseStatus|].expireDtm == PyNone
        && r.value.caseStatus[|t.caseStatus|].notifiedDtm == now
        && r.value.createdDtm == r.value.implementedDtm == r.value.updatedAt == Some(now)
        && r.value.caseId == t.caseId
  {
  }

  /**
   * `customer_ref` and `area` come from the first product; the defaults
   * apply only when `Product_Details` is absent, never to a later product.
   */
  lemma FirstProductDecides(t: CaseDetails, d: Incident, now: Instant)
    requires d.productDetails.Some? && |d.productDetails.value| > 0
    ensures var r := Assigned(t, d, now);
      (r.Some? <==> d.lastActions != Some(NotADict))
      && (r.Some? ==>
            r.value.refProducts == d.productDetails.value
            && r.value.customerRef == GetDefault(d.productDetails.value[0].customerRef, Str("CUST-REF-UNKNOWN"))
            && r.value.area == GetDefault(d.productDetails.value[0].province, Str("Unknown")))
  {
  }

  /**
   * The case's contacts are the known-typed incident contacts in order,
   * with a truthy `Full_Address` in the first of them, or alone when there
   * is none.
   */
  lemma CaseContacts(t: CaseDetails, d: Incident, now: Instant)
    requires d.productDetails != Some([])
    ensures var r := Assigned(t, d, now);
      var known := ContactList(if d.contactDetails.Some? then d.contactDetails.value else []);
      (r.Some? <==> d.lastActions != Some(NotADict))
      && (r.Some? && !Truthy(Get(d.fullAddress)) ==> r.value.contact == known)
      && (r.Some? && Truthy(Get(d.fullAddress)) ==>
            |r.value.contact| >= 1 && r.value.contact[0].address == Get(d.fullAddress)
            && (forall j :: 1 <= j < |r.value.contact| ==> r.value.contact[j].address == BLANK)
            && r.value.contact[1..] == (if |known| == 0 then [] else known[1..]))
  {
  }

  /** `map_incident_to_case_details`: the filled template, with `case_id` written last. */
  function MappedCase(template: CaseDetails, d: Incident, caseId: int, now: Instant): Option<CaseDetails>
  {
    match Assigned(template, d, now)
    case None => None
    case Some(c) => Some(c.(caseId := Some(caseId)))
  }

  /** `map_incident_to_case_details(incident_data, case_id)`, with the loaded template and the clock as parameters. */
  method MapIncidentToCaseDetails(template: CaseDetails, d: Incident, caseId: int, now: Instant) returns (r: Option<CaseDetails>)
    ensures r == MappedCase(template, d, caseId, now)
  {
    var caseDetails := new CaseDict(template);
    var ok := AssignCaseDetailsValues(caseDetails, d, now);
    if !ok {
      return None;
    }
    caseDetails.doc := caseDetails.doc.(caseId := Some(caseId));
    r := Some(caseDetails.doc);
  }

  /** Whatever `case_id` the template holds, the mapped case carries the one allocated, and nothing else differs from the filled template. */
  lemma MappedCaseId(template: CaseDetails, d: Incident, caseId: int, now: Instant)
    ensures MappedCase(template, d, caseId, now).Some? <==> Assigned(template, d, now).Some?
    ensures var r := MappedCase(template, d, caseId, now);
      r.Some? ==> (r.value.caseId == Some(caseId)
        && r.value.(caseId := template.caseId) == Assigned(template, d, now).value)
  {
  }
}
