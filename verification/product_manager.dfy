/**
 * The two product-manager routes: change the status of a product already
 * recorded on a case's incident, and add a product the incident does not
 * yet hold. The `Case_details` and `Incident` collections are the fields
 * of a store object the routes update; the clock is a parameter.
 */
module ProductManager {
  import opened Wrappers
  import opened PyValues
  import ProductListing

  type Doc = ProductListing.Doc

  /** The fields of a `Case_details` document the routes read. */
  datatype CaseDoc = CaseDoc(caseId: Option<Value>, accountNo: Option<Value>, incidentId: Option<Value>)

  /** The fields of an `Incident` document the routes read and write; `product_details` may be absent or null. */
  datatype IncidentDoc = IncidentDoc(incidentId: Option<Value>, productDetails: Slot<seq<Doc>>)

  /** A validated `ExpectedProductDetails` request; each product is its dumped `ProductDetail`. */
  datatype Request = Request(caseId: int, accountNo: int, productDetails: seq<Doc>)

  /** Why a route raised: every one of these reaches the catch-all handler. */
  datatype Fault =
    | CaseNotFound
    | IncidentIdMissing
    | IncidentNotFound
    | ProductDetailsMissing
    | ProductDetailsNotList
    | KeyMissing(key: string)

  /**
   * What a route answers: a message, a 500 with "An unexpected error
   * occurred." whatever the fault, or nothing at all when the request's
   * product list is empty and the loop never runs.
   */
  datatype Reply = NoReply | Message(text: string) | ServerError(fault: Fault)

  const MSG_NOT_FOUND := "Product details not found. Please add the product details first."
  const MSG_STATUS_UPDATED := "Product status has been successfully updated."
  const MSG_SAME_STATUS := "Product status already exists with the same status."
  const MSG_ADDED := "Product details have been successfully added."
  const MSG_EXISTS := "Product details already exists."

  const CUSTOMER_REF := "customer_ref"
  const PRODUCT_SEQ := "product_seq"
  const PRODUCT_STATUS := "product_status"
  const LAST_UPDATED_ON := "last_updated_on"

  /** The case query: the same `case_id` and the same `account_no`. */
  predicate CaseMatches(c: CaseDoc, caseId: int, accountNo: int)
  {
    c.caseId.Some? && PyEq(c.caseId.value, Int(caseId)) && c.accountNo.Some? && PyEq(c.accountNo.value, Int(accountNo))
  }

  /** `find_one` on `Case_details`. */
  function FirstCase(cases: seq<CaseDoc>, caseId: int, accountNo: int): (r: Option<nat>)
    ensures r.Some? ==> (r.value < |cases| && CaseMatches(cases[r.value], caseId, accountNo)
      && forall j :: 0 <= j < r.value ==> !CaseMatches(cases[j], caseId, accountNo))
    ensures r.None? ==> forall j :: 0 <= j < |cases| ==> !CaseMatches(cases[j], caseId, accountNo)
  {
    if |cases| == 0 then None
    else if CaseMatches(cases[0], caseId, accountNo) then Some(0)
    else
      match FirstCase(cases[1..], caseId, accountNo)
      case None =>
        assert forall j :: 0 < j < |cases| ==> cases[j] == cases[1..][j - 1];
        None
      case Some(i) =>
        assert forall j :: 0 < j <= i ==> cases[j] == cases[1..][j - 1];
        Some(i + 1)
  }

  /** The incident query: the same `incident_id`. */
  predicate IncidentMatches(d: IncidentDoc, incidentId: Value)
  {
    d.incidentId.Some? && PyEq(d.incidentId.value, incidentId)
  }

  /** `find_one` on `Incident`. */
  function FirstIncident(incidents: seq<IncidentDoc>, incidentId: Value): (r: Option<nat>)
    ensures r.Some? ==> (r.value < |incidents| && IncidentMatches(incidents[r.value], incidentId)
      && forall j :: 0 <= j < r.value ==> !IncidentMatches(incidents[j], incidentId))
    ensures r.None? ==> forall j :: 0 <= j < |incidents| ==> !IncidentMatches(incidents[j], incidentId)
  {
    if |incidents| == 0 then None
    else if IncidentMatches(incidents[0], incidentId) then Some(0)
    else
      match FirstIncident(incidents[1..], incidentId)
      case None =>
        assert forall j :: 0 < j < |incidents| ==> incidents[j] == incidents[1..][j - 1];
        None
      case Some(i) =>
        assert forall j :: 0 < j <= i ==> incidents[j] == incidents[1..][j - 1];
        Some(i + 1)
  }

  /**
   * The lookups both routes share: the case, its `incident_id` (which must
   * be truthy), the incident, and its `product_details` key. The result is
   * the index of the incident.
   */
  function Located(cases: seq<CaseDoc>, incidents: seq<IncidentDoc>, req: Request): (r: Result<nat, Fault>)
    ensures r.Success? ==> r.value < |incidents| && !incidents[r.value].productDetails.Absent?
  {
    match FirstCase(cases, req.caseId, req.accountNo)
    case None => Failure(CaseNotFound)
    case Some(c) =>
      var incidentId := Get(cases[c].incidentId);
      if !Truthy(incidentId) then Failure(IncidentIdMissing)
      else
        match FirstIncident(incidents, incidentId)
        case None => Failure(IncidentNotFound)
        case Some(k) =>
          if incidents[k].productDetails.Absent? then Failure(ProductDetailsMissing) else Success(k)
  }

  /** The product is the one the request names: the same `customer_ref` and the same `product_seq`. */
  predicate SameProduct(p: Doc, customerRef: Value, productSeq: Value)
  {
    CUSTOMER_REF in p && PyEq(p[CUSTOMER_REF], customerRef) && PRODUCT_SEQ in p && PyEq(p[PRODUCT_SEQ], productSeq)
  }

  /** The generator's test can be evaluated on `p` without a `KeyError`. */
  predicate Readable(p: Doc, customerRef: Value)
  {
    CUSTOMER_REF in p && (PyEq(p[CUSTOMER_REF], customerRef) ==> PRODUCT_SEQ in p)
  }

  /** How the search for an existing product ends. */
  datatype Search = Hit(index: nat) | Miss | Stuck(at: nat, key: string)

  /**
   * `next(...)` over the generator, from position `i`: the first product
   * with the requested `customer_ref` and `product_seq`. The test reads
   * `customer_ref` first and `product_seq` only when that agrees, and a
   * missing key raises `KeyError`.
   */
  function FindFrom(ps: seq<Doc>, customerRef: Value, productSeq: Value, i: nat): (r: Search)
    requires i <= |ps|
    ensures r.Hit? ==> i <= r.index < |ps| && SameProduct(ps[r.index], customerRef, productSeq)
    ensures r.Stuck? ==> (i <= r.at < |ps| && !Readable(ps[r.at], customerRef)
      && r.key == (if CUSTOMER_REF in ps[r.at] then PRODUCT_SEQ else CUSTOMER_REF))
    ensures r.Miss? ==> forall j :: i <= j < |ps| ==> Readable(ps[j], customerRef) && !SameProduct(ps[j], customerRef, productSeq)
    ensures var stop := match r case Hit(k) => k case Stuck(k, _) => k case Miss => |ps|;
      forall j :: i <= j < stop ==> Readable(ps[j], customerRef) && !SameProduct(ps[j], customerRef, productSeq)
    decreases |ps| - i
  {
    if i == |ps| then Miss
    else if CUSTOMER_REF !in ps[i] then Stuck(i, CUSTOMER_REF)
    else if !PyEq(ps[i][CUSTOMER_REF], customerRef) then FindFrom(ps, customerRef, productSeq, i + 1)
    else if PRODUCT_SEQ !in ps[i] then Stuck(i, PRODUCT_SEQ)
    else if PyEq(ps[i][PRODUCT_SEQ], productSeq) then Hit(i)
    else FindFrom(ps, customerRef, productSeq, i + 1)
  }

  /** The existing product the request's product names, searched from the start. */
  function Find(ps: seq<Doc>, p: Doc): Search
  {
    FindFrom(ps, ProductListing.Attr(p, CUSTOMER_REF), ProductListing.Attr(p, PRODUCT_SEQ), 0)
  }

  /** The matched product after the status update: the requested status and the time of the update. */
  function Restamped(q: Doc, status: Value, now: int): Doc
  {
    q[PRODUCT_STATUS := status][LAST_UPDATED_ON := Moment(now)]
  }

  /** The requested product as stored: its dump with `last_updated_on` set. */
  function Stamped(p: Doc, now: int): Doc
  {
    p[LAST_UPDATED_ON := Moment(now)]
  }

  /** The incidents after `product_details` of incident `k` is replaced by `ps`. */
  function WithProducts(incidents: seq<IncidentDoc>, k: nat, ps: seq<Doc>): seq<IncidentDoc>
    requires k < |incidents|
  {
    incidents[k := incidents[k].(productDetails := Present(ps))]
  }

  /**
   * `Change_External_Product_Status`: the reply and the incidents
   * afterwards. Only the first product of the request is looked at: each
   * branch of the loop body returns.
   */
  function Changed(cases: seq<CaseDoc>, incidents: seq<IncidentDoc>, req: Request, now: int): (Reply, seq<IncidentDoc>)
  {
    match Located(cases, incidents, req)
    case Failure(f) => (ServerError(f), incidents)
    case Success(k) =>
      if |req.productDetails| == 0 then (NoReply, incidents)
      else if incidents[k].productDetails.Null? then (ServerError(ProductDetailsNotList), incidents)
      else
        var ps := incidents[k].productDetails.value;
        var p := req.productDetails[0];
        var status := ProductListing.Attr(p, PRODUCT_STATUS);
        match Find(ps, p)
        case Stuck(_, key) => (ServerError(KeyMissing(key)), incidents)
        case Miss => (Message(MSG_NOT_FOUND), incidents)
        case Hit(j) =>
          if PRODUCT_STATUS !in ps[j] then (ServerError(KeyMissing(PRODUCT_STATUS)), incidents)
          else if !PyEq(ps[j][PRODUCT_STATUS], status) then
            (Message(MSG_STATUS_UPDATED), WithProducts(incidents, k, ps[j := Restamped(ps[j], status, now)]))
          else (Message(MSG_SAME_STATUS), incidents)
  }

  /**
   * `Add_External_Product_Details`: the reply and the incidents afterwards.
   * Only the first product of the request is looked at.
   */
  function Added(cases: seq<CaseDoc>, incidents: seq<IncidentDoc>, req: Request, now: int): (Reply, seq<IncidentDoc>)
  {
    match Located(cases, incidents, req)
    case Failure(f) => (ServerError(f), incidents)
    case Success(k) =>
      if |req.productDetails| == 0 then (NoReply, incidents)
      else if incidents[k].productDetails.Null? then (ServerError(ProductDetailsNotList), incidents)
      else
        var ps := incidents[k].productDetails.value;
        var p := req.productDetails[0];
        match Find(ps, p)
        case Stuck(_, key) => (ServerError(KeyMissing(key)), incidents)
        case Hit(_) => (Message(MSG_EXISTS), incidents)
        case Miss => (Message(MSG_ADDED), WithProducts(incidents, k, ps + [Stamped(p, now)]))
  }

  /** The two collections the routes work on. */
  class ProductStore {
    var cases: seq<CaseDoc>
    var incidents: seq<IncidentDoc>

    constructor(cases: seq<CaseDoc>, incidents: seq<IncidentDoc>)
      ensures this.cases == cases && this.incidents == incidents
    {
      this.cases := cases;
      this.incidents := incidents;
    }

    /** `Change_External_Product_Status`. */
    method ChangeExternalProductStatus(req: Request, now: int) returns (reply: Reply)
      modifies this
      ensures (reply, incidents) == Changed(old(cases), old(incidents), req, now)
      ensures cases == old(cases)
    {
      var located := Located(cases, incidents, req);
      if located.Failure? {
        return ServerError(located.error);
      }
      var k := located.value;
      if |req.productDetails| == 0 {
        return NoReply;
      }
      var existing := incidents[k].productDetails;
      if existing.Null? {
        return ServerError(ProductDetailsNotList);
      }
      var product := req.productDetails[0];
      var status := ProductListing.Attr(product, PRODUCT_STATUS);
      var found := Find(existing.value, product);
      if found.Stuck? {
        return ServerError(KeyMissing(found.key));
      }
      if found.Miss? {
        return Message(MSG_NOT_FOUND);
      }
      var j := found.index;
      var item := existing.value[j];
      if PRODUCT_STATUS !in item {
        return ServerError(KeyMissing(PRODUCT_STATUS));
      }
      if !PyEq(item[PRODUCT_STATUS], status) {
        incidents := WithProducts(incidents, k, existing.value[j := Restamped(item, status, now)]);
        return Message(MSG_STATUS_UPDATED);
      }
      reply := Message(MSG_SAME_STATUS);
    }

    /** `Add_External_Product_Details`. */
    method AddExternalProductDetails(req: Request, now: int) returns (reply: Reply)
      modifies this
      ensures (reply, incidents) == Added(old(cases), old(incidents), req, now)
      ensures cases == old(cases)
    {
      var located := Located(cases, incidents, req);
      if located.Failure? {
        return ServerError(located.error);
      }
      var k := located.value;
      if |req.productDetails| == 0 {
        return NoReply;
      }
      var existing := incidents[k].productDetails;
      if existing.Null? {
        return ServerError(ProductDetailsNotList);
      }
      var product := req.productDetails[0];
      var found := Find(existing.value, product);
      if found.Stuck? {
        return ServerError(KeyMissing(found.key));
      }
      if found.Hit? {
        return Message(MSG_EXISTS);
      }
      incidents := WithProducts(incidents, k, existing.value + [Stamped(product, now)]);
      reply := Message(MSG_ADDED);
    }
  }

  /** Only the incident ids decide which incident the query finds. */
  lemma {:induction false} FirstIncidentByIds(xs: seq<IncidentDoc>, ys: seq<IncidentDoc>, incidentId: Value)
    requires |xs| == |ys| && forall i :: 0 <= i < |xs| ==> xs[i].incidentId == ys[i].incidentId
    ensures FirstIncident(xs, incidentId) == FirstIncident(ys, incidentId)
    decreases |xs|
  {
    if |xs| > 0 && !IncidentMatches(xs[0], incidentId) {
      FirstIncidentByIds(xs[1..], ys[1..], incidentId);
    }
  }

  /** Replacing the product list of a located incident leaves the lookups finding the same incident. */
  lemma LocatedAfterWrite(cases: seq<CaseDoc>, incidents: seq<IncidentDoc>, req: Request, ps: seq<Doc>)
    requires Located(cases, incidents, req).Success?
    ensures var k := Located(cases, incidents, req).value;
      Located(cases, WithProducts(incidents, k, ps), req) == Located(cases, incidents, req)
  {
    var k := Located(cases, incidents, req).value;
    var c := FirstCase(cases, req.caseId, req.accountNo).value;
    FirstIncidentByIds(incidents, WithProducts(incidents, k, ps), Get(cases[c].incidentId));
  }

  /** `p` and `q` agree on the two keys the generator reads. */
  predicate SameKeys(p: Doc, q: Doc)
  {
    (CUSTOMER_REF in p <==> CUSTOMER_REF in q) && (CUSTOMER_REF in p ==> p[CUSTOMER_REF] == q[CUSTOMER_REF])
    && (PRODUCT_SEQ in p <==> PRODUCT_SEQ in q) && (PRODUCT_SEQ in p ==> p[PRODUCT_SEQ] == q[PRODUCT_SEQ])
  }

  /** Only `customer_ref` and `product_seq` decide how the search ends. */
  lemma {:induction false} FindFromByKeys(ps: seq<Doc>, qs: seq<Doc>, customerRef: Value, productSeq: Value, i: nat)
    requires i <= |ps| == |qs| && forall j :: i <= j < |ps| ==> SameKeys(ps[j], qs[j])
    ensures FindFrom(ps, customerRef, productSeq, i) == FindFrom(qs, customerRef, productSeq, i)
    decreases |ps| - i
  {
    if i < |ps| {
      assert SameKeys(ps[i], qs[i]);
      FindFromByKeys(ps, qs, customerRef, productSeq, i + 1);
    }
  }

  /** A search that runs off the end of `ps` continues into what is appended. */
  lemma {:induction false} FindFromAppend(ps: seq<Doc>, x: Doc, customerRef: Value, productSeq: Value, i: nat)
    requires i <= |ps| && FindFrom(ps, customerRef, productSeq, i).Miss?
    ensures FindFrom(ps + [x], customerRef, productSeq, i) == FindFrom(ps + [x], customerRef, productSeq, |ps|)
    decreases |ps| - i
  {
    if i < |ps| {
      assert (ps + [x])[i] == ps[i];
      FindFromAppend(ps, x, customerRef, productSeq, i + 1);
    }
  }

  /**
   * A status change rewrites only the first product of the case's incident
   * that the request names, and only its status (to the requested one,
   * which differed) and its `last_updated_on` (to the time of the update).
   * Every other reply leaves the incidents as they were.
   */
  lemma ChangeTouchesOnlyMatch(cases: seq<CaseDoc>, incidents: seq<IncidentDoc>, req: Request, now: int)
    ensures var (reply, after) := Changed(cases, incidents, req, now);
      |after| == |incidents|
      && (reply != Message(MSG_STATUS_UPDATED) ==> after == incidents)
      && (reply == Message(MSG_STATUS_UPDATED) ==>
        Located(cases, incidents, req).Success? && |req.productDetails| > 0
        && var k := Located(cases, incidents, req).value;
        var ps := incidents[k].productDetails.value;
        var p := req.productDetails[0];
        var status := ProductListing.Attr(p, PRODUCT_STATUS);
        Find(ps, p).Hit?
        && var j := Find(ps, p).index;
        (forall i :: 0 <= i < |incidents| && i != k ==> after[i] == incidents[i])
        && after[k].incidentId == incidents[k].incidentId && after[k].productDetails.Present?
        && var qs := after[k].productDetails.value;
        |qs| == |ps| && (forall i :: 0 <= i < |ps| && i != j ==> qs[i] == ps[i])
        && PRODUCT_STATUS in ps[j] && !PyEq(ps[j][PRODUCT_STATUS], status)
        && qs[j][PRODUCT_STATUS] == status && qs[j][LAST_UPDATED_ON] == Moment(now)
        && (forall key :: key != PRODUCT_STATUS && key != LAST_UPDATED_ON ==>
              (key in qs[j] <==> key in ps[j]) && (key in ps[j] ==> qs[j][key] == ps[j][key])))
  {
  }

  /**
   * Changing twice is changing once: a second identical request finds the
   * status already in place, answers so, and writes nothing, whatever the
   * first one did.
   */
  lemma ChangeIsIdempotent(cases: seq<CaseDoc>, incidents: seq<IncidentDoc>, req: Request, now: int, later: int)
    ensures var (reply1, after1) := Changed(cases, incidents, req, now);
      var (reply2, after2) := Changed(cases, after1, req, later);
      after2 == after1 && (reply1 == Message(MSG_STATUS_UPDATED) ==> reply2 == Message(MSG_SAME_STATUS))
  {
    var (reply1, after1) := Changed(cases, incidents, req, now);
    if reply1 == Message(MSG_STATUS_UPDATED) {
      var k := Located(cases, incidents, req).value;
      var ps := incidents[k].productDetails.value;
      var p := req.productDetails[0];
      var status := ProductListing.Attr(p, PRODUCT_STATUS);
      var j := Find(ps, p).index;
      var qs := ps[j := Restamped(ps[j], status, now)];
      assert after1 == WithProducts(incidents, k, qs);
      LocatedAfterWrite(cases, incidents, req, qs);
      FindFromByKeys(ps, qs, ProductListing.Attr(p, CUSTOMER_REF), ProductListing.Attr(p, PRODUCT_SEQ), 0);
      PyEqIsEquivalence(status, status, status);
      assert after1[k].productDetails.value == qs;
    }
  }

  /**
   * An addition appends exactly one product, the requested one stamped with
   * the time, to the case's incident, and only when no product there has
   * the requested `customer_ref` and `product_seq`; every other reply
   * leaves the incidents as they were.
   */
  lemma AddAppendsOnlyNew(cases: seq<CaseDoc>, incidents: seq<IncidentDoc>, req: Request, now: int)
    ensures var (reply, after) := Added(cases, incidents, req, now);
      |after| == |incidents|
      && (reply != Message(MSG_ADDED) ==> after == incidents)
      && (reply == Message(MSG_ADDED) ==>
        Located(cases, incidents, req).Success? && |req.productDetails| > 0
        && var k := Located(cases, incidents, req).value;
        var ps := incidents[k].productDetails.value;
        var p := req.productDetails[0];
        (forall i :: 0 <= i < |ps| ==>
           !SameProduct(ps[i], ProductListing.Attr(p, CUSTOMER_REF), ProductListing.Attr(p, PRODUCT_SEQ)))
        && (forall i :: 0 <= i < |incidents| && i != k ==> after[i] == incidents[i])
        && after[k].incidentId == incidents[k].incidentId && after[k].productDetails.Present?
        && var qs := after[k].productDetails.value;
        |qs| == |ps| + 1 && qs[..|ps|] == ps
        && qs[|ps|][LAST_UPDATED_ON] == Moment(now)
        && forall key :: key != LAST_UPDATED_ON && key in p ==> key in qs[|ps|] && qs[|ps|][key] == p[key])
  {
    var (reply, after) := Added(cases, incidents, req, now);
    if reply == Message(MSG_ADDED) {
      var k := Located(cases, incidents, req).value;
      var ps := incidents[k].productDetails.value;
      var p := req.productDetails[0];
      assert after[k].productDetails.value == ps + [Stamped(p, now)];
      assert (ps + [Stamped(p, now)])[..|ps|] == ps;
    }
  }

  /** A product just added is the one the search for it now finds. */
  lemma AddedProductIsFound(cases: seq<CaseDoc>, incidents: seq<IncidentDoc>, req: Request, now: int)
    requires Added(cases, incidents, req, now).0 == Message(MSG_ADDED)
    requires CUSTOMER_REF in req.productDetails[0] && PRODUCT_SEQ in req.productDetails[0]
    ensures var after := Added(cases, incidents, req, now).1;
      var k := Located(cases, incidents, req).value;
      Find(after[k].productDetails.value, req.productDetails[0]) == Hit(|incidents[k].productDetails.value|)
  {
    var k := Located(cases, incidents, req).value;
    var ps := incidents[k].productDetails.value;
    var p := req.productDetails[0];
    var x := Stamped(p, now);
    FindFromAppend(ps, x, p[CUSTOMER_REF], p[PRODUCT_SEQ], 0);
    PyEqIsEquivalence(p[CUSTOMER_REF], p[CUSTOMER_REF], p[CUSTOMER_REF]);
    PyEqIsEquivalence(p[PRODUCT_SEQ], p[PRODUCT_SEQ], p[PRODUCT_SEQ]);
    assert (ps + [x])[|ps|] == x;
  }

  /**
   * Adding twice adds once: a second identical request writes nothing,
   * whatever the first did, and when the first added the product the
   * second answers that it already exists.
   */
  lemma AddTwiceAddsOnce(cases: seq<CaseDoc>, incidents: seq<IncidentDoc>, req: Request, now: int, later: int)
    ensures var (reply1, after1) := Added(cases, incidents, req, now);
      var (reply2, after2) := Added(cases, after1, req, later);
      after2 == after1
      && (reply1 == Message(MSG_ADDED) && CUSTOMER_REF in req.productDetails[0] && PRODUCT_SEQ in req.productDetails[0]
          ==> reply2 == Message(MSG_EXISTS))
  {
    var (reply1, after1) := Added(cases, incidents, req, now);
    if reply1 == Message(MSG_ADDED) {
      var k := Located(cases, incidents, req).value;
      var ps := incidents[k].productDetails.value;
      var p := req.productDetails[0];
      var x := Stamped(p, now);
      var cr := ProductListing.Attr(p, CUSTOMER_REF);
      var pseq := ProductListing.Attr(p, PRODUCT_SEQ);
      assert after1 == WithProducts(incidents, k, ps + [x]);
      LocatedAfterWrite(cases, incidents, req, ps + [x]);
      FindFromAppend(ps, x, cr, pseq, 0);
      assert (ps + [x])[|ps|] == x;
      PyEqIsEquivalence(cr, cr, cr);
      PyEqIsEquivalence(pseq, pseq, pseq);
      assert after1[k].productDetails.value == ps + [x];
      assert !Find(ps + [x], p).Miss?;
    }
  }

  /**
   * The first two lookups fail in source order: no matching case, then a
   * falsy `incident_id` on the first matching case.
   */
  lemma CaseLookupFailures(cases: seq<CaseDoc>, incidents: seq<IncidentDoc>, req: Request)
    ensures Located(cases, incidents, req) == Failure(CaseNotFound)
      <==> forall i :: 0 <= i < |cases| ==> !CaseMatches(cases[i], req.caseId, req.accountNo)
    ensures Located(cases, incidents, req) == Failure(IncidentIdMissing)
      <==> (FirstCase(cases, req.caseId, req.accountNo).Some?
        && !Truthy(Get(cases[FirstCase(cases, req.caseId, req.accountNo).value].incidentId)))
  {
    var c := FirstCase(cases, req.caseId, req.accountNo);
    if c.Some? {
      assert CaseMatches(cases[c.value], req.caseId, req.accountNo);
    }
  }

  /** A failed lookup makes either route answer with a 500 and write nothing. */
  lemma LookupFailureWritesNothing(cases: seq<CaseDoc>, incidents: seq<IncidentDoc>, req: Request, now: int)
    requires Located(cases, incidents, req).Failure?
    ensures Changed(cases, incidents, req, now) == (ServerError(Located(cases, incidents, req).error), incidents)
    ensures Added(cases, incidents, req, now) == (ServerError(Located(cases, incidents, req).error), incidents)
  {
  }

  /**
   * Only the first product of a request matters: each branch of the loop
   * body returns, so the rest of the list is never looked at.
   */
  lemma OnlyFirstProductCounts(cases: seq<CaseDoc>, incidents: seq<IncidentDoc>, req: Request, now: int)
    requires |req.productDetails| > 0
    ensures var first := req.(productDetails := req.productDetails[..1]);
      Changed(cases, incidents, req, now) == Changed(cases, incidents, first, now)
      && Added(cases, incidents, req, now) == Added(cases, incidents, first, now)
  {
  }
}
