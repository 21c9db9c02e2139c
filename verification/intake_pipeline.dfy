/**
 * `get_modified_incident_dict`: the intake steps in order (link accounts,
 * assign the arrears band, run the F1 filters, select the criteria), each
 * updating the same incident dictionary, with any step that leaves
 * "Error" turning the incident into an Error-marked one that names the step.
 */
module IntakePipeline {
  import opened Wrappers
  import opened PyValues
  import opened Incidents
  import opened F1Rules
  import opened ArrearsBands
  import opened SelectCriteria
  import opened CheckAccount
  import opened F1Filters

  /** The `NotModifiedResponse` handler: status "Error", its time, and the exception naming the step. */
  function NotModified(d: Incident, stage: Stage, now: Instant): (r: Incident)
    ensures IsError(r) && r.description == Some(Raised(ErrorKind.NotModified(stage)))
    ensures SameIntake(d, r) && r.filteredReason == d.filteredReason
  {
    MarkError(d, now, Raised(ErrorKind.NotModified(stage)))
  }

  /** What intake leaves behind: the incident, the linked-accounts list and the filter configuration. */
  datatype Intake = Intake(doc: Incident, links: seq<LinkEntry>, filters: seq<Option<FilterFields>>)

  /**
   * The whole pipeline. The open-case check that opens it compares the
   * string answer with `is True`, which never holds, so it never changes
   * the outcome and has no branch here.
   */
  function Modified(d: Incident, registry: LinkedAccounts, incidents: seq<IncidentRow>, cases: seq<CaseRow>,
                    bands: Bands, ids: seq<int>, es: seq<Option<FilterFields>>, now: Instant): Intake
  {
    var (d1, links) := Linked(d, registry, incidents, cases, now);
    if IsError(d1) then Intake(NotModified(d1, LinkStage, now), links, es)
    else
      var d2 := AssignedBand(d1, bands, now);
      if IsError(d2) then Intake(NotModified(d2, BandStage, now), links, es)
      else
        var (d3, es3) := F1Outcome(ids, d2, es, now);
        if IsError(d3) then Intake(NotModified(d3, FilterStage, now), links, es3)
        else if ReasonTruthy(d3.filteredReason) then Intake(d3, links, es3)
        else
          var d4 := SelectedCriteria(d3, now);
          if IsError(d4) then Intake(NotModified(d4, CriteriaStage, now), links, es3)
          else Intake(d4, links, es3)
  }

  /**
   * `get_modified_incident_dict`, with the store queries, the band and
   * filter configurations and the clock as parameters.
   */
  method GetModifiedIncidentDict(inc: IncidentDict, registry: LinkedAccounts, incidents: seq<IncidentRow>, cases: seq<CaseRow>,
                                 bands: Bands, ids: seq<int>, cfg: FilterConfig, now: Instant)
    modifies inc, registry, cfg
    ensures Intake(inc.doc, registry.entries, cfg.entries)
      == Modified(old(inc.doc), registry, incidents, cases, bands, ids, old(cfg.entries), now)
  {
    LinkAccounts(inc, registry, incidents, cases, now);
    if IsError(inc.doc) {
      inc.doc := NotModified(inc.doc, LinkStage, now);
      return;
    }
    AssignArrearsBand(inc, bands, now);
    if IsError(inc.doc) {
      inc.doc := NotModified(inc.doc, BandStage, now);
      return;
    }
    DoF1FilterForIncident(inc, ids, cfg, now);
    if IsError(inc.doc) {
      inc.doc := NotModified(inc.doc, FilterStage, now);
      return;
    }
    if ReasonTruthy(inc.doc.filteredReason) {
      return;
    }
    SelectCriteriaForIncident(inc, now);
    if IsError(inc.doc) {
      inc.doc := NotModified(inc.doc, CriteriaStage, now);
    }
  }

  /** One of the three statuses the criteria step writes. */
  predicate IsCriteriaStatus(s: Option<Value>)
  {
    s in {Some(Str(HIGH_ARREARS.status)), Some(Str(DIRECT_LOD.status)), Some(Str(CPE_COLLECT.status))}
  }

  /** The band step either fails or writes a band and nothing else. */
  lemma BandStepOutcome(d: Incident, bands: Bands, now: Instant)
    ensures var r := AssignedBand(d, bands, now);
      (IsError(r) && SameIntake(d, r) && r.filteredReason == d.filteredReason)
      || (r == d.(arrearsBand := r.arrearsBand) && r.arrearsBand.Some?)
  {
    if |bands| > 0 && !FirstBand(bands, ArrearsOrZero(d)).Aborted? {
      AssignedBandWrites(d, bands, now);
    }
  }

  /** The F1 step either fails, rejects with a truthy reason, or keeps the status and leaves a falsy reason. */
  lemma FilterStepOutcome(ids: seq<int>, d: Incident, es: seq<Option<FilterFields>>, now: Instant)
    ensures var r := F1Outcome(ids, d, es, now).0;
      SameIntake(d, r)
      && (IsError(r)
        || (r.status == Some(Str(REJECT_PENDING)) && ReasonTruthy(r.filteredReason))
        || (r.status == d.status && !ReasonTruthy(r.filteredReason) && r.filteredReason == d.filteredReason))
  {
    if |ids| > 0 {
      FilterRunOutcome(ids, d, es, now);
    }
  }

  /**
   * Intake ends in exactly one of three ways: "Error" with the step that
   * failed, "reject pending" with a truthy reason, or one of the three
   * criteria statuses.
   */
  lemma ModifiedOutcome(d: Incident, registry: LinkedAccounts, incidents: seq<IncidentRow>, cases: seq<CaseRow>,
                        bands: Bands, ids: seq<int>, es: seq<Option<FilterFields>>, now: Instant)
    ensures var r := Modified(d, registry, incidents, cases, bands, ids, es, now).doc;
      (IsError(r) && r.description.Some? && r.description.value.Raised? && r.description.value.e.NotModified?)
      || (r.status == Some(Str(REJECT_PENDING)) && ReasonTruthy(r.filteredReason))
      || IsCriteriaStatus(r.status)
  {
    var (d1, links) := Linked(d, registry, incidents, cases, now);
    if !IsError(d1) {
      var d2 := AssignedBand(d1, bands, now);
      if !IsError(d2) {
        var (d3, es3) := F1Outcome(ids, d2, es, now);
        FilterStepOutcome(ids, d2, es, now);
        if !IsError(d3) && !ReasonTruthy(d3.filteredReason) {
          SelectedCriteriaOutcome(d3, now);
        }
      }
    }
  }

  /**
   * Only the status marks, the reason, the band and the linked accounts
   * can differ from the incident that came in.
   */
  lemma ModifiedKeepsIntake(d: Incident, registry: LinkedAccounts, incidents: seq<IncidentRow>, cases: seq<CaseRow>,
                            bands: Bands, ids: seq<int>, es: seq<Option<FilterFields>>, now: Instant)
    ensures var r := Modified(d, registry, incidents, cases, bands, ids, es, now).doc;
      SameIntake(d, r.(arrearsBand := d.arrearsBand, crossDetails := d.crossDetails))
  {
    var (d1, links) := Linked(d, registry, incidents, cases, now);
    LinkedOutcome(d, registry, incidents, cases, now);
    if !IsError(d1) {
      var d2 := AssignedBand(d1, bands, now);
      BandStepOutcome(d1, bands, now);
      if !IsError(d2) {
        var (d3, es3) := F1Outcome(ids, d2, es, now);
        FilterStepOutcome(ids, d2, es, now);
        if !IsError(d3) && !ReasonTruthy(d3.filteredReason) {
          SelectedCriteriaOutcome(d3, now);
        }
      }
    }
  }

  /**
   * A missing `Customer_Ref` stops intake at the first step: the incident
   * is marked "Error" naming the linking step, no band is assigned, no
   * filter runs, and the linked-accounts list is left empty.
   */
  lemma MissingCustomerRefStopsAtLinking(d: Incident, registry: LinkedAccounts, incidents: seq<IncidentRow>, cases: seq<CaseRow>,
                                         bands: Bands, ids: seq<int>, es: seq<Option<FilterFields>>, now: Instant)
    requires d.customerRef.None?
    ensures var r := Modified(d, registry, incidents, cases, bands, ids, es, now);
      r.doc.description == Some(Raised(ErrorKind.NotModified(LinkStage)))
      && r.doc.arrearsBand == d.arrearsBand && r.filters == es && r.links == []
  {
  }

  /**
   * An incident that arrives with a truthy `Filtered_Reason` never reaches
   * the criteria step: it ends "reject pending" or "Error".
   */
  lemma CarriedReasonSkipsCriteria(d: Incident, registry: LinkedAccounts, incidents: seq<IncidentRow>, cases: seq<CaseRow>,
                                   bands: Bands, ids: seq<int>, es: seq<Option<FilterFields>>, now: Instant)
    requires ReasonTruthy(d.filteredReason)
    ensures var r := Modified(d, registry, incidents, cases, bands, ids, es, now).doc;
      IsError(r) || r.status == Some(Str(REJECT_PENDING))
  {
    var (d1, links) := Linked(d, registry, incidents, cases, now);
    if !IsError(d1) {
      var d2 := AssignedBand(d1, bands, now);
      BandStepOutcome(d1, bands, now);
      if !IsError(d2) {
        CarriedReasonRejects(ids, d2, es, now);
      }
    }
  }

  /**
   * A successful intake has linked the accounts (the incident holds the
   * module-level list) and written a band (a label or `None`).
   */
  lemma SuccessfulIntakeIsLinkedAndBanded(d: Incident, registry: LinkedAccounts, incidents: seq<IncidentRow>, cases: seq<CaseRow>,
                                          bands: Bands, ids: seq<int>, es: seq<Option<FilterFields>>, now: Instant)
    ensures var r := Modified(d, registry, incidents, cases, bands, ids, es, now);
      !IsError(r.doc) ==>
        r.doc.crossDetails == Some(registry) && r.doc.arrearsBand.Some?
        && |r.links| == 1 + |incidents| + |cases|
  {
    var (d1, links) := Linked(d, registry, incidents, cases, now);
    LinkedOutcome(d, registry, incidents, cases, now);
    if !IsError(d1) {
      var d2 := AssignedBand(d1, bands, now);
      BandStepOutcome(d1, bands, now);
      if !IsError(d2) {
        FilterStepOutcome(ids, d2, es, now);
      }
    }
  }
}
