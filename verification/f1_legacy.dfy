/**
 * The older revision of F1 filtering: filters that fetch their
 * configuration line themselves and swallow every error, the level-1
 * dispatcher, the orchestrator that falls through to the level-2
 * thresholds, and `get_f1_filter_result`, which inserts the band first.
 */
module F1Legacy {
  import opened Wrappers
  import opened PyValues
  import opened Incidents
  import opened F1Rules
  import opened ArrearsBands
  import opened SelectCriteria
  import F1Filters

  /** `get_line_by_new_filter_id(k)`: the first active filter configured for `k`, or `False`. */
  function LineByNewFilterId(filters: seq<FilterFields>, k: int): (r: Option<FilterFields>)
    ensures r.Some? ==> r.value.newFilterId == k
    ensures r.Some? ==> exists i :: (0 <= i < |filters| && filters[i] == r.value
      && forall j :: 0 <= j < i ==> filters[j].newFilterId != k)
    ensures r.None? <==> forall j :: 0 <= j < |filters| ==> filters[j].newFilterId != k
  {
    if |filters| == 0 then None
    else if filters[0].newFilterId == k then Some(filters[0])
    else
      var r := LineByNewFilterId(filters[1..], k);
      assert forall j :: 0 < j < |filters| ==> filters[j] == filters[1..][j - 1];
      assert r.Some? ==> exists i :: (0 <= i < |filters| && filters[i] == r.value
        && forall j :: 0 <= j < i ==> filters[j].newFilterId != k) by {
        if r.Some? {
          var i :| 0 <= i < |filters[1..]| && filters[1..][i] == r.value
            && forall j :: 0 <= j < i ==> filters[1..][j].newFilterId != k;
          assert filters[i + 1] == r.value;
        }
      }
      r
  }

  /**
   * One older `incident_filter_*` function: a rejection writes the reason;
   * a pass, and every error (a missing configuration line included), leaves
   * the incident as it was. It never writes a status.
   */
  function LegacyStep(k: int, d: Incident, filters: seq<FilterFields>): (r: Incident)
    ensures !IsFilterId(k) ==> r == d
    ensures r == d || r == d.(filteredReason := r.filteredReason)
    ensures r != d ==> r.filteredReason.Some? && r.filteredReason.value.Matched? && r.filteredReason.value.filterId == k
  {
    if !IsFilterId(k) then d
    else
      var v := Decide(k, d, LineByNewFilterId(filters, k));
      DecideReasons(k, d, LineByNewFilterId(filters, k));
      if v.Reject? then d.(filteredReason := Some(v.reason)) else d
  }

  /** The six older filters, each writing its outcome into the incident in place. */
  method LegacyFilter(k: int, inc: IncidentDict, filters: seq<FilterFields>)
    requires IsFilterId(k)
    modifies inc
    ensures inc.doc == LegacyStep(k, old(inc.doc), filters)
  {
    var filterDetails := LineByNewFilterId(filters, k);
    var v := Decide(k, inc.doc, filterDetails);
    if v.Reject? {
      inc.doc := inc.doc.(filteredReason := Some(v.reason));
    }
  }

  /** `do_f1_filter_level_01_for_incident_dict`: always hands back the incident itself. */
  method DoF1FilterLevel01(value: int, inc: IncidentDict, filters: seq<FilterFields>) returns (r: Returned)
    modifies inc
    ensures r == TheIncident
    ensures inc.doc == LegacyStep(value, old(inc.doc), filters)
  {
    if IsFilterId(value) {
      LegacyFilter(value, inc, filters);
    }
    r := TheIncident;
  }

  /** The configuration the newer revision sees when it is given the same active filters. */
  function AsEntries(filters: seq<FilterFields>): (es: seq<Option<FilterFields>>)
    ensures |es| == |filters| && forall j :: 0 <= j < |es| ==> es[j] == Some(filters[j])
  {
    if |filters| == 0 then [] else [Some(filters[0])] + AsEntries(filters[1..])
  }

  lemma {:induction false} LookupsAgree(filters: seq<FilterFields>, k: int)
    ensures F1Filters.EntryAt(AsEntries(filters), F1Filters.FirstEntryFor(AsEntries(filters), k)) == LineByNewFilterId(filters, k)
  {
    var es := AsEntries(filters);
    var at := F1Filters.FirstEntryFor(es, k);
    var line := LineByNewFilterId(filters, k);
    if at.Some? {
      assert line.Some? by {
        assert filters[at.value].newFilterId == k;
      }
      var i :| 0 <= i < |filters| && filters[i] == line.value
        && forall j :: 0 <= j < i ==> filters[j].newFilterId != k;
      assert forall j :: 0 <= j < at.value ==> filters[j].newFilterId != k by {
        forall j | 0 <= j < at.value
          ensures filters[j].newFilterId != k
        {
          assert !F1Filters.EntryFor(es[j], k);
        }
      }
      assert i == at.value;
    } else {
      assert forall j :: 0 <= j < |filters| ==> filters[j].newFilterId != k by {
        forall j | 0 <= j < |filters|
          ensures filters[j].newFilterId != k
        {
          assert !F1Filters.EntryFor(es[j], k);
        }
      }
    }
  }

  /**
   * The two revisions decide alike: given the same active filters, the
   * older filter leaves the incident exactly as the newer one does,
   * except that where the newer one marks "Error" the older one changes
   * nothing.
   */
  lemma LegacyAgreesWithCurrent(k: int, d: Incident, filters: seq<FilterFields>, now: Instant)
    ensures var current := F1Filters.FilterStep(k, d, AsEntries(filters), now).0;
      var legacy := LegacyStep(k, d, filters);
      (!IsError(current) ==> legacy == current)
      && (IsError(current) && !IsError(d) ==> legacy == d)
  {
    LookupsAgree(filters, k);
  }

  /** The older filter loop and what follows it: the first truthy reason rejects, otherwise the level-2 thresholds. */
  function LegacyRun(ids: seq<int>, d: Incident, filters: seq<FilterFields>, now: Instant): (Returned, Incident)
    decreases |ids|
  {
    if |ids| == 0 then
      if ReasonTruthy(d.filteredReason) then (TheIncident, d) else Level02(d, now)
    else
      var d1 := LegacyStep(ids[0], d, filters);
      if ReasonTruthy(d1.filteredReason) then (TheIncident, MarkRejectPending(d1, now))
      else LegacyRun(ids[1..], d1, filters, now)
  }

  /** The older `do_f1_filter_for_incident_dict`: no active filter ids returns `{}`. */
  function LegacyOutcome(ids: seq<int>, d: Incident, filters: seq<FilterFields>, now: Instant): (Returned, Incident)
  {
    if |ids| == 0 then (EmptyDict, d) else LegacyRun(ids, d, filters, now)
  }

  /** The older `do_f1_filter_for_incident_dict`, with the active filter ids and lines as parameters. */
  method DoF1FilterForIncidentLegacy(inc: IncidentDict, ids: seq<int>, filters: seq<FilterFields>, now: Instant) returns (r: Returned)
    modifies inc
    ensures (r, inc.doc) == LegacyOutcome(ids, old(inc.doc), filters, now)
  {
    if |ids| == 0 {
      return EmptyDict;
    }
    var i := 0;
    while i < |ids|
      invariant 0 <= i <= |ids|
      invariant LegacyRun(ids[i..], inc.doc, filters, now) == LegacyRun(ids, old(inc.doc), filters, now)
    {
      assert ids[i..][1..] == ids[i + 1..];
      var updated := DoF1FilterLevel01(ids[i], inc, filters);
      if updated == TheIncident {
        if ReasonTruthy(inc.doc.filteredReason) {
          inc.doc := MarkRejectPending(inc.doc, now);
          return TheIncident;
        }
      }
      i := i + 1;
    }
    if ReasonTruthy(inc.doc.filteredReason) {
      return TheIncident;
    }
    r := DoF1FilterLevel02(inc, now);
  }

  /**
   * How an older run with filter ids ends: "reject pending" with a truthy
   * reason, or, when no filter triggered, the level-2 outcome of the
   * incident exactly as it arrived (whose reason was falsy). In
   * particular the reason check after the loop never returns: an
   * incident arriving with a truthy reason is rejected by the first id.
   */
  lemma {:induction false} LegacyRunOutcome(ids: seq<int>, d: Incident, filters: seq<FilterFields>, now: Instant)
    requires |ids| > 0
    ensures var (r, e) := LegacyRun(ids, d, filters, now);
      (r == TheIncident && e.status == Some(Str(REJECT_PENDING)) && ReasonTruthy(e.filteredReason)
        && SameIntake(d, e) && e.description == d.description)
      || (!ReasonTruthy(d.filteredReason) && (r, e) == Level02(d, now))
    decreases |ids|
  {
    var d1 := LegacyStep(ids[0], d, filters);
    if !ReasonTruthy(d1.filteredReason) {
      assert d1 == d;
      if |ids| > 1 {
        LegacyRunOutcome(ids[1..], d1, filters, now);
      }
    }
  }

  /** `get_f1_filter_result`: the band is inserted first, and `{}` from it is passed on. */
  function F1Result(d: Incident, bands: Bands, ids: seq<int>, filters: seq<FilterFields>, now: Instant): (Returned, Incident)
  {
    var (b, d1) := InsertedBand(d, bands);
    if b == EmptyDict then (EmptyDict, d1) else LegacyOutcome(ids, d1, filters, now)
  }

  /** `get_f1_filter_result(incident_dict)`, with the band configuration and the filters as parameters. */
  method GetF1FilterResult(inc: IncidentDict, bands: Bands, ids: seq<int>, filters: seq<FilterFields>, now: Instant) returns (r: Returned)
    modifies inc
    ensures (r, inc.doc) == F1Result(old(inc.doc), bands, ids, filters, now)
  {
    var inserted := InsertArrearsBand(inc, bands);
    if inserted == EmptyDict {
      return EmptyDict;
    }
    r := DoF1FilterForIncidentLegacy(inc, ids, filters, now);
  }

  /**
   * What `get_f1_filter_result` can hand back: `{}`, or the incident with
   * its band written and either "reject pending" or one of the three
   * level-2 statuses.
   */
  lemma F1ResultOutcome(d: Incident, bands: Bands, ids: seq<int>, filters: seq<FilterFields>, now: Instant)
    ensures var (r, e) := F1Result(d, bands, ids, filters, now);
      r == TheIncident ==>
        e.legacyBand.Some? && e.arrears == d.arrears
        && e.status in {Some(Str(REJECT_PENDING)), Some(Str(HIGH_ARREARS.status)), Some(Str(DIRECT_LOD.status)), Some(Str(CPE_COLLECT.status))}
    ensures |bands| == 0 ==> F1Result(d, bands, ids, filters, now) == (EmptyDict, d)
  {
    var (b, d1) := InsertedBand(d, bands);
    if b == TheIncident && |ids| > 0 {
      LegacyRunOutcome(ids, d1, filters, now);
    }
  }
}
