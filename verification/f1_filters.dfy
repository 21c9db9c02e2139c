/**
 * The current revision of F1 filtering: each filter looks up its
 * configuration entry, decides, writes its outcome into the incident in
 * place and empties the entry it used; the dispatcher routes a filter id
 * to its filter; the orchestrator runs the active filter ids in order.
 */
module F1Filters {
  import opened Wrappers
  import opened PyValues
  import opened Incidents
  import opened F1Rules

  /**
   * The active-filter configuration `filter_details`, its entries in
   * dictionary order. `None` is an entry that a filter's `finally` clear
   * has emptied: it no longer carries a `new_filter_id`.
   */
  class FilterConfig {
    var entries: seq<Option<FilterFields>>

    constructor(es: seq<Option<FilterFields>>)
      ensures entries == es
    {
      entries := es;
    }
  }

  /** `details.get('new_filter_id') == k`. */
  predicate EntryFor(e: Option<FilterFields>, k: int)
  {
    e.Some? && e.value.newFilterId == k
  }

  /** The position of the first entry configured for filter `k`. */
  function FirstEntryFor(es: seq<Option<FilterFields>>, k: int): (r: Option<nat>)
    ensures r.Some? ==> r.value < |es| && EntryFor(es[r.value], k)
    ensures r.Some? ==> forall j :: 0 <= j < r.value ==> !EntryFor(es[j], k)
    ensures r.None? ==> forall j :: 0 <= j < |es| ==> !EntryFor(es[j], k)
  {
    if |es| == 0 then None
    else if EntryFor(es[0], k) then Some(0)
    else
      match FirstEntryFor(es[1..], k)
      case None =>
        assert forall j :: 0 < j < |es| ==> es[j] == es[1..][j - 1];
        None
      case Some(i) =>
        assert forall j :: 0 < j <= i + 1 ==> es[j] == es[1..][j - 1];
        Some(i + 1)
  }

  /** The configuration a filter works with: the entry found, or nothing (`filter_data` left `{}`). */
  function EntryAt(es: seq<Option<FilterFields>>, at: Option<nat>): Option<FilterFields>
  {
    if at.Some? && at.value < |es| then es[at.value] else None
  }

  /** The configuration after the `finally` clear of the entry found, if any. */
  function Cleared(es: seq<Option<FilterFields>>, at: Option<nat>): seq<Option<FilterFields>>
  {
    if at.Some? && at.value < |es| then es[at.value := None] else es
  }

  /** A filter's verdict written into the incident: the reason, or the three error marks. */
  function ApplyVerdict(d: Incident, v: Verdict, now: Instant): Incident
  {
    match v
    case Pass => d
    case Reject(reason) => d.(filteredReason := Some(reason))
    case Fail(e) => MarkError(d, now, Raised(e))
  }

  /**
   * One call of `do_f1_filter`: the incident and the configuration after
   * it. An id outside 11..16 changes neither; a filter changes only the
   * status marks and the reason, sets a reason that names itself, and
   * empties at most the one configuration entry it used.
   */
  function FilterStep(k: int, d: Incident, es: seq<Option<FilterFields>>, now: Instant): (r: (Incident, seq<Option<FilterFields>>))
    ensures !IsFilterId(k) ==> r == (d, es)
    ensures SameIntake(d, r.0) && (r.0.description == d.description || IsError(r.0))
    ensures r.0.status == d.status || IsError(r.0)
    ensures r.0.filteredReason == d.filteredReason
      || (r.0.filteredReason.Some? && r.0.filteredReason.value.Matched? && r.0.filteredReason.value.filterId == k)
    ensures |r.1| == |es|
    ensures forall j :: 0 <= j < |es| ==> r.1[j] == es[j] || (r.1[j].None? && EntryFor(es[j], k))
    ensures IsFilterId(k) && FirstEntryFor(es, k).Some? ==> r.1[FirstEntryFor(es, k).value].None?
  {
    if !IsFilterId(k) then (d, es)
    else
      var at := FirstEntryFor(es, k);
      DecideReasons(k, d, EntryAt(es, at));
      (ApplyVerdict(d, Decide(k, d, EntryAt(es, at)), now), Cleared(es, at))
  }

  /** The loop over `filter_details.values()` that picks the entry for filter `k`. */
  method FindEntry(cfg: FilterConfig, k: int) returns (r: Option<nat>)
    ensures r == FirstEntryFor(cfg.entries, k)
  {
    r := None;
    var i := 0;
    while i < |cfg.entries|
      invariant 0 <= i <= |cfg.entries|
      invariant forall j :: 0 <= j < i ==> !EntryFor(cfg.entries[j], k)
    {
      if EntryFor(cfg.entries[i], k) {
        r := Some(i);
        break;
      }
      i := i + 1;
    }
  }

  /**
   * One `incident_filter_*` function: find the entry, decide, write the
   * outcome into the incident, and in `finally` empty the entry found.
   */
  method RunFilter(k: int, inc: IncidentDict, cfg: FilterConfig, now: Instant)
    requires IsFilterId(k)
    modifies inc, cfg
    ensures (inc.doc, cfg.entries) == FilterStep(k, old(inc.doc), old(cfg.entries), now)
  {
    var at := FindEntry(cfg, k);
    var filterData := EntryAt(cfg.entries, at);
    inc.doc := ApplyVerdict(inc.doc, Decide(k, inc.doc, filterData), now);
    if at.Some? {
      cfg.entries := cfg.entries[at.value := None];
    }
  }

  /** `do_f1_filter`: route ids 11..16 to their filter; any other id changes nothing. */
  method DoF1Filter(value: int, inc: IncidentDict, cfg: FilterConfig, now: Instant)
    modifies inc, cfg
    ensures (inc.doc, cfg.entries) == FilterStep(value, old(inc.doc), old(cfg.entries), now)
  {
    if IsFilterId(value) {
      RunFilter(value, inc, cfg, now);
    }
  }

  const MISSING_FILTER_IDS := "Missing Filter IDs"

  /**
   * The filter loop of `do_f1_filter_for_incident_dict`: an "Error" result
   * stops the run; the first result with a truthy `Filtered_Reason` is
   * marked "reject pending" and stops the run; otherwise the next id runs.
   */
  function FilterRun(ids: seq<int>, d: Incident, es: seq<Option<FilterFields>>, now: Instant): (r: (Incident, seq<Option<FilterFields>>))
    decreases |ids|
  {
    if |ids| == 0 then (d, es)
    else
      var (d1, es1) := FilterStep(ids[0], d, es, now);
      if IsError(d1) then (d1, es1)
      else if ReasonTruthy(d1.filteredReason) then (MarkRejectPending(d1, now), es1)
      else FilterRun(ids[1..], d1, es1, now)
  }

  /** `do_f1_filter_for_incident_dict` as a whole: no active filter ids is an error. */
  function F1Outcome(ids: seq<int>, d: Incident, es: seq<Option<FilterFields>>, now: Instant): (Incident, seq<Option<FilterFields>>)
  {
    if |ids| == 0 then (MarkError(d, now, Stated(Str(MISSING_FILTER_IDS))), es)
    else FilterRun(ids, d, es, now)
  }

  /** `do_f1_filter_for_incident_dict`, with the active filter ids and their configuration as parameters. */
  method DoF1FilterForIncident(inc: IncidentDict, ids: seq<int>, cfg: FilterConfig, now: Instant)
    modifies inc, cfg
    ensures (inc.doc, cfg.entries) == F1Outcome(ids, old(inc.doc), old(cfg.entries), now)
  {
    if |ids| == 0 {
      inc.doc := MarkError(inc.doc, now, Stated(Str(MISSING_FILTER_IDS)));
      return;
    }
    var i := 0;
    while i < |ids|
      invariant 0 <= i <= |ids|
      invariant FilterRun(ids[i..], inc.doc, cfg.entries, now) == FilterRun(ids, old(inc.doc), old(cfg.entries), now)
    {
      assert ids[i..][1..] == ids[i + 1..];
      DoF1Filter(ids[i], inc, cfg, now);
      if IsError(inc.doc) {
        return;
      }
      if ReasonTruthy(inc.doc.filteredReason) {
        inc.doc := MarkRejectPending(inc.doc, now);
        return;
      }
      i := i + 1;
    }
  }

  /**
   * How a run ends: with "Error", with "reject pending" and a truthy
   * reason, or, when no filter triggered, with the incident's own status
   * and a falsy reason. Every key other than the status marks and the
   * reason is untouched.
   */
  lemma {:induction false} FilterRunOutcome(ids: seq<int>, d: Incident, es: seq<Option<FilterFields>>, now: Instant)
    requires |ids| > 0
    ensures var r := FilterRun(ids, d, es, now).0;
      SameIntake(d, r)
      && (IsError(r)
        || (r.status == Some(Str(REJECT_PENDING)) && ReasonTruthy(r.filteredReason))
        || (r.status == d.status && r.filteredReason == d.filteredReason && !ReasonTruthy(r.filteredReason)))
    decreases |ids|
  {
    var (d1, es1) := FilterStep(ids[0], d, es, now);
    if !IsError(d1) && !ReasonTruthy(d1.filteredReason) && |ids| > 1 {
      FilterRunOutcome(ids[1..], d1, es1, now);
    }
  }

  /** An incident that arrives with a truthy reason always ends "reject pending" or "Error". */
  lemma CarriedReasonRejects(ids: seq<int>, d: Incident, es: seq<Option<FilterFields>>, now: Instant)
    requires ReasonTruthy(d.filteredReason)
    ensures var r := F1Outcome(ids, d, es, now).0;
      IsError(r) || r.status == Some(Str(REJECT_PENDING))
  {
    if |ids| > 0 {
      FilterRunOutcome(ids, d, es, now);
    }
  }

  /** A run only ever empties configuration entries; it never adds, removes or edits one. */
  lemma {:induction false} FilterRunOnlyClears(ids: seq<int>, d: Incident, es: seq<Option<FilterFields>>, now: Instant)
    ensures var es' := FilterRun(ids, d, es, now).1;
      |es'| == |es| && forall j :: 0 <= j < |es| ==> es'[j] == es[j] || es'[j].None?
    decreases |ids|
  {
    if |ids| > 0 {
      var (d1, es1) := FilterStep(ids[0], d, es, now);
      if !IsError(d1) && !ReasonTruthy(d1.filteredReason) {
        FilterRunOnlyClears(ids[1..], d1, es1, now);
      }
    }
  }

  /** Ids that name no filter leave the incident and the configuration as they were. */
  lemma {:induction false} UnknownIdsChangeNothing(ids: seq<int>, d: Incident, es: seq<Option<FilterFields>>, now: Instant)
    requires forall j :: 0 <= j < |ids| ==> !IsFilterId(ids[j])
    requires !IsError(d) && !ReasonTruthy(d.filteredReason)
    ensures FilterRun(ids, d, es, now) == (d, es)
    decreases |ids|
  {
    if |ids| > 0 {
      UnknownIdsChangeNothing(ids[1..], d, es, now);
    }
  }

  /**
   * The first filter to reject decides: a run whose first id rejects the
   * incident ends "reject pending" with that filter's reason, whatever
   * the later ids are.
   */
  lemma FirstRejectionWins(ids: seq<int>, d: Incident, es: seq<Option<FilterFields>>, now: Instant)
    requires |ids| > 0 && !IsError(d)
    requires Decide(ids[0], d, EntryAt(es, FirstEntryFor(es, ids[0]))).Reject?
    ensures var r := FilterRun(ids, d, es, now).0;
      r.status == Some(Str(REJECT_PENDING))
      && r.filteredReason == Some(Decide(ids[0], d, EntryAt(es, FirstEntryFor(es, ids[0]))).reason)
  {
    DecideReasons(ids[0], d, EntryAt(es, FirstEntryFor(es, ids[0])));
  }

  /**
   * The `finally` clear in action: when the configuration holds a single
   * entry for filter `k`, a second run of `k` in the same call finds no
   * entry (and so raises `KeyError` on a truthy field).
   */
  lemma SecondRunFindsNoEntry(k: int, d: Incident, es: seq<Option<FilterFields>>, now: Instant)
    requires IsFilterId(k) && FirstEntryFor(es, k).Some?
    requires forall j :: 0 <= j < |es| && EntryFor(es[j], k) ==> j == FirstEntryFor(es, k).value
    ensures FirstEntryFor(FilterStep(k, d, es, now).1, k).None?
  {
    var at := FirstEntryFor(es, k).value;
    var es1 := FilterStep(k, d, es, now).1;
    forall j | 0 <= j < |es1|
      ensures !EntryFor(es1[j], k)
    {
      if j != at && es1[j] == es[j] {
        assert !EntryFor(es[j], k);
      }
    }
  }
}
