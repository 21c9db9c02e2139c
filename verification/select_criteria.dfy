/**
 * The arrears thresholds that give an unfiltered incident its status:
 * `Select_Criteria_for_incident_dict` and the older
 * `do_f1_filter_level_02_for_incident_dict`.
 */
module SelectCriteria {
  import opened Wrappers
  import opened PyValues
  import opened Incidents

  /** A status with the description written beside it. */
  datatype Criterion = Criterion(status: string, description: string)

  const HIGH_ARREARS := Criterion("Open No agent", "Customer in high arrears – no agent assigned")
  const DIRECT_LOD := Criterion("Direct LOD", "Direct Letter of Demand issued")
  const CPE_COLLECT := Criterion("Open CPE Collect", "Collection action by CPE team")
  const UNKNOWN := Criterion("Unknown", "Arrears amount invalid")

  /**
   * The threshold chain. Above 5000 is high arrears, above 1000 up to 5000
   * a direct letter of demand, and 1000 or less CPE collection; every
   * real number falls in exactly one band, so no real reaches "Unknown"
   * (in the source only a NaN does).
   */
  function Classify(a: real): (c: Criterion)
    ensures c == HIGH_ARREARS <==> a > 5000.0
    ensures c == DIRECT_LOD <==> 1000.0 < a <= 5000.0
    ensures c == CPE_COLLECT <==> a <= 1000.0
    ensures c != UNKNOWN
  {
    if a > 5000.0 then HIGH_ARREARS
    else if 1000.0 < a <= 5000.0 then DIRECT_LOD
    else if a <= 1000.0 then CPE_COLLECT
    else UNKNOWN
  }

  /** The incident `Select_Criteria_for_incident_dict` leaves behind. */
  function SelectedCriteria(d: Incident, now: Instant): Incident
  {
    match AsReal(Get(d.arrears))
    case None => MarkError(d, now, Rendered(BadOperand))
    case Some(a) =>
      var c := Classify(a);
      d.(status := Some(Str(c.status)), description := Some(Stated(Str(c.description))), statusDtm := Some(Iso(now)))
  }

  /** `Select_Criteria_for_incident_dict(incident_dict)`. */
  method SelectCriteriaForIncident(inc: IncidentDict, now: Instant)
    modifies inc
    ensures inc.doc == SelectedCriteria(old(inc.doc), now)
  {
    var arrears := AsReal(Get(inc.doc.arrears));
    if arrears.None? {
      // `None > 5000` or `"x" > 5000` raises TypeError
      inc.doc := MarkError(inc.doc, now, Rendered(BadOperand));
      return;
    }
    var a := arrears.value;
    var c: Criterion;
    if a > 5000.0 {
      c := HIGH_ARREARS;
    } else if 1000.0 < a && a <= 5000.0 {
      c := DIRECT_LOD;
    } else if a <= 1000.0 {
      c := CPE_COLLECT;
    } else {
      c := UNKNOWN;
    }
    inc.doc := inc.doc.(status := Some(Str(c.status)), description := Some(Stated(Str(c.description))));
    inc.doc := inc.doc.(statusDtm := Some(Iso(now)));
  }

  /**
   * Select criteria always stamps the status time. A numeric arrears gets
   * one of the three statuses; anything else (a missing key included)
   * marks the incident "Error". Only the status, its time and its
   * description change.
   */
  lemma SelectedCriteriaOutcome(d: Incident, now: Instant)
    ensures var r := SelectedCriteria(d, now);
      && r.statusDtm == Some(Iso(now))
      && SameIntake(d, r) && r.filteredReason == d.filteredReason
      && (AsReal(Get(d.arrears)).Some? <==> r.status in {Some(Str(HIGH_ARREARS.status)), Some(Str(DIRECT_LOD.status)), Some(Str(CPE_COLLECT.status))})
      && (AsReal(Get(d.arrears)).None? <==> IsError(r))
  {
  }

  /** The incident `do_f1_filter_level_02_for_incident_dict` leaves behind, and what it returns. */
  function Level02(d: Incident, now: Instant): (Returned, Incident)
  {
    var v := Get(d.arrears);
    if !Truthy(v) then (EmptyDict, d)
    else
      match AsReal(v)
      case None => (EmptyDict, d)
      case Some(a) =>
        var c := Classify(a);
        (TheIncident, d.(status := Some(Str(c.status)), description := Some(Stated(Str(c.description))), statusDtm := Some(MongoDate(now))))
  }

  /** `do_f1_filter_level_02_for_incident_dict(incident_dict)`. */
  method DoF1FilterLevel02(inc: IncidentDict, now: Instant) returns (r: Returned)
    modifies inc
    ensures (r, inc.doc) == Level02(old(inc.doc), now)
  {
    var v := Get(inc.doc.arrears);
    if !Truthy(v) {
      return EmptyDict;
    }
    var arrears := AsReal(v);
    if arrears.None? {
      return EmptyDict;
    }
    var a := arrears.value;
    var c: Criterion;
    if a > 5000.0 {
      c := HIGH_ARREARS;
    } else if 1000.0 < a && a <= 5000.0 {
      c := DIRECT_LOD;
    } else if a <= 1000.0 {
      c := CPE_COLLECT;
    } else {
      c := UNKNOWN;
    }
    inc.doc := inc.doc.(status := Some(Str(c.status)), description := Some(Stated(Str(c.description))));
    inc.doc := inc.doc.(statusDtm := Some(MongoDate(now)));
    r := TheIncident;
  }

  /**
   * Both revisions classify with the same thresholds: where the older one
   * classifies, the newer one writes the same status and description, and
   * only the form of the status time differs. The older one returns `{}`
   * untouched for a falsy or non-numeric arrears.
   */
  lemma Level02AgreesWithSelectCriteria(d: Incident, now: Instant)
    ensures var (r, older) := Level02(d, now);
      var newer := SelectedCriteria(d, now);
      && (r == EmptyDict <==> !Truthy(Get(d.arrears)) || AsReal(Get(d.arrears)).None?)
      && (r == EmptyDict ==> older == d)
      && (r == TheIncident ==> older == newer.(statusDtm := Some(MongoDate(now))) && !IsError(newer))
  {
  }
}
