/**
 * Arrears-band assignment (`assign_arrears_band` and its older revision
 * `insert_arrears_band`): the band configuration is a dictionary from band
 * name to a range text, tried in order, and the first range that holds the
 * incident's arrears names its band.
 */
module ArrearsBands {
  import opened Wrappers
  import opened PyValues
  import opened Incidents

  /** The band configuration document: band names with their range values, in document order. */
  type Bands = seq<(string, Value)>

  /** How one configured range reads once stripped. */
  datatype BandSpec =
    | AtLeast(lower: real)               // "X<": arrears >= X
    | Below(upper: real)                 // "<X": arrears < X
    | Between(lower: real, upper: real)  // "a-b": a <= arrears < b
    | BadBound(text: string)             // "X<" or "<X" whose bound `float()` rejects
    | Ignored                            // not a string, a malformed range, or no known format

  /** The bound of a "X<" or "<X" range: every `<` removed, then `float()`. */
  function BoundSpec(s: string, atLeast: bool): BandSpec
  {
    var text := RemoveAll(s, '<');
    match ParseNumber(text)
    case None => BadBound(text)
    case Some(x) => if atLeast then AtLeast(x) else Below(x)
  }

  /** Reads one configured range value, checking the formats in the source's order. */
  function ParseBand(v: Value): BandSpec
  {
    if !v.Str? then Ignored
    else
      var s := Strip(v.s);
      if EndsWith(s, '<') then BoundSpec(s, true)
      else if StartsWith(s, '<') then BoundSpec(s, false)
      else if '-' in s then
        var parts := Split(s, '-');
        if |parts| != 2 then Ignored
        else
          match (ParseNumber(parts[0]), ParseNumber(parts[1]))
          case (Some(a), Some(b)) => Between(a, b)
          case _ => Ignored
      else Ignored
  }

  /** A "X<" text reads back as the range arrears >= X. */
  lemma ParseBandOfAtLeast(x: nat)
    ensures ParseBand(Str(NatText(x) + "<")) == AtLeast(x as real)
  {
    var tx := NatText(x);
    NatTextDigits(x);
    ParseNumberOfNatText(x);
    var up := tx + "<";
    assert !IsSpace(up[0]) && !IsSpace(up[|up| - 1]);
    StripUnpadded(up);
    NoMarkInDigits(tx, '<');
    RemoveTrailing(tx, '<');
  }

  /** A "<X" text reads back as the range arrears < X. */
  lemma ParseBandOfBelow(x: nat)
    ensures ParseBand(Str("<" + NatText(x))) == Below(x as real)
  {
    var tx := NatText(x);
    NatTextDigits(x);
    NoMarkInDigits(tx, '<');
    var down := "<" + tx;
    assert down[0] == '<' && down[|down| - 1] == tx[|tx| - 1];
    StripUnpadded(down);
    assert RemoveAll(down, '<') == tx by {
      assert down[1..] == tx;
    }
    ParseNumberOfNatText(x);
    assert BoundSpec(down, false) == Below(x as real);
  }

  /** An "a-b" text reads back as the range a <= arrears < b. */
  lemma ParseBandOfBetween(x: nat, y: nat)
    ensures ParseBand(Str(NatText(x) + "-" + NatText(y))) == Between(x as real, y as real)
  {
    RangeTextShape(x, y);
    RangeTextSplits(x, y);
    ParseNumberOfNatText(x);
    ParseNumberOfNatText(y);
    ParseBandOfRange(NatText(x) + "-" + NatText(y), NatText(x), NatText(y), x as real, y as real);
  }

  lemma RangeTextShape(x: nat, y: nat)
    ensures var range := NatText(x) + "-" + NatText(y);
      Strip(range) == range && !EndsWith(range, '<') && !StartsWith(range, '<') && '-' in range
  {
    NatTextDigits(x);
    NatTextDigits(y);
    DigitsAroundDash(NatText(x), NatText(y));
  }

  lemma DigitsAroundDash(tx: string, ty: string)
    requires |tx| > 0 && |ty| > 0 && AllDigits(tx) && AllDigits(ty)
    ensures var range := tx + "-" + ty;
      Strip(range) == range && !EndsWith(range, '<') && !StartsWith(range, '<') && '-' in range
  {
    var range := tx + "-" + ty;
    assert range[0] == tx[0] && range[|range| - 1] == ty[|ty| - 1];
    assert IsDigit(range[0]) && IsDigit(range[|range| - 1]);
    StripUnpadded(range);
    assert range[|tx|] == '-';
  }

  lemma RangeTextSplits(x: nat, y: nat)
    ensures Split(NatText(x) + "-" + NatText(y), '-') == [NatText(x), NatText(y)]
  {
    NatTextDigits(x);
    NatTextDigits(y);
    NoMarkInDigits(NatText(x), '-');
    NoMarkInDigits(NatText(y), '-');
    SplitAtOnlySeparator(NatText(x), NatText(y), '-');
  }

  lemma ParseBandOfRange(s: string, p: string, q: string, a: real, b: real)
    requires Strip(s) == s && !EndsWith(s, '<') && !StartsWith(s, '<') && '-' in s
    requires Split(s, '-') == [p, q] && ParseNumber(p) == Some(a) && ParseNumber(q) == Some(b)
    ensures ParseBand(Str(s)) == Between(a, b)
  {
  }

  lemma NoMarkInDigits(t: string, c: char)
    requires AllDigits(t) && !IsDigit(c)
    ensures c !in t && Count(t, c) == 0 && RemoveAll(t, c) == t
  {
    if |t| > 0 {
      NoMarkInDigits(t[1..], c);
      assert t == [t[0]] + t[1..];
    }
  }

  lemma {:induction false} RemoveTrailing(t: string, c: char)
    requires c !in t
    ensures RemoveAll(t + [c], c) == t
  {
    if |t| == 0 {
      assert t + [c] == [c];
    } else {
      assert (t + [c])[1..] == t[1..] + [c];
      RemoveTrailing(t[1..], c);
      assert t == [t[0]] + t[1..];
    }
  }

  lemma {:induction false} SplitAtOnlySeparator(a: string, b: string, sep: char)
    requires sep !in a && sep !in b
    ensures Split(a + [sep] + b, sep) == [a, b]
  {
    if |a| == 0 {
      assert a + [sep] + b == [sep] + b;
      SplitNoSeparator(b, sep);
    } else {
      SplitAtOnlySeparator(a[1..], b, sep);
      assert (a + [sep] + b)[1..] == a[1..] + [sep] + b;
      assert [a[0]] + a[1..] == a;
    }
  }

  lemma {:induction false} SplitNoSeparator(s: string, sep: char)
    requires sep !in s
    ensures Split(s, sep) == [s]
  {
    if |s| > 0 {
      SplitNoSeparator(s[1..], sep);
      assert [s[0]] + s[1..] == s;
    }
  }

  /** A range with more than one `-` can never split into a lower and an upper bound. */
  lemma RangeNeedsOneDash(v: Value)
    requires v.Str? && !EndsWith(Strip(v.s), '<') && !StartsWith(Strip(v.s), '<')
    requires Count(Strip(v.s), '-') != 1
    ensures ParseBand(v) == Ignored
  {
    SplitJoin(Strip(v.s), '-');
  }

  /** What one configuration entry does to the scan: a hit, a miss, or an exception. */
  datatype Step = Hit | Miss | Abort(e: ErrorKind)

  /** One iteration of the band loop, for the incident's arrears. */
  function BandStep(spec: BandSpec, arrears: Value): Step
  {
    match spec
    case Ignored => Miss
    case BadBound(t) => Abort(BadNumber(t))
    case AtLeast(x) =>
      (match AsReal(arrears)
       case None => Abort(BadOperand)
       case Some(a) => if a >= x then Hit else Miss)
    case Below(x) =>
      (match AsReal(arrears)
       case None => Abort(BadOperand)
       case Some(a) => if a < x then Hit else Miss)
    case Between(l, u) =>
      (match AsReal(arrears)
       case None => Abort(BadOperand)
       case Some(a) => if l <= a < u then Hit else Miss)
  }

  /** A read range holds exactly the numeric arrears inside it. */
  lemma SpecStepMeaning(spec: BandSpec, arrears: Value)
    requires AsReal(arrears).Some?
    ensures var a := AsReal(arrears).value;
      && (spec.AtLeast? ==> (BandStep(spec, arrears) == Hit <==> a >= spec.lower))
      && (spec.Below? ==> (BandStep(spec, arrears) == Hit <==> a < spec.upper))
      && (spec.Between? ==> (BandStep(spec, arrears) == Hit <==> spec.lower <= a < spec.upper))
  {
  }

  /** "X<" holds exactly the arrears of at least X. */
  lemma BandStepAtLeast(x: nat, arrears: Value)
    requires AsReal(arrears).Some?
    ensures BandStep(ParseBand(Str(NatText(x) + "<")), arrears) == Hit <==> AsReal(arrears).value >= x as real
  {
    ParseBandOfAtLeast(x);
    SpecStepMeaning(AtLeast(x as real), arrears);
  }

  /** "<X" holds exactly the arrears below X. */
  lemma BandStepBelow(x: nat, arrears: Value)
    requires AsReal(arrears).Some?
    ensures BandStep(ParseBand(Str("<" + NatText(x))), arrears) == Hit <==> AsReal(arrears).value < x as real
  {
    ParseBandOfBelow(x);
    SpecStepMeaning(Below(x as real), arrears);
  }

  /** "a-b" holds exactly the arrears from a up to, not including, b. */
  lemma BandStepBetween(x: nat, y: nat, arrears: Value)
    requires AsReal(arrears).Some?
    ensures BandStep(ParseBand(Str(NatText(x) + "-" + NatText(y))), arrears) == Hit
      <==> x as real <= AsReal(arrears).value < y as real
  {
    ParseBandOfBetween(x, y);
    SpecStepMeaning(Between(x as real, y as real), arrears);
  }

  /** For a numeric arrears value the three formats mean exactly what they say. */
  lemma BandStepMeaning(x: nat, y: nat, arrears: Value)
    requires AsReal(arrears).Some?
    ensures var a := AsReal(arrears).value;
      && (BandStep(ParseBand(Str(NatText(x) + "<")), arrears) == Hit <==> a >= x as real)
      && (BandStep(ParseBand(Str("<" + NatText(x))), arrears) == Hit <==> a < x as real)
      && (BandStep(ParseBand(Str(NatText(x) + "-" + NatText(y))), arrears) == Hit <==> x as real <= a < y as real)
  {
    BandStepAtLeast(x, arrears);
    BandStepBelow(x, arrears);
    BandStepBetween(x, y, arrears);
  }

  /** The outcome of the whole scan. */
  datatype Scan = Found(band: string) | NoBand | Aborted(e: ErrorKind)

  /** One iteration of the band loop on an entry's value, for the incident's arrears. */
  function EntryStep(arrears: Value): Value -> Step
  {
    v => BandStep(ParseBand(v), arrears)
  }

  /**
   * The bands tried in order, each entry's value read by `step`: the first
   * hit names the band, and an exception ends the scan.
   */
  function ScanWith(bands: Bands, step: Value -> Step): Scan
  {
    if |bands| == 0 then NoBand
    else
      match step(bands[0].1)
      case Hit => Found(bands[0].0)
      case Abort(e) => Aborted(e)
      case Miss => ScanWith(bands[1..], step)
  }

  /** The scan of the configured bands for the incident's arrears. */
  function FirstBand(bands: Bands, arrears: Value): Scan
  {
    if |bands| == 0 then NoBand
    else
      match BandStep(ParseBand(bands[0].1), arrears)
      case Hit => Found(bands[0].0)
      case Abort(e) => Aborted(e)
      case Miss => FirstBand(bands[1..], arrears)
  }

  /** The scan for the arrears is the scan with each entry read as a band. */
  lemma {:induction false} FirstBandIsScan(bands: Bands, arrears: Value)
    ensures FirstBand(bands, arrears) == ScanWith(bands, EntryStep(arrears))
  {
    if |bands| > 0 {
      FirstBandIsScan(bands[1..], arrears);
      assert EntryStep(arrears)(bands[0].1) == BandStep(ParseBand(bands[0].1), arrears);
    }
  }

  /** Each of the first `i` entries misses. */
  predicate MissesWith(bands: Bands, step: Value -> Step, i: int)
    requires 0 <= i <= |bands|
  {
    forall j :: 0 <= j < i ==> step(bands[j].1) == Miss
  }

  /** Each of the first `i` entries misses the incident's arrears. */
  predicate MissesBefore(bands: Bands, arrears: Value, i: int)
    requires 0 <= i <= |bands|
  {
    MissesWith(bands, EntryStep(arrears), i)
  }

  lemma {:induction false} ScanDecidedAt(bands: Bands, step: Value -> Step, i: nat)
    requires i < |bands| && MissesWith(bands, step, i) && step(bands[i].1) != Miss
    ensures ScanWith(bands, step) ==
      match step(bands[i].1)
      case Hit => Found(bands[i].0)
      case Abort(e) => Aborted(e)
      case Miss => NoBand
  {
    if i > 0 {
      assert step(bands[0].1) == Miss;
      assert bands[1..][i - 1] == bands[i];
      assert MissesWith(bands[1..], step, i - 1) by {
        forall j | 0 <= j < i - 1
          ensures step(bands[1..][j].1) == Miss
        {
          assert bands[1..][j] == bands[j + 1];
        }
      }
      ScanDecidedAt(bands[1..], step, i - 1);
    }
  }

  /**
   * The scan is decided by the first entry that does not miss: a hit there
   * names that entry's band, an exception there aborts.
   */
  lemma FirstBandDecidedAt(bands: Bands, arrears: Value, i: nat)
    requires i < |bands| && MissesBefore(bands, arrears, i)
    requires BandStep(ParseBand(bands[i].1), arrears) != Miss
    ensures FirstBand(bands, arrears) ==
      match BandStep(ParseBand(bands[i].1), arrears)
      case Hit => Found(bands[i].0)
      case Abort(e) => Aborted(e)
      case Miss => NoBand
  {
    FirstBandIsScan(bands, arrears);
    ScanDecidedAt(bands, EntryStep(arrears), i);
  }

  lemma {:induction false} ScanNone(bands: Bands, step: Value -> Step)
    ensures ScanWith(bands, step) == NoBand <==> MissesWith(bands, step, |bands|)
  {
    if |bands| > 0 {
      ScanNone(bands[1..], step);
      if step(bands[0].1) == Miss {
        if MissesWith(bands[1..], step, |bands| - 1) {
          forall j | 0 <= j < |bands|
            ensures step(bands[j].1) == Miss
          {
            if j > 0 {
              assert bands[j] == bands[1..][j - 1];
            }
          }
        }
        if MissesWith(bands, step, |bands|) {
          forall j | 0 <= j < |bands| - 1
            ensures step(bands[1..][j].1) == Miss
          {
            assert bands[1..][j] == bands[j + 1];
          }
        }
      }
    }
  }

  /** No band is found, and nothing is raised, exactly when every entry misses. */
  lemma FirstBandNone(bands: Bands, arrears: Value)
    ensures FirstBand(bands, arrears) == NoBand <==> MissesBefore(bands, arrears, |bands|)
  {
    FirstBandIsScan(bands, arrears);
    ScanNone(bands, EntryStep(arrears));
  }

  lemma {:induction false} ScanFoundIsFirstHit(bands: Bands, step: Value -> Step)
    requires ScanWith(bands, step).Found?
    ensures exists i :: (0 <= i < |bands| && MissesWith(bands, step, i)
      && step(bands[i].1) == Hit && bands[i].0 == ScanWith(bands, step).band)
  {
    if step(bands[0].1) == Hit {
      assert MissesWith(bands, step, 0);
    } else {
      var rest := bands[1..];
      ScanFoundIsFirstHit(rest, step);
      var i :| 0 <= i < |rest| && MissesWith(rest, step, i)
        && step(rest[i].1) == Hit && rest[i].0 == ScanWith(rest, step).band;
      forall j | 0 <= j < i + 1
        ensures step(bands[j].1) == Miss
      {
        if j > 0 {
          assert bands[j] == rest[j - 1];
        }
      }
      assert bands[i + 1] == rest[i];
    }
  }

  /** A found band is the name of an entry that holds the arrears, after entries that all missed. */
  lemma FirstBandFoundIsFirstHit(bands: Bands, arrears: Value)
    requires FirstBand(bands, arrears).Found?
    ensures exists i :: (0 <= i < |bands| && MissesBefore(bands, arrears, i)
      && BandStep(ParseBand(bands[i].1), arrears) == Hit && bands[i].0 == FirstBand(bands, arrears).band)
  {
    FirstBandIsScan(bands, arrears);
    ScanFoundIsFirstHit(bands, EntryStep(arrears));
  }

  /** Only string values take part: dropping every non-string entry changes nothing. */
  function StringEntries(bands: Bands): (r: Bands)
    ensures |r| <= |bands|
    ensures forall k :: 0 <= k < |r| ==> r[k].1.Str?
  {
    if |bands| == 0 then []
    else if bands[0].1.Str? then [bands[0]] + StringEntries(bands[1..])
    else StringEntries(bands[1..])
  }

  lemma {:induction false} ScanSkipsMissedEntries(bands: Bands, step: Value -> Step)
    requires forall v: Value :: !v.Str? ==> step(v) == Miss
    ensures ScanWith(StringEntries(bands), step) == ScanWith(bands, step)
  {
    if |bands| > 0 {
      ScanSkipsMissedEntries(bands[1..], step);
      if bands[0].1.Str? {
        var kept := [bands[0]] + StringEntries(bands[1..]);
        assert kept[0] == bands[0] && kept[1..] == StringEntries(bands[1..]);
      } else {
        assert step(bands[0].1) == Miss;
      }
    }
  }

  lemma NonStringEntriesIgnored(bands: Bands, arrears: Value)
    ensures FirstBand(StringEntries(bands), arrears) == FirstBand(bands, arrears)
  {
    forall v: Value | !v.Str?
      ensures EntryStep(arrears)(v) == Miss
    {
      assert ParseBand(v) == Ignored;
    }
    FirstBandIsScan(bands, arrears);
    FirstBandIsScan(StringEntries(bands), arrears);
    ScanSkipsMissedEntries(bands, EntryStep(arrears));
  }

  /** The `for band, range_str in arrears_bands.items()` loop, with its `break` on the first hit. */
  method ScanBands(bands: Bands, arrears: Value) returns (r: Scan)
    ensures r == FirstBand(bands, arrears)
  {
    var i := 0;
    r := NoBand;
    while i < |bands|
      invariant 0 <= i <= |bands|
      invariant FirstBand(bands[i..], arrears) == FirstBand(bands, arrears)
    {
      var step := BandStep(ParseBand(bands[i].1), arrears);
      if step.Hit? {
        r := Found(bands[i].0);
        break;
      } else if step.Abort? {
        r := Aborted(step.e);
        break;
      }
      assert bands[i..][1..] == bands[i + 1..];
      i := i + 1;
    }
  }

  /** `incident_dict.get("Arrears", 0)`. */
  function ArrearsOrZero(d: Incident): Value
  {
    GetDefault(d.arrears, Int(0))
  }

  /** The incident `assign_arrears_band` leaves behind. */
  function AssignedBand(d: Incident, bands: Bands, now: Instant): Incident
  {
    if |bands| == 0 then MarkError(d, now, Raised(BandsMissing))
    else
      match FirstBand(bands, ArrearsOrZero(d))
      case Found(b) => d.(arrearsBand := Some(Str(b)))
      case NoBand => d.(arrearsBand := Some(PyNone))
      case Aborted(e) => MarkError(d, now, Raised(e))
  }

  /** `assign_arrears_band(incident_dict)`, with the band document passed in. */
  method AssignArrearsBand(inc: IncidentDict, bands: Bands, now: Instant)
    modifies inc
    ensures inc.doc == AssignedBand(old(inc.doc), bands, now)
  {
    if |bands| == 0 {
      inc.doc := MarkError(inc.doc, now, Raised(BandsMissing));
      return;
    }
    var arrears := ArrearsOrZero(inc.doc);
    var scan := ScanBands(bands, arrears);
    match scan
    case Found(b) => inc.doc := inc.doc.(arrearsBand := Some(Str(b)));
    case NoBand => inc.doc := inc.doc.(arrearsBand := Some(PyNone));
    case Aborted(e) => inc.doc := MarkError(inc.doc, now, Raised(e));
  }

  /**
   * `assign_arrears_band` marks the incident "Error" exactly when there are
   * no bands, a bound cannot be read, or the arrears cannot be compared; an
   * empty configuration is reported as `BandsMissing`.
   */
  lemma AssignedBandErrors(d: Incident, bands: Bands, now: Instant)
    ensures var r := AssignedBand(d, bands, now);
      var scan := FirstBand(bands, ArrearsOrZero(d));
      && (|bands| == 0 || scan.Aborted? ==> r == MarkError(d, now, r.description.value))
      && (|bands| == 0 ==> r.description == Some(Raised(BandsMissing)))
      && (scan.Aborted? && |bands| > 0 ==> r.description == Some(Raised(scan.e)))
  {
    if |bands| > 0 {
      AbortedScanMarksError(d, bands, now);
    }
  }

  /** An exception in the scan marks the incident "Error" with that exception. */
  lemma AbortedScanMarksError(d: Incident, bands: Bands, now: Instant)
    requires |bands| > 0
    ensures var scan := FirstBand(bands, ArrearsOrZero(d));
      scan.Aborted? ==> AssignedBand(d, bands, now) == MarkError(d, now, Raised(scan.e))
  {
  }

  /** Otherwise it writes `Arrears_Band` (the band found, or `None`) and nothing else. */
  lemma AssignedBandWrites(d: Incident, bands: Bands, now: Instant)
    requires |bands| > 0 && !FirstBand(bands, ArrearsOrZero(d)).Aborted?
    ensures var r := AssignedBand(d, bands, now);
      var scan := FirstBand(bands, ArrearsOrZero(d));
      r == d.(arrearsBand := Some(if scan.Found? then Str(scan.band) else PyNone))
  {
  }

  /** A missing `Arrears` is scanned as 0. */
  lemma MissingArrearsCountsAsZero(d: Incident, bands: Bands, now: Instant)
    requires d.arrears.None?
    ensures AssignedBand(d, bands, now) == AssignedBand(d.(arrears := Some(Int(0))), bands, now).(arrears := None)
  {
  }

  /** The incident `insert_arrears_band` leaves behind, and what it returns. */
  function InsertedBand(d: Incident, bands: Bands): (Returned, Incident)
  {
    if |bands| == 0 then (EmptyDict, d)
    else
      match FirstBand(bands, ArrearsOrZero(d))
      case Found(b) => (TheIncident, d.(legacyBand := Some(Str(b))))
      case NoBand => (TheIncident, d.(legacyBand := Some(PyNone)))
      case Aborted(_) => (EmptyDict, d)
  }

  /** `insert_arrears_band(incident_dict)`: writes `arrears_band`, or returns `{}` and leaves the incident alone. */
  method InsertArrearsBand(inc: IncidentDict, bands: Bands) returns (r: Returned)
    modifies inc
    ensures (r, inc.doc) == InsertedBand(old(inc.doc), bands)
  {
    if |bands| == 0 {
      return EmptyDict;
    }
    var scan := ScanBands(bands, ArrearsOrZero(inc.doc));
    match scan
    case Found(b) =>
      inc.doc := inc.doc.(legacyBand := Some(Str(b)));
      r := TheIncident;
    case NoBand =>
      inc.doc := inc.doc.(legacyBand := Some(PyNone));
      r := TheIncident;
    case Aborted(_) =>
      r := EmptyDict;
  }

  /**
   * The two revisions match bands identically: the older one returns `{}`
   * exactly where the newer one marks "Error", and otherwise writes under
   * `arrears_band` the value the newer one writes under `Arrears_Band`.
   */
  lemma RevisionsAgree(d: Incident, bands: Bands, now: Instant)
    ensures var (r, legacy) := InsertedBand(d, bands);
      var current := AssignedBand(d, bands, now);
      && (r == EmptyDict <==> |bands| == 0 || FirstBand(bands, ArrearsOrZero(d)).Aborted?)
      && (r == EmptyDict ==> legacy == d && current == MarkError(d, now, current.description.value))
      && (r == TheIncident
          ==> legacy == d.(legacyBand := current.arrearsBand) && current == d.(arrearsBand := current.arrearsBand))
  {
  }
}
