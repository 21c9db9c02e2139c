/**
 * The decisions of the six F1 filters (ids 11 to 16), shared by both
 * revisions of the filter code: given the incident and the filter's
 * configuration entry (missing when none was found), a filter lets the
 * incident pass, rejects it with a reason, or raises.
 */
module F1Rules {
  import opened Wrappers
  import opened PyValues
  import opened Incidents

  /** One entry of the active-filter configuration, as the loader builds it. */
  datatype FilterFields = FilterFields(
    newFilterId: int,
    filterRule: Value,
    operator: Value,
    ruleValues: seq<Value>,
    sourceType: seq<Value>)

  /** What one filter decides. */
  datatype Verdict = Pass | Reject(reason: Reason) | Fail(e: ErrorKind)

  const CREDIT_CLASS := 11
  const CUSTOMER_TYPE := 12
  const MAIN_PRODUCT_STATUS := 13
  const CUSTOMER_SEGMENT := 14
  const CUSTOMER_NAME := 15
  const SPECIFIC_PRODUCT_STATUS := 16

  predicate IsFilterId(k: int)
  {
    CREDIT_CLASS <= k <= SPECIFIC_PRODUCT_STATUS
  }

  const EQUAL := Str("equal")

  /**
   * Filters 11, 12 and 14: a falsy incident value passes before the
   * configuration is touched; otherwise the incident is rejected exactly
   * when the operator is "equal" and the value is among the rule values.
   * Without a configuration entry, reading `operator` raises.
   */
  function DecideEquals(id: int, field: Value, cfg: Option<FilterFields>): (v: Verdict)
    ensures !Truthy(field) ==> v == Pass
    ensures Truthy(field) && cfg.None? ==> v == Fail(KeyMissing("operator"))
    ensures Truthy(field) && cfg.Some?
      ==> (v.Reject? <==> PyEq(cfg.value.operator, EQUAL) && PyIn(field, cfg.value.ruleValues))
    ensures cfg.Some? ==> !v.Fail?
    ensures v.Reject? ==> v.reason == Matched(id, cfg.value.filterRule, [field])
  {
    if !Truthy(field) then Pass
    else
      match cfg
      case None => Fail(KeyMissing("operator"))
      case Some(c) =>
        if PyEq(c.operator, EQUAL) && PyIn(field, c.ruleValues) then Reject(Matched(id, c.filterRule, [field]))
        else Pass
  }

  /** `Product_Details` as a truth value: missing or empty is falsy. */
  predicate HasProducts(ps: Option<seq<Product>>)
  {
    ps.Some? && |ps.value| > 0
  }

  /** `product.get("Product_Status") in rule_values`. */
  predicate StatusListed(p: Product, ruleValues: seq<Value>)
  {
    PyIn(Get(p.productStatus), ruleValues)
  }

  predicate AnyStatusListed(ps: seq<Product>, ruleValues: seq<Value>)
  {
    exists k :: 0 <= k < |ps| && StatusListed(ps[k], ruleValues)
  }

  /** The statuses of the listed products, in product order (`matching_statuses`). */
  function MatchingStatuses(ps: seq<Product>, ruleValues: seq<Value>): (r: seq<Value>)
    ensures |r| <= |ps|
    ensures forall k :: 0 <= k < |r| ==> PyIn(r[k], ruleValues)
    ensures |r| > 0 <==> AnyStatusListed(ps, ruleValues)
  {
    if |ps| == 0 then []
    else
      var rest := MatchingStatuses(ps[1..], ruleValues);
      assert AnyStatusListed(ps[1..], ruleValues) ==> AnyStatusListed(ps, ruleValues) by {
        if AnyStatusListed(ps[1..], ruleValues) {
          var k :| 0 <= k < |ps[1..]| && StatusListed(ps[1..][k], ruleValues);
          assert ps[k + 1] == ps[1..][k];
        }
      }
      if StatusListed(ps[0], ruleValues) then [Get(ps[0].productStatus)] + rest else rest
  }

  /** The matching statuses of two product lists in a row are those of the first, then those of the second. */
  lemma {:induction false} MatchingStatusesAppend(ps: seq<Product>, qs: seq<Product>, ruleValues: seq<Value>)
    ensures MatchingStatuses(ps + qs, ruleValues) == MatchingStatuses(ps, ruleValues) + MatchingStatuses(qs, ruleValues)
  {
    if |ps| > 0 {
      assert (ps + qs)[0] == ps[0];
      assert (ps + qs)[1..] == ps[1..] + qs;
      MatchingStatusesAppend(ps[1..], qs, ruleValues);
    } else {
      assert ps + qs == qs;
    }
  }

  /**
   * `p["Product_Status"]` in the reason's list comprehension raises for a
   * listed product that lacks the key, which can only happen when `None`
   * is itself a rule value.
   */
  predicate ListedWithoutStatus(ps: seq<Product>, ruleValues: seq<Value>)
  {
    exists k :: 0 <= k < |ps| && ps[k].productStatus.None? && StatusListed(ps[k], ruleValues)
  }

  /**
   * Filter 13: with products, the incident is rejected exactly when the
   * operator is "equal" and some product's status is a rule value; the
   * reason lists the matching statuses in product order.
   */
  function DecideMainProductStatus(ps: Option<seq<Product>>, cfg: Option<FilterFields>): (v: Verdict)
    ensures !HasProducts(ps) ==> v == Pass
    ensures HasProducts(ps) && cfg.None? ==> v == Fail(KeyMissing("rule_values"))
    ensures HasProducts(ps) && cfg.Some? && !ListedWithoutStatus(ps.value, cfg.value.ruleValues)
      ==> (v.Reject? <==> PyEq(cfg.value.operator, EQUAL) && AnyStatusListed(ps.value, cfg.value.ruleValues))
    ensures v.Reject?
      ==> v.reason == Matched(MAIN_PRODUCT_STATUS, cfg.value.filterRule, MatchingStatuses(ps.value, cfg.value.ruleValues))
  {
    if !HasProducts(ps) then Pass
    else
      match cfg
      case None => Fail(KeyMissing("rule_values"))
      case Some(c) =>
        if PyEq(c.operator, EQUAL) && AnyStatusListed(ps.value, c.ruleValues) then
          if ListedWithoutStatus(ps.value, c.ruleValues) then Fail(KeyMissing("Product_Status"))
          else Reject(Matched(MAIN_PRODUCT_STATUS, c.filterRule, MatchingStatuses(ps.value, c.ruleValues)))
        else Pass
  }

  /** `\b` at position `p`: a word character on exactly one side. */
  predicate Boundary(s: string, p: int)
    requires 0 <= p <= |s|
  {
    (p > 0 && IsWordChar(s[p - 1])) != (p < |s| && IsWordChar(s[p]))
  }

  /** The word occurs at position `i`, ignoring case, with a word boundary on each side. */
  predicate WordAt(name: string, word: string, i: int)
    requires 0 <= i <= |name| - |word|
  {
    Lower(name[i..i + |word|]) == Lower(word) && Boundary(name, i) && Boundary(name, i + |word|)
  }

  /** `re.search(rf'\b{re.escape(word)}\b', name, re.IGNORECASE)` found a match. */
  predicate WholeWordMatch(name: string, word: string)
  {
    exists i :: 0 <= i <= |name| - |word| && WordAt(name, word, i)
  }

  lemma LowerCharWordChar(c: char)
    ensures IsWordChar(LowerChar(c)) == IsWordChar(c)
  {
  }

  lemma LowerOfSlice(s: string, i: int, j: int)
    requires 0 <= i <= j <= |s|
    ensures Lower(s)[i..j] == Lower(s[i..j])
  {
    var a, b := Lower(s)[i..j], Lower(s[i..j]);
    assert |a| == |b|;
    forall k | 0 <= k < |a|
      ensures a[k] == b[k]
    {
      assert a[k] == Lower(s)[i + k] == LowerChar(s[i + k]);
      assert b[k] == LowerChar(s[i..j][k]);
    }
  }

  lemma BoundaryIgnoresCase(name: string, p: int)
    requires 0 <= p <= |name|
    ensures Boundary(Lower(name), p) == Boundary(name, p)
  {
    if p > 0 {
      LowerCharWordChar(name[p - 1]);
    }
    if p < |name| {
      LowerCharWordChar(name[p]);
    }
  }

  lemma WordAtIgnoresNameCase(name: string, word: string, i: int)
    requires 0 <= i <= |name| - |word|
    ensures WordAt(Lower(name), word, i) == WordAt(name, word, i)
  {
    var j := i + |word|;
    LowerOfSlice(name, i, j);
    LowerIdempotent(name[i..j]);
    assert Lower(Lower(name)[i..j]) == Lower(name[i..j]);
    BoundaryIgnoresCase(name, i);
    BoundaryIgnoresCase(name, j);
  }

  /** Changing the case of the name never changes whether the word matches. */
  lemma WholeWordMatchIgnoresNameCase(name: string, word: string)
    ensures WholeWordMatch(Lower(name), word) == WholeWordMatch(name, word)
  {
    if WholeWordMatch(Lower(name), word) {
      var i :| 0 <= i <= |Lower(name)| - |word| && WordAt(Lower(name), word, i);
      WordAtIgnoresNameCase(name, word, i);
    }
    if WholeWordMatch(name, word) {
      var i :| 0 <= i <= |name| - |word| && WordAt(name, word, i);
      WordAtIgnoresNameCase(name, word, i);
    }
  }

  lemma {:induction false} WordAtIgnoresWordCase(name: string, word: string, i: int)
    requires 0 <= i <= |name| - |word|
    ensures WordAt(name, Lower(word), i) == WordAt(name, word, i)
  {
    LowerIdempotent(word);
  }

  /** Changing the case of the rule never changes whether it matches. */
  lemma WholeWordMatchIgnoresWordCase(name: string, word: string)
    ensures WholeWordMatch(name, Lower(word)) == WholeWordMatch(name, word)
  {
    if WholeWordMatch(name, Lower(word)) {
      var i :| 0 <= i <= |name| - |Lower(word)| && WordAt(name, Lower(word), i);
      WordAtIgnoresWordCase(name, word, i);
    }
    if WholeWordMatch(name, word) {
      var i :| 0 <= i <= |name| - |word| && WordAt(name, word, i);
      WordAtIgnoresWordCase(name, word, i);
    }
  }

  /** A word standing between two spaces is found; a word glued to a letter is not found there. */
  lemma SpacedWordMatches(pre: string, word: string, post: string)
    requires |word| > 0 && IsWordChar(word[0]) && IsWordChar(word[|word| - 1])
    ensures WholeWordMatch(pre + " " + word + " " + post, word)
  {
    var name := pre + " " + word + " " + post;
    var i := |pre| + 1;
    assert name[i..i + |word|] == word;
    assert name[i - 1] == ' ' && name[i] == word[0];
    assert name[i + |word| - 1] == word[|word| - 1] && name[i + |word|] == ' ';
    assert WordAt(name, word, i);
  }

  /**
   * The `any(...)` over the rule values, left to right: a match rejects; a
   * rule or a name that is not a string makes `re` raise before any later
   * rule is tried.
   */
  function NameScan(name: Value, rules: seq<Value>): (v: Verdict)
    ensures v.Pass? || v == Fail(BadOperand) || v == Reject(Reason.Carried(PyNone))
  {
    if |rules| == 0 then Pass
    else if !rules[0].Str? || !name.Str? then Fail(BadOperand)
    else if WholeWordMatch(name.s, rules[0].s) then Reject(Reason.Carried(PyNone))
    else NameScan(name, rules[1..])
  }

  /** Some rule value occurs in the name as a whole word. */
  predicate AnyWordOf(name: string, rules: seq<Value>)
    requires forall k :: 0 <= k < |rules| ==> rules[k].Str?
  {
    exists k :: 0 <= k < |rules| && WholeWordMatch(name, rules[k].s)
  }

  lemma AnyWordOfCons(name: string, rules: seq<Value>)
    requires |rules| > 0 && forall k :: 0 <= k < |rules| ==> rules[k].Str?
    ensures AnyWordOf(name, rules) == (WholeWordMatch(name, rules[0].s) || AnyWordOf(name, rules[1..]))
  {
    if AnyWordOf(name, rules) && !WholeWordMatch(name, rules[0].s) {
      var k :| 0 <= k < |rules| && WholeWordMatch(name, rules[k].s);
      assert rules[1..][k - 1] == rules[k];
    }
    if AnyWordOf(name, rules[1..]) {
      var k :| 0 <= k < |rules[1..]| && WholeWordMatch(name, rules[1..][k].s);
      assert rules[k + 1] == rules[1..][k];
    }
  }

  /** For a string name and string rules, the scan rejects exactly when some rule occurs as a whole word. */
  lemma {:induction false} NameScanFindsWord(name: string, rules: seq<Value>)
    requires forall k :: 0 <= k < |rules| ==> rules[k].Str?
    ensures NameScan(Str(name), rules).Reject? <==> AnyWordOf(name, rules)
    ensures !NameScan(Str(name), rules).Fail?
  {
    if |rules| > 0 {
      NameScanFindsWord(name, rules[1..]);
      AnyWordOfCons(name, rules);
    }
  }

  /**
   * Filter 15: a truthy name is rejected when some rule value occurs in it
   * as a whole word, ignoring case. The operator is never read.
   */
  function DecideCustomerName(name: Value, cfg: Option<FilterFields>): (v: Verdict)
    ensures !Truthy(name) ==> v == Pass
    ensures Truthy(name) && cfg.None? ==> v == Fail(KeyMissing("rule_values"))
    ensures Truthy(name) && cfg.Some? ==> (v.Reject? <==> NameScan(name, cfg.value.ruleValues).Reject?)
    ensures v.Reject? ==> v.reason == Matched(CUSTOMER_NAME, cfg.value.filterRule, [name])
  {
    if !Truthy(name) then Pass
    else
      match cfg
      case None => Fail(KeyMissing("rule_values"))
      case Some(c) =>
        match NameScan(name, c.ruleValues)
        case Pass => Pass
        case Fail(e) => Fail(e)
        case Reject(_) => Reject(Matched(CUSTOMER_NAME, c.filterRule, [name]))
  }

  /** Filter 15 does not depend on the configured operator. */
  lemma CustomerNameIgnoresOperator(name: Value, c: FilterFields, op: Value)
    ensures DecideCustomerName(name, Some(c)) == DecideCustomerName(name, Some(c.(operator := op)))
  {
  }

  /** The position of the first product whose status is a rule value. */
  function FirstListed(ps: seq<Product>, ruleValues: seq<Value>): (r: Option<nat>)
    ensures r.Some? ==> r.value < |ps| && StatusListed(ps[r.value], ruleValues)
    ensures r.Some? ==> forall k :: 0 <= k < r.value ==> !StatusListed(ps[k], ruleValues)
    ensures r.None? <==> !AnyStatusListed(ps, ruleValues)
  {
    if |ps| == 0 then None
    else if StatusListed(ps[0], ruleValues) then Some(0)
    else
      match FirstListed(ps[1..], ruleValues)
      case None =>
        assert !AnyStatusListed(ps, ruleValues) by {
          forall k | 0 <= k < |ps|
            ensures !StatusListed(ps[k], ruleValues)
          {
            if k > 0 {
              assert ps[k] == ps[1..][k - 1];
            }
          }
        }
        None
      case Some(i) =>
        assert ps[i + 1] == ps[1..][i];
        assert forall k :: 0 < k < i + 1 ==> ps[k] == ps[1..][k - 1];
        Some(i + 1)
  }

  /** `[stype.lower() for stype in source_type]`, which raises on a value that is not a string. */
  predicate AllStrings(vs: seq<Value>)
  {
    forall k :: 0 <= k < |vs| ==> vs[k].Str?
  }

  /** `source_type.lower() in [stype.lower() for stype in ...]`. */
  predicate SourceTypeListed(st: string, allowed: seq<Value>)
    requires AllStrings(allowed)
  {
    exists k :: 0 <= k < |allowed| && Lower(allowed[k].s) == Lower(st)
  }

  /**
   * Filter 16: the first product whose status is a rule value decides,
   * and later products are never looked at. The incident is rejected when
   * `Source_Type` is falsy (`None` included) or, ignoring case, not among
   * the configured source types. A truthy `Source_Type` that is not a
   * string, or a configured type that is not one, makes `.lower()` raise.
   * Otherwise the incident passes.
   */
  function DecideSpecificProductStatus(ps: Option<seq<Product>>, sourceType: Value, cfg: Option<FilterFields>): (v: Verdict)
    ensures !HasProducts(ps) ==> v == Pass
    ensures HasProducts(ps) && cfg.None? ==> v == Fail(KeyMissing("rule_values"))
    ensures HasProducts(ps) && cfg.Some? && FirstListed(ps.value, cfg.value.ruleValues).None? ==> v == Pass
    ensures HasProducts(ps) && cfg.Some? && FirstListed(ps.value, cfg.value.ruleValues).Some?
      ==> (v.Reject? <==>
             (!Truthy(sourceType)
              || (sourceType.Str? && AllStrings(cfg.value.sourceType)
                  && !SourceTypeListed(sourceType.s, cfg.value.sourceType))))
    ensures HasProducts(ps) && cfg.Some? && FirstListed(ps.value, cfg.value.ruleValues).Some?
      && Truthy(sourceType) && (!sourceType.Str? || !AllStrings(cfg.value.sourceType))
      ==> v == Fail(BadOperand)
    ensures v.Reject? ==> v.reason == Matched(SPECIFIC_PRODUCT_STATUS, cfg.value.filterRule,
      [Get(ps.value[FirstListed(ps.value, cfg.value.ruleValues).value].productStatus), sourceType])
  {
    if !HasProducts(ps) then Pass
    else
      match cfg
      case None => Fail(KeyMissing("rule_values"))
      case Some(c) =>
        match FirstListed(ps.value, c.ruleValues)
        case None => Pass
        case Some(i) =>
          var reason := Matched(SPECIFIC_PRODUCT_STATUS, c.filterRule, [Get(ps.value[i].productStatus), sourceType]);
          if !Truthy(sourceType) then Reject(reason)
          else if !sourceType.Str? || !AllStrings(c.sourceType) then Fail(BadOperand)
          else if !SourceTypeListed(sourceType.s, c.sourceType) then Reject(reason)
          else Pass
  }

  /** Products after the first listed one never change filter 16's verdict. */
  lemma SpecificProductStatusIgnoresLaterProducts(ps: seq<Product>, later: seq<Product>, sourceType: Value, c: FilterFields)
    requires AnyStatusListed(ps, c.ruleValues)
    ensures DecideSpecificProductStatus(Some(ps + later), sourceType, Some(c))
      == DecideSpecificProductStatus(Some(ps), sourceType, Some(c))
  {
    var i := FirstListed(ps, c.ruleValues).value;
    var j := FirstListed(ps + later, c.ruleValues);
    assert (ps + later)[i] == ps[i];
    assert forall k :: 0 <= k < i ==> (ps + later)[k] == ps[k];
  }

  /** The filter a configuration id selects, applied to the incident. */
  function Decide(k: int, d: Incident, cfg: Option<FilterFields>): Verdict
  {
    if k == CREDIT_CLASS then DecideEquals(CREDIT_CLASS, Get(d.creditClassId), cfg)
    else if k == CUSTOMER_TYPE then DecideEquals(CUSTOMER_TYPE, Get(d.customerTypeName), cfg)
    else if k == MAIN_PRODUCT_STATUS then DecideMainProductStatus(d.productDetails, cfg)
    else if k == CUSTOMER_SEGMENT then DecideEquals(CUSTOMER_SEGMENT, Get(d.customerSegment), cfg)
    else if k == CUSTOMER_NAME then DecideCustomerName(Get(d.customerName), cfg)
    else if k == SPECIFIC_PRODUCT_STATUS then DecideSpecificProductStatus(d.productDetails, Get(d.sourceType), cfg)
    else Pass
  }

  /**
   * Every rejection carries a truthy reason naming the filter that
   * produced it, and an id outside 11..16 always passes.
   */
  lemma DecideReasons(k: int, d: Incident, cfg: Option<FilterFields>)
    ensures !IsFilterId(k) ==> Decide(k, d, cfg) == Pass
    ensures Decide(k, d, cfg).Reject? ==> Decide(k, d, cfg).reason.Matched? && Decide(k, d, cfg).reason.filterId == k
    ensures Decide(k, d, cfg).Reject? ==> ReasonTruthy(Some(Decide(k, d, cfg).reason))
  {
  }
}
