/**
 * The request validators of the product endpoints: each check that fails
 * contributes one message, and a single `ValueError` carries them all,
 * joined with ", ". A request that passes is handed on unchanged.
 */
module ProductValidation {
  import opened Wrappers
  import opened PyValues

  /** The raw request dictionary a `mode="before"` validator receives. */
  type Raw = map<string, Value>

  /** `values.get(key)`. */
  function Field(values: Raw, key: string): Value
  {
    if key in values then values[key] else PyNone
  }

  /** One check of a validator: whether it failed, and the message it then contributes. */
  datatype Check = Check(failed: bool, message: string)

  /** The messages of the failing checks, in check order. */
  function Collected(cs: seq<Check>): (errors: seq<string>)
    ensures |errors| <= |cs|
  {
    if |cs| == 0 then []
    else Collected(cs[..|cs| - 1]) + (if cs[|cs| - 1].failed then [cs[|cs| - 1].message] else [])
  }

  /** Running one more check appends its message when it fails. */
  lemma CollectedSnoc(cs: seq<Check>, c: Check)
    ensures Collected(cs + [c]) == Collected(cs) + (if c.failed then [c.message] else [])
  {
    assert (cs + [c])[..|cs|] == cs;
  }

  /** The number of failing checks. */
  function FailedCount(cs: seq<Check>): nat
  {
    if |cs| == 0 then 0 else FailedCount(cs[..|cs| - 1]) + (if cs[|cs| - 1].failed then 1 else 0)
  }

  /**
   * Every failing check contributes its message, and only failing checks
   * contribute: one message per failure, none when all pass.
   */
  lemma {:induction false} CollectedExact(cs: seq<Check>)
    ensures |Collected(cs)| == FailedCount(cs)
    ensures forall i :: 0 <= i < |cs| && cs[i].failed ==> cs[i].message in Collected(cs)
    ensures forall m :: m in Collected(cs) ==> exists i :: 0 <= i < |cs| && cs[i].failed && cs[i].message == m
    ensures |Collected(cs)| == 0 <==> forall i :: 0 <= i < |cs| ==> !cs[i].failed
    decreases |cs|
  {
    if |cs| > 0 {
      var front := cs[..|cs| - 1];
      CollectedExact(front);
      assert forall i :: 0 <= i < |front| ==> front[i] == cs[i];
    }
  }

  /** `sep.join(parts)`. */
  function JoinWith(parts: seq<string>, sep: string): string
  {
    if |parts| == 0 then ""
    else if |parts| == 1 then parts[0]
    else parts[0] + sep + JoinWith(parts[1..], sep)
  }

  /** `part` occurs in `text` starting at `at`. */
  predicate InfixAt(part: string, text: string, at: int)
  {
    0 <= at <= |text| - |part| && text[at..at + |part|] == part
  }

  /** `part in text` for strings. */
  ghost predicate Infix(part: string, text: string)
  {
    exists at :: InfixAt(part, text, at)
  }

  /** Every message can be found in the joined text. */
  lemma {:induction false} JoinedHoldsEach(parts: seq<string>, sep: string, k: int)
    requires 0 <= k < |parts|
    ensures Infix(parts[k], JoinWith(parts, sep))
    decreases |parts|
  {
    var text := JoinWith(parts, sep);
    if |parts| > 1 {
      if k == 0 {
        assert InfixAt(parts[0], text, 0);
      } else {
        JoinedHoldsEach(parts[1..], sep, k - 1);
        var rest := JoinWith(parts[1..], sep);
        var at :| InfixAt(parts[k], rest, at);
        var shift := |parts[0]| + |sep|;
        assert text == parts[0] + sep + rest;
        assert text[shift + at..shift + at + |parts[k]|] == rest[at..at + |parts[k]|];
        assert InfixAt(parts[k], text, shift + at);
      }
    } else {
      assert InfixAt(parts[0], text, 0);
    }
  }

  /** The validator's verdict: the input unchanged, or one `ValueError` whose text joins every message. */
  function Verdict<T>(cs: seq<Check>, input: T): Result<T, string>
  {
    var errors := Collected(cs);
    if |errors| > 0 then Failure(JoinWith(errors, ", ")) else Success(input)
  }

  /**
   * What a validator promises: it accepts exactly when no check fails,
   * handing the input back unchanged; otherwise its one error names every
   * failing check.
   */
  lemma VerdictOutcome<T>(cs: seq<Check>, input: T)
    ensures Verdict(cs, input).Success? <==> forall i :: 0 <= i < |cs| ==> !cs[i].failed
    ensures Verdict(cs, input).Success? ==> Verdict(cs, input).value == input
    ensures forall i :: 0 <= i < |cs| && cs[i].failed ==> Verdict(cs, input).Failure? && Infix(cs[i].message, Verdict(cs, input).error)
  {
    CollectedExact(cs);
    var errors := Collected(cs);
    forall i | 0 <= i < |cs| && cs[i].failed
      ensures Infix(cs[i].message, JoinWith(errors, ", "))
    {
      var k :| 0 <= k < |errors| && errors[k] == cs[i].message;
      JoinedHoldsEach(errors, ", ", k);
    }
  }

  /** The messages the checks contribute. */
  const MSG_CUSTOMER_REF := "Field 'customer_ref' is required and cannot be empty."
  const MSG_PRODUCT_SEQ := "Field 'product_seq' is required."
  const MSG_PRODUCT_STATUS := "Invalid 'product_status'. Allowed values: OK, SU, PE, TX."
  const MSG_EFFECTIVE_DTM := "Field 'effective_dtm' must be a valid datetime object."
  const MSG_PRODUCT_LABEL := "Field 'product_label' is required."
  const MSG_PRODUCT_ID := "Field 'product_id' is required."
  const MSG_PRODUCT_NAME := "Field 'product_name' is required."
  const MSG_SERVICE_TYPE := "Field 'service_type' is required."
  const MSG_REGION := "Field 'region' is required."
  const MSG_PROVINCE := "Field 'province' is required."
  const MSG_CASE_ID := "Field 'case_id' is required."
  const MSG_ACCOUNT_NO := "Field 'account_no' is required."
  const MSG_PRODUCT_DETAILS := "Field 'product_details' is required."

  const PRODUCT_STATUSES: set<Value> := {Str("OK"), Str("SU"), Str("PE"), Str("TX")}

  /** The ten checks of `ProductDetail.validate_product_details`, in source order. */
  function ProductChecks(values: Raw): (cs: seq<Check>)
    ensures |cs| == 10
  {
    [ Check(!Truthy(Field(values, "customer_ref")), MSG_CUSTOMER_REF),
      Check(Field(values, "product_seq") == PyNone, MSG_PRODUCT_SEQ),
      Check(Field(values, "product_status") !in PRODUCT_STATUSES, MSG_PRODUCT_STATUS),
      Check(Field(values, "effective_dtm") == PyNone, MSG_EFFECTIVE_DTM),
      Check(Field(values, "product_label") == PyNone, MSG_PRODUCT_LABEL),
      Check(Field(values, "product_id") == PyNone, MSG_PRODUCT_ID),
      Check(Field(values, "product_name") == PyNone, MSG_PRODUCT_NAME),
      Check(Field(values, "service_type") == PyNone, MSG_SERVICE_TYPE),
      Check(Field(values, "region") == PyNone, MSG_REGION),
      Check(Field(values, "province") == PyNone, MSG_PROVINCE) ]
  }

  /**
   * One `if failed: errors.append(message)` step: the list stays the
   * messages of the checks run so far.
   */
  method Note(ghost done: seq<Check>, errors: seq<string>, c: Check) returns (r: seq<string>)
    requires errors == Collected(done)
    ensures r == Collected(done + [c])
  {
    CollectedSnoc(done, c);
    r := errors;
    if c.failed {
      r := r + [c.message];
    }
  }

  /** `validate_product_details`, appending to `errors` check by check. */
  method ValidateProductDetails(values: Raw) returns (r: Result<Raw, string>)
    ensures r == Verdict(ProductChecks(values), values)
  {
    var errors: seq<string> := [];
    ghost var done: seq<Check> := [];
    errors := Note(done, errors, Check(!Truthy(Field(values, "customer_ref")), MSG_CUSTOMER_REF));
    done := done + [Check(!Truthy(Field(values, "customer_ref")), MSG_CUSTOMER_REF)];
    errors := Note(done, errors, Check(Field(values, "product_seq") == PyNone, MSG_PRODUCT_SEQ));
    done := done + [Check(Field(values, "product_seq") == PyNone, MSG_PRODUCT_SEQ)];
    errors := Note(done, errors, Check(Field(values, "product_status") !in PRODUCT_STATUSES, MSG_PRODUCT_STATUS));
    done := done + [Check(Field(values, "product_status") !in PRODUCT_STATUSES, MSG_PRODUCT_STATUS)];
    errors := Note(done, errors, Check(Field(values, "effective_dtm") == PyNone, MSG_EFFECTIVE_DTM));
    done := done + [Check(Field(values, "effective_dtm") == PyNone, MSG_EFFECTIVE_DTM)];
    errors := Note(done, errors, Check(Field(values, "product_label") == PyNone, MSG_PRODUCT_LABEL));
    done := done + [Check(Field(values, "product_label") == PyNone, MSG_PRODUCT_LABEL)];
    errors := Note(done, errors, Check(Field(values, "product_id") == PyNone, MSG_PRODUCT_ID));
    done := done + [Check(Field(values, "product_id") == PyNone, MSG_PRODUCT_ID)];
    errors := Note(done, errors, Check(Field(values, "product_name") == PyNone, MSG_PRODUCT_NAME));
    done := done + [Check(Field(values, "product_name") == PyNone, MSG_PRODUCT_NAME)];
    errors := Note(done, errors, Check(Field(values, "service_type") == PyNone, MSG_SERVICE_TYPE));
    done := done + [Check(Field(values, "service_type") == PyNone, MSG_SERVICE_TYPE)];
    errors := Note(done, errors, Check(Field(values, "region") == PyNone, MSG_REGION));
    done := done + [Check(Field(values, "region") == PyNone, MSG_REGION)];
    errors := Note(done, errors, Check(Field(values, "province") == PyNone, MSG_PROVINCE));
    done := done + [Check(Field(values, "province") == PyNone, MSG_PROVINCE)];
    assert done == ProductChecks(values);
    if |errors| > 0 {
      return Failure(JoinWith(errors, ", "));
    }
    r := Success(values);
  }

  /**
   * A product passes exactly when `customer_ref` is truthy, the status is
   * one of OK, SU, PE and TX, and every other required field is present and
   * not `None`.
   */
  lemma ProductAccepted(values: Raw)
    ensures Verdict(ProductChecks(values), values).Success? <==>
      Truthy(Field(values, "customer_ref")) && Field(values, "product_status") in PRODUCT_STATUSES
      && Field(values, "product_seq") != PyNone && Field(values, "effective_dtm") != PyNone
      && Field(values, "product_label") != PyNone && Field(values, "product_id") != PyNone
      && Field(values, "product_name") != PyNone && Field(values, "service_type") != PyNone
      && Field(values, "region") != PyNone && Field(values, "province") != PyNone
  {
    var cs := ProductChecks(values);
    VerdictOutcome(cs, values);
    if Verdict(cs, values).Success? {
      assert !cs[0].failed && !cs[1].failed && !cs[2].failed && !cs[3].failed && !cs[4].failed;
      assert !cs[5].failed && !cs[6].failed && !cs[7].failed && !cs[8].failed && !cs[9].failed;
    } else {
      var i :| 0 <= i < |cs| && cs[i].failed;
      assert i == 0 || i == 1 || i == 2 || i == 3 || i == 4 || i == 5 || i == 6 || i == 7 || i == 8 || i == 9;
    }
  }

  /** The raw request of `ExpectedProductDetails`; `product_details` is a list or absent. */
  datatype ExpectedRaw = ExpectedRaw(caseId: Value, accountNo: Value, productDetails: Option<seq<Raw>>)

  /** The three checks of `validate_expected_product_details`: each field must be truthy. */
  function ExpectedChecks(value: ExpectedRaw): (cs: seq<Check>)
    ensures |cs| == 3
  {
    [ Check(!Truthy(value.caseId), MSG_CASE_ID),
      Check(!Truthy(value.accountNo), MSG_ACCOUNT_NO),
      Check(value.productDetails.None? || |value.productDetails.value| == 0, MSG_PRODUCT_DETAILS) ]
  }

  /** `validate_expected_product_details`. */
  method ValidateExpectedProductDetails(value: ExpectedRaw) returns (r: Result<ExpectedRaw, string>)
    ensures r == Verdict(ExpectedChecks(value), value)
  {
    var errors: seq<string> := [];
    ghost var done: seq<Check> := [];
    errors := Note(done, errors, Check(!Truthy(value.caseId), MSG_CASE_ID));
    done := done + [Check(!Truthy(value.caseId), MSG_CASE_ID)];
    errors := Note(done, errors, Check(!Truthy(value.accountNo), MSG_ACCOUNT_NO));
    done := done + [Check(!Truthy(value.accountNo), MSG_ACCOUNT_NO)];
    var missing := value.productDetails.None? || |value.productDetails.value| == 0;
    errors := Note(done, errors, Check(missing, MSG_PRODUCT_DETAILS));
    done := done + [Check(missing, MSG_PRODUCT_DETAILS)];
    assert done == ExpectedChecks(value);
    if |errors| > 0 {
      return Failure(JoinWith(errors, ", "));
    }
    r := Success(value);
  }

  /**
   * An expected-products request passes exactly when the case id and the
   * account number are truthy and the product list is present and not empty.
   */
  lemma ExpectedAccepted(value: ExpectedRaw)
    ensures Verdict(ExpectedChecks(value), value).Success? <==>
      Truthy(value.caseId) && Truthy(value.accountNo)
      && value.productDetails.Some? && |value.productDetails.value| > 0
  {
    var cs := ExpectedChecks(value);
    VerdictOutcome(cs, value);
    if Verdict(cs, value).Success? {
      assert !cs[0].failed && !cs[1].failed && !cs[2].failed;
    } else {
      var i :| 0 <= i < |cs| && cs[i].failed;
      assert i == 0 || i == 1 || i == 2;
    }
  }

  /**
   * All failures are reported together: a request with case id 0, no
   * account number and an empty product list is refused with all three
   * messages, in check order.
   */
  lemma ExpectedReportsAll(products: seq<Raw>)
    requires |products| == 0
    ensures Verdict(ExpectedChecks(ExpectedRaw(Int(0), PyNone, Some(products))), ExpectedRaw(Int(0), PyNone, Some(products)))
      == Failure(JoinWith([MSG_CASE_ID, MSG_ACCOUNT_NO, MSG_PRODUCT_DETAILS], ", "))
  {
    var cs := ExpectedChecks(ExpectedRaw(Int(0), PyNone, Some(products)));
    assert cs[0].failed && cs[1].failed && cs[2].failed;
    CollectedSnoc([], cs[0]);
    assert [] + [cs[0]] == [cs[0]];
    CollectedSnoc([cs[0]], cs[1]);
    assert [cs[0]] + [cs[1]] == [cs[0], cs[1]];
    CollectedSnoc([cs[0], cs[1]], cs[2]);
    assert [cs[0], cs[1]] + [cs[2]] == cs;
    assert Collected(cs) == [MSG_CASE_ID, MSG_ACCOUNT_NO, MSG_PRODUCT_DETAILS];
  }
}
