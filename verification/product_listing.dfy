/**
 * The two product-listing endpoints of a case: the list filtered by a
 * dictionary of attribute values compared as text, and the histogram of
 * one attribute's values. The product details of the case (a store query)
 * are a parameter.
 */
module ProductListing {
  import opened Wrappers
  import opened PyValues

  /** A product document: attribute name to value. */
  type Doc = map<string, Value>

  /** `product.get(key)`. */
  function Attr(p: Doc, key: string): Value
  {
    if key in p then p[key] else PyNone
  }

  /**
   * `str(a) == str(b)`. Texts of `None`, integers and strings are compared
   * as Python writes them; an integer's text never equals a float's (a
   * float's always has a point, an exponent or a letter); equal floats and
   * equal datetimes have equal texts. A float or datetime against a string
   * is taken never to match (their text is not modelled).
   */
  predicate SameText(a: Value, b: Value)
  {
    match (a, b)
    case (PyNone, PyNone) => true
    case (PyNone, Str(s)) => s == "None"
    case (Str(s), PyNone) => s == "None"
    case (Str(x), Str(y)) => x == y
    case (Int(i), Int(j)) => i == j
    case (Int(i), Str(s)) => s == IntText(i)
    case (Str(s), Int(i)) => s == IntText(i)
    case (Num(x), Num(y)) => x == y
    case (Moment(x), Moment(y)) => x == y
    case _ => false
  }

  /** A string filter value picks out at most one integer attribute value. */
  lemma TextNamesOneInt(i: int, j: int, s: string)
    requires SameText(Int(i), Str(s)) && SameText(Int(j), Str(s))
    ensures i == j
  {
    IntTextInjective(i, j);
  }

  /** The filter condition: every filter whose value is not `None` agrees as text with the product's attribute. */
  predicate Matches(p: Doc, filters: map<string, Value>)
  {
    forall k :: k in filters && filters[k] != PyNone ==> SameText(Attr(p, k), filters[k])
  }

  /** The list comprehension: the matching products, in their original order. */
  function MatchingProducts(ps: seq<Doc>, filters: map<string, Value>): (r: seq<Doc>)
    ensures |r| <= |ps|
    ensures forall j :: 0 <= j < |r| ==> Matches(r[j], filters) && r[j] in ps
    ensures forall i :: 0 <= i < |ps| && Matches(ps[i], filters) ==> ps[i] in r
  {
    if |ps| == 0 then []
    else
      var front := MatchingProducts(ps[..|ps| - 1], filters);
      assert forall i :: 0 <= i < |ps| - 1 ==> ps[i] == ps[..|ps| - 1][i];
      if Matches(ps[|ps| - 1], filters) then front + [ps[|ps| - 1]] else front
  }

  /** Filtering distributes over concatenation, so the relative order of the products is kept. */
  lemma {:induction false} MatchingProductsAppend(a: seq<Doc>, b: seq<Doc>, filters: map<string, Value>)
    ensures MatchingProducts(a + b, filters) == MatchingProducts(a, filters) + MatchingProducts(b, filters)
    decreases |b|
  {
    if |b| == 0 {
      assert a + b == a;
    } else {
      var b' := b[..|b| - 1];
      assert (a + b)[..|a + b| - 1] == a + b';
      assert (a + b)[|a + b| - 1] == b[|b| - 1];
      MatchingProductsAppend(a, b', filters);
    }
  }

  /** No filter, or only `None`-valued filters, keeps every product in order. */
  lemma {:induction false} InactiveFiltersKeepAll(ps: seq<Doc>, filters: map<string, Value>)
    requires forall k :: k in filters ==> filters[k] == PyNone
    ensures MatchingProducts(ps, filters) == ps
    decreases |ps|
  {
    if |ps| > 0 {
      InactiveFiltersKeepAll(ps[..|ps| - 1], filters);
      assert ps[..|ps| - 1] + [ps[|ps| - 1]] == ps;
    }
  }

  /** A product lacking a filtered attribute reads it as `None`, whose text is "None". */
  lemma MissingAttributeReadsNone(p: Doc, filters: map<string, Value>, k: string)
    requires k in filters && k !in p && filters[k] != PyNone
    ensures Matches(p, filters) ==> filters[k] == Str("None")
  {
    if Matches(p, filters) {
      assert SameText(Attr(p, k), filters[k]);
    }
  }

  /** Why a listing endpoint fails. */
  datatype ListError = NoMatch | NoProducts | UnknownAttribute(attribute: string)

  /** The exceptions that can reach the `except` clauses of an endpoint. */
  datatype Raised = NotFoundRaised | ValidationRaised(message: string) | TypeErrorRaised

  /** The handlers: a `ValidationError` answers 400, anything else falls to the catch-all 500. */
  function Handled(x: Raised): (code: int)
    ensures code == 400 <==> x.ValidationRaised?
    ensures code == 500 <==> !x.ValidationRaised?
  {
    if x.ValidationRaised? then 400 else 500
  }

  /** The message the attribute check is meant to carry. */
  function UnknownAttributeMessage(attribute: string): string
  {
    "The attribute '" + attribute + "' does not exist in product details."
  }

  /**
   * What the failing check raises as written. pydantic's `ValidationError`
   * has no constructor taking one message, so `ValidationError(message)`
   * itself raises `TypeError` before anything is raised on purpose.
   */
  function RaisedAsWritten(e: ListError): Raised
  {
    match e
    case UnknownAttribute(_) => TypeErrorRaised
    case _ => NotFoundRaised
  }

  /** What the failing check is evidently meant to raise: a validation error with its message. */
  function RaisedAsIntended(e: ListError): Raised
  {
    match e
    case UnknownAttribute(a) => ValidationRaised(UnknownAttributeMessage(a))
    case _ => NotFoundRaised
  }

  /** The status the endpoint answers with as written: every failure reaches the catch-all. */
  function HttpStatusAsWritten(e: ListError): (code: int)
    ensures code == 500
  {
    Handled(RaisedAsWritten(e))
  }

  /**
   * The status the endpoint is meant to answer with: `NotFoundError` falls
   * to the catch-all 500, the attribute check to the 400 of the validation
   * handler.
   */
  function HttpStatus(e: ListError): (code: int)
    ensures code == (if e.UnknownAttribute? then 400 else 500)
  {
    Handled(RaisedAsIntended(e))
  }

  /** `List_Case_Product_Details`: the matching products, or `NotFoundError` when none match. */
  function ListCaseProductDetails(ps: seq<Doc>, filters: map<string, Value>): Result<seq<Doc>, ListError>
  {
    var r := MatchingProducts(ps, filters);
    if |r| == 0 then Failure(NoMatch) else Success(r)
  }

  /** The listing fails exactly when no product matches, and then answers 500. */
  lemma ListingOutcome(ps: seq<Doc>, filters: map<string, Value>)
    ensures ListCaseProductDetails(ps, filters).Failure? <==> forall i :: 0 <= i < |ps| ==> !Matches(ps[i], filters)
    ensures ListCaseProductDetails(ps, filters).Failure? ==> HttpStatus(ListCaseProductDetails(ps, filters).error) == 500
  {
    var r := MatchingProducts(ps, filters);
    if |r| > 0 {
      assert Matches(r[0], filters) && r[0] in ps;
    }
  }

  /** A value as a dictionary key: a float equal to an integer hashes and compares as that integer. */
  function DictKey(v: Value): Value
  {
    if v.Num? && v.r.Floor as real == v.r then Int(v.r.Floor) else v
  }

  /** The number of products that hold `attribute` with a value keyed `key`. */
  function Occurrences(ps: seq<Doc>, attribute: string, key: Value): nat
  {
    if |ps| == 0 then 0
    else
      var p := ps[|ps| - 1];
      Occurrences(ps[..|ps| - 1], attribute, key) + (if attribute in p && DictKey(p[attribute]) == key then 1 else 0)
  }

  /** The histogram the counting loop builds. */
  function AttributeCounts(ps: seq<Doc>, attribute: string): map<Value, nat>
  {
    if |ps| == 0 then map[]
    else
      var m := AttributeCounts(ps[..|ps| - 1], attribute);
      var p := ps[|ps| - 1];
      if attribute in p then
        var k := DictKey(p[attribute]);
        m[k := (if k in m then m[k] else 0) + 1]
      else m
  }

  /** The counting loop of `List_Case_Product_Count`. */
  method CountAttribute(ps: seq<Doc>, attribute: string) returns (counts: map<Value, nat>)
    ensures counts == AttributeCounts(ps, attribute)
  {
    counts := map[];
    var i := 0;
    while i < |ps|
      invariant 0 <= i <= |ps|
      invariant counts == AttributeCounts(ps[..i], attribute)
    {
      assert ps[..i + 1][..i] == ps[..i];
      var product := ps[i];
      if attribute in product {
        var attributeValue := DictKey(product[attribute]);
        counts := counts[attributeValue := (if attributeValue in counts then counts[attributeValue] else 0) + 1];
      }
      i := i + 1;
    }
    assert ps[..i] == ps;
  }

  /**
   * The histogram is exact: its keys are the values the products hold for
   * the attribute, and each count is the number of products holding that
   * value.
   */
  lemma {:induction false} CountsAreOccurrences(ps: seq<Doc>, attribute: string)
    ensures forall key :: key in AttributeCounts(ps, attribute) <==> Occurrences(ps, attribute, key) > 0
    ensures forall key :: key in AttributeCounts(ps, attribute) ==> AttributeCounts(ps, attribute)[key] == Occurrences(ps, attribute, key)
    decreases |ps|
  {
    if |ps| > 0 {
      CountsAreOccurrences(ps[..|ps| - 1], attribute);
    }
  }

  /** The number of products that hold `attribute` at all. */
  function Holders(ps: seq<Doc>, attribute: string): (n: nat)
    ensures n <= |ps|
  {
    if |ps| == 0 then 0
    else Holders(ps[..|ps| - 1], attribute) + (if attribute in ps[|ps| - 1] then 1 else 0)
  }

  /** The sum of a histogram's counts. */
  ghost function Total(m: map<Value, nat>): nat
    decreases m.Keys
  {
    if m == map[] then 0
    else
      var k :| k in m;
      m[k] + Total(m - {k})
  }

  /** The sum does not depend on which key is taken first. */
  lemma {:induction false} TotalRemove(m: map<Value, nat>, k: Value)
    requires k in m
    ensures Total(m) == m[k] + Total(m - {k})
    decreases m.Keys
  {
    var j :| j in m && Total(m) == m[j] + Total(m - {j});
    if j != k {
      TotalRemove(m - {j}, k);
      TotalRemove(m - {k}, j);
      assert m - {j} - {k} == m - {k} - {j};
    }
  }

  /** Setting one count changes the sum by the difference. */
  lemma TotalUpdate(m: map<Value, nat>, k: Value, v: nat)
    ensures Total(m[k := v]) + (if k in m then m[k] else 0) == Total(m) + v
  {
    TotalRemove(m[k := v], k);
    if k in m {
      TotalRemove(m, k);
      assert m[k := v] - {k} == m - {k};
    } else {
      assert m[k := v] - {k} == m;
    }
  }

  /** The histogram's counts add up to the number of products that hold the attribute. */
  lemma {:induction false} CountsSumToHolders(ps: seq<Doc>, attribute: string)
    ensures Total(AttributeCounts(ps, attribute)) == Holders(ps, attribute)
    decreases |ps|
  {
    if |ps| == 0 {
      assert AttributeCounts(ps, attribute) == map[];
    } else {
      var m := AttributeCounts(ps[..|ps| - 1], attribute);
      CountsSumToHolders(ps[..|ps| - 1], attribute);
      var p := ps[|ps| - 1];
      if attribute in p {
        var k := DictKey(p[attribute]);
        TotalUpdate(m, k, (if k in m then m[k] else 0) + 1);
      }
    }
  }

  /** `List_Case_Product_Count`: `NotFoundError` for no products, the attribute check, then the histogram. */
  function ListCaseProductCount(ps: seq<Doc>, attribute: string): Result<map<Value, nat>, ListError>
  {
    if |ps| == 0 then Failure(NoProducts)
    else if forall i :: 0 <= i < |ps| ==> attribute !in ps[i] then Failure(UnknownAttribute(attribute))
    else Success(AttributeCounts(ps, attribute))
  }

  /**
   * The count endpoint's failures: as written every one answers 500; as
   * intended an unknown attribute (products exist, none holds it) answers
   * 400 and no products answers 500.
   */
  lemma CountFailureStatus(ps: seq<Doc>, attribute: string)
    ensures var r := ListCaseProductCount(ps, attribute);
      r.Failure? ==>
        HttpStatusAsWritten(r.error) == 500
        && (HttpStatus(r.error) == 400 <==> |ps| > 0 && forall i :: 0 <= i < |ps| ==> attribute !in ps[i])
  {
  }

  lemma {:induction false} OccurrencesOfHeld(ps: seq<Doc>, attribute: string, i: int)
    requires 0 <= i < |ps| && attribute in ps[i]
    ensures Occurrences(ps, attribute, DictKey(ps[i][attribute])) > 0
    decreases |ps|
  {
    if i < |ps| - 1 {
      assert ps[..|ps| - 1][i] == ps[i];
      OccurrencesOfHeld(ps[..|ps| - 1], attribute, i);
    }
  }

  /**
   * The count endpoint answers with a histogram exactly when some product
   * holds the attribute, and then the histogram counts that product's value.
   */
  lemma CountOutcome(ps: seq<Doc>, attribute: string, i: int)
    requires 0 <= i < |ps| && attribute in ps[i]
    ensures ListCaseProductCount(ps, attribute).Success?
    ensures var counts := ListCaseProductCount(ps, attribute).value;
      DictKey(ps[i][attribute]) in counts && counts[DictKey(ps[i][attribute])] >= 1
  {
    OccurrencesOfHeld(ps, attribute, i);
    CountsAreOccurrences(ps, attribute);
  }
}
