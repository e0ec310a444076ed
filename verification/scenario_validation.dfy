/**
 * The expectation validator of ApiDocs.Validation/ScenarioExtensionMethods.cs: for each
 * expectation of a scenario it finds the actual value in an HTTP response (the body, a header,
 * or a JSON path into the body), checks it against the expected value, and appends at most one
 * typed diagnostic to a caller-owned list.
 *
 * The key classifier, the JSON path evaluator and JSON token equality belong to other parts of
 * the library; they are parameters here (Collaborators). Values of any kind (strings, JSON
 * tokens) have the type parameter V; `None` is the null reference.
 */
module ScenarioValidation {
  import opened Wrappers

  // ---------------------------------------------------------------------------------------------
  // Data

  /** Where the value named by an expectation key is found. */
  datatype PlaceholderLocation = Invalid | Url | Body | HttpHeader | Json | StoredValue

  datatype Severity = Error | Warning

  datatype ValidationErrorCode = ExpectationConditionFailed | JsonParserException | InvalidExpectationKey

  /**
   * One diagnostic. Its subject is the expectation key, except for a JSON path failure, whose
   * subject is the failure message.
   */
  datatype Diagnostic = Diagnostic(severity: Severity, code: ValidationErrorCode, subject: string)

  /**
   * An expected value: none (no constraint), a JSON token that is not a container, a list of
   * JSON tokens any of which may match, or another value compared by plain equality. Every JSON
   * container (array or object) is a list of tokens and arrives as AnyOf; an object's candidates
   * are its properties.
   */
  datatype Expected<V> = NoValue | Token(token: V) | AnyOf(candidates: seq<V>) | Plain(value: V)

  /** One entry of a scenario's expectation dictionary. */
  datatype Expectation<V> = Expectation(key: string, expected: Expected<V>)

  /** A scenario; its expectation dictionary may be null. Entries are in enumeration order. */
  datatype ScenarioDefinition<V> = ScenarioDefinition(expectations: Option<seq<Expectation<V>>>)

  /** The observed response: a body that may be null and the values of each header by name. */
  datatype HttpResponse<V> = HttpResponse(body: Option<V>, headers: map<string, seq<V>>)

  /**
   * The capabilities the validator uses without defining them: classifying a key into its
   * location and sub-key (header name or JSON path), evaluating a JSON path in a body (failing
   * with a message), and comparing a JSON token with a value.
   */
  datatype Collaborators<!V> = Collaborators(
    locationForKey: string -> (PlaceholderLocation, string),
    valueFromJsonPath: (Option<V>, string) -> Result<Option<V>, string>,
    tokenEquals: (V, V) -> bool)

  /** What the argument checks at the start of validation decide. */
  datatype ArgumentCheck = Checked | ArgumentNull(paramName: string)

  // ---------------------------------------------------------------------------------------------
  // The satisfaction rule

  /** The first value of the named header, or null when the header is absent or has no value. */
  function FirstHeaderValue<V>(headers: map<string, seq<V>>, name: string): (v: Option<V>)
    ensures v.Some? <==> name in headers && |headers[name]| > 0
    ensures v.Some? ==> v.value == headers[name][0]
  {
    if name in headers && |headers[name]| > 0 then Some(headers[name][0]) else None
  }

  /** Whether some candidate is token-equal to `actual`, trying them from the first. */
  predicate AnyTokenEquals<V>(candidates: seq<V>, actual: V, tokenEquals: (V, V) -> bool)
    ensures AnyTokenEquals(candidates, actual, tokenEquals)
        <==> exists k :: 0 <= k < |candidates| && tokenEquals(candidates[k], actual)
  {
    if candidates == [] then false
    else tokenEquals(candidates[0], actual) || AnyTokenEquals(candidates[1..], actual, tokenEquals)
  }

  /**
   * When an actual value meets an expectation: always when nothing is expected; otherwise only
   * a non-null actual value can, by token equality with the token or with some candidate of the
   * list, or by plain equality with any other value.
   */
  predicate Satisfied<V(==)>(actual: Option<V>, expected: Expected<V>, tokenEquals: (V, V) -> bool)
    ensures expected.NoValue? ==> Satisfied(actual, expected, tokenEquals)
    ensures Satisfied(actual, expected, tokenEquals) && !expected.NoValue? ==> actual.Some?
    ensures expected.AnyOf? && actual.Some? ==>
      (Satisfied(actual, expected, tokenEquals) <==> AnyTokenEquals(expected.candidates, actual.value, tokenEquals))
  {
    match expected
    case NoValue => true
    case Token(t) => actual.Some? && tokenEquals(t, actual.value)
    case AnyOf(candidates) => actual.Some? && exists c :: c in candidates && tokenEquals(c, actual.value)
    case Plain(v) => actual == Some(v)
  }

  /** The error reported for an unmet expectation. */
  function ConditionFailed(key: string): Diagnostic {
    Diagnostic(Error, ExpectationConditionFailed, key)
  }

  /** What checking `actual` against `expected` reports: nothing, or one condition failure. */
  function SatisfactionDiagnostics<V(==)>(key: string, actual: Option<V>, expected: Expected<V>, tokenEquals: (V, V) -> bool): (ds: seq<Diagnostic>)
    ensures ds == [] <==> Satisfied(actual, expected, tokenEquals)
    ensures |ds| <= 1
    ensures forall k :: 0 <= k < |ds| ==> ds[k] == Diagnostic(Error, ExpectationConditionFailed, key)
  {
    if Satisfied(actual, expected, tokenEquals) then [] else [ConditionFailed(key)]
  }

  /** A null expected value is met by every actual value, null included. */
  lemma NullExpectedSatisfied<V>(key: string, actual: Option<V>, tokenEquals: (V, V) -> bool)
    ensures Satisfied(actual, NoValue, tokenEquals)
    ensures SatisfactionDiagnostics(key, actual, NoValue, tokenEquals) == []
  {
  }

  /** A null actual value fails every expectation that expects something, with exactly one error. */
  lemma NullActualFails<V>(key: string, expected: Expected<V>, tokenEquals: (V, V) -> bool)
    requires !expected.NoValue?
    ensures !Satisfied(None, expected, tokenEquals)
    ensures SatisfactionDiagnostics(key, None, expected, tokenEquals) == [Diagnostic(Error, ExpectationConditionFailed, key)]
  {
  }

  /** A list of candidates is met exactly when some candidate is token-equal to the actual value. */
  lemma AnyOfMeansSomeCandidate<V>(actual: V, candidates: seq<V>, tokenEquals: (V, V) -> bool)
    ensures Satisfied(Some(actual), AnyOf(candidates), tokenEquals) <==> AnyTokenEquals(candidates, actual, tokenEquals)
  {
    if AnyTokenEquals(candidates, actual, tokenEquals) {
      var k :| 0 <= k < |candidates| && tokenEquals(candidates[k], actual);
      assert candidates[k] in candidates;
    }
  }

  /** Reordering the candidate list never changes whether the expectation is met. */
  lemma AnyOfOrderIrrelevant<V>(actual: Option<V>, candidates: seq<V>, reordered: seq<V>, tokenEquals: (V, V) -> bool)
    requires multiset(candidates) == multiset(reordered)
    ensures Satisfied(actual, AnyOf(candidates), tokenEquals) == Satisfied(actual, AnyOf(reordered), tokenEquals)
  {
    forall c ensures c in candidates <==> c in reordered {
      assert c in candidates <==> c in multiset(candidates);
      assert c in reordered <==> c in multiset(reordered);
    }
  }

  // ---------------------------------------------------------------------------------------------
  // Diagnostics of a whole scenario

  /**
   * What one expectation reports: a warning for a key of an unsupported location, an error with
   * the failure message when its JSON path cannot be evaluated, and otherwise the outcome of the
   * satisfaction rule on the body, the header's first value or the value at the JSON path.
   */
  function KeyDiagnostics<V(==)>(e: Expectation<V>, response: HttpResponse<V>, c: Collaborators<V>): (ds: seq<Diagnostic>)
    ensures |ds| <= 1
  {
    var (location, keyIndex) := c.locationForKey(e.key);
    match location
    case Body => SatisfactionDiagnostics(e.key, response.body, e.expected, c.tokenEquals)
    case HttpHeader => SatisfactionDiagnostics(e.key, FirstHeaderValue(response.headers, keyIndex), e.expected, c.tokenEquals)
    case Json =>
      (match c.valueFromJsonPath(response.body, keyIndex)
       case Failure(message) => [Diagnostic(Error, JsonParserException, message)]
       case Success(value) => SatisfactionDiagnostics(e.key, value, e.expected, c.tokenEquals))
    case Invalid => [Diagnostic(Warning, InvalidExpectationKey, e.key)]
    case StoredValue => [Diagnostic(Warning, InvalidExpectationKey, e.key)]
    case Url => [Diagnostic(Warning, InvalidExpectationKey, e.key)]
  }

  /** What the expectations report, in order: each one's diagnostics after the previous ones'. */
  function ValidationDiagnostics<V(==)>(es: seq<Expectation<V>>, response: HttpResponse<V>, c: Collaborators<V>): (ds: seq<Diagnostic>)
    ensures |ds| <= |es|
  {
    if es == [] then []
    else ValidationDiagnostics(es[..|es| - 1], response, c) + KeyDiagnostics(es[|es| - 1], response, c)
  }

  /** The expectations of a scenario; a null dictionary has none. */
  function ExpectationsOf<V>(scenario: ScenarioDefinition<V>): (es: seq<Expectation<V>>)
    ensures scenario.expectations.None? ==> es == []
    ensures scenario.expectations.Some? ==> es == scenario.expectations.value
  {
    match scenario.expectations
    case None => []
    case Some(es) => es
  }

  /** A key of location Invalid, StoredValue or Url yields exactly one warning and is never checked. */
  lemma UnsupportedLocationWarns<V>(e: Expectation<V>, response: HttpResponse<V>, c: Collaborators<V>)
    requires c.locationForKey(e.key).0 in {Invalid, StoredValue, Url}
    ensures KeyDiagnostics(e, response, c) == [Diagnostic(Warning, InvalidExpectationKey, e.key)]
  {
  }

  /**
   * A JSON key whose path cannot be evaluated yields exactly one error carrying the failure
   * message, and no condition failure.
   */
  lemma JsonPathFailureReported<V>(e: Expectation<V>, response: HttpResponse<V>, c: Collaborators<V>, message: string)
    requires c.locationForKey(e.key).0 == Json
    requires c.valueFromJsonPath(response.body, c.locationForKey(e.key).1) == Failure(message)
    ensures KeyDiagnostics(e, response, c) == [Diagnostic(Error, JsonParserException, message)]
  {
  }

  /**
   * A Body key is checked against the raw body, an HttpHeader key against the first value of the
   * named header (null when there is none): it reports nothing when that value meets the
   * expectation and one condition failure otherwise.
   */
  lemma ResolvedKeyChecksActualValue<V>(e: Expectation<V>, response: HttpResponse<V>, c: Collaborators<V>)
    requires c.locationForKey(e.key).0 in {Body, HttpHeader}
    ensures var (location, keyIndex) := c.locationForKey(e.key);
      var actual := if location == Body then response.body else FirstHeaderValue(response.headers, keyIndex);
      && (KeyDiagnostics(e, response, c) == [] <==> Satisfied(actual, e.expected, c.tokenEquals))
      && (KeyDiagnostics(e, response, c) != [] ==> KeyDiagnostics(e, response, c) == [ConditionFailed(e.key)])
  {
  }

  /** An expectation with no expected value reports nothing unless its key is unsupported or its path fails. */
  lemma NullExpectedReportsNothing<V>(e: Expectation<V>, response: HttpResponse<V>, c: Collaborators<V>)
    requires e.expected.NoValue?
    requires c.locationForKey(e.key).0 in {Body, HttpHeader, Json}
    requires c.locationForKey(e.key).0 == Json ==> c.valueFromJsonPath(response.body, c.locationForKey(e.key).1).Success?
    ensures KeyDiagnostics(e, response, c) == []
  {
  }

  /** A validation reports nothing exactly when no expectation reports anything. */
  lemma {:induction false} NoDiagnosticsIffEachKeyClean<V>(es: seq<Expectation<V>>, response: HttpResponse<V>, c: Collaborators<V>)
    ensures ValidationDiagnostics(es, response, c) == [] <==> forall k :: 0 <= k < |es| ==> KeyDiagnostics(es[k], response, c) == []
  {
    if es != [] {
      var prefix := es[..|es| - 1];
      var lastClean := KeyDiagnostics(es[|es| - 1], response, c) == [];
      NoDiagnosticsIffEachKeyClean(prefix, response, c);
      assert ValidationDiagnostics(es, response, c) == [] <==> ValidationDiagnostics(prefix, response, c) == [] && lastClean;
      assert (forall k :: 0 <= k < |es| ==> KeyDiagnostics(es[k], response, c) == [])
         <==> (forall k :: 0 <= k < |prefix| ==> KeyDiagnostics(prefix[k], response, c) == []) && lastClean;
    }
  }

  /** Every diagnostic is an error, except the invalid-key ones, which are warnings. */
  lemma {:induction false} SeverityFollowsCode<V>(es: seq<Expectation<V>>, response: HttpResponse<V>, c: Collaborators<V>)
    ensures forall d :: d in ValidationDiagnostics(es, response, c) ==> (d.severity == Warning <==> d.code == InvalidExpectationKey)
  {
    if es != [] {
      SeverityFollowsCode(es[..|es| - 1], response, c);
    }
  }

  /**
   * A condition failure only ever names a key whose location is Body, HttpHeader or Json: keys
   * of unsupported locations never reach the satisfaction rule.
   */
  lemma {:induction false} ConditionFailuresNameCheckedKeys<V>(es: seq<Expectation<V>>, response: HttpResponse<V>, c: Collaborators<V>)
    ensures forall d :: d in ValidationDiagnostics(es, response, c) && d.code == ExpectationConditionFailed ==>
      exists k :: 0 <= k < |es| && es[k].key == d.subject && c.locationForKey(es[k].key).0 in {Body, HttpHeader, Json}
  {
    if es != [] {
      var prefix := es[..|es| - 1];
      ConditionFailuresNameCheckedKeys(prefix, response, c);
      forall d | d in ValidationDiagnostics(es, response, c) && d.code == ExpectationConditionFailed
        ensures exists k :: 0 <= k < |es| && es[k].key == d.subject && c.locationForKey(es[k].key).0 in {Body, HttpHeader, Json}
      {
        if d in ValidationDiagnostics(prefix, response, c) {
          var k :| 0 <= k < |prefix| && prefix[k].key == d.subject && c.locationForKey(prefix[k].key).0 in {Body, HttpHeader, Json};
          assert es[k] == prefix[k];
        } else {
          var last := |es| - 1;
          assert d in KeyDiagnostics(es[last], response, c);
          assert es[last].key == d.subject && c.locationForKey(es[last].key).0 in {Body, HttpHeader, Json};
        }
      }
    }
  }

  /** A Body key expecting the body it receives reports nothing. */
  lemma MatchingBodyExample<V>(key: string, body: V, c: Collaborators<V>)
    requires c.locationForKey(key).0 == Body
    ensures ValidationDiagnostics([Expectation(key, Plain(body))], HttpResponse(Some(body), map[]), c) == []
  {
  }

  /** A header key expecting "xyz" where the header's first value is "abc" reports one condition failure. */
  lemma HeaderMismatchExample(key: string, c: Collaborators<string>)
    requires c.locationForKey(key) == (HttpHeader, "ETag")
    ensures ValidationDiagnostics([Expectation(key, Plain("xyz"))], HttpResponse(None, map["ETag" := ["abc"]]), c)
         == [Diagnostic(Error, ExpectationConditionFailed, key)]
  {
    var e := Expectation(key, Plain("xyz"));
    assert [e][..0] == [];
  }

  // ---------------------------------------------------------------------------------------------
  // The diagnostic list and the two operations

  /** The caller's list of diagnostics; validation only ever appends to it. */
  class DiagnosticList {
    var items: seq<Diagnostic>

    constructor ()
      ensures items == []
    {
      items := [];
    }

    method Add(d: Diagnostic)
      modifies this
      ensures items == old(items) + [d]
    {
      items := items + [d];
    }
  }

  /**
   * Checks one expectation and appends one condition failure when it is not met: the result is
   * true exactly when the satisfaction rule holds, which is exactly when nothing was appended.
   */
  method ExpectationSatisfied<V(==)>(key: string, actualValue: Option<V>, expectedValues: Expected<V>,
                                     detectedErrors: DiagnosticList, tokenEquals: (V, V) -> bool)
    returns (satisfied: bool)
    modifies detectedErrors
    ensures satisfied == Satisfied(actualValue, expectedValues, tokenEquals)
    ensures detectedErrors.items == old(detectedErrors.items) + SatisfactionDiagnostics(key, actualValue, expectedValues, tokenEquals)
  {
    if actualValue.None? && !expectedValues.NoValue? {
      detectedErrors.Add(ConditionFailed(key));
      return false;
    }
    if expectedValues.NoValue? {
      return true;
    }
    match expectedValues {
      case AnyOf(candidates) =>
        AnyOfMeansSomeCandidate(actualValue.value, candidates, tokenEquals);
        if AnyTokenEquals(candidates, actualValue.value, tokenEquals) {
          return true;
        }
      case Token(token) =>
        if tokenEquals(token, actualValue.value) {
          return true;
        }
      case Plain(value) =>
        if actualValue.value == value {
          return true;
        }
    }
    detectedErrors.Add(ConditionFailed(key));
    return false;
  }

  /**
   * Checks every expectation of `scenario` against `actualResponse`. A missing argument is an
   * argument error and appends nothing; otherwise the list receives, after what it held, exactly
   * the diagnostics ValidationDiagnostics gives, in the order of the expectations.
   */
  method ValidateExpectations<V(==)>(scenario: Option<ScenarioDefinition<V>>, actualResponse: Option<HttpResponse<V>>,
                                     detectedErrors: DiagnosticList?, c: Collaborators<V>)
    returns (check: ArgumentCheck)
    modifies detectedErrors
    ensures scenario.None? ==> check == ArgumentNull("scenario")
    ensures scenario.Some? && actualResponse.None? ==> check == ArgumentNull("actualResponse")
    ensures scenario.Some? && actualResponse.Some? && detectedErrors == null ==> check == ArgumentNull("detectedErrors")
    ensures check.Checked? <==> scenario.Some? && actualResponse.Some? && detectedErrors != null
    ensures detectedErrors != null ==>
      detectedErrors.items == old(detectedErrors.items)
        + (if check.Checked? then ValidationDiagnostics(ExpectationsOf(scenario.value), actualResponse.value, c) else [])
  {
    if scenario.None? {
      return ArgumentNull("scenario");
    }
    if actualResponse.None? {
      return ArgumentNull("actualResponse");
    }
    if detectedErrors == null {
      return ArgumentNull("detectedErrors");
    }
    check := Checked;
    var expectations := scenario.value.expectations;
    if expectations.None? || |expectations.value| == 0 {
      return;
    }
    CheckExpectations(expectations.value, actualResponse.value, detectedErrors, c);
  }

  /** The validation loop: the expectations are checked in order, each appending its diagnostics. */
  method CheckExpectations<V(==)>(es: seq<Expectation<V>>, response: HttpResponse<V>, detectedErrors: DiagnosticList, c: Collaborators<V>)
    modifies detectedErrors
    ensures detectedErrors.items == old(detectedErrors.items) + ValidationDiagnostics(es, response, c)
  {
    for i := 0 to |es|
      invariant detectedErrors.items == old(detectedErrors.items) + ValidationDiagnostics(es[..i], response, c)
    {
      assert es[..i + 1][..i] == es[..i];
      CheckExpectation(es[i], response, detectedErrors, c);
    }
    assert es[..|es|] == es;
  }

  /**
   * One turn of the validation loop: the key is classified, the actual value is read from where
   * the key says, and the expectation's diagnostics are appended to the list.
   */
  method CheckExpectation<V(==)>(e: Expectation<V>, response: HttpResponse<V>, detectedErrors: DiagnosticList, c: Collaborators<V>)
    modifies detectedErrors
    ensures detectedErrors.items == old(detectedErrors.items) + KeyDiagnostics(e, response, c)
  {
    var key := e.key;
    var (location, keyIndex) := c.locationForKey(key);
    var expectedValues := e.expected;
    match location {
      case Body =>
        var _ := ExpectationSatisfied(key, response.body, expectedValues, detectedErrors, c.tokenEquals);
      case HttpHeader =>
        var _ := ExpectationSatisfied(key, FirstHeaderValue(response.headers, keyIndex), expectedValues, detectedErrors, c.tokenEquals);
      case Json =>
        match c.valueFromJsonPath(response.body, keyIndex) {
          case Failure(message) =>
            detectedErrors.Add(Diagnostic(Error, JsonParserException, message));
          case Success(value) =>
            var _ := ExpectationSatisfied(key, value, expectedValues, detectedErrors, c.tokenEquals);
        }
      case Invalid =>
        detectedErrors.Add(Diagnostic(Warning, InvalidExpectationKey, key));
      case StoredValue =>
        detectedErrors.Add(Diagnostic(Warning, InvalidExpectationKey, key));
      case Url =>
        detectedErrors.Add(Diagnostic(Warning, InvalidExpectationKey, key));
    }
  }
}
