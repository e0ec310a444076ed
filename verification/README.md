# markdown-scanner core in Dafny

This project models two parts of the markdown-scanner tools for API documentation.

**The documentation scanner** (`ApiDocumentationTester/DocFile.cs`). A markdown engine turns a
documentation file into a list of blocks. The scanner works in three steps:

- It keeps the code blocks and raw-HTML blocks, in order, in its working list.
- It walks that list with a cursor. Each HTML block is an annotation: an HTML comment that holds
  a JSON object. The annotation is paired with the block after it.
- The annotation's `blockType` decides the pair's effect:
  - `resource` adds a resource schema keyed by its `@odata.type`;
  - `request` appends a method definition named `"<document> #<n>"`;
  - `response` sets the response text and type of the last method definition, in place.

A pair that fails is skipped and changes nothing. It may fail because a block has the wrong
kind, the annotation is too short, the JSON is malformed, the resource type is missing or
already defined, or no request comes before a response. An HTML block in the last position of
the working list has no partner. Reading that partner throws out of the scan, and the effects
of the earlier pairs stay.

**The expectation validator** (`ApiDocs.Validation/ScenarioExtensionMethods.cs`). It takes a
test scenario and an HTTP response. For each expectation key, in enumeration order:

- it finds the actual value: the body, the first value of a header, or the value at a JSON path
  into the body;
- it checks that value against the expected value with the satisfaction rule;
- it appends at most one typed diagnostic to a list the caller owns.

Keys of an unsupported location (Invalid, StoredValue, Url) produce a warning. A JSON path that
cannot be evaluated produces a `JsonParserException` error.

Module layout:

- `wrappers.dfy`, module `Wrappers`: `Option` (a reference that may be null) and `Result`.
- `doc_scan.dfy`, module `DocScan`: the scanner on values. It holds the blocks, the filter, the
  annotation metadata, the effect of one pair (`ParsePair`), the cursor walk (`ScanFrom`) and
  the lemmas about them.
- `doc_file.dfy`, module `DocFiles`: the scanner as the source has it.
  - Class `DocFile` holds fields for the working list, the resource dictionary and the list of
    `MethodDefinition` objects.
  - Class `MethodDefinition`'s response fields are updated in place.
  - Every method of `DocFile` is proved against the `DocScan` functions through the ghost view
    `State()`.
- `scenario_validation.dfy`, module `ScenarioValidation`: the validator.
  - The satisfaction rule and the diagnostics of a scenario are written as functions.
  - The caller's list is a class, `DiagnosticList`.
  - `ExpectationSatisfied` and `ValidateExpectations` are methods proved against those functions.

Two behaviours of the code that are easy to misread:

- A second `resource` annotation for a type already defined does not replace the first:
  `Dictionary.Add` throws (DocFile.cs:106), the pair is skipped, and the first definition stays.
- An annotation in the last position of the working list ends the scan with an error: its
  partner is read outside the exception handler (DocFile.cs:75), so the scan stops with
  `completed == false` and keeps what it had built.

## Model

| member | source | states |
|---|---|---|
| DocScan.Filtered | ApiDocumentationTester/DocFile.cs:51-64 | the working list is no longer than the input and holds only code and HTML blocks |
| DocScan.FilteredAppend | ApiDocumentationTester/DocFile.cs:52-64 | filtering distributes over concatenation, so kept blocks keep their relative order |
| DocScan.FilteredMembership | ApiDocumentationTester/DocFile.cs:55-63 | a block is in the working list iff it is in the input and is a code or HTML block |
| DocScan.FilteredIdentity | ApiDocumentationTester/DocFile.cs:55-63 | a list of only code and HTML blocks passes the filter unchanged |
| DocScan.MetadataJson | ApiDocumentationTester/DocFile.cs:97 | the JSON text exists iff the annotation has at least 4 + 5 characters; it is the content minus the first 4 and last 5 characters |
| DocScan.MetadataJsonUnwraps | ApiDocumentationTester/DocFile.cs:97 | stripping a 4-character opener and a 5-character closer gives back the JSON text they wrapped |
| DocScan.DecimalString | ApiDocumentationTester/DocFile.cs:122 | a printed count is a non-empty string of decimal digits with no leading zero; it starts with '0' iff the count is zero |
| DocScan.DecimalRoundTrip | ApiDocumentationTester/DocFile.cs:122 | reading back a printed count gives the count |
| DocScan.RequestName | ApiDocumentationTester/DocFile.cs:122 | the name `"{1} #{0}"` formats: the document name, " #" and the printed position, with exactly that length; its shape is given by RequestNameForm and it is injective in the position by RequestNameInjective |
| DocScan.RequestNameForm | ApiDocumentationTester/DocFile.cs:122 | a display name starts with the document name and " #", and the rest is decimal digits whose value is the position |
| DocScan.RequestNameInjective | ApiDocumentationTester/DocFile.cs:120-124 | two request display names of one document are equal iff their positions are equal |
| DocScan.AppendKeepsWellFormed | ApiDocumentationTester/DocFile.cs:120-124 | appending a request named after its position keeps the document invariant |
| DocScan.WellFormedNamesDistinct | ApiDocumentationTester/DocFile.cs:120-124 | in a document that keeps the invariant, no two requests share a display name |
| DocScan.PairMetadata | ApiDocumentationTester/DocFile.cs:92-101 | the metadata is read iff the first block is HTML, the second is code, the annotation has at least nine characters and the JSON text parses; the result is the parsed metadata; too short is reported exactly when the kinds are right and the content is under nine characters |
| DocScan.MetadataEffect | ApiDocumentationTester/DocFile.cs:100-132 | a case that is not applied leaves the state as it was; the effect is Ignored iff blockType is none of resource, request, response (ResourcePair, RequestPair, ResponsePair give each branch exactly) |
| DocScan.StoredParameters | ApiDocumentationTester/DocFile.cs:111-118 | the stored names are null iff the annotation has no `parameters`, and otherwise are exactly the annotation's names |
| DocScan.ParsePair | ApiDocumentationTester/DocFile.cs:90-133 | a pair that is not applied leaves the state as it was; a pair that fails before its metadata is read is rejected with that reason; it is Ignored iff its metadata is read and its blockType is unknown (ParsePairEffect and the per-branch lemmas give the rest) |
| DocScan.ScanFrom | ApiDocumentationTester/DocFile.cs:66-86 | the walk fails only when the last block of the list is HTML; a list with no HTML block from the cursor on completes with the state unchanged (CompletedScanAppliesPairs and FailedScanAppliesPairs give the state it reaches) |
| DocScan.ScanBlocks | ApiDocumentationTester/DocFile.cs:51-86 | the whole scan only grows the document (resources and requests keep their definitions and places), keeps the document invariant, and can fail only when the input has an HTML block |
| DocScan.ParsePairEffect | ApiDocumentationTester/DocFile.cs:90-133 | a pair that is not applied changes nothing; a pair never removes a resource or a request; it adds at most one request; it changes no request but the last; it keeps the document invariant |
| DocScan.WrongKindsRejected | ApiDocumentationTester/DocFile.cs:92-95 | a first block that is not HTML, or a second block that is not code, makes the pair rejected with no change |
| DocScan.ShortAnnotationRejected | ApiDocumentationTester/DocFile.cs:97 | an annotation shorter than nine characters makes the pair rejected with no change |
| DocScan.ResourcePair | ApiDocumentationTester/DocFile.cs:104-107 | a resource pair is applied iff its type is given and not yet defined; it then adds exactly that key, holding the code text; otherwise the first definition stays; requests never change |
| DocScan.RequestPair | ApiDocumentationTester/DocFile.cs:108-125 | a request pair is applied iff its parameter names are readable; it then appends exactly the method with the code text, the name "<doc> #<count>", the annotation's names (null when absent), and null response and response type; resources and earlier requests stay |
| DocScan.ResponsePair | ApiDocumentationTester/DocFile.cs:126-132 | a response pair is applied iff a request exists; it then sets the response text and type of the last request only; otherwise nothing changes |
| DocScan.OtherBlockTypeIgnored | ApiDocumentationTester/DocFile.cs:104-133 | a missing or unknown blockType leaves the document unchanged |
| DocScan.ScanFromExtends | ApiDocumentationTester/DocFile.cs:66-86 | the walk only grows the document: resources and requests keep their definitions and places, and the document invariant is kept |
| DocScan.Annotations | ApiDocumentationTester/DocFile.cs:66-86 | the positions read as annotations are HTML blocks at least two apart; every HTML block is an annotation or directly follows one |
| DocScan.ScanFailsOnTrailingAnnotation | ApiDocumentationTester/DocFile.cs:66-86 | the walk fails iff the last block of the working list is read as an annotation |
| DocScan.CompletedScanAppliesPairs | ApiDocumentationTester/DocFile.cs:66-86 | a completed walk has a partner for every annotation, and its result is the pairs applied in document order |
| DocScan.FailedScanAppliesPairs | ApiDocumentationTester/DocFile.cs:66-86 | a failed walk keeps the effect of every pair before the trailing annotation, applied in order |
| DocScan.UserResourceExample | ApiDocumentationTester/DocFile.cs:51-107 | one `resource` annotation for `user` followed by its code block yields exactly the resource `user` with that schema, and no request |
| DocFiles.MethodDefinition.constructor | ApiDocumentationTester/DocFile.cs:120-124 | a new method holds its request text, display name and parameters, and no response |
| DocFiles.DocFile.LastRequestUnshared | ApiDocumentationTester/DocFile.cs:129-131 | the object `Last()` returns is at no earlier position, so updating it in place changes one request |
| DocFiles.DocFile.constructor | ApiDocumentationTester/DocFile.cs:27-32 | a new document has the relative path as display name, type Unknown, and no blocks, resources or requests |
| DocFiles.DocFile.ParseCodeBlock | ApiDocumentationTester/DocFile.cs:90-133 | the outcome and new state are exactly ParsePair's; the invariant is kept; only the last existing method may change in place; new methods are fresh |
| DocFiles.DocFile.ApplyMetadata | ApiDocumentationTester/DocFile.cs:100-132 | the outcome and new state are exactly MetadataEffect's; the invariant is kept; only the last existing method may change in place; new methods are fresh |
| DocFiles.DocFile.AddResource | ApiDocumentationTester/DocFile.cs:106 | the dictionary gains the new type with its schema; nothing else changes |
| DocFiles.DocFile.AddRequest | ApiDocumentationTester/DocFile.cs:120-124 | one fresh method named after the request count is appended; earlier methods and their values stay |
| DocFiles.DocFile.SetLastResponse | ApiDocumentationTester/DocFile.cs:128-131 | the last method's response and type are set in place; every other method's value stays |
| DocFiles.DocFile.Scan | ApiDocumentationTester/DocFile.cs:37-88 | the working list becomes the filtered blocks; the resources and requests end as the walk from the old state says; the result tells whether the walk completed |
| DocFiles.DocFile.ScanPairs | ApiDocumentationTester/DocFile.cs:66-86 | the cursor loop ends in the state, and with the completion flag, that the walk specifies |
| DocFiles.DocFile.CollectCodeBlocks | ApiDocumentationTester/DocFile.cs:51-64 | the working list is rebuilt as exactly the filtered blocks |
| DocFiles.DocFile.CodeBlocks | ApiDocumentationTester/DocFile.cs:135-138 | a fresh array with the working list's contents |
| DocFiles.DocFile.Resources | ApiDocumentationTester/DocFile.cs:140-143 | every resource returned is keyed by its own type |
| DocFiles.DocFile.Requests | ApiDocumentationTester/DocFile.cs:145-148 | a fresh array holding the same method objects in order |
| ScenarioValidation.FirstHeaderValue | ApiDocs.Validation/ScenarioExtensionMethods.cs:43 | the value is present iff the header exists with at least one value, and it is the first one |
| ScenarioValidation.AnyTokenEquals | ApiDocs.Validation/ScenarioExtensionMethods.cs:94 | true iff some candidate is token-equal to the actual value |
| ScenarioValidation.Satisfied | ApiDocs.Validation/ScenarioExtensionMethods.cs:80-111 | a null expected value is always met; a non-null expectation is met only by a non-null actual value; a candidate list is met iff some candidate is token-equal to the actual value, tried as the source's `Any` does |
| ScenarioValidation.SatisfactionDiagnostics | ApiDocs.Validation/ScenarioExtensionMethods.cs:80-114 | nothing is reported iff the expectation is met; otherwise exactly one ExpectationConditionFailed error naming the key |
| ScenarioValidation.NullExpectedSatisfied | ApiDocs.Validation/ScenarioExtensionMethods.cs:86-89 | a null expected value is met by any actual value and reports nothing |
| ScenarioValidation.NullActualFails | ApiDocs.Validation/ScenarioExtensionMethods.cs:80-84 | a null actual value fails every non-null expectation with exactly one ExpectationConditionFailed error |
| ScenarioValidation.AnyOfMeansSomeCandidate | ApiDocs.Validation/ScenarioExtensionMethods.cs:92-98 | a list of expected tokens is met iff some candidate is token-equal to the actual value |
| ScenarioValidation.AnyOfOrderIrrelevant | ApiDocs.Validation/ScenarioExtensionMethods.cs:92-98 | reordering the candidate list does not change the verdict |
| ScenarioValidation.KeyDiagnostics | ApiDocs.Validation/ScenarioExtensionMethods.cs:33-62 | one expectation reports at most one diagnostic |
| ScenarioValidation.ValidationDiagnostics | ApiDocs.Validation/ScenarioExtensionMethods.cs:31-64 | a scenario reports no more diagnostics than it has expectations |
| ScenarioValidation.ExpectationsOf | ApiDocs.Validation/ScenarioExtensionMethods.cs:27-28 | a null expectation map has no expectations; otherwise they are the map's entries in enumeration order |
| ScenarioValidation.UnsupportedLocationWarns | ApiDocs.Validation/ScenarioExtensionMethods.cs:58-62 | an Invalid, StoredValue or Url key yields exactly one InvalidExpectationKey warning |
| ScenarioValidation.JsonPathFailureReported | ApiDocs.Validation/ScenarioExtensionMethods.cs:46-56 | a JSON path that fails yields exactly one JsonParserException error carrying the failure message |
| ScenarioValidation.ResolvedKeyChecksActualValue | ApiDocs.Validation/ScenarioExtensionMethods.cs:38-44 | a Body or HttpHeader key reports nothing iff the body, or the header's first value, meets the expectation; otherwise one condition failure |
| ScenarioValidation.NullExpectedReportsNothing | ApiDocs.Validation/ScenarioExtensionMethods.cs:38-56 | an expectation with no expected value at a resolvable location reports nothing |
| ScenarioValidation.NoDiagnosticsIffEachKeyClean | ApiDocs.Validation/ScenarioExtensionMethods.cs:31-64 | a scenario reports nothing iff no single expectation reports anything |
| ScenarioValidation.SeverityFollowsCode | ApiDocs.Validation/ScenarioExtensionMethods.cs:31-64 | a diagnostic is a warning iff its code is InvalidExpectationKey; all others are errors |
| ScenarioValidation.ConditionFailuresNameCheckedKeys | ApiDocs.Validation/ScenarioExtensionMethods.cs:31-64 | every condition failure names a key of the scenario whose location is Body, HttpHeader or Json |
| ScenarioValidation.MatchingBodyExample | ApiDocs.Validation/ScenarioExtensionMethods.cs:38-40 | a Body key that expects the body it receives reports nothing |
| ScenarioValidation.HeaderMismatchExample | ApiDocs.Validation/ScenarioExtensionMethods.cs:42-44 | ETag "abc" against expected "xyz" yields exactly one ExpectationConditionFailed error |
| ScenarioValidation.DiagnosticList.Add | ApiDocs.Validation/ScenarioExtensionMethods.cs:54 | the diagnostic is appended after the existing ones |
| ScenarioValidation.ExpectationSatisfied | ApiDocs.Validation/ScenarioExtensionMethods.cs:75-115 | returns true iff the satisfaction rule holds; appends one condition failure when it does not, and nothing otherwise |
| ScenarioValidation.ValidateExpectations | ApiDocs.Validation/ScenarioExtensionMethods.cs:21-65 | a missing scenario, response or list is reported, in that order, with nothing appended; otherwise exactly the scenario's diagnostics are appended, in expectation order |
| ScenarioValidation.CheckExpectations | ApiDocs.Validation/ScenarioExtensionMethods.cs:31-64 | the loop appends the diagnostics of every expectation, in order |
| ScenarioValidation.CheckExpectation | ApiDocs.Validation/ScenarioExtensionMethods.cs:33-62 | one turn of the loop appends exactly that expectation's diagnostics |

## Left out

- Reading the file, the markdown engine and `HtmlContent` (DocFile.cs:39-48) are not modelled. The scan takes the engine's block list as a parameter.
- `FullPath` and `Path.Combine` (DocFile.cs:29) are not modelled. They locate the file on disk, and `relativePath.Substring(1)` also makes the constructor throw on an empty relative path. DocFiles.DocFile.constructor accepts an empty path.
- The JSON parsing of an annotation is a parameter, `parse`. It covers malformed JSON, a non-container top-level value and failed `(string)` casts of `blockType` and `@odata.type`. A `parameters` value that cannot be read as strings is its own case, because that cast runs only for `request` annotations.
- The console warning (DocFile.cs:83) is not modelled. Every exception type caught there becomes the pair outcome `Rejected` with a reason.
- The exception that ends a scan on a trailing annotation is the result `completed == false`.
- The `Type` setter of a document is not modelled: no code in the scanner changes the document type.
- `MethodDefinition` objects may be aliased outside the document through the `Requests` array. The model follows them only through the document's own list.
- Key classification (`LocationForKey`), JSON path evaluation and `JsonPath.TokenEquals` are not part of this model. They are parameters (`Collaborators`) with no properties assumed, except that tokenEquals is assumed not to throw. In the source, an exception from `TokenEquals` on a Json key is caught as a `JsonParserException` (lines 47-55); on a Body or header key it escapes `ValidateExpectations`.
- The expectation dictionary is a sequence of entries in its enumeration order.
- ScenarioValidation.HttpResponse: the header collection is modelled as a map from name to its ordered values, and an absent header reads as null. The actual header collection type is not part of this model.
- ScenarioValidation.Expected: the runtime type tests (`as IList<JToken>`, `as JToken`) are modelled as the variants AnyOf, Token and Plain, chosen by whoever builds the expectation. Every JSON container (array or object) passes `as IList<JToken>` and arrives as AnyOf; an object's candidates are its properties. Token is a JSON token that is not a container.
- ScenarioValidation.Diagnostic: the formatted message text is not modelled. A diagnostic keeps its severity, its code and its subject: the key, or the exception message for a JSON path failure.
- ScenarioValidation.ExpectationSatisfied: the null checks of `key` and `detectedErrors` (lines 77-78) are not modelled. Both are non-null by type, and the only caller passes dictionary keys and a list it has already checked.
- DocScan.MetadataJson: lengths and positions count Unicode scalar values, while `Length` and `Substring` count UTF-16 code units. The nine-character threshold and the 4/5 strip therefore differ when a character outside the Basic Multilingual Plane falls within the first four or the last five characters of an annotation.
