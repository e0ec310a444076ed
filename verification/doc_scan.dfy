/**
 * Value-level specification of the documentation scanner (ApiDocumentationTester/DocFile.cs):
 * the blocks a markdown engine hands over, the metadata an annotation carries, the effect of one
 * annotation/code pair on a document's resources and requests, and the cursor walk over the
 * filtered block list. The class DocFiles.DocFile is proved against these functions.
 */
module DocScan {
  import opened Wrappers

  // ---------------------------------------------------------------------------------------------
  // Blocks

  /** The kind of a markdown block; the scanner only distinguishes code blocks and raw HTML. */
  datatype BlockType = CodeBlock | Html | Other(tag: string)

  /** One block of a parsed markdown document. */
  datatype Block = Block(blockType: BlockType, content: string)

  /** The kinds the scanner keeps in its working list. */
  predicate IsKept(b: Block) {
    b.blockType.CodeBlock? || b.blockType.Html?
  }

  /** The code and HTML blocks of `blocks`, in their original order. */
  function Filtered(blocks: seq<Block>): (r: seq<Block>)
    ensures |r| <= |blocks|
    ensures forall k :: 0 <= k < |r| ==> IsKept(r[k])
  {
    if blocks == [] then []
    else
      var last := blocks[|blocks| - 1];
      if IsKept(last) then Filtered(blocks[..|blocks| - 1]) + [last]
      else Filtered(blocks[..|blocks| - 1])
  }

  /** Filtering distributes over concatenation: the relative order of kept blocks never changes. */
  lemma {:induction false} FilteredAppend(a: seq<Block>, b: seq<Block>)
    ensures Filtered(a + b) == Filtered(a) + Filtered(b)
    decreases |b|
  {
    if b == [] {
      assert a + b == a;
    } else {
      var b' := b[..|b| - 1];
      assert (a + b)[..|a + b| - 1] == a + b';
      FilteredAppend(a, b');
    }
  }

  /** A block is in the working list exactly when it is in the input and is a code or HTML block. */
  lemma {:induction false} FilteredMembership(blocks: seq<Block>, b: Block)
    ensures b in Filtered(blocks) <==> b in blocks && IsKept(b)
  {
    if blocks != [] {
      var prefix := blocks[..|blocks| - 1];
      assert blocks == prefix + [blocks[|blocks| - 1]];
      FilteredMembership(prefix, b);
    }
  }

  /** A list that holds only code and HTML blocks is left as it is. */
  lemma {:induction false} FilteredIdentity(blocks: seq<Block>)
    requires forall k :: 0 <= k < |blocks| ==> IsKept(blocks[k])
    ensures Filtered(blocks) == blocks
  {
    if blocks != [] {
      var prefix := blocks[..|blocks| - 1];
      FilteredIdentity(prefix);
      assert prefix + [blocks[|blocks| - 1]] == blocks;
    }
  }

  // ---------------------------------------------------------------------------------------------
  // Annotation metadata

  /** The `parameters` field: absent, a list of names, or present but not readable as strings. */
  datatype ParameterList = NoParameters | ParameterNames(names: seq<string>) | UncastableParameters

  /**
   * What the JSON parser reads from an annotation: `blockType` and `@odata.type` (None when the
   * field is missing) and `parameters`. A parse function returning None stands for malformed JSON,
   * a top-level value that is not a JSON container, or a failed string cast of those two fields.
   */
  datatype Metadata = Metadata(blockType: Option<string>, odataType: Option<string>, parameters: ParameterList)

  /** Length of the comment opener removed from the front of an annotation. */
  const OpenerLength := 4
  /** Length of the comment closer removed from the end of an annotation. */
  const CloserLength := 5

  /**
   * The JSON text inside an annotation: its content without the first four and the last five
   * characters; None when the content is too short for that (the substring call would throw).
   */
  function MetadataJson(content: string): (json: Option<string>)
    ensures json.Some? <==> |content| >= OpenerLength + CloserLength
    ensures json.Some? ==> |json.value| + OpenerLength + CloserLength == |content|
    ensures json.Some? ==> forall k :: 0 <= k < |json.value| ==> json.value[k] == content[OpenerLength + k]
  {
    if |content| < OpenerLength + CloserLength then None
    else Some(content[OpenerLength .. |content| - CloserLength])
  }

  /** Wrapping a JSON text in a four-character opener and a five-character closer and stripping it gives the text back. */
  lemma MetadataJsonUnwraps(opener: string, json: string, closer: string)
    requires |opener| == OpenerLength && |closer| == CloserLength
    ensures MetadataJson(opener + json + closer) == Some(json)
  {
    var content := opener + json + closer;
    assert content[OpenerLength .. |content| - CloserLength] == json;
  }

  // ---------------------------------------------------------------------------------------------
  // Document state

  /** A resource schema example, keyed in the document by its type name. */
  datatype ResourceDefinition = ResourceDefinition(odataType: string, jsonFormat: string)

  /** The fields of one request/response example; `None` stands for a null reference. */
  datatype MethodValue = MethodValue(
    request: string,
    displayName: string,
    parameters: Option<seq<string>>,
    response: Option<string>,
    responseType: Option<string>)

  /** What a scan builds: the resources by type name and the requests in document order. */
  datatype DocState = DocState(resources: map<string, ResourceDefinition>, requests: seq<MethodValue>)

  /** The digit character for a value below ten. */
  function Digit(d: nat): (c: char)
    requires d < 10
    ensures '0' <= c <= '9'
  {
    ('0' as int + d) as char
  }

  /** The decimal representation of a count, as string formatting prints it. */
  function DecimalString(n: nat): (s: string)
    ensures |s| >= 1
    ensures s[0] == '0' <==> n == 0
    ensures |s| == 1 || s[0] != '0'
    ensures forall k :: 0 <= k < |s| ==> '0' <= s[k] <= '9'
  {
    if n < 10 then [Digit(n)] else DecimalString(n / 10) + [Digit(n % 10)]
  }

  /** The value of a string of decimal digits. */
  function DecimalValue(s: string): nat
    requires forall k :: 0 <= k < |s| ==> '0' <= s[k] <= '9'
  {
    if s == [] then 0
    else DecimalValue(s[..|s| - 1]) * 10 + (s[|s| - 1] as int - '0' as int)
  }

  /** Reading back a printed count gives the count. */
  lemma {:induction false} DecimalRoundTrip(n: nat)
    ensures DecimalValue(DecimalString(n)) == n
  {
    if n >= 10 {
      var s := DecimalString(n);
      assert s[..|s| - 1] == DecimalString(n / 10);
      DecimalRoundTrip(n / 10);
    }
  }

  /** The display name of the request at position `k` of a document named `docName`: "<docName> #<k>". */
  function RequestName(docName: string, k: nat): (name: string)
    ensures |name| == |docName| + 2 + |DecimalString(k)|
  {
    docName + " #" + DecimalString(k)
  }

  /**
   * The shape of a display name: the document name, then " #", then decimal digits whose value
   * is the position.
   */
  lemma RequestNameForm(docName: string, k: nat)
    ensures var name := RequestName(docName, k);
      && name[..|docName|] == docName
      && name[|docName|..|docName| + 2] == " #"
      && (forall j :: |docName| + 2 <= j < |name| ==> '0' <= name[j] <= '9')
      && DecimalValue(name[|docName| + 2..]) == k
  {
    var name := RequestName(docName, k);
    assert name[|docName| + 2..] == DecimalString(k);
    DecimalRoundTrip(k);
  }

  /** Two requests of one document get the same display name only when they have the same position. */
  lemma RequestNameInjective(docName: string, a: nat, b: nat)
    ensures RequestName(docName, a) == RequestName(docName, b) <==> a == b
  {
    if RequestName(docName, a) == RequestName(docName, b) {
      var n := |docName| + 2;
      assert RequestName(docName, a)[n..] == DecimalString(a);
      assert RequestName(docName, b)[n..] == DecimalString(b);
      DecimalRoundTrip(a);
      DecimalRoundTrip(b);
    }
  }

  /**
   * The invariant a document keeps: each resource is keyed by its own type name, and the request
   * at position k is named "<docName> #k".
   */
  predicate WellFormed(docName: string, s: DocState) {
    && (forall t :: t in s.resources ==> s.resources[t].odataType == t)
    && (forall k :: 0 <= k < |s.requests| ==> s.requests[k].displayName == RequestName(docName, k))
  }

  /** Appending a request named after its position keeps a document well formed. */
  lemma AppendKeepsWellFormed(docName: string, s: DocState, added: MethodValue)
    requires WellFormed(docName, s)
    requires added.displayName == RequestName(docName, |s.requests|)
    ensures WellFormed(docName, s.(requests := s.requests + [added]))
  {
  }

  /** In a well-formed document no two requests share a display name. */
  lemma WellFormedNamesDistinct(docName: string, s: DocState, i: nat, j: nat)
    requires WellFormed(docName, s)
    requires i < j < |s.requests|
    ensures s.requests[i].displayName != s.requests[j].displayName
  {
    RequestNameInjective(docName, i, j);
  }

  /** The request-side fields of a method, which nothing changes once it has been appended. */
  predicate SameRequest(a: MethodValue, b: MethodValue) {
    a.request == b.request && a.displayName == b.displayName && a.parameters == b.parameters
  }

  /**
   * `after` grows `before`: every resource keeps its definition, and every request keeps its
   * position and its request-side fields.
   */
  predicate Extends(before: DocState, after: DocState) {
    && (forall t :: t in before.resources ==> t in after.resources && after.resources[t] == before.resources[t])
    && |before.requests| <= |after.requests|
    && (forall k :: 0 <= k < |before.requests| ==> SameRequest(before.requests[k], after.requests[k]))
  }

  // ---------------------------------------------------------------------------------------------
  // One annotation/code pair

  /** Why a pair was skipped; each corresponds to an exception thrown before any change. */
  datatype RejectReason =
    | NotMetadata            // the first block is not raw HTML
    | NotCode                // the second block is not a code block
    | AnnotationTooShort     // fewer than nine characters: the substring call throws
    | MalformedMetadata      // the JSON parse or a field cast failed
    | MissingResourceType    // `resource` without `@odata.type`: a null dictionary key
    | DuplicateResourceType  // `resource` whose type is already defined: the dictionary add throws
    | UnreadableParameters   // `request` whose parameter names cannot be read as strings
    | NoPriorRequest         // `response` with no request before it: taking the last element throws

  /** How one pair ended: it changed the document, it had an unknown `blockType`, or it threw. */
  datatype PairOutcome = Applied | Ignored | Rejected(reason: RejectReason)

  datatype Step = Step(outcome: PairOutcome, state: DocState)

  /** The metadata of a pair, or why it is rejected before the `blockType` dispatch. */
  function PairMetadata(metadata: Block, code: Block, parse: string -> Option<Metadata>): (r: Result<Metadata, RejectReason>)
    ensures r.Success? <==> metadata.blockType.Html? && code.blockType.CodeBlock?
                            && MetadataJson(metadata.content).Some? && parse(MetadataJson(metadata.content).value).Some?
    ensures r.Success? ==> parse(MetadataJson(metadata.content).value) == Some(r.value)
    ensures r == Failure(AnnotationTooShort) <==>
      metadata.blockType.Html? && code.blockType.CodeBlock? && |metadata.content| < OpenerLength + CloserLength
  {
    if !metadata.blockType.Html? then Failure(NotMetadata)
    else if !code.blockType.CodeBlock? then Failure(NotCode)
    else match MetadataJson(metadata.content)
      case None => Failure(AnnotationTooShort)
      case Some(json) =>
        match parse(json)
        case None => Failure(MalformedMetadata)
        case Some(m) => Success(m)
  }

  /** The parameter names a request stores: null when the annotation has none. */
  function StoredParameters(p: ParameterList): (stored: Option<seq<string>>)
    requires !p.UncastableParameters?
    ensures stored.None? <==> p.NoParameters?
    ensures stored.Some? ==> p == ParameterNames(stored.value)
  {
    match p
    case NoParameters => None
    case ParameterNames(names) => Some(names)
  }

  /**
   * The effect of an annotation whose metadata has been read as `m`, followed by the block
   * `code`, on the state `s` of the document named `docName`: a resource definition is added, a
   * request is appended, or the last request receives its response. An unknown `blockType`
   * changes nothing, and so does a case that throws.
   */
  function MetadataEffect(docName: string, s: DocState, m: Metadata, code: Block): (r: Step)
    ensures !r.outcome.Applied? ==> r.state == s
    ensures r.outcome.Ignored? <==> m.blockType !in {Some("resource"), Some("request"), Some("response")}
  {
    if m.blockType == Some("resource") then
      match m.odataType
      case None => Step(Rejected(MissingResourceType), s)
      case Some(t) =>
        if t in s.resources then Step(Rejected(DuplicateResourceType), s)
        else Step(Applied, s.(resources := s.resources[t := ResourceDefinition(t, code.content)]))
    else if m.blockType == Some("request") then
      if m.parameters.UncastableParameters? then Step(Rejected(UnreadableParameters), s)
      else
        var added := MethodValue(code.content, RequestName(docName, |s.requests|), StoredParameters(m.parameters), None, None);
        Step(Applied, s.(requests := s.requests + [added]))
    else if m.blockType == Some("response") then
      if s.requests == [] then Step(Rejected(NoPriorRequest), s)
      else
        var n := |s.requests| - 1;
        var answered := s.requests[n].(response := Some(code.content), responseType := m.odataType);
        Step(Applied, s.(requests := s.requests[..n] + [answered]))
    else Step(Ignored, s)
  }

  /**
   * The effect of the annotation `metadata` followed by the block `code`: the metadata is read,
   * then applied. A pair that fails before its metadata is read leaves the state as it was.
   */
  function ParsePair(docName: string, s: DocState, metadata: Block, code: Block, parse: string -> Option<Metadata>): (r: Step)
    ensures !r.outcome.Applied? ==> r.state == s
    ensures r.outcome.Ignored? <==>
      && PairMetadata(metadata, code, parse).Success?
      && PairMetadata(metadata, code, parse).value.blockType !in {Some("resource"), Some("request"), Some("response")}
    ensures PairMetadata(metadata, code, parse).Failure? ==> r == Step(Rejected(PairMetadata(metadata, code, parse).error), s)
  {
    match PairMetadata(metadata, code, parse)
    case Failure(reason) => Step(Rejected(reason), s)
    case Success(m) => MetadataEffect(docName, s, m, code)
  }

  /**
   * Every pair either changes the state completely or not at all: a pair that is not applied
   * leaves it as it was. An applied pair grows the state, adds at most one request, may change
   * only the response fields of the last request before it, and keeps the state well formed.
   */
  lemma ParsePairEffect(docName: string, s: DocState, metadata: Block, code: Block, parse: string -> Option<Metadata>)
    ensures var r := ParsePair(docName, s, metadata, code, parse);
      && (!r.outcome.Applied? ==> r.state == s)
      && Extends(s, r.state)
      && |r.state.requests| <= |s.requests| + 1
      && (forall k :: 0 <= k < |s.requests| - 1 ==> r.state.requests[k] == s.requests[k])
      && (WellFormed(docName, s) ==> WellFormed(docName, r.state))
  {
    match PairMetadata(metadata, code, parse)
    case Failure(_) =>
    case Success(m) =>
      if m.blockType == Some("request") && !m.parameters.UncastableParameters? {
        var added := MethodValue(code.content, RequestName(docName, |s.requests|), StoredParameters(m.parameters), None, None);
        if WellFormed(docName, s) {
          AppendKeepsWellFormed(docName, s, added);
        }
      } else if m.blockType == Some("response") && s.requests != [] {
        var n := |s.requests| - 1;
        var after := ParsePair(docName, s, metadata, code, parse).state.requests;
        assert forall k :: 0 <= k < n ==> after[k] == s.requests[k];
      }
  }

  /** A pair whose first block is not HTML, or whose second block is not code, changes nothing. */
  lemma WrongKindsRejected(docName: string, s: DocState, metadata: Block, code: Block, parse: string -> Option<Metadata>)
    requires !metadata.blockType.Html? || !code.blockType.CodeBlock?
    ensures ParsePair(docName, s, metadata, code, parse).outcome.Rejected?
    ensures ParsePair(docName, s, metadata, code, parse).state == s
  {
  }

  /** An annotation shorter than nine characters is rejected and changes nothing. */
  lemma ShortAnnotationRejected(docName: string, s: DocState, metadata: Block, code: Block, parse: string -> Option<Metadata>)
    requires |metadata.content| < OpenerLength + CloserLength
    ensures ParsePair(docName, s, metadata, code, parse).outcome.Rejected?
    ensures ParsePair(docName, s, metadata, code, parse).state == s
  {
  }

  /**
   * A `resource` pair adds exactly one definition, keyed by its type and holding the code block's
   * text, when the type is given and not yet defined; otherwise it is rejected and the first
   * definition stays. It never touches the requests.
   */
  lemma ResourcePair(docName: string, s: DocState, metadata: Block, code: Block, parse: string -> Option<Metadata>, m: Metadata)
    requires PairMetadata(metadata, code, parse) == Success(m)
    requires m.blockType == Some("resource")
    ensures var r := ParsePair(docName, s, metadata, code, parse);
      && (r.outcome.Applied? <==> m.odataType.Some? && m.odataType.value !in s.resources)
      && r.state.requests == s.requests
      && (r.outcome.Applied? ==>
            && r.state.resources.Keys == s.resources.Keys + {m.odataType.value}
            && |r.state.resources| == |s.resources| + 1
            && r.state.resources[m.odataType.value] == ResourceDefinition(m.odataType.value, code.content))
      && (!r.outcome.Applied? ==> r.state.resources == s.resources)
  {
    var r := ParsePair(docName, s, metadata, code, parse);
    if r.outcome.Applied? {
      var t := m.odataType.value;
      assert t !in s.resources;
      assert r.state.resources == s.resources[t := ResourceDefinition(t, code.content)];
      assert |s.resources.Keys + {t}| == |s.resources.Keys| + 1;
    }
  }

  /**
   * A `request` pair appends exactly one method, unless its parameter names cannot be read: the
   * method holds the code block's text, is named after the document and the number of requests
   * before it, and stores the parameter names or null. Earlier requests and the resources stay.
   */
  lemma RequestPair(docName: string, s: DocState, metadata: Block, code: Block, parse: string -> Option<Metadata>, m: Metadata)
    requires PairMetadata(metadata, code, parse) == Success(m)
    requires m.blockType == Some("request")
    ensures var r := ParsePair(docName, s, metadata, code, parse);
      && (r.outcome.Applied? <==> !m.parameters.UncastableParameters?)
      && r.state.resources == s.resources
      && (r.outcome.Applied? ==>
            && |r.state.requests| == |s.requests| + 1
            && r.state.requests[..|s.requests|] == s.requests
            && r.state.requests[|s.requests|]
               == MethodValue(code.content, RequestName(docName, |s.requests|), StoredParameters(m.parameters), None, None)
            && (r.state.requests[|s.requests|].parameters.None? <==> m.parameters.NoParameters?))
  {
  }

  /**
   * A `response` pair with at least one request before it sets the response text and the
   * response type of the last request and of nothing else; with no request before it, it is
   * rejected and changes nothing.
   */
  lemma ResponsePair(docName: string, s: DocState, metadata: Block, code: Block, parse: string -> Option<Metadata>, m: Metadata)
    requires PairMetadata(metadata, code, parse) == Success(m)
    requires m.blockType == Some("response")
    ensures var r := ParsePair(docName, s, metadata, code, parse);
      && (r.outcome.Applied? <==> s.requests != [])
      && r.state.resources == s.resources
      && |r.state.requests| == |s.requests|
      && (r.outcome.Applied? ==>
            var n := |s.requests| - 1;
            && r.state.requests[..n] == s.requests[..n]
            && r.state.requests[n] == s.requests[n].(response := Some(code.content), responseType := m.odataType))
      && (!r.outcome.Applied? ==> r.state == s)
  {
  }

  /** A pair whose `blockType` is missing or is none of the three known values changes nothing. */
  lemma OtherBlockTypeIgnored(docName: string, s: DocState, metadata: Block, code: Block, parse: string -> Option<Metadata>, m: Metadata)
    requires PairMetadata(metadata, code, parse) == Success(m)
    requires m.blockType != Some("resource") && m.blockType != Some("request") && m.blockType != Some("response")
    ensures ParsePair(docName, s, metadata, code, parse) == Step(Ignored, s)
  {
  }

  // ---------------------------------------------------------------------------------------------
  // The cursor walk

  /** How a walk ended: `completed` is false when an HTML block was last and had no partner. */
  datatype ScanResult = ScanResult(state: DocState, completed: bool)

  /**
   * The walk from position `i` of the filtered list: a non-HTML block moves the cursor by one, an
   * HTML block is paired with the next block and moves it by two whatever the pair's outcome. An
   * HTML block in the last position has no partner: reading it throws out of the scan, and the
   * state reached so far is kept.
   */
  function ScanFrom(docName: string, s: DocState, blocks: seq<Block>, i: nat, parse: string -> Option<Metadata>): (r: ScanResult)
    requires i <= |blocks|
    ensures !r.completed ==> i < |blocks| && blocks[|blocks| - 1].blockType.Html?
    ensures (forall k :: i <= k < |blocks| ==> !blocks[k].blockType.Html?) ==> r == ScanResult(s, true)
    decreases |blocks| - i
  {
    if i == |blocks| then ScanResult(s, true)
    else if !blocks[i].blockType.Html? then ScanFrom(docName, s, blocks, i + 1, parse)
    else if i + 1 == |blocks| then ScanResult(s, false)
    else ScanFrom(docName, ParsePair(docName, s, blocks[i], blocks[i + 1], parse).state, blocks, i + 2, parse)
  }

  /** Extends is a preorder: it is transitive. */
  lemma ExtendsTransitive(a: DocState, b: DocState, c: DocState)
    requires Extends(a, b) && Extends(b, c)
    ensures Extends(a, c)
  {
  }

  /**
   * A walk, whatever its blocks, only grows the state: resources keep their definitions, requests
   * keep their places and request-side fields; and it keeps a well-formed state well formed.
   */
  lemma {:induction false} ScanFromExtends(docName: string, s: DocState, blocks: seq<Block>, i: nat, parse: string -> Option<Metadata>)
    requires i <= |blocks|
    ensures Extends(s, ScanFrom(docName, s, blocks, i, parse).state)
    ensures WellFormed(docName, s) ==> WellFormed(docName, ScanFrom(docName, s, blocks, i, parse).state)
    decreases |blocks| - i
  {
    if i == |blocks| {
    } else if !blocks[i].blockType.Html? {
      ScanFromExtends(docName, s, blocks, i + 1, parse);
    } else if i + 1 < |blocks| {
      var s' := ParsePair(docName, s, blocks[i], blocks[i + 1], parse).state;
      ParsePairEffect(docName, s, blocks[i], blocks[i + 1], parse);
      ScanFromExtends(docName, s', blocks, i + 2, parse);
      ExtendsTransitive(s, s', ScanFrom(docName, s', blocks, i + 2, parse).state);
    }
  }

  /**
   * The positions, from `i` on, at which the walk reads an annotation. Each is an HTML block; any
   * two are at least two apart, so the block after an annotation is never itself read as one;
   * every HTML block is either an annotation or the block right after one.
   */
  function Annotations(blocks: seq<Block>, i: nat): (r: seq<nat>)
    requires i <= |blocks|
    ensures forall k :: 0 <= k < |r| ==> i <= r[k] < |blocks| && blocks[r[k]].blockType.Html?
    ensures forall k, l :: 0 <= k < l < |r| ==> r[k] + 2 <= r[l]
    ensures forall j :: i <= j < |blocks| && blocks[j].blockType.Html? ==> j in r || (j >= 1 && j - 1 in r)
    decreases |blocks| - i
  {
    if i == |blocks| then []
    else if !blocks[i].blockType.Html? then Annotations(blocks, i + 1)
    else if i + 1 == |blocks| then [i]
    else [i] + Annotations(blocks, i + 2)
  }

  /** The walk fails exactly when the last block of the list is read as an annotation. */
  lemma {:induction false} ScanFailsOnTrailingAnnotation(docName: string, s: DocState, blocks: seq<Block>, i: nat, parse: string -> Option<Metadata>)
    requires i <= |blocks|
    ensures !ScanFrom(docName, s, blocks, i, parse).completed <==> |blocks| >= 1 && |blocks| - 1 in Annotations(blocks, i)
    decreases |blocks| - i
  {
    if i == |blocks| {
    } else if !blocks[i].blockType.Html? {
      ScanFailsOnTrailingAnnotation(docName, s, blocks, i + 1, parse);
    } else if i + 1 < |blocks| {
      var s' := ParsePair(docName, s, blocks[i], blocks[i + 1], parse).state;
      ScanFailsOnTrailingAnnotation(docName, s', blocks, i + 2, parse);
    }
  }

  /** Every position in `starts` has a block after it. */
  predicate AllPaired(blocks: seq<Block>, starts: seq<nat>) {
    forall k :: 0 <= k < |starts| ==> starts[k] + 1 < |blocks|
  }

  /** Applies, in order, the pairs (annotation, next block) that start at `starts`. */
  function ApplyPairs(docName: string, s: DocState, blocks: seq<Block>, starts: seq<nat>, parse: string -> Option<Metadata>): DocState
    requires AllPaired(blocks, starts)
    decreases |starts|
  {
    if starts == [] then s
    else ApplyPairs(docName, ParsePair(docName, s, blocks[starts[0]], blocks[starts[0] + 1], parse).state, blocks, starts[1..], parse)
  }

  /** Applying a list of pairs is applying its first pair, then the rest. */
  lemma ApplyPairsFirst(docName: string, s: DocState, blocks: seq<Block>, i: nat, rest: seq<nat>, parse: string -> Option<Metadata>)
    requires i + 1 < |blocks| && AllPaired(blocks, rest)
    ensures AllPaired(blocks, [i] + rest)
    ensures ApplyPairs(docName, s, blocks, [i] + rest, parse)
         == ApplyPairs(docName, ParsePair(docName, s, blocks[i], blocks[i + 1], parse).state, blocks, rest, parse)
  {
    assert ([i] + rest)[1..] == rest;
  }

  /**
   * The state a completed walk reaches is the result of applying, in order, the pairs
   * (annotation, next block) at the annotation positions.
   */
  lemma {:induction false} CompletedScanAppliesPairs(docName: string, s: DocState, blocks: seq<Block>, i: nat, parse: string -> Option<Metadata>)
    requires i <= |blocks|
    requires ScanFrom(docName, s, blocks, i, parse).completed
    ensures AllPaired(blocks, Annotations(blocks, i))
    ensures ScanFrom(docName, s, blocks, i, parse).state == ApplyPairs(docName, s, blocks, Annotations(blocks, i), parse)
    decreases |blocks| - i
  {
    if i == |blocks| {
    } else if !blocks[i].blockType.Html? {
      CompletedScanAppliesPairs(docName, s, blocks, i + 1, parse);
    } else {
      var s' := ParsePair(docName, s, blocks[i], blocks[i + 1], parse).state;
      CompletedScanAppliesPairs(docName, s', blocks, i + 2, parse);
      ApplyPairsFirst(docName, s, blocks, i, Annotations(blocks, i + 2), parse);
    }
  }

  /**
   * A walk that fails keeps the effect of every pair before the trailing annotation: its state is
   * the result of applying, in order, the pairs at all annotation positions but the last.
   */
  lemma {:induction false} FailedScanAppliesPairs(docName: string, s: DocState, blocks: seq<Block>, i: nat, parse: string -> Option<Metadata>)
    requires i <= |blocks|
    requires !ScanFrom(docName, s, blocks, i, parse).completed
    ensures |Annotations(blocks, i)| >= 1
    ensures AllPaired(blocks, Annotations(blocks, i)[..|Annotations(blocks, i)| - 1])
    ensures ScanFrom(docName, s, blocks, i, parse).state
         == ApplyPairs(docName, s, blocks, Annotations(blocks, i)[..|Annotations(blocks, i)| - 1], parse)
    decreases |blocks| - i
  {
    assert i < |blocks|;
    var r := Annotations(blocks, i);
    if !blocks[i].blockType.Html? {
      FailedScanAppliesPairs(docName, s, blocks, i + 1, parse);
    } else if i + 1 == |blocks| {
      assert r == [i];
    } else {
      var s' := ParsePair(docName, s, blocks[i], blocks[i + 1], parse).state;
      FailedScanAppliesPairs(docName, s', blocks, i + 2, parse);
      var rest := Annotations(blocks, i + 2);
      var paired := rest[..|rest| - 1];
      assert r[..|r| - 1] == [i] + paired;
      ApplyPairsFirst(docName, s, blocks, i, paired, parse);
    }
  }

  /** The whole scan of a document's blocks: filter, then walk from the first position. */
  function ScanBlocks(docName: string, s: DocState, blocks: seq<Block>, parse: string -> Option<Metadata>): (r: ScanResult)
    ensures Extends(s, r.state)
    ensures WellFormed(docName, s) ==> WellFormed(docName, r.state)
    ensures !r.completed ==> exists k :: 0 <= k < |blocks| && blocks[k].blockType.Html?
  {
    var kept := Filtered(blocks);
    ScanFromExtends(docName, s, kept, 0, parse);
    if kept == [] then ScanFrom(docName, s, kept, 0, parse)
    else
      FilteredMembership(blocks, kept[|kept| - 1]);
      ScanFrom(docName, s, kept, 0, parse)
  }

  /**
   * A document made of one `resource` annotation for type `user` followed by its code block
   * yields exactly one resource, keyed `user`, whose schema is the code block's text.
   */
  lemma UserResourceExample(docName: string, annotation: string, schema: string, parse: string -> Option<Metadata>)
    requires MetadataJson(annotation).Some?
    requires parse(MetadataJson(annotation).value) == Some(Metadata(Some("resource"), Some("user"), NoParameters))
    ensures var r := ScanBlocks(docName, DocState(map[], []), [Block(Html, annotation), Block(CodeBlock, schema)], parse);
      && r.completed
      && r.state.resources == map["user" := ResourceDefinition("user", schema)]
      && r.state.requests == []
  {
    var blocks := [Block(Html, annotation), Block(CodeBlock, schema)];
    FilteredIdentity(blocks);
    var s := DocState(map[], []);
    var m := Metadata(Some("resource"), Some("user"), NoParameters);
    assert PairMetadata(blocks[0], blocks[1], parse) == Success(m);
    var s' := ParsePair(docName, s, blocks[0], blocks[1], parse).state;
    assert s' == DocState(map["user" := ResourceDefinition("user", schema)], []);
    assert ScanFrom(docName, s, blocks, 0, parse) == ScanFrom(docName, s', blocks, 2, parse);
  }
}
