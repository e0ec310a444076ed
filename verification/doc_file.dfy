/**
 * The documentation scanner as the object it is in ApiDocumentationTester/DocFile.cs: a document
 * whose scan fills its working block list, its resource dictionary and its list of method
 * definitions, the last of which a `response` annotation updates in place. Every method is
 * proved against the value-level functions of DocScan.
 */
module DocFiles {
  import opened Wrappers
  import opened DocScan

  /** The kind of document; a new document is Unknown and the scan does not change it. */
  datatype DocType = Unknown | Resource | MethodRequest

  /** One request/response example. Its response fields are set after it has been appended. */
  class MethodDefinition {
    var request: string
    var displayName: string
    var parameters: Option<seq<string>>
    var response: Option<string>
    var responseType: Option<string>

    /** A method as a `request` annotation creates it: no response yet. */
    constructor (request: string, displayName: string, parameters: Option<seq<string>>)
      ensures Value() == MethodValue(request, displayName, parameters, None, None)
    {
      this.request := request;
      this.displayName := displayName;
      this.parameters := parameters;
      this.response := None;
      this.responseType := None;
    }

    /** The current field values. */
    ghost function Value(): MethodValue
      reads this
    {
      MethodValue(request, displayName, parameters, response, responseType)
    }
  }

  /** The current field values of each method of `ms`, in order. */
  ghost function Values(ms: seq<MethodDefinition>): (vs: seq<MethodValue>)
    reads ms
    ensures |vs| == |ms|
    ensures forall k :: 0 <= k < |ms| ==> vs[k] == ms[k].Value()
  {
    if ms == [] then [] else Values(ms[..|ms| - 1]) + [ms[|ms| - 1].Value()]
  }

  /** A documentation file and what a scan has found in it. */
  class DocFile {
    const displayName: string
    var docType: DocType
    var codeBlocks: seq<Block>
    var resources: map<string, ResourceDefinition>
    var requests: seq<MethodDefinition>

    /**
     * The found state is well formed. Since the method at position k is named after k, no
     * method object appears twice in the list (see LastRequestUnshared).
     */
    ghost predicate Valid()
      reads this, requests
    {
      WellFormed(displayName, State())
    }

    /** In a valid document the last method object is not also listed at an earlier position. */
    lemma LastRequestUnshared(k: nat)
      requires Valid()
      requires k < |requests| - 1
      ensures requests[k] != requests[|requests| - 1]
    {
      var n := |requests| - 1;
      assert State().requests[k].displayName == RequestName(displayName, k);
      assert State().requests[n].displayName == RequestName(displayName, n);
      RequestNameInjective(displayName, k, n);
    }

    /** The resources and the current values of the requests. */
    ghost function State(): DocState
      reads this, requests
    {
      DocState(resources, Values(requests))
    }

    /** The method a `response` annotation may update: the last one, if any. */
    function LastRequest(): set<MethodDefinition>
      reads this
    {
      if requests == [] then {} else {requests[|requests| - 1]}
    }

    /** A document that has not been scanned: its display name is the path relative to the docs root. */
    constructor (relativePath: string)
      ensures Valid()
      ensures displayName == relativePath && docType == Unknown
      ensures codeBlocks == [] && requests == [] && State() == DocState(map[], [])
    {
      displayName := relativePath;
      docType := Unknown;
      codeBlocks := [];
      resources := map[];
      requests := [];
    }

    /**
     * Applies one annotation/code pair. The outcome and the new state are those of
     * DocScan.ParsePair; apart from the resources and the list of requests, only the last method
     * may change, and the methods already listed stay listed in their places.
     */
    method ParseCodeBlock(metadata: Block, code: Block, parse: string -> Option<Metadata>) returns (outcome: PairOutcome)
      requires Valid()
      modifies this`resources, this`requests, LastRequest()
      ensures Valid()
      ensures Step(outcome, State()) == ParsePair(displayName, old(State()), metadata, code, parse)
      ensures |old(requests)| <= |requests| && requests[..|old(requests)|] == old(requests)
      ensures forall k :: |old(requests)| <= k < |requests| ==> fresh(requests[k])
    {
      ghost var before := State();
      if !metadata.blockType.Html? {
        return Rejected(NotMetadata);
      }
      if !code.blockType.CodeBlock? {
        return Rejected(NotCode);
      }
      if |metadata.content| < OpenerLength + CloserLength {
        return Rejected(AnnotationTooShort);
      }
      var metadataJsonString := metadata.content[OpenerLength .. |metadata.content| - CloserLength];
      var metadataObject := parse(metadataJsonString);
      if metadataObject.None? {
        return Rejected(MalformedMetadata);
      }
      assert MetadataJson(metadata.content) == Some(metadataJsonString);
      assert PairMetadata(metadata, code, parse) == Success(metadataObject.value);
      outcome := ApplyMetadata(metadataObject.value, code);
    }

    /**
     * Dispatches on the `blockType` of metadata already read: the outcome and the new state are
     * those of DocScan.MetadataEffect.
     */
    method ApplyMetadata(m: Metadata, code: Block) returns (outcome: PairOutcome)
      requires Valid()
      modifies this`resources, this`requests, LastRequest()
      ensures Valid()
      ensures Step(outcome, State()) == MetadataEffect(displayName, old(State()), m, code)
      ensures |old(requests)| <= |requests| && requests[..|old(requests)|] == old(requests)
      ensures forall k :: |old(requests)| <= k < |requests| ==> fresh(requests[k])
    {
      ghost var before := State();
      var resourceType := m.odataType;
      var blockType := m.blockType;

      if blockType == Some("resource") {
        if resourceType.None? {
          return Rejected(MissingResourceType);
        }
        if resourceType.value in resources {
          return Rejected(DuplicateResourceType);
        }
        AddResource(resourceType.value, code.content);
        outcome := Applied;
        assert MetadataEffect(displayName, before, m, code) == Step(outcome, State());
      } else if blockType == Some("request") {
        var parameterNames: Option<seq<string>>;
        match m.parameters {
          case NoParameters => parameterNames := None;
          case ParameterNames(names) => parameterNames := Some(names);
          case UncastableParameters => return Rejected(UnreadableParameters);
        }
        AddRequest(code.content, parameterNames);
        outcome := Applied;
        assert MetadataEffect(displayName, before, m, code) == Step(outcome, State());
      } else if blockType == Some("response") {
        if requests == [] {
          return Rejected(NoPriorRequest);
        }
        SetLastResponse(code.content, resourceType);
        outcome := Applied;
        assert MetadataEffect(displayName, before, m, code) == Step(outcome, State());
      } else {
        outcome := Ignored;
      }
    }

    /** Adds the definition of a resource type not yet defined; nothing else changes. */
    method AddResource(odataType: string, jsonFormat: string)
      requires Valid()
      requires odataType !in resources
      modifies this`resources
      ensures Valid()
      ensures State() == old(State()).(resources := old(resources)[odataType := ResourceDefinition(odataType, jsonFormat)])
    {
      resources := resources[odataType := ResourceDefinition(odataType, jsonFormat)];
    }

    /**
     * Appends a new method with the given request text and parameter names, named after this
     * document and the number of requests before it; the methods already listed stay unchanged.
     */
    method AddRequest(request: string, parameterNames: Option<seq<string>>)
      requires Valid()
      modifies this`requests
      ensures Valid()
      ensures |requests| == |old(requests)| + 1 && requests[..|old(requests)|] == old(requests)
      ensures fresh(requests[|old(requests)|])
      ensures State() == old(State()).(requests := old(State()).requests
                           + [MethodValue(request, RequestName(displayName, |old(requests)|), parameterNames, None, None)])
    {
      ghost var before := State();
      ghost var listed := requests;
      var m := new MethodDefinition(request, RequestName(displayName, |requests|), parameterNames);
      requests := requests + [m];
      assert State() == before.(requests := before.requests + [m.Value()]) by {
        assert Values(listed) == before.requests;
        forall k | 0 <= k < |listed| ensures Values(requests)[k] == before.requests[k] {
          assert requests[k] == listed[k];
        }
      }
      AppendKeepsWellFormed(displayName, before, m.Value());
    }

    /** Sets the response text and type of the last method, in place; no other method changes. */
    method SetLastResponse(response: string, responseType: Option<string>)
      requires Valid()
      requires requests != []
      modifies LastRequest()
      ensures Valid()
      ensures var n := |old(requests)| - 1;
        State() == old(State()).(requests := old(State()).requests[..n]
                     + [old(State()).requests[n].(response := Some(response), responseType := responseType)])
    {
      ghost var before := State();
      var n := |requests| - 1;
      forall k | 0 <= k < n ensures requests[k] != requests[n] {
        LastRequestUnshared(k);
      }
      var lastRequest := requests[n];
      lastRequest.response := Some(response);
      lastRequest.responseType := responseType;
      assert Values(requests) == before.requests[..n] + [lastRequest.Value()];
    }

    /**
     * Scans the blocks the markdown engine produced for this file. The working list is rebuilt
     * from scratch and holds exactly the code and HTML blocks; the resources and requests (which
     * are not cleared) end as DocScan.ScanFrom says. `completed` is false when the last block of
     * the working list is an annotation with no block after it, an error that ends the scan with
     * the effects of the earlier pairs kept.
     */
    method Scan(blocks: seq<Block>, parse: string -> Option<Metadata>) returns (completed: bool)
      requires Valid()
      modifies this`codeBlocks, this`resources, this`requests, requests
      ensures Valid()
      ensures codeBlocks == Filtered(blocks)
      ensures ScanFrom(displayName, old(State()), codeBlocks, 0, parse) == ScanResult(State(), completed)
      ensures |old(requests)| <= |requests| && requests[..|old(requests)|] == old(requests)
      ensures forall k :: |old(requests)| <= k < |requests| ==> fresh(requests[k])
    {
      CollectCodeBlocks(blocks);
      completed := ScanPairs(codeBlocks, parse);
    }

    /**
     * The cursor loop of the scan over the working list `list`: each annotation is applied with
     * the block after it, and the cursor moves past both; other blocks are passed over.
     */
    method ScanPairs(list: seq<Block>, parse: string -> Option<Metadata>) returns (completed: bool)
      requires Valid()
      modifies this`resources, this`requests, requests
      ensures Valid()
      ensures ScanFrom(displayName, old(State()), list, 0, parse) == ScanResult(State(), completed)
      ensures |old(requests)| <= |requests| && requests[..|old(requests)|] == old(requests)
      ensures forall k :: |old(requests)| <= k < |requests| ==> fresh(requests[k])
    {
      ghost var start := State();
      var i := 0;
      while i < |list|
        invariant 0 <= i <= |list|
        invariant Valid()
        invariant |old(requests)| <= |requests| && requests[..|old(requests)|] == old(requests)
        invariant forall k :: |old(requests)| <= k < |requests| ==> fresh(requests[k])
        invariant ScanFrom(displayName, start, list, 0, parse) == ScanFrom(displayName, State(), list, i, parse)
        decreases |list| - i
      {
        var htmlComment := list[i];
        if !htmlComment.blockType.Html? {
          i := i + 1;
          continue;
        }
        if i + 1 == |list| {
          // The block after the annotation is read outside the exception handler.
          return false;
        }
        var codeBlock := list[i + 1];
        ghost var beforePair := State();
        var _ := ParseCodeBlock(htmlComment, codeBlock, parse);
        assert ScanFrom(displayName, beforePair, list, i, parse) == ScanFrom(displayName, State(), list, i + 2, parse);
        i := i + 2;
      }
      return true;
    }

    /** Rebuilds the working list from scratch: the code and HTML blocks of `blocks`, in order. */
    method CollectCodeBlocks(blocks: seq<Block>)
      modifies this`codeBlocks
      ensures codeBlocks == Filtered(blocks)
    {
      codeBlocks := [];
      for j := 0 to |blocks|
        invariant codeBlocks == Filtered(blocks[..j])
      {
        assert blocks[..j + 1][..j] == blocks[..j];
        match blocks[j].blockType {
          case CodeBlock => codeBlocks := codeBlocks + [blocks[j]];
          case Html => codeBlocks := codeBlocks + [blocks[j]];
          case Other(_) =>
        }
      }
      assert blocks[..|blocks|] == blocks;
    }

    /** The working list as a new array: changing the array does not change the document. */
    method CodeBlocks() returns (a: array<Block>)
      ensures fresh(a) && a[..] == codeBlocks
    {
      a := new Block[|codeBlocks|](k requires 0 <= k < |codeBlocks| reads this => codeBlocks[k]);
    }

    /** The resources found, each keyed by its own type name. */
    function Resources(): (r: map<string, ResourceDefinition>)
      reads this, requests
      requires Valid()
      ensures forall t :: t in r ==> r[t].odataType == t
    {
      resources
    }

    /** The requests as a new array of the same method objects, in document order. */
    method Requests() returns (a: array<MethodDefinition>)
      ensures fresh(a) && a[..] == requests
    {
      a := new MethodDefinition[|requests|](k requires 0 <= k < |requests| reads this => requests[k]);
    }
  }
}
