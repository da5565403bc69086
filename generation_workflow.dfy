/** The generation workflow of a prompt node: read the prompt, gather reference images from the
    nodes wired into it, and bracket the service request with the processing state of the node. */
module GenerationWorkflow {
  import opened Wrappers
  import opened Text
  import opened CanvasTypes
  import opened NodeUtils
  import opened CanvasGraph
  import opened CanvasStore
  import opened GenerationService

  const PROMPT_REQUIRED := "Please enter a prompt describing the image you want to generate."
  const UNEXPECTED_ERROR := "An unexpected error occurred"
  const DEFAULT_MIME := "image/jpeg"

  /** The sources of the edges that end at node `id`, in edge order. */
  function ConnectedSources(edges: seq<Edge>, id: string): (r: seq<string>)
    ensures |r| <= |edges|
    ensures forall x :: x in r <==> exists k :: 0 <= k < |edges| && edges[k].target == id && edges[k].source == x
  {
    if edges == [] then []
    else
      var rest := ConnectedSources(edges[1..], id);
      assert forall k :: 1 <= k < |edges| ==> edges[k] == edges[1..][k - 1];
      (if edges[0].target == id then [edges[0].source] else []) + rest
  }

  /** `head` reads `a:rb`, where `a` holds no colon and `b` is empty or starts a new colon- or
      semicolon-separated field: `r` is the whole field after the first colon. */
  predicate MimeFieldAt(head: string, a: string, r: string, b: string) {
    head == a + ":" + r + b && ':' !in a && (b == [] || b[0] == ':' || b[0] == ';')
  }

  /** One edge contributes its source exactly when it ends at `id`. */
  lemma ConnectedSourcesOne(e: Edge, id: string)
    ensures ConnectedSources([e], id) == if e.target == id then [e.source] else []
  {
    assert [e][1..] == [];
  }

  /** Collecting sources distributes over concatenation, so the sources keep the edges' order. */
  lemma {:induction false} ConnectedSourcesConcat(a: seq<Edge>, b: seq<Edge>, id: string)
    ensures ConnectedSources(a + b, id) == ConnectedSources(a, id) + ConnectedSources(b, id)
  {
    if a == [] {
      assert a + b == b;
    } else {
      var head := if a[0].target == id then [a[0].source] else [];
      assert (a + b)[0] == a[0] && (a + b)[1..] == a[1..] + b;
      assert ConnectedSources(a + b, id) == head + ConnectedSources(a[1..] + b, id);
      ConnectedSourcesConcat(a[1..], b, id);
      assert ConnectedSources(a, id) == head + ConnectedSources(a[1..], id);
    }
  }

  /** The mime type read from the head of a data URL (the part before the comma): the text after
      the first colon up to the next colon or semicolon, or `image/jpeg` when there is no colon. */
  function MimeOf(head: string): (r: string)
    ensures ':' !in head ==> r == DEFAULT_MIME
    ensures ':' in head ==> ';' !in r && ':' !in r
    ensures ':' in head ==> exists a, b :: MimeFieldAt(head, a, r, b)
  {
    var segments := Split(head, ':');
    if |segments| < 2 then
      (SplitCount(head, ':'); DEFAULT_MIME)
    else
      (assert ':' in head by { SplitCount(head, ':'); }
       MimeField(head);
       Split(segments[1], ';')[0])
  }

  /** Where the mime type sits in the head: after the first colon, up to the next colon or
      semicolon. */
  lemma MimeField(head: string)
    requires ':' in head
    ensures |Split(head, ':')| >= 2
    ensures exists a, b :: MimeFieldAt(head, a, Split(Split(head, ':')[1], ';')[0], b)
  {
    var i := IndexOf(head, ':').value;
    var a, tail := head[..i], head[i + 1..];
    SplitAt(head, ':', i);
    assert Split(head, ':')[1] == Split(tail, ':')[0];
    SplitFirst(tail, ':');
    SplitFirst(Split(tail, ':')[0], ';');
    FieldAfterColon(head, i, Split(tail, ':')[0], Split(Split(tail, ':')[0], ';')[0]);
  }

  /** The field after the first colon, cut at the next semicolon, sits where `MimeFieldAt` says. */
  lemma FieldAfterColon(head: string, i: nat, seg: string, r: string)
    requires i < |head| && head[i] == ':' && ':' !in head[..i]
    requires |seg| <= |head[i + 1..]| && head[i + 1..][..|seg|] == seg
    requires |seg| < |head[i + 1..]| ==> head[i + 1..][|seg|] == ':'
    requires |r| <= |seg| && seg[..|r|] == r
    requires |r| < |seg| ==> seg[|r|] == ';'
    ensures exists a, b :: MimeFieldAt(head, a, r, b)
  {
    var a, b := head[..i], head[i + 1 + |r|..];
    assert head == a + ":" + head[i + 1..];
    assert head[i + 1..] == r + b;
    assert MimeFieldAt(head, a, r, b);
  }

  /** The loose split of a data URL into mime type and payload: the URL must hold exactly one
      comma, and the payload is everything after it. */
  function SplitDataUrl(url: string): (r: Option<ReferenceImage>)
    ensures r.Some? <==> multiset(url)[','] == 1
    ensures r.Some? ==>
      (',' !in r.value.data && url == Split(url, ',')[0] + [','] + r.value.data &&
       r.value.mimeType == MimeOf(Split(url, ',')[0]))
  {
    SplitCount(url, ',');
    var parts := Split(url, ',');
    if |parts| != 2 then None
    else
      (JoinSplit(url, ',');
       assert parts[1..] == [parts[1]];
       Some(ReferenceImage(parts[1], MimeOf(parts[0]))))
  }

  /** The data URLs the service produces split back into their mime type and payload. */
  lemma DataUrlRoundTrip(mime: string, data: string)
    requires ',' !in mime && ':' !in mime && ';' !in mime && ',' !in data
    ensures SplitDataUrl(DataUrl(mime, data)) == Some(ReferenceImage(data, mime))
  {
    var tail := mime + ";base64";
    var head := "data:" + tail;
    assert DataUrl(mime, data) == Join([head, data], ',');
    assert ',' !in head;
    SplitJoin([head, data], ',');
    assert head == Join(["data", tail], ':');
    assert ':' !in tail;
    SplitJoin(["data", tail], ':');
    assert tail == Join([mime, "base64"], ';');
    SplitJoin([mime, "base64"], ';');
  }

  /** The reference image a source node contributes: an image node its uploaded image, a prompt
      node its generated image, provided the URL is present and splits. */
  function ReferenceImageOf(n: Option<Node>): (r: Option<ReferenceImage>)
    ensures !IsImageNode(n) && !IsPromptNode(n) ==> r.None?
    ensures IsImageNode(n) ==> r == (if Truthy(n.value.data.imageUrl) then SplitDataUrl(n.value.data.imageUrl.value) else None)
    ensures IsPromptNode(n) ==>
      r == (if Truthy(n.value.data.generatedImageUrl) then SplitDataUrl(n.value.data.generatedImageUrl.value) else None)
  {
    TagTestsExclusive(n);
    if IsImageNode(n) then
      if !Truthy(n.value.data.imageUrl) then None else SplitDataUrl(n.value.data.imageUrl.value)
    else if IsPromptNode(n) then
      if !Truthy(n.value.data.generatedImageUrl) then None else SplitDataUrl(n.value.data.generatedImageUrl.value)
    else None
  }

  /** An image generated by the service on a prompt node feeds forward unchanged as a reference
      image to the nodes it is wired into. */
  lemma GeneratedImageFeedsForward(n: Node, mime: string, data: string)
    requires IsPromptNode(Some(n)) && n.data.generatedImageUrl == Some(DataUrl(mime, data))
    requires ',' !in mime && ':' !in mime && ';' !in mime && ',' !in data
    ensures ReferenceImageOf(Some(n)) == Some(ReferenceImage(data, mime))
  {
    DataUrlRoundTrip(mime, data);
  }

  /** An uploaded image in the same data URL form feeds forward unchanged as well. */
  lemma UploadedImageFeedsForward(n: Node, mime: string, data: string)
    requires IsImageNode(Some(n)) && n.data.imageUrl == Some(DataUrl(mime, data))
    requires ',' !in mime && ':' !in mime && ';' !in mime && ',' !in data
    ensures ReferenceImageOf(Some(n)) == Some(ReferenceImage(data, mime))
  {
    DataUrlRoundTrip(mime, data);
  }

  /** The reference images of the listed source nodes, in order, skipping those that contribute
      nothing. */
  function ReferenceImages(nodes: seq<Node>, sources: seq<string>): (r: seq<ReferenceImage>)
    ensures |r| <= |sources|
    ensures forall img :: img in r ==>
      exists k :: 0 <= k < |sources| && ReferenceImageOf(FindNode(nodes, sources[k])) == Some(img)
  {
    if sources == [] then []
    else
      var rest := ReferenceImages(nodes, sources[1..]);
      assert forall k :: 1 <= k < |sources| ==> sources[k] == sources[1..][k - 1];
      match ReferenceImageOf(FindNode(nodes, sources[0]))
      case None => rest
      case Some(img) => [img] + rest
  }

  /** One source contributes its reference image when it has one, and nothing otherwise. */
  lemma ReferenceImagesOne(nodes: seq<Node>, source: string)
    ensures ReferenceImages(nodes, [source]) ==
      match ReferenceImageOf(FindNode(nodes, source))
      case None => []
      case Some(img) => [img]
  {
    assert [source][1..] == [];
  }

  /** Gathering images distributes over concatenation, so the images keep the sources' order. */
  lemma {:induction false} ReferenceImagesConcat(nodes: seq<Node>, a: seq<string>, b: seq<string>)
    ensures ReferenceImages(nodes, a + b) == ReferenceImages(nodes, a) + ReferenceImages(nodes, b)
  {
    if a == [] {
      assert a + b == b;
    } else {
      assert (a + b)[1..] == a[1..] + b;
      ReferenceImagesConcat(nodes, a[1..], b);
    }
  }

  /** The prompt of node `id` in the snapshot, when it is a non-blank string. */
  function PromptOf(nodes: seq<Node>, id: string): Option<string> {
    var n := FindNode(nodes, id);
    if n.Some? && Truthy(n.value.data.prompt) && Trim(n.value.data.prompt.value) != ""
    then n.value.data.prompt else None
  }

  /** The request the workflow sends for node `id`: the trimmed prompt and the reference images of
      the nodes wired into it; none when the prompt is missing or blank. */
  function WorkflowRequest(nodes: seq<Node>, edges: seq<Edge>, id: string): (r: Option<Request>)
    ensures r.None? <==> PromptOf(nodes, id).None?
    ensures PromptOf(nodes, id).None? <==>
      FindNode(nodes, id).None? || FindNode(nodes, id).value.data.prompt.None? ||
      !HasContent(FindNode(nodes, id).value.data.prompt.value)
    ensures r.Some? ==> HasContent(r.value.prompt) && r.value.prompt == Trim(PromptOf(nodes, id).value)
    ensures r.Some? ==> r.value.referenceImages == Some(ReferenceImages(nodes, ConnectedSources(edges, id)))
  {
    var p := PromptOf(nodes, id);
    if p.None? then None
    else
      TrimIdempotent(p.value);
      Some(Request(Trim(p.value), Some(ReferenceImages(nodes, ConnectedSources(edges, id)))))
  }

  /** What the service call does: answer with a response, or throw (`Some(message)` for an
      `Error`, `None` for anything else). */
  datatype ServiceOutcome = Answered(response: Response) | Raised(thrown: Option<string>)

  /** The store actions the workflow performs, in order. */
  datatype StoreStep =
    | SetErrorStep(message: string)
    | StartStep
    | ClearErrorStep
    | SetGeneratedStep(url: string, blob: Option<Blob>, model: Option<string>, usage: Option<Usage>)
    | StopStep

  /** The action between clearing the error and stopping, for a given service outcome. */
  function OutcomeSteps(outcome: ServiceOutcome): seq<StoreStep> {
    match outcome
    case Raised(t) => [SetErrorStep(t.GetOr(UNEXPECTED_ERROR))]
    case Answered(resp) =>
      if Truthy(resp.error) then [SetErrorStep(resp.error.value)]
      else if Truthy(resp.generatedImageUrl) then
        [SetGeneratedStep(resp.generatedImageUrl.value, resp.generatedImageBlob, resp.model, resp.usage)]
      else []
  }

  /** An outcome never leads to both an error and a result. */
  lemma OutcomeExclusive(outcome: ServiceOutcome)
    ensures |OutcomeSteps(outcome)| <= 1
    ensures forall s :: s in OutcomeSteps(outcome) ==> s.SetErrorStep? || s.SetGeneratedStep?
    ensures outcome.Answered? && Truthy(outcome.response.error) ==>
      forall s :: s in OutcomeSteps(outcome) ==> !s.SetGeneratedStep?
  {
  }

  /** A thrown call, or an answer that `processRequest` can give (every one is `Decisive`), leads to
      exactly one recorded step between start and stop. */
  lemma OutcomeExactlyOne(outcome: ServiceOutcome)
    requires outcome.Answered? ==> Decisive(outcome.response)
    ensures |OutcomeSteps(outcome)| == 1
    ensures OutcomeSteps(outcome)[0].SetGeneratedStep? <==>
      outcome.Answered? && Truthy(outcome.response.generatedImageUrl)
  {
  }

  /** The store actions `processConnectedNodes(id)` performs, in order: the prompt error alone
      when there is no request; otherwise start, clear the error, the outcome, stop. */
  function WorkflowSteps(nodes: seq<Node>, edges: seq<Edge>, id: string, service: Request -> ServiceOutcome)
    : (r: seq<StoreStep>)
    ensures r != []
    ensures r[0] == StartStep <==> WorkflowRequest(nodes, edges, id).Some?
    ensures r[|r| - 1] == StopStep <==> WorkflowRequest(nodes, edges, id).Some?
    ensures WorkflowRequest(nodes, edges, id).None? ==> r == [SetErrorStep(PROMPT_REQUIRED)]
  {
    var req := WorkflowRequest(nodes, edges, id);
    if req.None? then [SetErrorStep(PROMPT_REQUIRED)]
    else [StartStep, ClearErrorStep] + OutcomeSteps(service(req.value)) + [StopStep]
  }

  /** The patch `{ error: undefined }`. */
  const CLEAR_ERROR := NoChange.(error := Put(None))

  /** The node list after one store action on node `id`, as the store defines that action. */
  function ApplyStep(nodes: seq<Node>, id: string, step: StoreStep): (r: seq<Node>)
    ensures SameIds(nodes, r)
  {
    match step
    case SetErrorStep(message) => WithUpdatedNode(nodes, id, FailUpdater(message))
    case StartStep => WithUpdatedNode(nodes, id, ProcessingStarted)
    case ClearErrorStep => WithUpdatedNode(nodes, id, WithPatch(CLEAR_ERROR))
    case SetGeneratedStep(url, blob, model, usage) =>
      WithUpdatedPromptNode(nodes, id, GenerateUpdater(url, blob, model, usage))
    case StopStep => WithUpdatedNode(nodes, id, ProcessingStopped)
  }

  /** The node list after the store actions `steps` on node `id`, in order. */
  function ApplySteps(nodes: seq<Node>, id: string, steps: seq<StoreStep>): (r: seq<Node>)
    ensures SameIds(nodes, r)
    decreases |steps|
  {
    if steps == [] then nodes
    else
      var next := ApplyStep(nodes, id, steps[0]);
      var r := ApplySteps(next, id, steps[1..]);
      SameIdsTrans(nodes, next, r);
      r
  }

  /** Performing two runs of actions one after the other is performing their concatenation. */
  lemma {:induction false} ApplyStepsConcat(nodes: seq<Node>, id: string, a: seq<StoreStep>, b: seq<StoreStep>)
    ensures ApplySteps(nodes, id, a + b) == ApplySteps(ApplySteps(nodes, id, a), id, b)
    decreases |a|
  {
    if a == [] {
      assert a + b == b;
    } else {
      assert (a + b)[1..] == a[1..] + b;
      ApplyStepsConcat(ApplyStep(nodes, id, a[0]), id, a[1..], b);
    }
  }

  /** A single action performed as a run of one. */
  lemma ApplyOne(nodes: seq<Node>, id: string, step: StoreStep)
    ensures ApplySteps(nodes, id, [step]) == ApplyStep(nodes, id, step)
  {
    assert [step][1..] == [];
  }

  /** The opening of the bracket: `startProcessing(id)`, then `updateNodeData(id, { error: undefined })`. */
  method BeginProcessing(store: Store, id: string)
    modifies store
    ensures store.nodes == ApplySteps(old(store.nodes), id, [StartStep, ClearErrorStep])
    ensures store.nodes ==
      WithUpdatedNode(WithUpdatedNode(old(store.nodes), id, ProcessingStarted), id, WithPatch(CLEAR_ERROR))
    ensures store.edges == EnhanceEdges(old(store.edges), WithUpdatedNode(old(store.nodes), id, ProcessingStarted))
    ensures SameIds(old(store.nodes), store.nodes)
    ensures old(store.WellFormed()) ==> store.WellFormed()
    ensures HasNode(old(store.nodes), id) ==>
      && DataAt(store.nodes, id).Some?
      && DataAt(store.nodes, id).value.isProcessing == Some(true)
      && DataAt(store.nodes, id).value.error.None?
      && FindNode(store.nodes, id).value.kind == FindNode(old(store.nodes), id).value.kind
  {
    var n0 := store.nodes;
    store.StartProcessing(id);
    var n1 := store.nodes;
    store.UpdateNodeData(id, CLEAR_ERROR);
    SameIdsTrans(n0, n1, store.nodes);
    ApplyOne(n1, id, ClearErrorStep);
    assert [StartStep, ClearErrorStep][1..] == [ClearErrorStep];
    if HasNode(n0, id) {
      DataAfterUpdate(n0, id, ProcessingStarted);
      DataAfterUpdate(n1, id, WithPatch(CLEAR_ERROR));
    }
  }

  /** Records a service outcome on the store: the error, or the generated image, or nothing. */
  method RecordOutcome(store: Store, id: string, outcome: ServiceOutcome) returns (middle: seq<StoreStep>)
    modifies store
    ensures middle == OutcomeSteps(outcome)
    ensures store.nodes == ApplySteps(old(store.nodes), id, middle)
    ensures middle == [] ==> store.edges == old(store.edges)
    ensures middle != [] ==> store.edges == EnhanceEdges(old(store.edges), store.nodes)
    ensures SameIds(old(store.nodes), store.nodes)
    ensures old(store.WellFormed()) ==> store.WellFormed()
    ensures HasNode(old(store.nodes), id) ==>
      && DataAt(store.nodes, id).Some?
      && FindNode(store.nodes, id).value.kind == FindNode(old(store.nodes), id).value.kind
      && (middle == [] ==> DataAt(store.nodes, id) == DataAt(old(store.nodes), id))
      && (middle != [] && middle[0].SetErrorStep? ==>
            DataAt(store.nodes, id).value.error == Some(middle[0].message) &&
            DataAt(store.nodes, id).value.isProcessing == Some(false))
      && (middle != [] && middle[0].SetGeneratedStep? && IsPromptNode(FindNode(old(store.nodes), id)) ==>
            DataAt(store.nodes, id).value.generatedImageUrl == Some(middle[0].url) &&
            DataAt(store.nodes, id).value.error.None?)
  {
    middle := OutcomeSteps(outcome);
    if middle == [] {
      return;
    }
    var before := store.nodes;
    ApplyOne(before, id, middle[0]);
    match middle[0]
    case SetErrorStep(message) =>
      store.SetError(id, message);
      if HasNode(before, id) {
        DataAfterUpdate(before, id, FailUpdater(message));
      }
    case SetGeneratedStep(url, blob, model, usage) =>
      store.SetGeneratedImage(id, url, blob, model, usage);
      if HasNode(before, id) {
        DataAfterPromptUpdate(before, id, GenerateUpdater(url, blob, model, usage));
      }
  }

  /** The bracket around one service request: mark processing and clear the error, record the
      outcome, then stop processing whatever the outcome was. */
  method RunRequest(store: Store, id: string, outcome: ServiceOutcome) returns (middle: seq<StoreStep>)
    modifies store
    ensures middle == OutcomeSteps(outcome)
    ensures store.nodes == ApplySteps(old(store.nodes), id, [StartStep, ClearErrorStep] + middle + [StopStep])
    ensures store.edges == EnhanceEdges(old(store.edges), store.nodes)
    ensures SameIds(old(store.nodes), store.nodes)
    ensures old(store.WellFormed()) ==> store.WellFormed()
    ensures HasNode(old(store.nodes), id) ==>
      && DataAt(store.nodes, id).Some?
      && DataAt(store.nodes, id).value.isProcessing == Some(false)
      && (middle == [] ==> DataAt(store.nodes, id).value.error.None?)
      && (middle != [] && middle[0].SetErrorStep? ==>
            DataAt(store.nodes, id).value.error == Some(middle[0].message))
      && (middle != [] && middle[0].SetGeneratedStep? && IsPromptNode(FindNode(old(store.nodes), id)) ==>
            DataAt(store.nodes, id).value.generatedImageUrl == Some(middle[0].url) &&
            DataAt(store.nodes, id).value.error.None?)
  {
    var n0, e0 := store.nodes, store.edges;
    BeginProcessing(store, id);
    var n2, e2 := store.nodes, store.edges;
    middle := RecordOutcome(store, id, outcome);
    var n3, e3 := store.nodes, store.edges;
    store.StopProcessing(id);
    SameIdsTrans(n0, n2, n3);
    SameIdsTrans(n0, n3, store.nodes);
    ApplyOne(n3, id, StopStep);
    ApplyStepsConcat(n0, id, [StartStep, ClearErrorStep], middle);
    ApplyStepsConcat(n0, id, [StartStep, ClearErrorStep] + middle, [StopStep]);
    EnhanceEdgesRebase(e0, WithUpdatedNode(n0, id, ProcessingStarted), store.nodes);
    if middle != [] {
      EnhanceEdgesRebase(e2, n3, store.nodes);
    }
    if HasNode(n0, id) {
      DataAfterUpdate(n3, id, ProcessingStopped);
    }
  }

  /** `processConnectedNodes(id)` against the store, with the service request as a parameter. A
      blank prompt only records the error; otherwise the node is marked processing, its error
      cleared, the request sent, the outcome recorded, and processing stopped last whatever the
      outcome, leaving the node idle with the recorded error or image in place. */
  method ProcessConnectedNodes(store: Store, id: string, service: Request -> ServiceOutcome)
    returns (steps: seq<StoreStep>)
    modifies store
    ensures steps == WorkflowSteps(old(store.nodes), old(store.edges), id, service)
    ensures store.nodes == ApplySteps(old(store.nodes), id, steps)
    ensures store.edges == EnhanceEdges(old(store.edges), store.nodes)
    ensures SameIds(old(store.nodes), store.nodes)
    ensures old(store.WellFormed()) ==> store.WellFormed()
    ensures HasNode(old(store.nodes), id) ==>
      && DataAt(store.nodes, id).Some?
      && DataAt(store.nodes, id).value.isProcessing == Some(false)
      && (WorkflowRequest(old(store.nodes), old(store.edges), id).None? ==>
            DataAt(store.nodes, id).value.error == Some(PROMPT_REQUIRED))
  {
    var nodes, edges := store.nodes, store.edges;
    var request := WorkflowRequest(nodes, edges, id);
    if request.None? {
      store.SetError(id, PROMPT_REQUIRED);
      ApplyOne(nodes, id, SetErrorStep(PROMPT_REQUIRED));
      if HasNode(nodes, id) {
        DataAfterUpdate(nodes, id, FailUpdater(PROMPT_REQUIRED));
      }
      steps := [SetErrorStep(PROMPT_REQUIRED)];
      return;
    }
    var middle := RunRequest(store, id, service(request.value));
    steps := [StartStep, ClearErrorStep] + middle + [StopStep];
  }
}
