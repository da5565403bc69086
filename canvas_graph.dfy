/** The pure half of the canvas store: edge-state derivation, edge normalisation, the node-data
    updaters behind each store action, the starter graph, and the facts the actions rely on. */
module CanvasGraph {
  import opened Wrappers
  import opened Text
  import opened Seqs
  import opened CanvasTypes
  import opened NodeUtils

  // ----- node lookup -----

  /** Some node carries the id. */
  predicate HasNode(nodes: seq<Node>, id: string) {
    exists i :: 0 <= i < |nodes| && nodes[i].id == id
  }

  /** Node ids are pairwise distinct (the store relies on this but `addNode` does not enforce it). */
  predicate UniqueNodeIds(nodes: seq<Node>) {
    forall i, j :: 0 <= i < j < |nodes| ==> nodes[i].id != nodes[j].id
  }

  /** The position of the first node with the id. */
  function NodeIndex(nodes: seq<Node>, id: string): (r: Option<nat>)
    ensures r.Some? ==> r.value < |nodes| && nodes[r.value].id == id
    ensures r.Some? ==> forall j :: 0 <= j < r.value ==> nodes[j].id != id
    ensures r.None? <==> !HasNode(nodes, id)
  {
    if nodes == [] then None
    else if nodes[0].id == id then Some(0)
    else match NodeIndex(nodes[1..], id)
      case None => (assert forall i :: 1 <= i < |nodes| ==> nodes[i] == nodes[1..][i - 1]; None)
      case Some(k) => Some(k + 1)
  }

  /** `nodes.find((node) => node.id === id)`. */
  function FindNode(nodes: seq<Node>, id: string): (r: Option<Node>)
    ensures r.Some? <==> HasNode(nodes, id)
    ensures r.Some? ==> r.value in nodes && r.value.id == id
  {
    match NodeIndex(nodes, id)
    case None => None
    case Some(k) => Some(nodes[k])
  }

  /** With unique ids, the node found for an id is the one node carrying it. */
  lemma FindUnique(nodes: seq<Node>, k: nat)
    requires UniqueNodeIds(nodes) && k < |nodes|
    ensures FindNode(nodes, nodes[k].id) == Some(nodes[k])
  {
    var r := NodeIndex(nodes, nodes[k].id);
    assert r.Some?;
  }

  /** Lookup only looks at ids: two lists with the same ids position by position find at the same index. */
  lemma {:induction false} NodeIndexByIds(a: seq<Node>, b: seq<Node>, id: string)
    requires |a| == |b| && forall i :: 0 <= i < |a| ==> a[i].id == b[i].id
    ensures NodeIndex(a, id) == NodeIndex(b, id)
  {
    if a != [] {
      NodeIndexByIds(a[1..], b[1..], id);
    }
  }

  // ----- edge derivation -----

  /** `isNodeProcessing(node)`: the node exists and its data has `isProcessing` set. */
  predicate IsNodeProcessing(n: Option<Node>) {
    n.Some? && IsSet(n.value.data.isProcessing)
  }

  /** `resolveEdgeState(edge, nodes)`. */
  function ResolveEdgeState(e: Edge, nodes: seq<Node>): (r: EdgeState)
    ensures r == Processing ==> HasNode(nodes, e.source) || HasNode(nodes, e.target)
  {
    if IsNodeProcessing(FindNode(nodes, e.source)) || IsNodeProcessing(FindNode(nodes, e.target))
    then Processing else Idle
  }

  /** Some node at an endpoint of `e` has `isProcessing` set. */
  predicate SomeEndpointProcessing(e: Edge, nodes: seq<Node>) {
    exists i :: 0 <= i < |nodes| && (nodes[i].id == e.source || nodes[i].id == e.target)
                && IsSet(nodes[i].data.isProcessing)
  }

  /** With unique node ids, an edge is `processing` exactly when a node at one of its endpoints
      is processing; a missing endpoint counts as idle. */
  lemma EdgeStateUnderUniqueIds(e: Edge, nodes: seq<Node>)
    requires UniqueNodeIds(nodes)
    ensures ResolveEdgeState(e, nodes) == Processing <==> SomeEndpointProcessing(e, nodes)
  {
    if SomeEndpointProcessing(e, nodes) {
      var i :| 0 <= i < |nodes| && (nodes[i].id == e.source || nodes[i].id == e.target)
               && IsSet(nodes[i].data.isProcessing);
      FindUnique(nodes, i);
    }
  }

  const EDGE_TYPE := "smoothstep"
  const DASH_PATTERN := "8 4"
  const CORNER_RADIUS := 72

  /** The class name an edge in state `s` carries. */
  function StateClass(s: EdgeState): string {
    "edge-track edge-" + s.Name()
  }

  /** `enhanceEdge(edge, nodes)`: keeps id and endpoints, derives the state from the endpoints,
      disables animation, and fills in the connector type and corner radius only where the edge
      has none of its own. */
  function EnhanceEdge(e: Edge, nodes: seq<Node>): (r: Edge)
    ensures r.id == e.id && r.source == e.source && r.target == e.target
    ensures r.animated == Some(false)
    ensures r.state == Some(ResolveEdgeState(e, nodes))
    ensures r.className == Some(StateClass(ResolveEdgeState(e, nodes)))
    ensures e.kind.Some? ==> r.kind == e.kind
    ensures e.kind.None? ==> r.kind == Some(EDGE_TYPE)
    ensures r.strokeDasharray == Some(DASH_PATTERN)
    ensures e.borderRadius.Some? ==> r.borderRadius == e.borderRadius
    ensures e.borderRadius.None? ==> r.borderRadius == Some(CORNER_RADIUS)
  {
    var state := ResolveEdgeState(e, nodes);
    e.(kind := Some(e.kind.GetOr(EDGE_TYPE)), animated := Some(false), state := Some(state),
       className := Some(StateClass(state)), strokeDasharray := Some(DASH_PATTERN),
       borderRadius := Some(e.borderRadius.GetOr(CORNER_RADIUS)))
  }

  /** The edge already has the shape `EnhanceEdge` gives it, with its state up to date. */
  predicate Normalised(e: Edge, nodes: seq<Node>) {
    && e.kind.Some? && e.animated == Some(false)
    && e.state == Some(ResolveEdgeState(e, nodes))
    && e.className == Some(StateClass(ResolveEdgeState(e, nodes)))
    && e.strokeDasharray == Some(DASH_PATTERN) && e.borderRadius.Some?
  }

  /** Normalised edges are exactly the fixed points of `EnhanceEdge`; in particular it is idempotent. */
  lemma NormalisedIffFixedPoint(e: Edge, nodes: seq<Node>)
    ensures Normalised(EnhanceEdge(e, nodes), nodes)
    ensures Normalised(e, nodes) <==> EnhanceEdge(e, nodes) == e
    ensures EnhanceEdge(EnhanceEdge(e, nodes), nodes) == EnhanceEdge(e, nodes)
  {
    var r := EnhanceEdge(e, nodes);
    assert ResolveEdgeState(r, nodes) == ResolveEdgeState(e, nodes);
  }

  /** Every edge's state is derived from the current nodes, with the
      rest of the normalisation applied. */
  predicate EdgesDerived(edges: seq<Edge>, nodes: seq<Node>) {
    forall i :: 0 <= i < |edges| ==> Normalised(edges[i], nodes)
  }

  /** `enhanceEdges(edges, nodes)`: same length, order, ids and endpoints, every edge normalised. */
  function EnhanceEdges(edges: seq<Edge>, nodes: seq<Node>): (r: seq<Edge>)
    ensures |r| == |edges|
    ensures forall i :: 0 <= i < |edges| ==> r[i] == EnhanceEdge(edges[i], nodes)
    ensures forall i :: 0 <= i < |edges| ==>
      r[i].id == edges[i].id && r[i].source == edges[i].source && r[i].target == edges[i].target
    ensures EdgesDerived(r, nodes)
  {
    var r := seq(|edges|, i requires 0 <= i < |edges| => EnhanceEdge(edges[i], nodes));
    assert forall i :: 0 <= i < |edges| ==> Normalised(r[i], nodes) by {
      forall i | 0 <= i < |edges| ensures Normalised(r[i], nodes) {
        NormalisedIffFixedPoint(edges[i], nodes);
      }
    }
    r
  }

  /** Re-deriving against the same nodes changes nothing, and derived edges are left as they are. */
  lemma EnhanceEdgesIdempotent(edges: seq<Edge>, nodes: seq<Node>)
    ensures EnhanceEdges(EnhanceEdges(edges, nodes), nodes) == EnhanceEdges(edges, nodes)
    ensures EdgesDerived(edges, nodes) <==> EnhanceEdges(edges, nodes) == edges
  {
    var r := EnhanceEdges(edges, nodes);
    forall i | 0 <= i < |edges| ensures EnhanceEdge(r[i], nodes) == r[i] {
      NormalisedIffFixedPoint(edges[i], nodes);
    }
    if EdgesDerived(edges, nodes) {
      forall i | 0 <= i < |edges| ensures r[i] == edges[i] {
        NormalisedIffFixedPoint(edges[i], nodes);
      }
    }
  }

  /** Re-deriving against new nodes forgets the nodes the edges were derived against before, so a
      chain of store actions leaves the edges derived once against the final nodes. */
  lemma EnhanceEdgesRebase(edges: seq<Edge>, before: seq<Node>, after: seq<Node>)
    ensures EnhanceEdges(EnhanceEdges(edges, before), after) == EnhanceEdges(edges, after)
  {
    var r := EnhanceEdges(edges, before);
    forall i | 0 <= i < |edges| ensures EnhanceEdge(r[i], after) == EnhanceEdge(edges[i], after) {
      assert ResolveEdgeState(r[i], after) == ResolveEdgeState(edges[i], after);
    }
  }

  // ----- dangling edges -----

  /** Every edge's source and target name a node. */
  predicate NoDangling(nodes: seq<Node>, edges: seq<Edge>) {
    forall i :: 0 <= i < |edges| ==> HasNode(nodes, edges[i].source) && HasNode(nodes, edges[i].target)
  }

  /** Normalising edges never creates a dangling edge. */
  lemma NoDanglingEnhanced(nodes: seq<Node>, edges: seq<Edge>, against: seq<Node>)
    requires NoDangling(nodes, edges)
    ensures NoDangling(nodes, EnhanceEdges(edges, against))
  {
  }

  // ----- filters of the delete actions -----

  /** `nodes.filter((node) => node.id !== id)`. */
  function WithoutNode(nodes: seq<Node>, id: string): (r: seq<Node>)
    ensures forall n :: n in r <==> n in nodes && n.id != id
    ensures !HasNode(nodes, id) ==> r == nodes
  {
    var r := Filter(nodes, (n: Node) => n.id != id);
    if !HasNode(nodes, id) then (FilterKeepsAll(nodes, (n: Node) => n.id != id); r) else r
  }

  /** `edges.filter((edge) => edge.source !== id && edge.target !== id)`. */
  function WithoutIncidentEdges(edges: seq<Edge>, id: string): (r: seq<Edge>)
    ensures forall e :: e in r <==> e in edges && e.source != id && e.target != id
  {
    Filter(edges, (e: Edge) => e.source != id && e.target != id)
  }

  /** `edges.filter((edge) => edge.id !== id)`. */
  function WithoutEdge(edges: seq<Edge>, id: string): (r: seq<Edge>)
    ensures forall e :: e in r <==> e in edges && e.id != id
  {
    Filter(edges, (e: Edge) => e.id != id)
  }

  /** Cascade deletion keeps the graph free of dangling edges: the surviving edges avoid the
      removed id, and every other node survives. */
  lemma NoDanglingAfterDelete(nodes: seq<Node>, edges: seq<Edge>, id: string)
    requires NoDangling(nodes, edges)
    ensures NoDangling(WithoutNode(nodes, id), WithoutIncidentEdges(edges, id))
  {
    var ns := WithoutNode(nodes, id);
    var es := WithoutIncidentEdges(edges, id);
    forall i | 0 <= i < |es| ensures HasNode(ns, es[i].source) && HasNode(ns, es[i].target) {
      var e := es[i];
      assert e in edges;
      var k :| 0 <= k < |edges| && edges[k] == e;
      var a :| 0 <= a < |nodes| && nodes[a].id == e.source;
      var b :| 0 <= b < |nodes| && nodes[b].id == e.target;
      assert nodes[a] in ns && nodes[b] in ns;
    }
  }

  /** Removing nodes keeps ids unique. */
  lemma {:induction false} UniqueAfterDelete(nodes: seq<Node>, id: string)
    requires UniqueNodeIds(nodes)
    ensures UniqueNodeIds(WithoutNode(nodes, id))
  {
    UniqueFilter(nodes, (n: Node) => n.id != id);
  }

  /** Any filter of a list with unique ids has unique ids. */
  lemma {:induction false} UniqueFilter(nodes: seq<Node>, keep: Node -> bool)
    requires UniqueNodeIds(nodes)
    ensures UniqueNodeIds(Filter(nodes, keep))
  {
    if nodes != [] {
      UniqueFilter(nodes[1..], keep);
      var rest := Filter(nodes[1..], keep);
      forall n | n in rest ensures n.id != nodes[0].id {
        var k :| 0 <= k < |nodes[1..]| && nodes[1..][k] == n;
        assert nodes[k + 1] == n;
      }
    }
  }

  /** Appending a node whose id is fresh keeps ids unique. */
  lemma AppendFreshNode(nodes: seq<Node>, n: Node)
    requires UniqueNodeIds(nodes) && !HasNode(nodes, n.id)
    ensures UniqueNodeIds(nodes + [n])
  {
  }

  // ----- per-node updates -----

  /** `withUpdatedNode(nodes, id, updater)`: every node with the id gets `updater` applied to its
      data; ids, tags, positions and all other nodes stay as they were. */
  function WithUpdatedNode(nodes: seq<Node>, id: string, updater: NodeData -> NodeData): (r: seq<Node>)
    ensures |r| == |nodes|
    ensures forall i :: 0 <= i < |nodes| ==>
      r[i].id == nodes[i].id && r[i].kind == nodes[i].kind && r[i].position == nodes[i].position
    ensures forall i :: 0 <= i < |nodes| && nodes[i].id != id ==> r[i] == nodes[i]
    ensures forall i :: 0 <= i < |nodes| && nodes[i].id == id ==> r[i].data == updater(nodes[i].data)
  {
    seq(|nodes|, i requires 0 <= i < |nodes| =>
      if nodes[i].id != id then nodes[i] else nodes[i].(data := updater(nodes[i].data)))
  }

  /** The map of `setGeneratedImage`, `clearResult` and `updateOutputScale`: like `WithUpdatedNode`
      but only prompt nodes are touched. */
  function WithUpdatedPromptNode(nodes: seq<Node>, id: string, updater: NodeData -> NodeData): (r: seq<Node>)
    ensures |r| == |nodes|
    ensures forall i :: 0 <= i < |nodes| ==>
      r[i].id == nodes[i].id && r[i].kind == nodes[i].kind && r[i].position == nodes[i].position
    ensures forall i :: 0 <= i < |nodes| && (nodes[i].id != id || !IsPromptNode(Some(nodes[i]))) ==> r[i] == nodes[i]
    ensures forall i :: 0 <= i < |nodes| && nodes[i].id == id && IsPromptNode(Some(nodes[i])) ==>
      r[i].data == updater(nodes[i].data)
  {
    seq(|nodes|, i requires 0 <= i < |nodes| =>
      if nodes[i].id != id || !IsPromptNode(Some(nodes[i])) then nodes[i]
      else nodes[i].(data := updater(nodes[i].data)))
  }

  /** An update naming an id no node carries leaves the node list as it is. */
  lemma UnknownIdIsNoop(nodes: seq<Node>, id: string, updater: NodeData -> NodeData)
    requires !HasNode(nodes, id)
    ensures WithUpdatedNode(nodes, id, updater) == nodes
    ensures WithUpdatedPromptNode(nodes, id, updater) == nodes
  {
  }

  /** After an update, looking an id up finds the updated version of the node found before. */
  lemma FindAfterUpdate(nodes: seq<Node>, id: string, updater: NodeData -> NodeData, x: string)
    ensures FindNode(WithUpdatedNode(nodes, id, updater), x) ==
      match FindNode(nodes, x)
      case None => None
      case Some(n) => if x == id then Some(n.(data := updater(n.data))) else Some(n)
  {
    NodeIndexByIds(nodes, WithUpdatedNode(nodes, id, updater), x);
  }

  /** An update that never changes `isProcessing` keeps every edge's derived state valid, so the
      actions that skip re-derivation (`updateNodeData` without that key, `updatePrompt`) cannot
      leave a stale edge. */
  lemma DerivedKeptWhenProcessingUntouched(nodes: seq<Node>, edges: seq<Edge>, id: string,
                                           updater: NodeData -> NodeData)
    requires forall d :: updater(d).isProcessing == d.isProcessing
    requires EdgesDerived(edges, nodes)
    ensures EdgesDerived(edges, WithUpdatedNode(nodes, id, updater))
  {
    var after := WithUpdatedNode(nodes, id, updater);
    forall i | 0 <= i < |edges| ensures Normalised(edges[i], after) {
      FindAfterUpdate(nodes, id, updater, edges[i].source);
      FindAfterUpdate(nodes, id, updater, edges[i].target);
      assert ResolveEdgeState(edges[i], after) == ResolveEdgeState(edges[i], nodes);
    }
  }

  // ----- the node-data updaters of the store actions -----

  /** `uploadImageToNode`: the image is set, any error and the busy flags cleared. */
  function ImageUploaded(d: NodeData, url: string, blob: Option<Blob>): NodeData {
    d.(imageUrl := Some(url), imageBlob := blob, error := None,
       isProcessing := Some(false), isLoading := Some(false))
  }

  /** `updatePrompt`: new text and focus hint, error cleared. */
  function PromptEdited(d: NodeData, prompt: string, shouldFocus: Option<bool>): NodeData {
    d.(prompt := Some(prompt), shouldFocus := shouldFocus, error := None)
  }

  /** `startProcessing`: busy, error cleared. */
  function ProcessingStarted(d: NodeData): NodeData {
    d.(isProcessing := Some(true), isLoading := Some(true), error := None)
  }

  /** `stopProcessing`: no longer busy. */
  function ProcessingStopped(d: NodeData): NodeData {
    d.(isProcessing := Some(false), isLoading := Some(false))
  }

  /** `setError`: the message is recorded and the node is no longer busy. */
  function Failed(d: NodeData, message: string): NodeData {
    d.(error := Some(message), isLoading := Some(false), isProcessing := Some(false))
  }

  /** `setGeneratedImage` on a prompt node. */
  function Generated(d: NodeData, url: string, blob: Option<Blob>, model: Option<string>,
                     usage: Option<Usage>): (r: NodeData)
    ensures r.generatedImageUrl == Some(url) && r.generatedImageBlob == blob
    ensures r.model == model && r.usage == usage
    ensures d.outputScale.Some? ==> r.outputScale == d.outputScale
    ensures d.outputScale.None? ==> r.outputScale == Some(1)
    ensures r.isProcessing == Some(false) && r.isLoading == Some(false) && r.error.None?
    ensures r.prompt == d.prompt && r.labelText == d.labelText
  {
    d.(generatedImageUrl := Some(url), generatedImageBlob := blob, model := model, usage := usage,
       outputScale := Some(d.outputScale.GetOr(1)), isLoading := Some(false),
       isProcessing := Some(false), error := None)
  }

  /** `clearResult` on a prompt node. */
  function ResultCleared(d: NodeData): (r: NodeData)
    ensures r.generatedImageUrl.None? && r.generatedImageBlob.None? && r.model.None? && r.usage.None?
    ensures r.error.None? && r.isProcessing == Some(false) && r.isLoading == Some(false)
    ensures r.outputScale == Some(1)
    ensures r.prompt == d.prompt && r.labelText == d.labelText
  {
    d.(generatedImageUrl := None, generatedImageBlob := None, model := None, usage := None,
       error := None, isLoading := Some(false), isProcessing := Some(false), outputScale := Some(1))
  }

  /** `updateOutputScale` on a prompt node. */
  function Rescaled(d: NodeData, scale: int): NodeData {
    d.(outputScale := Some(scale))
  }

  /** The updaters as values, one per action, so that every mention of an action's updater is
      the same term. */
  function WithPatch(patch: NodeDataPatch): NodeData -> NodeData {
    (d: NodeData) => Merge(d, patch)
  }

  function UploadUpdater(url: string, blob: Option<Blob>): NodeData -> NodeData {
    (d: NodeData) => ImageUploaded(d, url, blob)
  }

  function EditUpdater(prompt: string, shouldFocus: Option<bool>): NodeData -> NodeData {
    (d: NodeData) => PromptEdited(d, prompt, shouldFocus)
  }

  function FailUpdater(message: string): NodeData -> NodeData {
    (d: NodeData) => Failed(d, message)
  }

  function GenerateUpdater(url: string, blob: Option<Blob>, model: Option<string>, usage: Option<Usage>): NodeData -> NodeData {
    (d: NodeData) => Generated(d, url, blob, model, usage)
  }

  function RescaleUpdater(scale: int): NodeData -> NodeData {
    (d: NodeData) => Rescaled(d, scale)
  }

  /** Clearing a freshly generated result leaves the prompt node as if nothing had been generated. */
  lemma ClearUndoesGenerate(d: NodeData, url: string, blob: Option<Blob>, model: Option<string>,
                            usage: Option<Usage>)
    ensures ResultCleared(Generated(d, url, blob, model, usage)) == ResultCleared(d)
  {
  }

  /** After `startProcessing(id)` on a node that exists, every edge at that node is `processing`. */
  lemma StartMarksIncidentEdges(nodes: seq<Node>, id: string, e: Edge)
    requires HasNode(nodes, id)
    requires e.source == id || e.target == id
    ensures ResolveEdgeState(e, WithUpdatedNode(nodes, id, ProcessingStarted)) == Processing
  {
    FindAfterUpdate(nodes, id, ProcessingStarted, id);
  }

  /** After `stopProcessing(id)` (or `setError(id, ...)`), the node no longer drives any edge: an edge
      between it and another node is `processing` exactly when the other node is. */
  lemma StopReleasesIncidentEdges(nodes: seq<Node>, id: string, e: Edge)
    requires e.source == id && e.target != id
    ensures var after := WithUpdatedNode(nodes, id, ProcessingStopped);
      ResolveEdgeState(e, after) == Processing <==> IsNodeProcessing(FindNode(nodes, e.target))
  {
    FindAfterUpdate(nodes, id, ProcessingStopped, id);
    FindAfterUpdate(nodes, id, ProcessingStopped, e.target);
  }

  /** `updateNodeData` does not re-derive edges: a patch that sets `isProcessing` leaves the starter
      graph's edge stale. */
  lemma ProcessingPatchCanStaleEdges()
    ensures var nodes := InitialNodes();
      var edges := EnhanceEdges(InitialEdges(), nodes);
      var patch := NoChange.(isProcessing := Put(Some(true)));
      EdgesDerived(edges, nodes) &&
      !EdgesDerived(edges, WithUpdatedNode(nodes, "image-1", WithPatch(patch)))
  {
    var nodes := InitialNodes();
    var edges := EnhanceEdges(InitialEdges(), nodes);
    var patch := NoChange.(isProcessing := Put(Some(true)));
    var after := WithUpdatedNode(nodes, "image-1", WithPatch(patch));
    assert FindNode(nodes, "image-1") == Some(nodes[0]);
    assert FindNode(nodes, "prompt-1") == Some(nodes[1]);
    assert edges[0].state == Some(Idle);
    assert FindNode(after, "image-1") == Some(after[0]);
    assert ResolveEdgeState(edges[0], after) == Processing;
  }

  // ----- the starter graph -----

  /** `createInitialNodes()`. */
  function InitialNodes(): seq<Node> {
    [ Node("image-1", Some(IMAGE_NODE), XY(Finite(60.0), Finite(140.0)), LabelOnly("Image Input")),
      Node("prompt-1", Some(PROMPT_NODE), XY(Finite(340.0), Finite(140.0)),
           LabelOnly("Prompt").(prompt := Some(""))) ]
  }

  /** `createInitialEdges()`. */
  function InitialEdges(): seq<Edge> {
    [ Edge("edge-image-prompt", "image-1", "prompt-1", Some(EDGE_TYPE), None, None, None, None, None) ]
  }

  /** The starter graph is an image node `image-1` wired to a prompt node `prompt-1` by one idle
      edge; it has unique ids and no dangling edge. */
  lemma StarterGraph()
    ensures var nodes := InitialNodes();
      var edges := EnhanceEdges(InitialEdges(), nodes);
      && |nodes| == 2 && |edges| == 1
      && nodes[0].id == "image-1" && IsImageNode(Some(nodes[0]))
      && nodes[1].id == "prompt-1" && IsPromptNode(Some(nodes[1]))
      && edges[0].id == "edge-image-prompt" && edges[0].source == "image-1" && edges[0].target == "prompt-1"
      && edges[0].state == Some(Idle)
      && UniqueNodeIds(nodes) && NoDangling(nodes, edges) && EdgesDerived(edges, nodes)
  {
    var nodes := InitialNodes();
    assert FindNode(nodes, "image-1") == Some(nodes[0]);
    assert FindNode(nodes, "prompt-1") == Some(nodes[1]);
    assert HasNode(nodes, "image-1") && HasNode(nodes, "prompt-1");
  }

  // ----- the count-based helpers -----

  /** The prompt node `createConnectedTextNode` builds: its id is `prompt-<node count + 1>`. */
  function ConnectedTextNode(nodes: seq<Node>, position: XY): Node {
    Node("prompt-" + NatToString(|nodes| + 1), Some(PROMPT_NODE), position,
         LabelOnly("Text Prompt").(prompt := Some(""), shouldFocus := Some(true)))
  }

  /** The edge `createConnectedTextNode` builds from the source to the new node. */
  function ConnectedTextEdge(nodes: seq<Node>, sourceId: string): Edge {
    var n := NatToString(|nodes| + 1);
    Edge("edge-" + sourceId + "-prompt-" + n, sourceId, "prompt-" + n, Some(EDGE_TYPE),
         None, None, None, None, None)
  }

  /** Count-based ids are not fresh: starting from the starter graph, spawning a text node, deleting
      `prompt-1` and spawning again produces a second `prompt-3`. */
  lemma CountBasedIdsCollide(p: XY)
    ensures var first := ConnectedTextNode(InitialNodes(), p);
      var afterDelete := WithoutNode(InitialNodes() + [first], "prompt-1");
      var second := ConnectedTextNode(afterDelete, p);
      first.id == second.id == "prompt-3" && !UniqueNodeIds(afterDelete + [second])
  {
    var start := InitialNodes();
    var first := ConnectedTextNode(start, p);
    assert first.id == "prompt-3";
    var g := start + [first];
    var afterDelete := WithoutNode(g, "prompt-1");
    assert afterDelete == [start[0], first] by {
      assert g == [start[0]] + ([start[1]] + [first]);
      FilterConcat([start[0]], [start[1]] + [first], (n: Node) => n.id != "prompt-1");
      FilterConcat([start[1]], [first], (n: Node) => n.id != "prompt-1");
    }
    var second := ConnectedTextNode(afterDelete, p);
    assert (afterDelete + [second])[1].id == (afterDelete + [second])[2].id;
  }

  /** When the count-based id happens to be fresh, spawning keeps ids unique and the new edge
      does not dangle. */
  lemma ConnectedTextNodeFresh(nodes: seq<Node>, edges: seq<Edge>, sourceId: string, p: XY)
    requires UniqueNodeIds(nodes) && NoDangling(nodes, edges) && HasNode(nodes, sourceId)
    requires !HasNode(nodes, ConnectedTextNode(nodes, p).id)
    ensures var next := nodes + [ConnectedTextNode(nodes, p)];
      UniqueNodeIds(next) && NoDangling(next, edges + [ConnectedTextEdge(nodes, sourceId)])
  {
    var n := ConnectedTextNode(nodes, p);
    var next := nodes + [n];
    var all := edges + [ConnectedTextEdge(nodes, sourceId)];
    forall i | 0 <= i < |all| ensures HasNode(next, all[i].source) && HasNode(next, all[i].target) {
      if i < |edges| {
        var a :| 0 <= a < |nodes| && nodes[a].id == edges[i].source;
        var b :| 0 <= b < |nodes| && nodes[b].id == edges[i].target;
        assert next[a] == nodes[a] && next[b] == nodes[b];
      } else {
        var a :| 0 <= a < |nodes| && nodes[a].id == sourceId;
        assert next[a] == nodes[a];
        assert next[|nodes|] == n;
      }
    }
  }

  /** The image node `createConnectedImageTextNode` builds, 150 left of and 50 above the point. */
  function ConnectedImageNode(nodes: seq<Node>, position: XY): Node {
    Node("image-" + NatToString(|nodes| + 1), Some(IMAGE_NODE),
         XY(Minus(position.x, 150.0), Minus(position.y, 50.0)), LabelOnly("Image Input"))
  }

  /** The prompt node `createConnectedImageTextNode` builds, 150 right of and 50 above the point. */
  function PairedTextNode(nodes: seq<Node>, position: XY): Node {
    ConnectedTextNode(nodes, XY(Plus(position.x, 150.0), Minus(position.y, 50.0)))
  }

  /** The edges `createConnectedImageTextNode` builds: source to the new image node, then the new
      image node to the new prompt node. */
  function PairedEdges(nodes: seq<Node>, sourceId: string): seq<Edge> {
    var n := NatToString(|nodes| + 1);
    [ Edge("edge-" + sourceId + "-image-" + n, sourceId, "image-" + n, Some(EDGE_TYPE),
           None, None, None, None, None),
      Edge("edge-image-" + n + "-prompt-" + n, "image-" + n, "prompt-" + n, Some(EDGE_TYPE),
           None, None, None, None, None) ]
  }

  /** The image/prompt pair is wired in a chain source -> image -> prompt, the two new nodes never
      share an id, and both sit 50 above the point on either side of it. */
  lemma PairedNodesChain(nodes: seq<Node>, sourceId: string, p: XY)
    ensures var img := ConnectedImageNode(nodes, p);
      var txt := PairedTextNode(nodes, p);
      var es := PairedEdges(nodes, sourceId);
      && img.id != txt.id
      && es[0].source == sourceId && es[0].target == img.id
      && es[1].source == img.id && es[1].target == txt.id
      && IsImageNode(Some(img)) && IsPromptNode(Some(txt))
      && img.position.y == txt.position.y == Minus(p.y, 50.0)
  {
    var n := NatToString(|nodes| + 1);
    assert ("image-" + n)[0] != ("prompt-" + n)[0];
  }

  // ----- shape preservation -----

  /** Two node lists with the same ids in the same order. */
  predicate SameIds(a: seq<Node>, b: seq<Node>) {
    |a| == |b| && forall i :: 0 <= i < |a| ==> a[i].id == b[i].id
  }

  /** Having the same ids is transitive. */
  lemma SameIdsTrans(a: seq<Node>, b: seq<Node>, c: seq<Node>)
    requires SameIds(a, b) && SameIds(b, c)
    ensures SameIds(a, c)
  {
  }

  /** Node lists with the same ids agree on membership of ids and on uniqueness, so an edge list
      dangles against one exactly when it dangles against the other. */
  lemma SameIdsSameShape(a: seq<Node>, b: seq<Node>, edges: seq<Edge>)
    requires SameIds(a, b)
    ensures forall x :: HasNode(a, x) <==> HasNode(b, x)
    ensures UniqueNodeIds(a) <==> UniqueNodeIds(b)
    ensures NoDangling(a, edges) <==> NoDangling(b, edges)
  {
    forall x ensures HasNode(a, x) <==> HasNode(b, x) {
      NodeIndexByIds(a, b, x);
    }
  }

  /** Appending a node never changes what an existing id is found as: `find` returns the first match. */
  lemma FindAfterAppend(nodes: seq<Node>, n: Node, x: string)
    requires HasNode(nodes, x)
    ensures FindNode(nodes + [n], x) == FindNode(nodes, x)
  {
    var all := nodes + [n];
    assert forall j :: 0 <= j < |nodes| ==> all[j] == nodes[j];
    assert HasNode(all, x);
  }

  /** Appending nodes keeps every edge's derived state, as long as no edge dangles. */
  lemma AppendKeepsDerived(nodes: seq<Node>, edges: seq<Edge>, n: Node)
    requires NoDangling(nodes, edges) && EdgesDerived(edges, nodes)
    ensures EdgesDerived(edges, nodes + [n]) && NoDangling(nodes + [n], edges)
  {
    forall i | 0 <= i < |edges| ensures ResolveEdgeState(edges[i], nodes + [n]) == ResolveEdgeState(edges[i], nodes) {
      FindAfterAppend(nodes, n, edges[i].source);
      FindAfterAppend(nodes, n, edges[i].target);
    }
    forall i | 0 <= i < |edges| ensures HasNode(nodes + [n], edges[i].source) && HasNode(nodes + [n], edges[i].target) {
      var a :| 0 <= a < |nodes| && nodes[a].id == edges[i].source;
      var b :| 0 <= b < |nodes| && nodes[b].id == edges[i].target;
      assert (nodes + [n])[a] == nodes[a] && (nodes + [n])[b] == nodes[b];
    }
  }

  /** Removing edges never makes one dangle. */
  lemma NoDanglingWithoutEdge(nodes: seq<Node>, edges: seq<Edge>, id: string)
    requires NoDangling(nodes, edges)
    ensures NoDangling(nodes, WithoutEdge(edges, id))
  {
    var es := WithoutEdge(edges, id);
    forall i | 0 <= i < |es| ensures HasNode(nodes, es[i].source) && HasNode(nodes, es[i].target) {
      assert es[i] in edges;
    }
  }

  /** After a prompt-only update, looking an id up finds the updated version of the node found
      before when that node is a prompt node, and the same node otherwise. */
  lemma FindAfterPromptUpdate(nodes: seq<Node>, id: string, updater: NodeData -> NodeData, x: string)
    ensures FindNode(WithUpdatedPromptNode(nodes, id, updater), x) ==
      match FindNode(nodes, x)
      case None => None
      case Some(n) => if x == id && IsPromptNode(Some(n)) then Some(n.(data := updater(n.data))) else Some(n)
  {
    NodeIndexByIds(nodes, WithUpdatedPromptNode(nodes, id, updater), x);
  }

  /** The data of the node found for `id`. */
  function DataAt(nodes: seq<Node>, id: string): (r: Option<NodeData>)
    ensures r.Some? <==> HasNode(nodes, id)
  {
    match FindNode(nodes, id)
    case None => None
    case Some(n) => Some(n.data)
  }

  /** An update at `id` applies the updater to the data found there, and the node stays findable. */
  lemma DataAfterUpdate(nodes: seq<Node>, id: string, updater: NodeData -> NodeData)
    requires HasNode(nodes, id)
    ensures DataAt(WithUpdatedNode(nodes, id, updater), id) == Some(updater(DataAt(nodes, id).value))
    ensures FindNode(WithUpdatedNode(nodes, id, updater), id).value.kind == FindNode(nodes, id).value.kind
  {
    FindAfterUpdate(nodes, id, updater, id);
  }

  /** A prompt-only update at `id` applies the updater when the node found there is a prompt node. */
  lemma DataAfterPromptUpdate(nodes: seq<Node>, id: string, updater: NodeData -> NodeData)
    requires HasNode(nodes, id)
    ensures DataAt(WithUpdatedPromptNode(nodes, id, updater), id) ==
      Some(if IsPromptNode(FindNode(nodes, id)) then updater(DataAt(nodes, id).value) else DataAt(nodes, id).value)
    ensures FindNode(WithUpdatedPromptNode(nodes, id, updater), id).value.kind == FindNode(nodes, id).value.kind
  {
    FindAfterPromptUpdate(nodes, id, updater, id);
  }
}
