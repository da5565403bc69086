/** The behaviour of the prompt node component: the output-scale stepper and the preview size it
    selects, the submit gating, the guards in front of the generation workflow, the output handle
    and the one-shot focus request. The component reads its node's data as rendered (`d`) and acts
    on the canvas store. */
module PromptNodeView {
  import opened Wrappers
  import opened Text
  import opened CanvasTypes
  import opened NodeUtils
  import opened CanvasGraph
  import opened CanvasStore
  import opened Connection
  import opened GenerationService
  import opened GenerationWorkflow

  const SCALE_MIN := 1
  const SCALE_MAX := 3

  datatype Size = Size(width: int, height: int)
  datatype Direction = Increase | Decrease

  /** `nodeData.prompt ?? ''`. */
  function PromptValue(d: NodeData): string {
    d.prompt.GetOr("")
  }

  /** `nodeData.outputScale ?? 1`. */
  function OutputScale(d: NodeData): int {
    d.outputScale.GetOr(SCALE_MIN)
  }

  /** The declared type of `outputScale`: absent or one of 1, 2, 3. */
  predicate ScaleTyped(d: NodeData) {
    d.outputScale.None? || SCALE_MIN <= d.outputScale.value <= SCALE_MAX
  }

  /** `nodeData.isProcessing` taken as a condition. */
  predicate Busy(d: NodeData) {
    d.isProcessing == Some(true)
  }

  /** `scaleToSize`: the preview box for each output scale; any value but 2 or 3 gets the smallest. */
  function ScaleToSize(scale: int): (r: Size)
    ensures scale == 3 ==> r == Size(420, 360)
    ensures scale == 2 ==> r == Size(360, 270)
    ensures scale != 2 && scale != 3 ==> r == Size(300, 180)
  {
    if scale == 3 then Size(420, 360)
    else if scale == 2 then Size(360, 270)
    else Size(300, 180)
  }

  /** A larger scale gives a strictly wider and taller preview. */
  lemma SizesGrowWithScale(a: int, b: int)
    requires SCALE_MIN <= a < b <= SCALE_MAX
    ensures ScaleToSize(a).width < ScaleToSize(b).width
    ensures ScaleToSize(a).height < ScaleToSize(b).height
  {
  }

  /** The stepper's next value: one up capped at 3, or one down floored at 1. */
  function NextScale(current: int, dir: Direction): (r: int)
    ensures dir.Increase? ==> r <= SCALE_MAX && (r == current + 1 || r == SCALE_MAX)
    ensures dir.Decrease? ==> r >= SCALE_MIN && (r == current - 1 || r == SCALE_MIN)
    ensures SCALE_MIN <= current <= SCALE_MAX ==> SCALE_MIN <= r <= SCALE_MAX
    ensures SCALE_MIN <= current <= SCALE_MAX ==>
      (r != current <==> (dir.Increase? && current < SCALE_MAX) || (dir.Decrease? && current > SCALE_MIN))
  {
    match dir
    case Increase => if current + 1 < SCALE_MAX then current + 1 else SCALE_MAX
    case Decrease => if current - 1 > SCALE_MIN then current - 1 else SCALE_MIN
  }

  /** Stepping up and back down returns to the start unless the cap was hit, and vice versa. */
  lemma StepsUndo(current: int)
    requires SCALE_MIN <= current <= SCALE_MAX
    ensures current < SCALE_MAX ==> NextScale(NextScale(current, Increase), Decrease) == current
    ensures current > SCALE_MIN ==> NextScale(NextScale(current, Decrease), Increase) == current
  {
  }

  /** `adjustOutputScale`: computes the next scale and writes it to the store only when it differs
      from the rendered one. */
  method AdjustOutputScale(store: Store, id: string, d: NodeData, dir: Direction) returns (next: int)
    requires ScaleTyped(d)
    modifies store
    ensures next == NextScale(OutputScale(d), dir) && SCALE_MIN <= next <= SCALE_MAX
    ensures next == OutputScale(d) ==> unchanged(store)
    ensures next != OutputScale(d) ==>
      store.nodes == WithUpdatedPromptNode(old(store.nodes), id, RescaleUpdater(next)) &&
      store.edges == EnhanceEdges(old(store.edges), store.nodes)
    ensures old(store.WellFormed()) ==> store.WellFormed()
  {
    next := NextScale(OutputScale(d), dir);
    if next != OutputScale(d) {
      store.UpdateOutputScale(id, next);
    }
  }

  /** `canSubmit`: a prompt with some non-whitespace character, on a node that is not busy. */
  function CanSubmit(d: NodeData): (r: bool)
    ensures r <==> HasContent(PromptValue(d)) && !Busy(d)
  {
    |Trim(PromptValue(d))| > 0 && !Busy(d)
  }

  /** A node the component lets submit always yields a request when its rendered data is the
      store's: the workflow then starts instead of reporting the missing prompt. */
  lemma SubmittableNodeHasRequest(nodes: seq<Node>, edges: seq<Edge>, id: string)
    requires FindNode(nodes, id).Some? && CanSubmit(FindNode(nodes, id).value.data)
    ensures WorkflowRequest(nodes, edges, id).Some?
  {
  }

  /** `runVisionWorkflow`: does nothing unless the node can submit; otherwise runs the workflow. */
  method RunVisionWorkflow(store: Store, id: string, d: NodeData, service: Request -> ServiceOutcome)
    returns (steps: seq<StoreStep>)
    modifies store
    ensures !CanSubmit(d) ==> steps == [] && unchanged(store)
    ensures CanSubmit(d) ==> steps == WorkflowSteps(old(store.nodes), old(store.edges), id, service)
    ensures old(store.WellFormed()) ==> store.WellFormed()
  {
    if !CanSubmit(d) {
      return [];
    }
    steps := ProcessConnectedNodes(store, id, service);
  }

  /** `handleRegenerate`: does nothing while the node is busy; otherwise runs the workflow. */
  method HandleRegenerate(store: Store, id: string, d: NodeData, service: Request -> ServiceOutcome)
    returns (steps: seq<StoreStep>)
    modifies store
    ensures Busy(d) ==> steps == [] && unchanged(store)
    ensures !Busy(d) ==> steps == WorkflowSteps(old(store.nodes), old(store.edges), id, service)
    ensures old(store.WellFormed()) ==> store.WellFormed()
  {
    if Busy(d) {
      return [];
    }
    steps := ProcessConnectedNodes(store, id, service);
  }

  /** The output source handle, rendered with id `<id>-output` only once an image was generated. */
  function OutputHandle(nodeId: string, d: NodeData): (r: Option<string>)
    ensures r.Some? <==> Truthy(d.generatedImageUrl)
    ensures r.Some? ==> StartsWith(r.value, nodeId) && |r.value| == |nodeId| + 7 && r.value[|nodeId|..] == "-output"
  {
    if Truthy(d.generatedImageUrl) then Some(nodeId + "-output") else None
  }

  /** A prompt node shows an output handle exactly when a drag may start from it. */
  lemma OutputHandleIffCanOriginate(n: Node)
    requires IsPromptNode(Some(n))
    ensures OutputHandle(n.id, n.data).Some? <==> CanOriginate(Some(n))
  {
    TagTestsExclusive(Some(n));
  }

  /** The patch `{ shouldFocus: false }`. */
  const FOCUS_CONSUMED := NoChange.(shouldFocus := Put(Some(false)))

  /** The focus effect: when the node asks for focus and its text area is mounted, the text area is
      focused and the request is cleared in the store, so it is honoured once. */
  method ConsumeFocus(store: Store, id: string, d: NodeData, mounted: bool) returns (consumed: bool)
    modifies store
    ensures consumed <==> d.shouldFocus == Some(true) && mounted
    ensures !consumed ==> unchanged(store)
    ensures consumed ==> store.nodes == WithUpdatedNode(old(store.nodes), id, WithPatch(FOCUS_CONSUMED))
    ensures consumed && HasNode(old(store.nodes), id) ==>
      DataAt(store.nodes, id).Some? && DataAt(store.nodes, id).value.shouldFocus == Some(false)
    ensures old(store.WellFormed()) ==> store.WellFormed()
  {
    consumed := d.shouldFocus == Some(true) && mounted;
    if !consumed {
      return;
    }
    var before := store.nodes;
    store.UpdateNodeData(id, FOCUS_CONSUMED);
    if HasNode(before, id) {
      DataAfterUpdate(before, id, WithPatch(FOCUS_CONSUMED));
    }
  }
}
