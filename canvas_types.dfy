/** The records of the graph: nodes of the canvas with their data, and the edges between them
    (the `Node`/`Edge` shapes of the flow library and the node data interfaces of the store). */
module CanvasTypes {
  import opened Wrappers

  /** A JavaScript number used as a pixel coordinate: a finite value, or NaN/±Infinity. */
  datatype Coord = Finite(value: real) | NonFinite

  /** `c - d`: NaN and the infinities stay non-finite. */
  function Minus(c: Coord, d: real): Coord {
    match c
    case Finite(v) => Finite(v - d)
    case NonFinite => NonFinite
  }

  /** `c + d`: NaN and the infinities stay non-finite. */
  function Plus(c: Coord, d: real): Coord {
    match c
    case Finite(v) => Finite(v + d)
    case NonFinite => NonFinite
  }

  /** A point `{ x, y }`. */
  datatype XY = XY(x: Coord, y: Coord)

  /** An opaque `Blob` handle: the model never looks inside one. */
  datatype Blob = Blob(handle: nat)

  /** Token counters of one generation. */
  datatype Usage = Usage(promptTokens: int, completionTokens: int, totalTokens: int)

  /** The data object of a node. JavaScript objects are open, so one record carries every key that
      an image node (`imageUrl`, `imageBlob`) or a prompt node (`prompt`, `generatedImageUrl`, ...)
      may hold; `None` is an absent or `undefined` key. */
  datatype NodeData = NodeData(
    labelText: string,
    prompt: Option<string>,
    imageUrl: Option<string>,
    imageBlob: Option<Blob>,
    generatedImageUrl: Option<string>,
    generatedImageBlob: Option<Blob>,
    model: Option<string>,
    usage: Option<Usage>,
    outputScale: Option<int>,
    error: Option<string>,
    isProcessing: Option<bool>,
    isLoading: Option<bool>,
    shouldFocus: Option<bool>)

  /** A data object holding only a label. */
  function LabelOnly(text: string): NodeData {
    NodeData(text, None, None, None, None, None, None, None, None, None, None, None, None)
  }

  /** A `Partial<CustomNodeData>` object: each key is either absent or present with a value,
      where a present value may itself be `undefined`. */
  datatype NodeDataPatch = NodeDataPatch(
    labelText: Update<string>,
    prompt: Update<Option<string>>,
    imageUrl: Update<Option<string>>,
    imageBlob: Update<Option<Blob>>,
    generatedImageUrl: Update<Option<string>>,
    generatedImageBlob: Update<Option<Blob>>,
    model: Update<Option<string>>,
    usage: Update<Option<Usage>>,
    outputScale: Update<Option<int>>,
    error: Update<Option<string>>,
    isProcessing: Update<Option<bool>>,
    isLoading: Update<Option<bool>>,
    shouldFocus: Update<Option<bool>>)

  /** The empty patch `{}`. */
  const NoChange := NodeDataPatch(Keep, Keep, Keep, Keep, Keep, Keep, Keep, Keep, Keep, Keep, Keep, Keep, Keep)

  /** `{ ...d, ...p }`: every key present in the patch wins, every other key keeps its value. */
  function Merge(d: NodeData, p: NodeDataPatch): NodeData {
    NodeData(
      p.labelText.Over(d.labelText), p.prompt.Over(d.prompt), p.imageUrl.Over(d.imageUrl),
      p.imageBlob.Over(d.imageBlob), p.generatedImageUrl.Over(d.generatedImageUrl),
      p.generatedImageBlob.Over(d.generatedImageBlob), p.model.Over(d.model),
      p.usage.Over(d.usage), p.outputScale.Over(d.outputScale), p.error.Over(d.error),
      p.isProcessing.Over(d.isProcessing), p.isLoading.Over(d.isLoading),
      p.shouldFocus.Over(d.shouldFocus))
  }

  /** Every key present in `p` has its patched value in `d`. */
  predicate PatchHolds(p: NodeDataPatch, d: NodeData) {
    && (p.labelText.Put? ==> d.labelText == p.labelText.value)
    && (p.prompt.Put? ==> d.prompt == p.prompt.value)
    && (p.imageUrl.Put? ==> d.imageUrl == p.imageUrl.value)
    && (p.imageBlob.Put? ==> d.imageBlob == p.imageBlob.value)
    && (p.generatedImageUrl.Put? ==> d.generatedImageUrl == p.generatedImageUrl.value)
    && (p.generatedImageBlob.Put? ==> d.generatedImageBlob == p.generatedImageBlob.value)
    && (p.model.Put? ==> d.model == p.model.value)
    && (p.usage.Put? ==> d.usage == p.usage.value)
    && (p.outputScale.Put? ==> d.outputScale == p.outputScale.value)
    && (p.error.Put? ==> d.error == p.error.value)
    && (p.isProcessing.Put? ==> d.isProcessing == p.isProcessing.value)
    && (p.isLoading.Put? ==> d.isLoading == p.isLoading.value)
    && (p.shouldFocus.Put? ==> d.shouldFocus == p.shouldFocus.value)
  }

  /** A graph vertex. `kind` is the flow library's `type` tag. */
  datatype Node = Node(id: string, kind: Option<string>, position: XY, data: NodeData)

  const PROMPT_NODE := "promptNode"
  const IMAGE_NODE := "imageNode"

  /** The state derived for an edge from its endpoints. */
  datatype EdgeState = Idle | Processing {
    /** The string form, `'idle'` or `'processing'`. */
    function Name(): string {
      match this
      case Idle => "idle"
      case Processing => "processing"
    }
  }

  /** A graph edge. `state` is `data.state`, `strokeDasharray` is `style.strokeDasharray` and
      `borderRadius` is `pathOptions.borderRadius`; `None` is an absent key. */
  datatype Edge = Edge(
    id: string,
    source: string,
    target: string,
    kind: Option<string>,
    animated: Option<bool>,
    state: Option<EdgeState>,
    className: Option<string>,
    strokeDasharray: Option<string>,
    borderRadius: Option<int>)

  /** The `Connection` the flow library hands to `onConnect`: endpoints and optional handle ids. */
  datatype ConnectionParams = ConnectionParams(source: string, target: string,
                                               sourceHandle: Option<string>, targetHandle: Option<string>)

  /** A JavaScript truthiness test of an optional string: present and not `''`. */
  predicate Truthy(s: Option<string>) {
    s.Some? && s.value != ""
  }

  /** A JavaScript truthiness test of an optional flag. */
  predicate IsSet(b: Option<bool>) {
    b == Some(true)
  }
}
