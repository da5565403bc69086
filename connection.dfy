/** The connection gesture: dragging from a node's source handle either links to another handle
    (the flow library reports it through `onConnect`) or ends over empty canvas, where a new prompt
    node is spawned and wired to the origin. The event handlers are the methods of a controller;
    the store callbacks it is given are recorded, in order, in an outbox. */
module Connection {
  import opened Wrappers
  import opened Text
  import opened CanvasTypes
  import opened NodeUtils
  import opened CanvasGraph

  /** A point in screen coordinates. */
  datatype ClientPoint = ClientPoint(x: real, y: real)

  /** A mouse event carries its client point; a touch event carries its touch lists. */
  datatype PointerEvent =
    | Mouse(clientX: real, clientY: real)
    | Touch(touches: seq<ClientPoint>, changedTouches: seq<ClientPoint>)

  /** `getClientPoint`: the mouse position, else the first active touch, else the first changed
      touch, else nothing. */
  function ClientPointOf(ev: PointerEvent): (r: Option<ClientPoint>)
    ensures ev.Mouse? ==> r == Some(ClientPoint(ev.clientX, ev.clientY))
    ensures ev.Touch? && |ev.touches| > 0 ==> r == Some(ev.touches[0])
    ensures ev.Touch? && |ev.touches| == 0 && |ev.changedTouches| > 0 ==> r == Some(ev.changedTouches[0])
    ensures r.None? <==> ev.Touch? && |ev.touches| == 0 && |ev.changedTouches| == 0
  {
    match ev
    case Mouse(x, y) => Some(ClientPoint(x, y))
    case Touch(ts, cs) =>
      if |ts| > 0 then Some(ts[0]) else if |cs| > 0 then Some(cs[0]) else None
  }

  datatype HandleType = SourceHandle | TargetHandle

  /** The active origin of a gesture (`ConnectionStart` when not null). */
  datatype Origin = Origin(nodeId: string, handleType: HandleType)

  /** The floating indicator that follows the pointer during a gesture. */
  datatype DragIndicator = DragIndicator(x: real, y: real, visible: bool)

  const INDICATOR_DEFAULT := DragIndicator(0.0, 0.0, false)

  /** The store callbacks the controller invokes. */
  datatype StoreCall =
    | ConnectCall(connection: ConnectionParams)
    | AddNodeWithEdgeCall(node: Node, edge: Edge)

  /** A node can be the origin of a gesture, and spawn a prompt node, when it is an image node or
      a prompt node that already holds a generated image. */
  predicate CanOriginate(n: Option<Node>) {
    IsImageNode(n) || (IsPromptNode(n) && Truthy(n.value.data.generatedImageUrl))
  }

  /** The prompt node spawned where the pointer was released: 60 above the flow position of the
      pointer, labelled after the number of prompt nodes already on the canvas. */
  function SpawnedNode(nodes: seq<Node>, flow: XY, random: string): (n: Node)
    ensures IsPromptNode(Some(n)) && StartsWith(n.id, "prompt-")
    ensures n.position == WithDefaultPosition(XY(flow.x, Minus(flow.y, 60.0)))
    ensures n.data.labelText == OrdinalLabel("Prompt", CountNodesByType(nodes, PROMPT_NODE) + 1)
    ensures n.data.prompt == Some("") && n.data.shouldFocus == Some(true)
    ensures !CanOriginate(Some(n))
  {
    CreatePromptNode(XY(flow.x, Minus(flow.y, 60.0)), CountNodesByType(nodes, PROMPT_NODE) + 1,
                     NoChange, random)
  }

  /** The edge from the origin to the spawned node. */
  function SpawnedEdge(originId: string, target: Node, stamp: string): (e: Edge)
    ensures e.source == originId && e.target == target.id && e.kind == Some(EDGE_TYPE)
    ensures StartsWith(e.id, originId + "-" + target.id + "-")
  {
    CreateSmoothEdge(originId, target.id, None, None, stamp)
  }

  class ConnectionController {
    /** The `connectionStart` state of the hook. */
    var connectionStart: Option<Origin>
    /** The `dragIndicator` state of the hook. */
    var indicator: DragIndicator
    /** `connectionCompletedRef`: set once the flow library has reported a link. */
    var completed: bool
    /** `connectionStartRef`: the origin as the event handlers see it, updated synchronously. */
    var startRef: Option<Origin>
    /** `nodesRef`: the nodes as of the last render. */
    var nodesRef: seq<Node>
    /** Whether the document pointer listeners are attached. */
    var listening: bool
    /** Every store callback invoked so far, in order. */
    var calls: seq<StoreCall>

    /** Ref and state agree, and the indicator is visible exactly while a gesture is active
        (hidden at the origin otherwise). */
    predicate Valid()
      reads this
    {
      && startRef == connectionStart
      && (startRef.None? ==> indicator == INDICATOR_DEFAULT)
      && (startRef.Some? ==> indicator.visible && startRef.value.handleType == SourceHandle)
    }

    /** No gesture in progress: no origin, indicator hidden at (0, 0), latch cleared. */
    predicate AtRest()
      reads this
    {
      connectionStart.None? && startRef.None? && indicator == INDICATOR_DEFAULT && !completed
    }

    /** The hook's first render. */
    constructor(nodes: seq<Node>)
      ensures AtRest() && Valid() && !listening && calls == [] && nodesRef == nodes
    {
      connectionStart := None;
      indicator := INDICATOR_DEFAULT;
      completed := false;
      startRef := None;
      nodesRef := nodes;
      listening := false;
      calls := [];
    }

    /** The effects after a render with `nodes`: the nodes ref follows the store and the document
        listeners are attached exactly while an origin is recorded. */
    method Commit(nodes: seq<Node>)
      requires Valid()
      modifies this
      ensures nodesRef == nodes && listening == connectionStart.Some?
      ensures startRef == old(startRef) && connectionStart == old(connectionStart)
      ensures indicator == old(indicator) && completed == old(completed) && calls == old(calls)
      ensures Valid()
    {
      nodesRef := nodes;
      startRef := connectionStart;
      listening := connectionStart.Some?;
    }

    /** `resetConnectionState`. */
    method ResetConnectionState()
      modifies this
      ensures AtRest() && Valid()
      ensures nodesRef == old(nodesRef) && listening == old(listening) && calls == old(calls)
    {
      connectionStart := None;
      indicator := INDICATOR_DEFAULT;
      startRef := None;
      completed := false;
    }

    /** `safeConnect` (`onConnect`): forwards the link to the store once and sets the latch. */
    method SafeConnect(c: ConnectionParams)
      requires Valid()
      modifies this
      ensures calls == old(calls) + [ConnectCall(c)] && completed
      ensures startRef == old(startRef) && connectionStart == old(connectionStart)
      ensures indicator == old(indicator) && nodesRef == old(nodesRef) && listening == old(listening)
      ensures Valid()
    {
      calls := calls + [ConnectCall(c)];
      completed := true;
    }

    /** `finalizeConnection(point)`. With no active origin nothing happens. Otherwise the gesture
        ends at rest; a prompt node and an edge are added only when there is a point, no link was
        reported, and the origin still exists and may spawn. */
    method FinalizeConnection(point: Option<ClientPoint>, toFlow: ClientPoint -> XY,
                              random: string, stamp: string)
      requires Valid()
      modifies this
      ensures old(startRef).None? ==>
        startRef == old(startRef) && connectionStart == old(connectionStart) &&
        indicator == old(indicator) && completed == old(completed) && calls == old(calls)
      ensures old(startRef).Some? ==> AtRest()
      ensures old(startRef).Some? &&
              (point.None? || old(completed) || !CanOriginate(FindNode(old(nodesRef), old(startRef).value.nodeId)))
        ==> calls == old(calls)
      ensures old(startRef).Some? && point.Some? && !old(completed) &&
              CanOriginate(FindNode(old(nodesRef), old(startRef).value.nodeId))
        ==> var n := SpawnedNode(old(nodesRef), toFlow(point.value), random);
            calls == old(calls) + [AddNodeWithEdgeCall(n, SpawnedEdge(old(startRef).value.nodeId, n, stamp))]
      ensures nodesRef == old(nodesRef) && listening == old(listening)
      ensures Valid()
    {
      if startRef.None? {
        return;
      }
      var active := startRef.value;
      if point.None? || completed {
        ResetConnectionState();
        return;
      }
      var source := FindNode(nodesRef, active.nodeId);
      if source.None? {
        ResetConnectionState();
        return;
      }
      var canSpawnPrompt := IsImageNode(source) ||
        (IsPromptNode(source) && Truthy(source.value.data.generatedImageUrl));
      if !canSpawnPrompt {
        ResetConnectionState();
        return;
      }
      var newNode := SpawnedNode(nodesRef, toFlow(point.value), random);
      var newEdge := SpawnedEdge(active.nodeId, newNode, stamp);
      calls := calls + [AddNodeWithEdgeCall(newNode, newEdge)];
      ResetConnectionState();
    }

    /** `handleConnectStart`: records the origin only for a source handle of an existing image node,
        or of a prompt node holding a generated image, and only when the event has a point. */
    method HandleConnectStart(ev: PointerEvent, nodeId: Option<string>, handleType: Option<HandleType>)
      requires Valid()
      modifies this
      ensures var ok := handleType == Some(SourceHandle) && Truthy(nodeId) && ClientPointOf(ev).Some?
                        && CanOriginate(FindNode(old(nodesRef), nodeId.value));
        && (!ok ==> startRef == old(startRef) && connectionStart == old(connectionStart) &&
                    indicator == old(indicator) && completed == old(completed))
        && (ok ==> var p := ClientPointOf(ev).value;
                   startRef == Some(Origin(nodeId.value, SourceHandle)) && connectionStart == startRef &&
                   indicator == DragIndicator(p.x, p.y, true) && !completed)
      ensures calls == old(calls) && nodesRef == old(nodesRef) && listening == old(listening)
      ensures Valid()
    {
      if handleType != Some(SourceHandle) || !Truthy(nodeId) {
        return;
      }
      var point := ClientPointOf(ev);
      if point.None? {
        return;
      }
      var sourceNode := FindNode(nodesRef, nodeId.value);
      if sourceNode.None? {
        return;
      }
      if !IsImageNode(sourceNode) && !IsPromptNode(sourceNode) {
        return;
      }
      if IsPromptNode(sourceNode) && !Truthy(sourceNode.value.data.generatedImageUrl) {
        return;
      }
      var info := Origin(nodeId.value, SourceHandle);
      connectionStart := Some(info);
      indicator := DragIndicator(point.value.x, point.value.y, true);
      completed := false;
      startRef := Some(info);
    }

    /** `handleConnectEnd`: finalizes with the event's point. */
    method HandleConnectEnd(ev: PointerEvent, toFlow: ClientPoint -> XY, random: string, stamp: string)
      requires Valid()
      modifies this
      ensures old(startRef).None? ==>
        startRef == old(startRef) && indicator == old(indicator) && calls == old(calls)
      ensures old(startRef).Some? ==> AtRest()
      ensures old(startRef).Some? && (ClientPointOf(ev).None? || old(completed) ||
                                      !CanOriginate(FindNode(old(nodesRef), old(startRef).value.nodeId)))
        ==> calls == old(calls)
      ensures old(startRef).Some? && ClientPointOf(ev).Some? && !old(completed) &&
              CanOriginate(FindNode(old(nodesRef), old(startRef).value.nodeId))
        ==> var n := SpawnedNode(old(nodesRef), toFlow(ClientPointOf(ev).value), random);
            calls == old(calls) + [AddNodeWithEdgeCall(n, SpawnedEdge(old(startRef).value.nodeId, n, stamp))]
      ensures nodesRef == old(nodesRef) && listening == old(listening)
      ensures Valid()
    {
      FinalizeConnection(ClientPointOf(ev), toFlow, random, stamp);
    }

    /** The document `mousemove`/`touchmove` listener: moves the indicator while an origin is active. */
    method DispatchPointerMove(ev: PointerEvent)
      requires Valid()
      modifies this
      ensures listening && old(startRef).Some? && ClientPointOf(ev).Some? ==>
        indicator == DragIndicator(ClientPointOf(ev).value.x, ClientPointOf(ev).value.y, true)
      ensures !(listening && old(startRef).Some? && ClientPointOf(ev).Some?) ==> indicator == old(indicator)
      ensures startRef == old(startRef) && connectionStart == old(connectionStart) && completed == old(completed)
      ensures calls == old(calls) && nodesRef == old(nodesRef) && listening == old(listening)
      ensures Valid()
    {
      if !listening || startRef.None? {
        return;
      }
      var point := ClientPointOf(ev);
      if point.None? {
        return;
      }
      indicator := DragIndicator(point.value.x, point.value.y, true);
    }

    /** The document `mouseup`/`touchend` listener: finalizes while an origin is active, and
        otherwise only hides the indicator. */
    method DispatchPointerUp(ev: PointerEvent, toFlow: ClientPoint -> XY, random: string, stamp: string)
      requires Valid()
      modifies this
      ensures !listening ==> indicator == old(indicator) && calls == old(calls) && startRef == old(startRef)
      ensures listening && old(startRef).None? ==> indicator == INDICATOR_DEFAULT && calls == old(calls)
      ensures listening && old(startRef).Some? ==> AtRest()
      ensures listening && old(startRef).Some? &&
              (ClientPointOf(ev).None? || old(completed) ||
               !CanOriginate(FindNode(old(nodesRef), old(startRef).value.nodeId)))
        ==> calls == old(calls)
      ensures listening && old(startRef).Some? && ClientPointOf(ev).Some? && !old(completed) &&
              CanOriginate(FindNode(old(nodesRef), old(startRef).value.nodeId))
        ==> var n := SpawnedNode(old(nodesRef), toFlow(ClientPointOf(ev).value), random);
            calls == old(calls) + [AddNodeWithEdgeCall(n, SpawnedEdge(old(startRef).value.nodeId, n, stamp))]
      ensures nodesRef == old(nodesRef) && listening == old(listening)
      ensures Valid()
    {
      if !listening {
        return;
      }
      if startRef.Some? {
        FinalizeConnection(ClientPointOf(ev), toFlow, random, stamp);
      } else {
        indicator := INDICATOR_DEFAULT;
      }
    }
  }

  /** A drag from a node that may spawn, released over empty canvas: `onConnectEnd` and then the
      document `mouseup` of the same release (before any re-render) yield exactly one
      `addNodeWithEdge` call, for a prompt node 60 above the release point wired from the origin. */
  method SpawnGesture(nodes: seq<Node>, originId: string, down: ClientPoint, up: ClientPoint,
                      toFlow: ClientPoint -> XY, random: string, stamp: string)
    returns (calls: seq<StoreCall>)
    requires originId != "" && CanOriginate(FindNode(nodes, originId))
    ensures |calls| == 1 && calls[0].AddNodeWithEdgeCall?
    ensures calls[0].node == SpawnedNode(nodes, toFlow(up), random)
    ensures calls[0].edge.source == originId && calls[0].edge.target == calls[0].node.id
  {
    var c := new ConnectionController(nodes);
    c.Commit(nodes);
    c.HandleConnectStart(Mouse(down.x, down.y), Some(originId), Some(SourceHandle));
    c.Commit(nodes);
    c.HandleConnectEnd(Mouse(up.x, up.y), toFlow, random, stamp);
    c.DispatchPointerUp(Mouse(up.x, up.y), toFlow, random, stamp);
    calls := c.calls;
  }

  /** A drag that the flow library completes as a link: the link is forwarded once, and neither the
      end event nor the document `mouseup` that follows spawns anything. */
  method LinkGesture(nodes: seq<Node>, originId: string, down: ClientPoint, up: ClientPoint,
                     link: ConnectionParams, toFlow: ClientPoint -> XY, random: string, stamp: string)
    returns (calls: seq<StoreCall>)
    requires originId != "" && CanOriginate(FindNode(nodes, originId))
    ensures calls == [ConnectCall(link)]
  {
    var c := new ConnectionController(nodes);
    c.Commit(nodes);
    c.HandleConnectStart(Mouse(down.x, down.y), Some(originId), Some(SourceHandle));
    c.Commit(nodes);
    c.SafeConnect(link);
    c.HandleConnectEnd(Mouse(up.x, up.y), toFlow, random, stamp);
    c.DispatchPointerUp(Mouse(up.x, up.y), toFlow, random, stamp);
    calls := c.calls;
  }

  /** A drag from a prompt node without a result never starts, so releasing it changes nothing. */
  method RejectedGesture(nodes: seq<Node>, originId: string, down: ClientPoint, up: ClientPoint,
                         toFlow: ClientPoint -> XY, random: string, stamp: string)
    returns (calls: seq<StoreCall>, indicator: DragIndicator)
    requires !CanOriginate(FindNode(nodes, originId))
    ensures calls == [] && indicator == INDICATOR_DEFAULT
  {
    var c := new ConnectionController(nodes);
    c.Commit(nodes);
    c.HandleConnectStart(Mouse(down.x, down.y), Some(originId), Some(SourceHandle));
    c.Commit(nodes);
    c.HandleConnectEnd(Mouse(up.x, up.y), toFlow, random, stamp);
    c.DispatchPointerUp(Mouse(up.x, up.y), toFlow, random, stamp);
    calls, indicator := c.calls, c.indicator;
  }
}
