/** The canvas store: the node and edge lists the whole canvas reads, and the actions that replace
    them. Each action computes its new lists from the old ones with the functions of `CanvasGraph`;
    the actions that touch node state re-derive the edges, the others leave them as they were. */
module CanvasStore {
  import opened Wrappers
  import opened CanvasTypes
  import opened NodeUtils
  import opened CanvasGraph

  /** The part of the store written to local storage under the key `nano-canvas-storage`. */
  datatype PersistedCanvas = PersistedCanvas(nodes: seq<Node>, edges: seq<Edge>)

  const STORAGE_KEY := "nano-canvas-storage"

  class Store {
    var nodes: seq<Node>
    var edges: seq<Edge>

    /** Unique node ids, no dangling edge, every edge's state derived from the current nodes. */
    predicate WellFormed()
      reads this
    {
      UniqueNodeIds(nodes) && NoDangling(nodes, edges) && EdgesDerived(edges, nodes)
    }

    /** A fresh store holds the starter graph. */
    constructor()
      ensures nodes == InitialNodes() && edges == EnhanceEdges(InitialEdges(), InitialNodes())
      ensures WellFormed()
    {
      nodes := InitialNodes();
      edges := EnhanceEdges(InitialEdges(), InitialNodes());
      StarterGraph();
    }

    /** `handleNodesChange`: the flow library applies the changes; edges are not re-derived. */
    method HandleNodesChange<C>(changes: seq<C>, apply: (seq<C>, seq<Node>) -> seq<Node>)
      modifies this
      ensures nodes == apply(changes, old(nodes)) && edges == old(edges)
    {
      nodes := apply(changes, nodes);
    }

    /** `handleEdgesChange`: the flow library applies the changes, then the edges are re-derived. */
    method HandleEdgesChange<C>(changes: seq<C>, apply: (seq<C>, seq<Edge>) -> seq<Edge>)
      modifies this
      ensures nodes == old(nodes) && edges == EnhanceEdges(apply(changes, old(edges)), nodes)
      ensures EdgesDerived(edges, nodes)
    {
      edges := EnhanceEdges(apply(changes, edges), nodes);
    }

    /** `connect`: the flow library's `addEdge` adds the connection, then the edges are re-derived. */
    method Connect(c: ConnectionParams, addEdge: (ConnectionParams, seq<Edge>) -> seq<Edge>)
      modifies this
      ensures nodes == old(nodes) && edges == EnhanceEdges(addEdge(c, old(edges)), nodes)
      ensures EdgesDerived(edges, nodes)
    {
      edges := EnhanceEdges(addEdge(c, edges), nodes);
    }

    /** `addNode`: appends without checking the id; edges keep their state because lookup finds the
        first node with an id. */
    method AddNode(n: Node)
      modifies this
      ensures nodes == old(nodes) + [n] && edges == old(edges)
      ensures old(NoDangling(nodes, edges) && EdgesDerived(edges, nodes)) ==>
        NoDangling(nodes, edges) && EdgesDerived(edges, nodes)
      ensures old(WellFormed()) && !old(HasNode(nodes, n.id)) ==> WellFormed()
    {
      if NoDangling(nodes, edges) && EdgesDerived(edges, nodes) {
        AppendKeepsDerived(nodes, edges, n);
      }
      nodes := nodes + [n];
    }

    /** `addEdge`: appends the edge and re-derives all edges. */
    method AddEdge(e: Edge)
      modifies this
      ensures nodes == old(nodes) && edges == EnhanceEdges(old(edges) + [e], nodes)
      ensures |edges| == |old(edges)| + 1 && edges[|edges| - 1].id == e.id
      ensures old(WellFormed()) && HasNode(nodes, e.source) && HasNode(nodes, e.target) ==> WellFormed()
    {
      edges := EnhanceEdges(edges + [e], nodes);
    }

    /** `addNodeWithEdge`: appends the node, then the edge, and re-derives against the new nodes. */
    method AddNodeWithEdge(n: Node, e: Edge)
      modifies this
      ensures nodes == old(nodes) + [n] && edges == EnhanceEdges(old(edges) + [e], nodes)
      ensures (old(WellFormed()) && !old(HasNode(nodes, n.id)) &&
               HasNode(nodes, e.source) && HasNode(nodes, e.target)) ==> WellFormed()
    {
      var next := nodes + [n];
      if WellFormed() && !HasNode(nodes, n.id) && HasNode(next, e.source) && HasNode(next, e.target) {
        AppendKeepsDerived(nodes, edges, n);
        AppendFreshNode(nodes, n);
        NoDanglingEnhanced(next, edges + [e], next);
      }
      nodes := next;
      edges := EnhanceEdges(edges + [e], next);
    }

    /** `deleteNode`: removes the node and every edge touching it, then re-derives. */
    method DeleteNode(id: string)
      modifies this
      ensures nodes == WithoutNode(old(nodes), id)
      ensures edges == EnhanceEdges(WithoutIncidentEdges(old(edges), id), nodes)
      ensures !HasNode(nodes, id)
      ensures forall i :: 0 <= i < |edges| ==> edges[i].source != id && edges[i].target != id
      ensures old(WellFormed()) ==> WellFormed()
    {
      var ns := WithoutNode(nodes, id);
      var es := WithoutIncidentEdges(edges, id);
      if WellFormed() {
        NoDanglingAfterDelete(nodes, edges, id);
        UniqueAfterDelete(nodes, id);
        NoDanglingEnhanced(ns, es, ns);
      }
      assert forall i :: 0 <= i < |es| ==> es[i] in es;
      nodes := ns;
      edges := EnhanceEdges(es, ns);
    }

    /** `removeEdge`: removes every edge with the id, then re-derives. */
    method RemoveEdge(id: string)
      modifies this
      ensures nodes == old(nodes) && edges == EnhanceEdges(WithoutEdge(old(edges), id), nodes)
      ensures forall i :: 0 <= i < |edges| ==> edges[i].id != id
      ensures old(WellFormed()) ==> WellFormed()
    {
      var es := WithoutEdge(edges, id);
      if WellFormed() {
        NoDanglingWithoutEdge(nodes, edges, id);
        NoDanglingEnhanced(nodes, es, nodes);
      }
      assert forall i :: 0 <= i < |es| ==> es[i] in es;
      edges := EnhanceEdges(es, nodes);
    }

    /** `resetCanvas`: back to the starter graph. */
    method ResetCanvas()
      modifies this
      ensures nodes == InitialNodes() && edges == EnhanceEdges(InitialEdges(), InitialNodes())
      ensures WellFormed()
    {
      nodes := InitialNodes();
      edges := EnhanceEdges(InitialEdges(), InitialNodes());
      StarterGraph();
    }

    /** `createConnectedTextNode`: a prompt node `prompt-<count + 1>` at the point, wired from the
        source; the id is derived from the node count and may already be taken. */
    method CreateConnectedTextNode(sourceId: string, position: XY)
      modifies this
      ensures nodes == old(nodes) + [ConnectedTextNode(old(nodes), position)]
      ensures edges == EnhanceEdges(old(edges) + [ConnectedTextEdge(old(nodes), sourceId)], nodes)
      ensures (old(WellFormed()) && old(HasNode(nodes, sourceId)) &&
               !old(HasNode(nodes, ConnectedTextNode(nodes, position).id))) ==> WellFormed()
    {
      var n := ConnectedTextNode(nodes, position);
      var e := ConnectedTextEdge(nodes, sourceId);
      if WellFormed() && HasNode(nodes, sourceId) && !HasNode(nodes, n.id) {
        ConnectedTextNodeFresh(nodes, edges, sourceId, position);
      }
      AddNodeWithEdge(n, e);
    }

    /** `createConnectedImageTextNode`: an image node and a prompt node either side of the point,
        wired source -> image -> prompt, with count-based ids. */
    method CreateConnectedImageTextNode(sourceId: string, position: XY)
      modifies this
      ensures nodes == old(nodes) + [ConnectedImageNode(old(nodes), position), PairedTextNode(old(nodes), position)]
      ensures edges == EnhanceEdges(old(edges) + PairedEdges(old(nodes), sourceId), nodes)
      ensures EdgesDerived(edges, nodes)
    {
      var next := nodes + [ConnectedImageNode(nodes, position), PairedTextNode(nodes, position)];
      edges := EnhanceEdges(edges + PairedEdges(nodes, sourceId), next);
      nodes := next;
    }

    /** `updateNodeData`: merges the patch into the node's data; edges are not re-derived, so they
        stay valid only when the patch leaves `isProcessing` alone. */
    method UpdateNodeData(id: string, patch: NodeDataPatch)
      modifies this
      ensures nodes == WithUpdatedNode(old(nodes), id, WithPatch(patch))
      ensures SameIds(old(nodes), nodes)
      ensures edges == old(edges)
      ensures old(WellFormed()) && patch.isProcessing.Keep? ==> WellFormed()
    {
      var updater := WithPatch(patch);
      var next := WithUpdatedNode(nodes, id, updater);
      SameIdsSameShape(nodes, next, edges);
      if WellFormed() && patch.isProcessing.Keep? {
        DerivedKeptWhenProcessingUntouched(nodes, edges, id, updater);
      }
      nodes := next;
    }

    /** Re-derives the edges after a node update that keeps the ids. */
    method Rederive(next: seq<Node>)
      requires SameIds(nodes, next)
      modifies this
      ensures nodes == next && edges == EnhanceEdges(old(edges), next)
      ensures old(WellFormed()) ==> WellFormed()
    {
      SameIdsSameShape(nodes, next, edges);
      if WellFormed() {
        NoDanglingEnhanced(next, edges, next);
      }
      nodes := next;
      edges := EnhanceEdges(edges, next);
    }

    /** `uploadImageToNode`: sets the image, clears the error and the busy flags, re-derives. */
    method UploadImageToNode(id: string, url: string, blob: Option<Blob>)
      modifies this
      ensures nodes == WithUpdatedNode(old(nodes), id, UploadUpdater(url, blob))
      ensures SameIds(old(nodes), nodes)
      ensures edges == EnhanceEdges(old(edges), nodes)
      ensures old(WellFormed()) ==> WellFormed()
    {
      Rederive(WithUpdatedNode(nodes, id, UploadUpdater(url, blob)));
    }

    /** `updatePrompt`: new text and focus hint, error cleared; edges are not re-derived, which is
        safe because `isProcessing` is not touched. */
    method UpdatePrompt(id: string, prompt: string, shouldFocus: Option<bool>)
      modifies this
      ensures nodes == WithUpdatedNode(old(nodes), id, EditUpdater(prompt, shouldFocus))
      ensures SameIds(old(nodes), nodes)
      ensures edges == old(edges)
      ensures old(WellFormed()) ==> WellFormed()
    {
      var updater := EditUpdater(prompt, shouldFocus);
      var next := WithUpdatedNode(nodes, id, updater);
      SameIdsSameShape(nodes, next, edges);
      if WellFormed() {
        DerivedKeptWhenProcessingUntouched(nodes, edges, id, updater);
      }
      nodes := next;
    }

    /** `startProcessing`: the node is busy, its error cleared, and every edge at it is processing. */
    method StartProcessing(id: string)
      modifies this
      ensures nodes == WithUpdatedNode(old(nodes), id, ProcessingStarted)
      ensures SameIds(old(nodes), nodes)
      ensures edges == EnhanceEdges(old(edges), nodes)
      ensures old(WellFormed()) ==> WellFormed()
      ensures old(HasNode(nodes, id)) ==>
        forall i :: 0 <= i < |edges| && (edges[i].source == id || edges[i].target == id) ==>
          edges[i].state == Some(Processing)
    {
      var old_edges := edges;
      var before := nodes;
      Rederive(WithUpdatedNode(nodes, id, ProcessingStarted));
      if HasNode(before, id) {
        forall i | 0 <= i < |edges| && (edges[i].source == id || edges[i].target == id)
          ensures edges[i].state == Some(Processing)
        {
          StartMarksIncidentEdges(before, id, old_edges[i]);
        }
      }
    }

    /** `stopProcessing`: the node is no longer busy; edges are re-derived. */
    method StopProcessing(id: string)
      modifies this
      ensures nodes == WithUpdatedNode(old(nodes), id, ProcessingStopped)
      ensures SameIds(old(nodes), nodes)
      ensures edges == EnhanceEdges(old(edges), nodes)
      ensures old(WellFormed()) ==> WellFormed()
    {
      Rederive(WithUpdatedNode(nodes, id, ProcessingStopped));
    }

    /** `setGeneratedImage`: records the result on a prompt node; other kinds are left alone. */
    method SetGeneratedImage(id: string, url: string, blob: Option<Blob>, model: Option<string>, usage: Option<Usage>)
      modifies this
      ensures nodes == WithUpdatedPromptNode(old(nodes), id, GenerateUpdater(url, blob, model, usage))
      ensures SameIds(old(nodes), nodes)
      ensures edges == EnhanceEdges(old(edges), nodes)
      ensures old(WellFormed()) ==> WellFormed()
    {
      Rederive(WithUpdatedPromptNode(nodes, id, GenerateUpdater(url, blob, model, usage)));
    }

    /** `setError`: records the message and clears the busy flags; edges are re-derived. */
    method SetError(id: string, message: string)
      modifies this
      ensures nodes == WithUpdatedNode(old(nodes), id, FailUpdater(message))
      ensures SameIds(old(nodes), nodes)
      ensures edges == EnhanceEdges(old(edges), nodes)
      ensures old(WellFormed()) ==> WellFormed()
    {
      Rederive(WithUpdatedNode(nodes, id, FailUpdater(message)));
    }

    /** `clearResult`: drops the generated image, model and usage of a prompt node, scale back to 1. */
    method ClearResult(id: string)
      modifies this
      ensures nodes == WithUpdatedPromptNode(old(nodes), id, ResultCleared)
      ensures SameIds(old(nodes), nodes)
      ensures edges == EnhanceEdges(old(edges), nodes)
      ensures old(WellFormed()) ==> WellFormed()
    {
      Rederive(WithUpdatedPromptNode(nodes, id, ResultCleared));
    }

    /** `updateOutputScale`: sets the scale of a prompt node. */
    method UpdateOutputScale(id: string, scale: int)
      requires 1 <= scale <= 3
      modifies this
      ensures nodes == WithUpdatedPromptNode(old(nodes), id, RescaleUpdater(scale))
      ensures SameIds(old(nodes), nodes)
      ensures edges == EnhanceEdges(old(edges), nodes)
      ensures old(WellFormed()) ==> WellFormed()
    {
      Rederive(WithUpdatedPromptNode(nodes, id, RescaleUpdater(scale)));
    }

    /** `partialize`: only the graph is persisted. */
    function Partialize(): (r: PersistedCanvas)
      reads this
      ensures r.nodes == nodes && r.edges == edges
    {
      PersistedCanvas(nodes, edges)
    }

    /** Restoring a persisted graph: a store rehydrated from a snapshot partializes to that snapshot. */
    method Rehydrate(saved: PersistedCanvas)
      modifies this
      ensures Partialize() == saved
    {
      nodes := saved.nodes;
      edges := saved.edges;
    }
  }
}
