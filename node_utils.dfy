/** Node factory and capability predicates of the canvas: construction of prompt, image and edge
    records, the type-tag tests, and counting nodes by tag. */
module NodeUtils {
  import opened Wrappers
  import opened Text
  import opened CanvasTypes
  import opened Seqs

  /** `generateId(prefix)`. The random part (a UUID, or a clock-and-random string) is an oracle
      supplied by the caller. */
  function GenerateId(prefix: string, random: string): (id: string)
    ensures StartsWith(id, prefix + "-")
  {
    prefix + "-" + random
  }

  /** `withDefaultPosition`: each non-finite coordinate becomes 0, independently of the other. */
  function WithDefaultPosition(p: XY): (r: XY)
    ensures r.x.Finite? && r.y.Finite?
    ensures p.x.Finite? ==> r.x == p.x
    ensures p.y.Finite? ==> r.y == p.y
    ensures !p.x.Finite? ==> r.x == Finite(0.0)
    ensures !p.y.Finite? ==> r.y == Finite(0.0)
  {
    XY(if p.x.Finite? then p.x else Finite(0.0), if p.y.Finite? then p.y else Finite(0.0))
  }

  /** The label a new node gets when the overrides do not name one. */
  function OrdinalLabel(word: string, index: int): string {
    word + " " + IntToString(index)
  }

  /** `createPromptNode(position, index, overrides)`: a `promptNode` with an empty prompt and a
      pending focus, under a fresh `prompt-` id; every key of `overrides` wins. */
  function CreatePromptNode(position: XY, index: int, overrides: NodeDataPatch, random: string): (n: Node)
    ensures n.kind == Some(PROMPT_NODE)
    ensures StartsWith(n.id, "prompt-")
    ensures n.position == WithDefaultPosition(position)
    ensures PatchHolds(overrides, n.data)
    ensures overrides.labelText.Keep? ==> n.data.labelText == OrdinalLabel("Prompt", index)
    ensures overrides.prompt.Keep? ==> n.data.prompt == Some("")
    ensures overrides.shouldFocus.Keep? ==> n.data.shouldFocus == Some(true)
    ensures overrides.isProcessing.Keep? ==> n.data.isProcessing.None?
    ensures overrides.generatedImageUrl.Keep? ==> n.data.generatedImageUrl.None?
    ensures overrides.error.Keep? ==> n.data.error.None?
  {
    var defaults := LabelOnly(overrides.labelText.Over(OrdinalLabel("Prompt", index)))
      .(prompt := Some(""), shouldFocus := Some(true));
    Node(GenerateId("prompt", random), Some(PROMPT_NODE), WithDefaultPosition(position),
         Merge(defaults, overrides))
  }

  /** `createImageNode(position, index, overrides)`: an `imageNode` under a fresh `image-` id,
      labelled `Image <index>` unless the overrides say otherwise. */
  function CreateImageNode(position: XY, index: int, overrides: NodeDataPatch, random: string): (n: Node)
    ensures n.kind == Some(IMAGE_NODE)
    ensures StartsWith(n.id, "image-")
    ensures n.position == WithDefaultPosition(position)
    ensures PatchHolds(overrides, n.data)
    ensures overrides.labelText.Keep? ==> n.data.labelText == OrdinalLabel("Image", index)
    ensures overrides.imageUrl.Keep? ==> n.data.imageUrl.None?
    ensures overrides.isProcessing.Keep? ==> n.data.isProcessing.None?
  {
    var defaults := LabelOnly(overrides.labelText.Over(OrdinalLabel("Image", index)));
    Node(GenerateId("image", random), Some(IMAGE_NODE), WithDefaultPosition(position),
         Merge(defaults, overrides))
  }

  /** `isPromptNode(node)`: the node is present and tagged `promptNode`. */
  predicate IsPromptNode(n: Option<Node>) {
    n.Some? && n.value.kind == Some(PROMPT_NODE)
  }

  /** `isImageNode(node)`: the node is present and tagged `imageNode`. */
  predicate IsImageNode(n: Option<Node>) {
    n.Some? && n.value.kind == Some(IMAGE_NODE)
  }

  /** The two tag tests never hold together, and neither holds of a missing node. */
  lemma TagTestsExclusive(n: Option<Node>)
    ensures !(IsPromptNode(n) && IsImageNode(n))
    ensures !IsPromptNode(None) && !IsImageNode(None)
  {
  }

  /** `createSmoothEdge({ source, target, id, data })`: a `smoothstep` edge between the given
      endpoints; without an id it is named `<source>-<target>-<stamp>`, the stamp standing for
      `Date.now().toString(36)`. */
  function CreateSmoothEdge(source: string, target: string, id: Option<string>,
                            state: Option<EdgeState>, stamp: string): (e: Edge)
    ensures e.source == source && e.target == target
    ensures e.kind == Some("smoothstep")
    ensures id.Some? ==> e.id == id.value
    ensures id.None? ==> StartsWith(e.id, source + "-" + target + "-")
    ensures e.state == state
  {
    Edge(id.GetOr(source + "-" + target + "-" + stamp), source, target, Some("smoothstep"),
         None, state, None, None, None)
  }

  /** `nodes.filter((node) => node.type === t)`. */
  function NodesOfType(nodes: seq<Node>, t: string): (r: seq<Node>)
    ensures |r| <= |nodes|
    ensures forall n :: n in r <==> n in nodes && n.kind == Some(t)
  {
    Filter(nodes, HasTag(t))
  }

  /** The filter test of `getNodesByType`. */
  function HasTag(t: string): Node -> bool {
    (n: Node) => n.kind == Some(t)
  }

  /** A single node is kept exactly when it carries the tag. */
  lemma NodesOfTypeOne(n: Node, t: string)
    ensures NodesOfType([n], t) == if n.kind == Some(t) then [n] else []
  {
    assert [n][1..] == [];
  }

  /** Selecting by tag distributes over concatenation, so the selection keeps the nodes' order. */
  lemma NodesOfTypeConcat(a: seq<Node>, b: seq<Node>, t: string)
    ensures NodesOfType(a + b, t) == NodesOfType(a, t) + NodesOfType(b, t)
  {
    FilterConcat(a, b, HasTag(t));
  }

  /** `countNodesByType(nodes, t)`: how many nodes carry the tag `t`. */
  function CountNodesByType(nodes: seq<Node>, t: string): (r: nat)
    ensures r <= |nodes|
  {
    |NodesOfType(nodes, t)|
  }

  /** Counts add up over concatenation, and a single node counts one exactly when it carries the tag. */
  lemma CountNodesByTypeConcat(a: seq<Node>, b: seq<Node>, n: Node, t: string)
    ensures CountNodesByType(a + b, t) == CountNodesByType(a, t) + CountNodesByType(b, t)
    ensures CountNodesByType([n], t) == if n.kind == Some(t) then 1 else 0
  {
    NodesOfTypeConcat(a, b, t);
    NodesOfTypeOne(n, t);
  }

  /** Nodes carry one tag each, so the counts of two different tags add up to at most the node count. */
  lemma {:induction false} CountsOfDistinctTags(nodes: seq<Node>, t1: string, t2: string)
    requires t1 != t2
    ensures CountNodesByType(nodes, t1) + CountNodesByType(nodes, t2) <= |nodes|
  {
    if nodes != [] {
      CountsOfDistinctTags(nodes[1..], t1, t2);
    }
  }

  /** The count equals the node count exactly when every node carries the tag. */
  lemma {:induction false} CountIsTotalIffAllTagged(nodes: seq<Node>, t: string)
    ensures CountNodesByType(nodes, t) == |nodes| <==> forall i :: 0 <= i < |nodes| ==> nodes[i].kind == Some(t)
  {
    if nodes != [] {
      CountIsTotalIffAllTagged(nodes[1..], t);
      assert forall i :: 1 <= i < |nodes| ==> nodes[i] == nodes[1..][i - 1];
    }
  }
}
