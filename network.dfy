/**
 * The graph the network view draws: one node per message and one link from each message's parent
 * to the message, with the node attributes the view sets. The d3 force layout, zoom and drag are
 * not part of this model.
 */
module Network {
  import opened Wrappers
  import opened Types
  import opened Seqs

  /** A node of the simulation; `content` is the message's preview. */
  datatype GraphNode = GraphNode(id: string, role: Role, content: string, color: Option<string>, isBranchPoint: bool)

  /** A link from a parent id to a child id. */
  datatype Link = Link(source: string, target: string)

  /** `data.messages.map(m => ({ ... }))`. */
  function Nodes(messages: seq<Message>): (r: seq<GraphNode>)
    ensures |r| == |messages|
    ensures forall i :: 0 <= i < |r| ==>
      r[i] == GraphNode(messages[i].id, messages[i].role, messages[i].contentPreview, messages[i].color,
                        messages[i].isBranchPoint)
  {
    seq(|messages|, i requires 0 <= i < |messages| =>
      GraphNode(messages[i].id, messages[i].role, messages[i].contentPreview, messages[i].color, messages[i].isBranchPoint))
  }

  /** `filter(m => m.parentId)`: the parent id is present and not empty. */
  function HasParent(): Message -> bool { (m: Message) => Truthy(m.parentId) }

  /**
   * `.filter(m => m.parentId).map(m => ({ source: m.parentId!, target: m.id }))`: one link per
   * message with a parent, so never more links than nodes.
   */
  function Links(messages: seq<Message>): (r: seq<Link>)
    ensures |r| == Count(messages, HasParent()) && |r| <= |messages|
  {
    var children := Filter(messages, HasParent());
    seq(|children|, i requires 0 <= i < |children| => Link(children[i].parentId.value, children[i].id))
  }

  /** `l` runs from the (present) parent id of some message to that message. */
  ghost predicate ParentEdge(messages: seq<Message>, l: Link) {
    exists i :: 0 <= i < |messages| && Truthy(messages[i].parentId) && l == Link(messages[i].parentId.value, messages[i].id)
  }

  /** Every link is a parent edge, and every message with a parent has its link. */
  lemma {:induction false} LinksAreParentEdges(messages: seq<Message>)
    ensures forall k :: 0 <= k < |Links(messages)| ==> ParentEdge(messages, Links(messages)[k])
    ensures forall i :: 0 <= i < |messages| && Truthy(messages[i].parentId) ==>
      Link(messages[i].parentId.value, messages[i].id) in Links(messages)
  {
    var children := Filter(messages, HasParent());
    FilterMembers(messages, HasParent());
    forall k | 0 <= k < |Links(messages)| ensures ParentEdge(messages, Links(messages)[k]) {
      assert children[k] in messages;
      var i :| 0 <= i < |messages| && messages[i] == children[k];
    }
    forall i | 0 <= i < |messages| && Truthy(messages[i].parentId)
      ensures Link(messages[i].parentId.value, messages[i].id) in Links(messages)
    {
      assert messages[i] in children;
      var k :| 0 <= k < |children| && children[k] == messages[i];
      assert Links(messages)[k] == Link(messages[i].parentId.value, messages[i].id);
    }
  }

  /** Some node has the id `id`. */
  ghost predicate HasNode(nodes: seq<GraphNode>, id: string) {
    exists j :: 0 <= j < |nodes| && nodes[j].id == id
  }

  /** Every link's target is a node; its source may name no node. */
  lemma {:induction false} LinkTargetsAreNodes(messages: seq<Message>)
    ensures forall k :: 0 <= k < |Links(messages)| ==> HasNode(Nodes(messages), Links(messages)[k].target)
  {
    LinksAreParentEdges(messages);
    var nodes := Nodes(messages);
    forall k | 0 <= k < |Links(messages)| ensures HasNode(nodes, Links(messages)[k].target) {
      assert ParentEdge(messages, Links(messages)[k]);
      var i :| 0 <= i < |messages| && Truthy(messages[i].parentId)
               && Links(messages)[k] == Link(messages[i].parentId.value, messages[i].id);
      assert nodes[i].id == Links(messages)[k].target;
    }
  }

  /** The drawn attributes of a node's circle. */
  datatype Style = Style(radius: nat, fill: string, stroke: string, strokeWidth: nat)

  const HumanFill := "#3b82f6"
  const AssistantFill := "#10b981"
  const BranchPointStroke := "#fbbf24"

  /**
   * The circle of a node: larger, and the only kind with a visible stroke, for a branch point;
   * filled with the message's colour when it has one, else with its role's colour.
   */
  function NodeStyle(n: GraphNode): (s: Style)
    ensures s.radius == (if n.isBranchPoint then 15 else 10)
    ensures s.stroke != "none" <==> n.isBranchPoint
    ensures s.strokeWidth > 0 <==> n.isBranchPoint
    ensures Truthy(n.color) ==> s.fill == n.color.value
    ensures !Truthy(n.color) ==> s.fill == (if n.role == Human then HumanFill else AssistantFill)
  {
    Style(if n.isBranchPoint then 15 else 10,
          if n.color.Some? && n.color.value != "" then n.color.value else if n.role == Human then HumanFill else AssistantFill,
          if n.isBranchPoint then BranchPointStroke else "none",
          if n.isBranchPoint then 3 else 0)
  }
}
