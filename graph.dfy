/**
 * The declarative description of an agent graph: nodes with the memory keys they read and
 * write, and edges between them that fire on a node's success, on its failure, or always.
 */
module Graph {
  import opened Wrappers

  datatype EdgeCondition = OnSuccess | OnFailure | Always

  datatype NodeSpec = NodeSpec(
    id: string,
    name: string,
    inputKeys: seq<string>,
    outputKeys: seq<string>,
    clientFacing: bool)

  /** An edge; a missing target is allowed and is not checked against the node ids. */
  datatype EdgeSpec = EdgeSpec(
    id: string,
    source: string,
    target: Option<string>,
    condition: EdgeCondition,
    priority: int)

  /** The ids of `nodes`, in order. */
  function NodeIds(nodes: seq<NodeSpec>): (r: seq<string>)
    ensures |r| == |nodes|
    ensures forall i :: 0 <= i < |nodes| ==> r[i] == nodes[i].id
  {
    seq(|nodes|, i requires 0 <= i < |nodes| => nodes[i].id)
  }

  /** The ids of `edges`, in order. */
  function EdgeIds(edges: seq<EdgeSpec>): (r: seq<string>)
    ensures |r| == |edges|
    ensures forall i :: 0 <= i < |edges| ==> r[i] == edges[i].id
  {
    seq(|edges|, i requires 0 <= i < |edges| => edges[i].id)
  }
}
