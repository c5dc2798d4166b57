/** The in-memory graph the Graphviz loader hands over, and the library
    routines the translator calls but this model does not look inside. */
module DotGraph {
  import opened Attributes
  import opened Colors

  /** An edge: its id (UBID), the ids of its tail and head nodes, and its
      attributes. */
  datatype Edge = Edge(id: int, tail: int, head: int, attrs: AttrMap)

  /** A node: its id (UBID), its name (agnameof), its attributes, and its
      outgoing edges in agfstout/agnxtout order. */
  datatype Node = Node(id: int, name: string, attrs: AttrMap, out: seq<Edge>)

  /** A graph: whether it is directed (agisdirected) and its nodes in
      agfstnode/agnxtnode order. */
  datatype Graph = Graph(directed: bool, nodes: seq<Node>)

  /** The ids of the graph's nodes. */
  function NodeIds(g: Graph): set<int>
  {
    set n | n in g.nodes :: n.id
  }

  /** Every outgoing edge of a node has that node as its tail and a node of
      the graph as its head, as agfstout guarantees. */
  ghost predicate WellFormed(g: Graph)
  {
    forall n, e :: n in g.nodes && e in n.out ==> e.tail == n.id && e.head in NodeIds(g)
  }

  /** The library routines the translator relies on: colorxlate (with the
      scheme cell), atof, and sprintf's "%31.5f" for a size. */
  datatype Library = Library(colorxlate: ColorXlate, atof: string -> real, fixed5: real -> string)
}
