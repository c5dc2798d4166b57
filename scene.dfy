/** The whole conversation with Ubigraph, as a trace of calls: the defaults
    of initialize_ubigraph, then every node, then every edge, each element
    translated under the colour scheme left by the elements before it. */
module Scene {
  import opened Wrappers
  import opened Attributes
  import opened Colors
  import opened Shapes
  import opened DotGraph
  import opened Directives
  import opened NodeRules
  import opened EdgeRules

  /** One Ubigraph request. */
  datatype Call =
    | Clear                                                // ubigraph_clear
    | VertexStyle(attr: string, value: string)             // ubigraph_set_vertex_style_attribute(0, ...)
    | EdgeStyle(attr: string, value: string)               // ubigraph_set_edge_style_attribute(0, ...)
    | NewVertex(id: int)                                   // ubigraph_new_vertex_w_id
    | NewEdge(id: int, tail: int, head: int)               // ubigraph_new_edge_w_id
    | SetVertex(id: int, attr: string, value: string)      // ubigraph_set_vertex_attribute
    | SetEdge(id: int, attr: string, value: string)        // ubigraph_set_edge_attribute
  {
    predicate IsVertexCall() { NewVertex? || SetVertex? }
    predicate IsEdgeCall() { NewEdge? || SetEdge? }
  }

  /** The vertex defaults of initialize_ubigraph, after the clear. */
  function VertexDefaults(): seq<Call>
  {
    [Clear,
     VertexStyle("color", "#ffffff"),
     VertexStyle("shape", "sphere"),
     VertexStyle("size", "0.75"),
     VertexStyle("fontfamily", "Times-Roman"),
     VertexStyle("fontcolor", "#ffffff"),
     VertexStyle("fontsize", "14")]
  }

  /** The arrow defaults, sent for a directed graph only. */
  function ArrowDefaults(directed: bool): seq<Call>
  {
    if directed then [EdgeStyle("arrow", "true"), EdgeStyle("arrow_position", "1.0")] else []
  }

  /** The edge defaults. */
  function EdgeDefaults(): seq<Call>
  {
    [EdgeStyle("color", "#ffffff"),
     EdgeStyle("fontfamily", "Times-Roman"),
     EdgeStyle("fontcolor", "#ffffff"),
     EdgeStyle("fontsize", "14")]
  }

  /** initialize_ubigraph: clear the canvas, then the vertex defaults, the
      arrow defaults for a directed graph only, and the edge defaults. */
  function Defaults(directed: bool): seq<Call>
  {
    VertexDefaults() + ArrowDefaults(directed) + EdgeDefaults()
  }

  /** The defaults are all canvas-wide: no vertex or edge is touched. */
  predicate StyleOnly(calls: seq<Call>)
  {
    forall c :: c in calls ==> c.Clear? || c.VertexStyle? || c.EdgeStyle?
  }

  /** The defaults start by clearing the canvas, touch no vertex or edge,
      and make spheres of size 0.75. */
  lemma DefaultsShape(directed: bool)
    ensures var calls := Defaults(directed);
      && |calls| > 0 && calls[0] == Clear
      && (forall c :: c in calls ==> !c.IsVertexCall() && !c.IsEdgeCall())
      && VertexStyle("shape", "sphere") in calls && VertexStyle("size", "0.75") in calls
  {
    var v, a, e := VertexDefaults(), ArrowDefaults(directed), EdgeDefaults();
    assert StyleOnly(v) && StyleOnly(a) && StyleOnly(e);
    assert v[2] == VertexStyle("shape", "sphere") && v[3] == VertexStyle("size", "0.75");
  }

  /** Edges get arrows, at their heads, exactly when the graph is directed. */
  lemma DefaultsArrows(directed: bool)
    ensures EdgeStyle("arrow", "true") in Defaults(directed) <==> directed
    ensures EdgeStyle("arrow_position", "1.0") in Defaults(directed) <==> directed
  {
    var v, a, e := VertexDefaults(), ArrowDefaults(directed), EdgeDefaults();
    assert forall c :: c in v ==> !c.EdgeStyle?;
    assert forall c :: c in e ==> c.attr[0] != 'a';
  }

  /** The calls so far, the colour scheme cell, and whether the run is still
      going (false once convert_color has failed and the program exited). */
  datatype Step = Step(calls: seq<Call>, scheme: Option<string>, ok: bool)

  /** setColorScheme runs when the element has a colorscheme; otherwise the
      previous scheme stays in force. */
  function SchemeAfter(a: AttrMap, scheme: Option<string>): Option<string>
  {
    if Present(a, "colorscheme") then Some(Val(a, "colorscheme")) else scheme
  }

  /** Settings applied to vertex `id`. */
  function VertexSets(id: int, settings: seq<Setting>): (calls: seq<Call>)
    ensures |calls| == |settings|
    ensures forall i :: 0 <= i < |settings| ==> calls[i] == SetVertex(id, settings[i].0, settings[i].1)
  {
    seq(|settings|, i requires 0 <= i < |settings| => SetVertex(id, settings[i].0, settings[i].1))
  }

  /** Settings applied to edge `id`. */
  function EdgeSets(id: int, settings: seq<Setting>): (calls: seq<Call>)
    ensures |calls| == |settings|
    ensures forall i :: 0 <= i < |settings| ==> calls[i] == SetEdge(id, settings[i].0, settings[i].1)
  {
    seq(|settings|, i requires 0 <= i < |settings| => SetEdge(id, settings[i].0, settings[i].1))
  }

  /** Settings of a vertex, one run after another. */
  lemma VertexSetsAppend(id: int, s1: seq<Setting>, s2: seq<Setting>)
    ensures VertexSets(id, s1 + s2) == VertexSets(id, s1) + VertexSets(id, s2)
  {
  }

  /** One more setting of a vertex. */
  lemma VertexSetsSnoc(id: int, settings: seq<Setting>, k: string, v: string)
    ensures VertexSets(id, settings + [(k, v)]) == VertexSets(id, settings) + [SetVertex(id, k, v)]
  {
  }

  /** One more setting of an edge. */
  lemma EdgeSetsSnoc(id: int, settings: seq<Setting>, k: string, v: string)
    ensures EdgeSets(id, settings + [(k, v)]) == EdgeSets(id, settings) + [SetEdge(id, k, v)]
  {
  }

  /** Settings of an edge, one run after another. */
  lemma EdgeSetsAppend(id: int, s1: seq<Setting>, s2: seq<Setting>)
    ensures EdgeSets(id, s1 + s2) == EdgeSets(id, s1) + EdgeSets(id, s2)
  {
  }

  /** draw_node: create the vertex, install the node's colour scheme, then
      apply its settings until the first colour that cannot be resolved. */
  function NodeStep(n: Node, shapes: seq<PlanarSolid>, scheme: Option<string>, lib: Library): Step
  {
    var s := SchemeAfter(n.attrs, scheme);
    var t := Resolve(NodeDirectives(n, shapes, lib), s, lib.colorxlate);
    Step([NewVertex(n.id)] + VertexSets(n.id, t.settings), s, t.failed.None?)
  }

  /** draw_edge: create the edge between its tail and head, install the
      edge's colour scheme, then apply its settings. */
  function EdgeStep(e: Edge, scheme: Option<string>, lib: Library): Step
  {
    var s := SchemeAfter(e.attrs, scheme);
    var t := Resolve(EdgeDirectives(e.attrs), s, lib.colorxlate);
    Step([NewEdge(e.id, e.tail, e.head)] + EdgeSets(e.id, t.settings), s, t.failed.None?)
  }

  /** One element's step after the ones before it. */
  function Then(st: Step, next: Step): Step
  {
    Step(st.calls + next.calls, next.scheme, next.ok)
  }

  /** How main draws one node or one edge, given the scheme in force. */
  type Drawer<-T> = (T, Option<string>) -> Step

  /** The node loop of main, from state `st`; nothing happens once the run
      has stopped. */
  function DrawNodes(ns: seq<Node>, st: Step, draw: Drawer<Node>): Step
    decreases |ns|
  {
    if ns == [] || !st.ok then st
    else DrawNodes(ns[1..], Then(st, draw(ns[0], st.scheme)), draw)
  }

  /** Every node's outgoing edges, node by node. */
  function AllEdges(ns: seq<Node>): seq<Edge>
    decreases |ns|
  {
    if ns == [] then [] else ns[0].out + AllEdges(ns[1..])
  }

  /** The edge loops of main, from state `st`. */
  function DrawEdges(es: seq<Edge>, st: Step, draw: Drawer<Edge>): Step
    decreases |es|
  {
    if es == [] || !st.ok then st
    else DrawEdges(es[1..], Then(st, draw(es[0], st.scheme)), draw)
  }

  /** draw_node as a drawer. */
  function NodeDrawer(shapes: seq<PlanarSolid>, lib: Library): Drawer<Node>
  {
    (n, scheme) => NodeStep(n, shapes, scheme, lib)
  }

  /** draw_edge as a drawer. */
  function EdgeDrawer(lib: Library): Drawer<Edge>
  {
    (e, scheme) => EdgeStep(e, scheme, lib)
  }

  /** main after read_dot: the defaults, every node, then every edge. */
  function SceneOf(g: Graph, lib: Library): Step
  {
    var init := Step(Defaults(g.directed), None, true);
    DrawEdges(AllEdges(g.nodes), DrawNodes(g.nodes, init, NodeDrawer(PlanarToSolid, lib)), EdgeDrawer(lib))
  }

  /** A labelled node: right after its vertex is created, its label is set
      to the label attribute, verbatim. */
  lemma NodeLabelStep(n: Node, shapes: seq<PlanarSolid>, scheme: Option<string>, lib: Library)
    requires Present(n.attrs, "label")
    ensures var st := NodeStep(n, shapes, scheme, lib);
      |st.calls| > 1 && st.calls[1] == SetVertex(n.id, "label", n.attrs["label"])
  {
    var s := SchemeAfter(n.attrs, scheme);
    var ds := NodeDirectives(n, shapes, lib);
    NodeDirectivesStart(n, shapes, lib);
    ResolveSpec(ds, s, lib.colorxlate);
  }

  /** A labelled node with a font colour: the colour is resolved under the
      scheme in force after the node's own colorscheme; when it cannot be,
      the node keeps only its vertex and label and the run ends, and
      otherwise the converted colour is set right after the label. */
  lemma NodeFontColorStep(n: Node, shapes: seq<PlanarSolid>, scheme: Option<string>, lib: Library)
    requires Present(n.attrs, "label") && Present(n.attrs, "fontcolor")
    ensures var st := NodeStep(n, shapes, scheme, lib);
      match ConvertColor(n.attrs["fontcolor"], SchemeAfter(n.attrs, scheme), lib.colorxlate)
      case None =>
        st.calls == [NewVertex(n.id), SetVertex(n.id, "label", n.attrs["label"])] && !st.ok
      case Some(hex) =>
        |st.calls| > 2 && st.calls[2] == SetVertex(n.id, "fontcolor", hex)
  {
    var s := SchemeAfter(n.attrs, scheme);
    var ds := NodeDirectives(n, shapes, lib);
    var a := n.attrs;
    NodeDirectivesStart(n, shapes, lib);
    assert ds == ds[..2] + ds[2..];
    ResolvePlainColored("label", a["label"], "fontcolor", a["fontcolor"], ds[2..], s, lib.colorxlate);
    var t := Resolve(ds, s, lib.colorxlate);
    var st := NodeStep(n, shapes, scheme, lib);
    assert st.calls == [NewVertex(n.id)] + VertexSets(n.id, t.settings) && st.ok == t.failed.None?;
    match ConvertColor(a["fontcolor"], s, lib.colorxlate)
    case None =>
      assert t == Translation([("label", a["label"])], Some(a["fontcolor"]));
      assert VertexSets(n.id, t.settings) == [SetVertex(n.id, "label", a["label"])];
    case Some(hex) =>
      assert |t.settings| >= 2 && t.settings[1] == ("fontcolor", hex);
      assert VertexSets(n.id, t.settings)[1] == SetVertex(n.id, "fontcolor", hex);
  }


  /** An edge with a colour other than "invis": the colour is resolved under
      the scheme in force after the edge's own colorscheme; when it cannot
      be, the edge is created and nothing more happens, and otherwise the
      converted colour is the edge's first setting. */
  lemma EdgeColorStep(e: Edge, scheme: Option<string>, lib: Library)
    requires Present(e.attrs, "color") && e.attrs["color"] != "invis"
    ensures var st := EdgeStep(e, scheme, lib);
      match ConvertColor(e.attrs["color"], SchemeAfter(e.attrs, scheme), lib.colorxlate)
      case None => st.calls == [NewEdge(e.id, e.tail, e.head)] && !st.ok
      case Some(hex) => |st.calls| > 1 && st.calls[1] == SetEdge(e.id, "color", hex)
  {
    var s := SchemeAfter(e.attrs, scheme);
    var ds := EdgeDirectives(e.attrs);
    assert ds[0] == Colored("color", e.attrs["color"]);
    ResolveSpec(ds, s, lib.colorxlate);
  }

  /** A step that creates vertex `id` first and then only sets attributes of
      that vertex. */
  predicate VertexStep(st: Step, id: int)
  {
    && |st.calls| > 0 && st.calls[0] == NewVertex(id)
    && (forall i :: 1 <= i < |st.calls| ==> st.calls[i].SetVertex? && st.calls[i].id == id)
  }

  /** A step that creates edge `id` from `tail` to `head` first and then only
      sets attributes of that edge. */
  predicate EdgeCallsStep(st: Step, id: int, tail: int, head: int)
  {
    && |st.calls| > 0 && st.calls[0] == NewEdge(id, tail, head)
    && (forall i :: 1 <= i < |st.calls| ==> st.calls[i].SetEdge? && st.calls[i].id == id)
  }

  /** draw_node creates its vertex first and then only sets attributes of it,
      whatever the scheme in force. */
  lemma NodeStepCalls(shapes: seq<PlanarSolid>, lib: Library)
    ensures forall n, scheme :: VertexStep(NodeDrawer(shapes, lib)(n, scheme), n.id)
  {
  }

  /** draw_edge creates the edge between its tail and head first and then
      only sets attributes of that edge. */
  lemma EdgeStepCalls(lib: Library)
    ensures forall e: Edge, scheme :: EdgeCallsStep(EdgeDrawer(lib)(e, scheme), e.id, e.tail, e.head)
  {
  }

  /** The node loop only extends the trace, with vertex calls; once stopped it
      does nothing; and when it ends with the run still going, every node's
      vertex has been created. */
  lemma {:induction false} DrawNodesCalls(ns: seq<Node>, st: Step, draw: Drawer<Node>)
    requires forall n, scheme :: VertexStep(draw(n, scheme), n.id)
    ensures var r := DrawNodes(ns, st, draw);
      && st.calls <= r.calls
      && (forall i :: |st.calls| <= i < |r.calls| ==> r.calls[i].IsVertexCall())
      && (!st.ok ==> r == st)
      && (r.ok ==> forall n :: n in ns ==> NewVertex(n.id) in r.calls)
    decreases |ns|
  {
    if ns != [] && st.ok {
      var next := Then(st, draw(ns[0], st.scheme));
      assert VertexStep(draw(ns[0], st.scheme), ns[0].id);
      DrawNodesCalls(ns[1..], next, draw);
      var r := DrawNodes(ns[1..], next, draw);
      assert NewVertex(ns[0].id) == next.calls[|st.calls|];
      assert forall n :: n in ns ==> n == ns[0] || n in ns[1..];
    }
  }

  /** The edge loop only extends the trace, with edge calls, and every edge
      it creates joins two vertices of `ids` when every edge it is given does. */
  lemma {:induction false} DrawEdgesCalls(es: seq<Edge>, st: Step, draw: Drawer<Edge>, ids: set<int>, joined: bool)
    requires forall e: Edge, scheme :: EdgeCallsStep(draw(e, scheme), e.id, e.tail, e.head)
    requires joined ==> forall e :: e in es ==> e.tail in ids && e.head in ids
    ensures var r := DrawEdges(es, st, draw);
      && st.calls <= r.calls
      && (forall i :: |st.calls| <= i < |r.calls| ==> r.calls[i].IsEdgeCall())
      && (joined ==> forall i :: |st.calls| <= i < |r.calls| && r.calls[i].NewEdge? ==>
            r.calls[i].tail in ids && r.calls[i].head in ids)
      && (!st.ok ==> r == st)
    decreases |es|
  {
    if es != [] && st.ok {
      var next := Then(st, draw(es[0], st.scheme));
      assert EdgeCallsStep(draw(es[0], st.scheme), es[0].id, es[0].tail, es[0].head);
      assert es[0] in es;
      assert forall e :: e in es[1..] ==> e in es;
      DrawEdgesCalls(es[1..], next, draw, ids, joined);
    }
  }

  /** The edges main walks are exactly the out-edges of the graph's nodes. */
  lemma {:induction false} AllEdgesMembers(ns: seq<Node>, e: Edge)
    ensures e in AllEdges(ns) <==> exists n :: n in ns && e in n.out
    decreases |ns|
  {
    if ns != [] {
      AllEdgesMembers(ns[1..], e);
      assert forall n :: n in ns ==> n == ns[0] || n in ns[1..];
      assert forall n :: n in ns[1..] ==> n in ns;
    }
  }

  /** In a well-formed graph every edge joins two of the graph's nodes. */
  lemma AllEdgesEnds(g: Graph)
    requires WellFormed(g)
    ensures forall e :: e in AllEdges(g.nodes) ==> e.tail in NodeIds(g) && e.head in NodeIds(g)
  {
    forall e | e in AllEdges(g.nodes)
      ensures e.tail in NodeIds(g) && e.head in NodeIds(g)
    {
      AllEdgesMembers(g.nodes, e);
    }
  }

  /** Any start with no element calls, followed by a node loop and then an
      edge loop: the start stays in front and no vertex call follows an edge
      call. */
  lemma LoopsOrder(init: Step, ns: seq<Node>, es: seq<Edge>, nd: Drawer<Node>, ed: Drawer<Edge>)
    requires forall c :: c in init.calls ==> !c.IsVertexCall() && !c.IsEdgeCall()
    requires forall n, scheme :: VertexStep(nd(n, scheme), n.id)
    requires forall e: Edge, scheme :: EdgeCallsStep(ed(e, scheme), e.id, e.tail, e.head)
    ensures var calls := DrawEdges(es, DrawNodes(ns, init, nd), ed).calls;
      && init.calls <= calls
      && (forall i, j :: 0 <= i < j < |calls| && calls[i].IsEdgeCall() ==> !calls[j].IsVertexCall())
  {
    var v := DrawNodes(ns, init, nd);
    DrawNodesCalls(ns, init, nd);
    DrawEdgesCalls(es, v, ed, {}, false);
    var calls := DrawEdges(es, v, ed).calls;
    assert forall i :: 0 <= i < |init.calls| ==> calls[i] in init.calls;
    forall i, j | 0 <= i < j < |calls| && calls[i].IsEdgeCall()
      ensures !calls[j].IsVertexCall()
    {
    }
  }

  /** Any start with no element calls, followed by a node loop and then an
      edge loop over edges that join vertices of the nodes: each edge is
      created after the vertices at both of its ends. */
  lemma LoopsEdgeEnds(init: Step, ns: seq<Node>, es: seq<Edge>, nd: Drawer<Node>, ed: Drawer<Edge>, ids: set<int>)
    requires forall c :: c in init.calls ==> !c.IsVertexCall() && !c.IsEdgeCall()
    requires forall n, scheme :: VertexStep(nd(n, scheme), n.id)
    requires forall e: Edge, scheme :: EdgeCallsStep(ed(e, scheme), e.id, e.tail, e.head)
    requires forall e :: e in es ==> e.tail in ids && e.head in ids
    requires forall id :: id in ids ==> exists n :: n in ns && n.id == id
    ensures var calls := DrawEdges(es, DrawNodes(ns, init, nd), ed).calls;
      forall k :: 0 <= k < |calls| && calls[k].NewEdge? ==>
        NewVertex(calls[k].tail) in calls[..k] && NewVertex(calls[k].head) in calls[..k]
  {
    var v := DrawNodes(ns, init, nd);
    DrawNodesCalls(ns, init, nd);
    DrawEdgesCalls(es, v, ed, ids, true);
    var calls := DrawEdges(es, v, ed).calls;
    assert forall i :: 0 <= i < |init.calls| ==> calls[i] in init.calls;
    forall k | 0 <= k < |calls| && calls[k].NewEdge?
      ensures NewVertex(calls[k].tail) in calls[..k] && NewVertex(calls[k].head) in calls[..k]
    {
      assert v.calls <= calls[..k];
      var t :| t in ns && t.id == calls[k].tail;
      var h :| h in ns && h.id == calls[k].head;
      assert NewVertex(t.id) in v.calls && NewVertex(h.id) in v.calls;
    }
  }

  /** Every id of NodeIds belongs to one of the graph's nodes. */
  lemma NodeIdsOfNodes(g: Graph)
    ensures forall id :: id in NodeIds(g) ==> exists n :: n in g.nodes && n.id == id
  {
  }

  /** The trace starts with initialize_ubigraph's defaults, and no vertex is
      created or changed after the first edge call. */
  lemma VerticesBeforeEdges(g: Graph, lib: Library)
    ensures var calls := SceneOf(g, lib).calls;
      && Defaults(g.directed) <= calls
      && (forall i, j :: 0 <= i < j < |calls| && calls[i].IsEdgeCall() ==> !calls[j].IsVertexCall())
  {
    DefaultsShape(g.directed);
    NodeStepCalls(PlanarToSolid, lib);
    EdgeStepCalls(lib);
    LoopsOrder(Step(Defaults(g.directed), None, true), g.nodes, AllEdges(g.nodes), NodeDrawer(PlanarToSolid, lib), EdgeDrawer(lib));
  }

  /** When a well-formed graph is drawn, every edge is created after the
      vertices at both of its ends. */
  lemma EdgesFollowTheirVertices(g: Graph, lib: Library)
    requires WellFormed(g)
    ensures var calls := SceneOf(g, lib).calls;
      forall k :: 0 <= k < |calls| && calls[k].NewEdge? ==>
        NewVertex(calls[k].tail) in calls[..k] && NewVertex(calls[k].head) in calls[..k]
  {
    var init := Step(Defaults(g.directed), None, true);
    var es := AllEdges(g.nodes);
    DefaultsShape(g.directed);
    NodeStepCalls(PlanarToSolid, lib);
    EdgeStepCalls(lib);
    AllEdgesEnds(g);
    NodeIdsOfNodes(g);
    LoopsEdgeEnds(init, g.nodes, es, NodeDrawer(PlanarToSolid, lib), EdgeDrawer(lib), NodeIds(g));
    assert SceneOf(g, lib) == DrawEdges(es, DrawNodes(g.nodes, init, NodeDrawer(PlanarToSolid, lib)), EdgeDrawer(lib));
  }
}
