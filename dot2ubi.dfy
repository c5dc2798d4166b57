/** The translator as it runs: a session with the Ubigraph server that
    records every request in order, the colour scheme cell that
    setColorScheme fills, and the planar-to-solid table. draw_node,
    draw_edge and main are methods over that state, each proved to leave
    the trace that Scene describes. */
module Dot2Ubi {
  import opened Wrappers
  import opened Attributes
  import opened Colors
  import opened Shapes
  import opened DotGraph
  import opened Directives
  import opened NodeRules
  import opened EdgeRules
  import opened Scene

  /** A run that has failed stays failed, whatever is appended. */
  lemma FailedStays(xs: seq<Directive>, ys: seq<Directive>, s: Option<string>, x: ColorXlate)
    requires Resolve(xs, s, x).failed.Some?
    ensures Resolve(xs + ys, s, x) == Resolve(xs, s, x)
  {
    ResolveAppend(xs, ys, s, x);
  }

  /** After a run of vertex settings from `done`, a block that sets those of
      `more` leaves the settings of `done + more`. */
  lemma VertexCompose(start: seq<Call>, mid: seq<Call>, id: int, done: seq<Directive>, more: seq<Directive>,
                      s: Option<string>, x: ColorXlate)
    requires Resolve(done, s, x).failed.None?
    requires mid == start + VertexSets(id, Resolve(done, s, x).settings)
    ensures Resolve(done + more, s, x).failed == Resolve(more, s, x).failed
    ensures mid + VertexSets(id, Resolve(more, s, x).settings) == start + VertexSets(id, Resolve(done + more, s, x).settings)
  {
    ResolveAppend(done, more, s, x);
    VertexSetsAppend(id, Resolve(done, s, x).settings, Resolve(more, s, x).settings);
  }

  /** The edge counterpart of VertexCompose. */
  lemma EdgeCompose(start: seq<Call>, mid: seq<Call>, id: int, done: seq<Directive>, more: seq<Directive>,
                    s: Option<string>, x: ColorXlate)
    requires Resolve(done, s, x).failed.None?
    requires mid == start + EdgeSets(id, Resolve(done, s, x).settings)
    ensures Resolve(done + more, s, x).failed == Resolve(more, s, x).failed
    ensures mid + EdgeSets(id, Resolve(more, s, x).settings) == start + EdgeSets(id, Resolve(done + more, s, x).settings)
  {
    ResolveAppend(done, more, s, x);
    EdgeSetsAppend(id, Resolve(done, s, x).settings, Resolve(more, s, x).settings);
  }

  /** The label block's run, request by request. */
  lemma LabelResolve(n: Node, s: Option<string>, x: ColorXlate)
    ensures var a := n.attrs;
      Resolve(LabelRules(n), s, x) ==
        if !Present(a, "label") then Translation([], None)
        else
          var t1 := Next(Translation([], None), Plain("label", LabelText(n)), s, x);
          var t2 := NextIf(Present(a, "fontcolor"), t1, Colored("fontcolor", Val(a, "fontcolor")), s, x);
          var t3 := NextIf(Present(a, "fontname"), t2, Plain("fontfamily", Val(a, "fontname")), s, x);
          NextIf(Present(a, "fontsize"), t3, Plain("fontsize", Val(a, "fontsize")), s, x)
  {
    var a := n.attrs;
    if Present(a, "label") {
      var p := [Plain("label", LabelText(n))];
      var fc := Opt(Present(a, "fontcolor"), Colored("fontcolor", Val(a, "fontcolor")));
      var fn := Opt(Present(a, "fontname"), Plain("fontfamily", Val(a, "fontname")));
      assert p[..0] == [];
      ResolveOpt(p, Present(a, "fontcolor"), Colored("fontcolor", Val(a, "fontcolor")), s, x);
      ResolveOpt(p + fc, Present(a, "fontname"), Plain("fontfamily", Val(a, "fontname")), s, x);
      ResolveOpt(p + fc + fn, Present(a, "fontsize"), Plain("fontsize", Val(a, "fontsize")), s, x);
    }
  }

  /** The style block's run, request by request. */
  lemma StyleResolve(a: AttrMap, s: Option<string>, x: ColorXlate)
    ensures Resolve(StyleRules(a), s, x) ==
      if !Present(a, "style") then Translation([], None)
      else
        var style := Val(a, "style");
        var t1 := NextIf(Contains(style, "filled") && Present(a, "fillcolor"), Translation([], None),
                         Colored("color", Val(a, "fillcolor")), s, x);
        NextIf(Contains(style, "invis"), t1, Plain("visible", "false"), s, x)
  {
    if Present(a, "style") {
      var style := Val(a, "style");
      var fill := Opt(Contains(style, "filled") && Present(a, "fillcolor"), Colored("color", Val(a, "fillcolor")));
      ResolveOpt([], Contains(style, "filled") && Present(a, "fillcolor"), Colored("color", Val(a, "fillcolor")), s, x);
      assert [] + fill == fill;
      ResolveOpt(fill, Contains(style, "invis"), Plain("visible", "false"), s, x);
    }
  }

  /** The size block's run: the size is set exactly when it is positive. */
  lemma SizeResolve(a: AttrMap, lib: Library, s: Option<string>)
    ensures var size := NodeSize(a, lib.atof);
      Resolve(SizeRules(a, lib), s, lib.colorxlate) ==
        Translation(if size > 0.0 then [("size", lib.fixed5(size))] else [], None)
  {
    var size := NodeSize(a, lib.atof);
    ResolveOpt([], size > 0.0, Plain("size", lib.fixed5(size)), s, lib.colorxlate);
    assert [] + SizeRules(a, lib) == SizeRules(a, lib);
  }

  /** The edge label block's run, request by request; the label itself is
      tested a second time, as draw_edge does. */
  lemma EdgeLabelResolve(a: AttrMap, s: Option<string>, x: ColorXlate)
    ensures Resolve(EdgeLabelRules(a), s, x) ==
      if !Present(a, "label") then Translation([], None)
      else
        var t1 := NextIf(Present(a, "label"), Translation([], None), Plain("label", Val(a, "label")), s, x);
        var t2 := NextIf(Present(a, "fontcolor"), t1, Colored("fontcolor", Val(a, "fontcolor")), s, x);
        var t3 := NextIf(Present(a, "fontname"), t2, Plain("fontfamily", Val(a, "fontname")), s, x);
        NextIf(Present(a, "fontsize"), t3, Plain("fontsize", Val(a, "fontsize")), s, x)
  {
    if Present(a, "label") {
      var p := Opt(Present(a, "label"), Plain("label", Val(a, "label")));
      var fc := Opt(Present(a, "fontcolor"), Colored("fontcolor", Val(a, "fontcolor")));
      var fn := Opt(Present(a, "fontname"), Plain("fontfamily", Val(a, "fontname")));
      ResolveOpt([], Present(a, "label"), Plain("label", Val(a, "label")), s, x);
      assert [] + p == p;
      ResolveOpt(p, Present(a, "fontcolor"), Colored("fontcolor", Val(a, "fontcolor")), s, x);
      ResolveOpt(p + fc, Present(a, "fontname"), Plain("fontfamily", Val(a, "fontname")), s, x);
      ResolveOpt(p + fc + fn, Present(a, "fontsize"), Plain("fontsize", Val(a, "fontsize")), s, x);
    }
  }

  /** One more node of the node loop. */
  lemma NodesFrom(ns: seq<Node>, i: int, st: Step, draw: Drawer<Node>)
    requires 0 <= i < |ns| && st.ok
    ensures DrawNodes(ns[i..], st, draw) == DrawNodes(ns[i + 1..], Then(st, draw(ns[i], st.scheme)), draw)
  {
    assert ns[i..][1..] == ns[i + 1..];
  }

  /** Once the run has stopped, or nothing is left, the node loop changes
      nothing. */
  lemma NodesStopped(ns: seq<Node>, st: Step, draw: Drawer<Node>)
    requires ns == [] || !st.ok
    ensures DrawNodes(ns, st, draw) == st
  {
  }

  /** One more edge of the edge loops. */
  lemma EdgesFrom(es: seq<Edge>, st: Step, draw: Drawer<Edge>)
    requires es != [] && st.ok
    ensures DrawEdges(es, st, draw) == DrawEdges(es[1..], Then(st, draw(es[0], st.scheme)), draw)
  {
  }

  /** Once the run has stopped, or nothing is left, the edge loops change
      nothing. */
  lemma EdgesStopped(es: seq<Edge>, st: Step, draw: Drawer<Edge>)
    requires es == [] || !st.ok
    ensures DrawEdges(es, st, draw) == st
  {
  }

  /** The edges left from node `j` on: its own, then the later nodes'. */
  lemma AllEdgesFrom(ns: seq<Node>, j: int)
    requires 0 <= j < |ns|
    ensures AllEdges(ns[j..]) == ns[j].out + AllEdges(ns[j + 1..])
  {
    assert ns[j..][1..] == ns[j + 1..];
  }

  /** The suffix of `xs` from `k`, followed by `ys`. */
  lemma SuffixThen<T>(xs: seq<T>, k: int, ys: seq<T>)
    requires 0 <= k < |xs|
    ensures xs[k..] + ys != [] && (xs[k..] + ys)[0] == xs[k] && (xs[k..] + ys)[1..] == xs[k + 1..] + ys
  {
    assert (xs[k..] + ys)[1..] == xs[k + 1..] + ys;
  }

  /** main after read_dot: set up the session, draw every node, then every
      node's outgoing edges. The trace is the scene of the graph, and the run
      stops where a colour cannot be resolved. */
  method Run(g: Graph, lib: Library) returns (calls: seq<Call>, ok: bool)
    ensures calls == SceneOf(g, lib).calls && ok == SceneOf(g, lib).ok
  {
    var session := new Session(g.directed, lib);
    ok := session.DrawAllNodes(g.nodes);
    ok := session.DrawAllEdges(g.nodes, ok);
    calls := session.calls;
  }

  class Session {
    /** Every request sent to the Ubigraph server so far, in order. */
    var calls: seq<Call>
    /** The colour scheme setColorScheme last installed, if any. */
    var scheme: Option<string>
    /** planar_to_solid. */
    const shapes: ShapeTable
    /** colorxlate, atof and sprintf. */
    const lib: Library

    ghost predicate Valid()
      reads shapes, shapes.entries
    {
      shapes.Valid()
    }

    /** initialize_ubigraph: clear the canvas, send the default styles (the
        arrow ones only for a directed graph) and build the shape table. */
    constructor (directed: bool, lib: Library)
      ensures Valid() && fresh(shapes) && fresh(shapes.entries)
      ensures calls == Defaults(directed) && scheme == None && this.lib == lib
    {
      this.lib := lib;
      calls := [];
      scheme := None;
      shapes := new ShapeTable();
      new;
      SendDefaults(directed);
      assert calls == [] + Defaults(directed);
    }

    /** The requests of initialize_ubigraph, one after another. */
    method SendDefaults(directed: bool)
      modifies this`calls
      ensures calls == old(calls) + Defaults(directed)
    {
      SendVertexDefaults();
      if directed {
        Emit(EdgeStyle("arrow", "true"));
        Emit(EdgeStyle("arrow_position", "1.0"));
      }
      assert calls == old(calls) + VertexDefaults() + ArrowDefaults(directed);
      SendEdgeDefaults();
    }

    /** Clear the canvas and send the vertex defaults. */
    method SendVertexDefaults()
      modifies this`calls
      ensures calls == old(calls) + VertexDefaults()
    {
      Emit(Clear);
      Emit(VertexStyle("color", "#ffffff"));
      Emit(VertexStyle("shape", "sphere"));
      Emit(VertexStyle("size", "0.75"));
      Emit(VertexStyle("fontfamily", "Times-Roman"));
      Emit(VertexStyle("fontcolor", "#ffffff"));
      Emit(VertexStyle("fontsize", "14"));
    }

    /** Send the edge defaults. */
    method SendEdgeDefaults()
      modifies this`calls
      ensures calls == old(calls) + EdgeDefaults()
    {
      Emit(EdgeStyle("color", "#ffffff"));
      Emit(EdgeStyle("fontfamily", "Times-Roman"));
      Emit(EdgeStyle("fontcolor", "#ffffff"));
      Emit(EdgeStyle("fontsize", "14"));
    }

    /** Send one request. */
    method Emit(c: Call)
      modifies this`calls
      ensures calls == old(calls) + [c]
    {
      calls := calls + [c];
    }

    /** `ubigraph_set_vertex_attribute(id, attr, convert_color(color))`:
        when the colour cannot be resolved nothing is sent and the run ends. */
    method SetVertexColor(id: int, attr: string, color: string) returns (ok: bool)
      modifies this`calls
      ensures match ConvertColor(color, scheme, lib.colorxlate)
        case None => !ok && calls == old(calls)
        case Some(hex) => ok && calls == old(calls) + [SetVertex(id, attr, hex)]
    {
      var rgb := ConvertColor(color, scheme, lib.colorxlate);
      match rgb {
        case None =>
          ok := false;
        case Some(hex) =>
          ok := true;
          Emit(SetVertex(id, attr, hex));
      }
    }

    /** `ubigraph_set_edge_attribute(id, attr, convert_color(color))`. */
    method SetEdgeColor(id: int, attr: string, color: string) returns (ok: bool)
      modifies this`calls
      ensures match ConvertColor(color, scheme, lib.colorxlate)
        case None => !ok && calls == old(calls)
        case Some(hex) => ok && calls == old(calls) + [SetEdge(id, attr, hex)]
    {
      var rgb := ConvertColor(color, scheme, lib.colorxlate);
      match rgb {
        case None =>
          ok := false;
        case Some(hex) =>
          ok := true;
          Emit(SetEdge(id, attr, hex));
      }
    }
  
    /** draw_node, "Handle fonts and labels": the label and, for a labelled
        node only, the font colour, family and size. */
    method DrawNodeLabel(n: Node) returns (ok: bool)
      modifies this`calls
      ensures var t := Resolve(LabelRules(n), scheme, lib.colorxlate);
        calls == old(calls) + VertexSets(n.id, t.settings) && ok == t.failed.None?
    {
      var a, id := n.attrs, n.id;
      ghost var s, x := scheme, lib.colorxlate;
      ghost var t := Translation([], None);
      ok := true;
      assert calls == old(calls) + VertexSets(id, t.settings);
      if Present(a, "label") {
        var text := if Get(a, "label").None? then n.name else Val(a, "label");
        VertexSetsSnoc(id, t.settings, "label", text);
        Emit(SetVertex(id, "label", text));
        t := Next(t, Plain("label", text), s, x);
        ok := DrawNodeFonts(n, old(calls), t);
        t := NextIf(Present(a, "fontcolor"), t, Colored("fontcolor", Val(a, "fontcolor")), s, x);
        t := NextIf(Present(a, "fontname"), t, Plain("fontfamily", Val(a, "fontname")), s, x);
        t := NextIf(Present(a, "fontsize"), t, Plain("fontsize", Val(a, "fontsize")), s, x);
      }
      LabelResolve(n, s, x);
    }

    /** The font part of the label block, after the label: colour, family
        and size, each when present; the colour may end the run. */
    method DrawNodeFonts(n: Node, ghost start: seq<Call>, ghost t0: Translation) returns (ok: bool)
      requires t0.failed.None? && calls == start + VertexSets(n.id, t0.settings)
      modifies this`calls
      ensures var a, s, x := n.attrs, scheme, lib.colorxlate;
        var t1 := NextIf(Present(a, "fontcolor"), t0, Colored("fontcolor", Val(a, "fontcolor")), s, x);
        var t2 := NextIf(Present(a, "fontname"), t1, Plain("fontfamily", Val(a, "fontname")), s, x);
        var t3 := NextIf(Present(a, "fontsize"), t2, Plain("fontsize", Val(a, "fontsize")), s, x);
        calls == start + VertexSets(n.id, t3.settings) && ok == t3.failed.None?
    {
      var a, id := n.attrs, n.id;
      ghost var s, x := scheme, lib.colorxlate;
      ghost var t := t0;
      ok := true;
      if Present(a, "fontcolor") {
        ok := SetVertexColor(id, "fontcolor", Val(a, "fontcolor"));
        if ok {
          VertexSetsSnoc(id, t.settings, "fontcolor", ConvertColor(Val(a, "fontcolor"), s, x).value);
        }
      }
      t := NextIf(Present(a, "fontcolor"), t, Colored("fontcolor", Val(a, "fontcolor")), s, x);
      ok := DrawNodeFaces(n, start, t, ok);
    }

    /** The font family and size of the label block, each when present,
        after a run `t0` that may already have failed. */
    method DrawNodeFaces(n: Node, ghost start: seq<Call>, ghost t0: Translation, ok0: bool) returns (ok: bool)
      requires ok0 == t0.failed.None? && calls == start + VertexSets(n.id, t0.settings)
      modifies this`calls
      ensures var s, x := scheme, lib.colorxlate;
        var t1 := NextIf(Present(n.attrs, "fontname"), t0, Plain("fontfamily", Val(n.attrs, "fontname")), s, x);
        var t2 := NextIf(Present(n.attrs, "fontsize"), t1, Plain("fontsize", Val(n.attrs, "fontsize")), s, x);
        calls == start + VertexSets(n.id, t2.settings) && ok == t2.failed.None?
    {
      var a, id := n.attrs, n.id;
      ghost var s, x := scheme, lib.colorxlate;
      ghost var t := t0;
      ok := ok0;
      if ok && Present(a, "fontname") {
        VertexSetsSnoc(id, t.settings, "fontfamily", Val(a, "fontname"));
        Emit(SetVertex(id, "fontfamily", Val(a, "fontname")));
      }
      t := NextIf(Present(a, "fontname"), t, Plain("fontfamily", Val(a, "fontname")), s, x);
      assert ok == t.failed.None? && calls == start + VertexSets(id, t.settings);
      if ok && Present(a, "fontsize") {
        VertexSetsSnoc(id, t.settings, "fontsize", Val(a, "fontsize"));
        Emit(SetVertex(id, "fontsize", Val(a, "fontsize")));
      }
      t := NextIf(Present(a, "fontsize"), t, Plain("fontsize", Val(a, "fontsize")), s, x);
    }
  
    /** draw_node, "Set the color only if the style includes filled": the
        fill colour for a filled style, and invisibility for an "invis" one. */
    method DrawNodeStyle(n: Node) returns (ok: bool)
      modifies this`calls
      ensures var t := Resolve(StyleRules(n.attrs), scheme, lib.colorxlate);
        calls == old(calls) + VertexSets(n.id, t.settings) && ok == t.failed.None?
    {
      var a := n.attrs;
      ok := true;
      if Present(a, "style") {
        ok := DrawStyleFlags(n.id, a, Val(a, "style"));
      }
      StyleResolve(a, scheme, lib.colorxlate);
    }

    /** The two flags of a style string, in draw_node's order. */
    method DrawStyleFlags(id: int, a: AttrMap, style: string) returns (ok: bool)
      modifies this`calls
      ensures var s, x := scheme, lib.colorxlate;
        var t1 := NextIf(Contains(style, "filled") && Present(a, "fillcolor"), Translation([], None),
                         Colored("color", Val(a, "fillcolor")), s, x);
        var t2 := NextIf(Contains(style, "invis"), t1, Plain("visible", "false"), s, x);
        calls == old(calls) + VertexSets(id, t2.settings) && ok == t2.failed.None?
    {
      ghost var s, x := scheme, lib.colorxlate;
      ghost var t := Translation([], None);
      var filled, invis := Contains(style, "filled"), Contains(style, "invis");
      ok := true;
      if filled && Present(a, "fillcolor") {
        ok := SetVertexColor(id, "color", Val(a, "fillcolor"));
        if ok {
          VertexSetsSnoc(id, t.settings, "color", ConvertColor(Val(a, "fillcolor"), s, x).value);
        }
      }
      t := NextIf(filled && Present(a, "fillcolor"), t, Colored("color", Val(a, "fillcolor")), s, x);
      assert ok == t.failed.None? && calls == old(calls) + VertexSets(id, t.settings);
      if ok && invis {
        VertexSetsSnoc(id, t.settings, "visible", "false");
        Emit(SetVertex(id, "visible", "false"));
      }
    }

    /** draw_node, "Map 2-D shapes to 3-D shapes", through convert_shape. */
    method DrawNodeShape(n: Node)
      modifies this`calls
      ensures var t := Resolve(ShapeRules(n.attrs, shapes.entries[..]), scheme, lib.colorxlate);
        calls == old(calls) + VertexSets(n.id, t.settings) && t.failed.None?
    {
      var a, id := n.attrs, n.id;
      ghost var table := shapes.entries[..];
      ghost var solid := Lookup(table, Val(a, "shape"));
      if Present(a, "shape") {
        var converted := shapes.ConvertShape(Val(a, "shape"));
        VertexSetsSnoc(id, [], "shape", converted);
        Emit(SetVertex(id, "shape", converted));
      }
      ResolveOpt([], Present(a, "shape"), Plain("shape", solid), scheme, lib.colorxlate);
      assert [] + ShapeRules(a, table) == ShapeRules(a, table);
    }

    /** draw_node, "Adjust the shape size": the larger of width and height
        when it is positive, formatted by sprintf. */
    method DrawNodeSize(n: Node)
      modifies this`calls
      ensures var t := Resolve(SizeRules(n.attrs, lib), scheme, lib.colorxlate);
        calls == old(calls) + VertexSets(n.id, t.settings) && t.failed.None?
    {
      var a, id := n.attrs, n.id;
      var size := 0.0;
      if Present(a, "width") {
        var width := lib.atof(Val(a, "width"));
        if width > size {
          size := width;
        }
      }
      if Present(a, "height") {
        var height := lib.atof(Val(a, "height"));
        if height > size {
          size := height;
        }
      }
      assert size == NodeSize(a, lib.atof);
      SizeResolve(a, lib, scheme);
      if size > 0.0 {
        VertexSetsSnoc(id, [], "size", lib.fixed5(size));
        Emit(SetVertex(id, "size", lib.fixed5(size)));
      }
    }

    /** draw_node: create the vertex, install the node's colour scheme, then
        run the four blocks; a colour that cannot be resolved ends the run. */
    method DrawNode(n: Node) returns (ok: bool)
      modifies this`calls, this`scheme
      ensures var st := NodeStep(n, shapes.entries[..], old(scheme), lib);
        calls == old(calls) + st.calls && scheme == st.scheme && ok == st.ok
    {
      var a, id := n.attrs, n.id;
      Emit(NewVertex(id));
      if Present(a, "colorscheme") {
        scheme := Some(Val(a, "colorscheme"));
      }
      ghost var t := Resolve(NodeDirectives(n, shapes.entries[..], lib), scheme, lib.colorxlate);
      ok := DrawNodeBody(n);
      Assoc(old(calls), [NewVertex(id)], VertexSets(id, t.settings));
    }

    /** The four blocks of draw_node, in order, under the current scheme. */
    method DrawNodeBody(n: Node) returns (ok: bool)
      modifies this`calls
      ensures var t := Resolve(NodeDirectives(n, shapes.entries[..], lib), scheme, lib.colorxlate);
        calls == old(calls) + VertexSets(n.id, t.settings) && ok == t.failed.None?
    {
      var a, id := n.attrs, n.id;
      ghost var start := calls;
      ghost var s, x := scheme, lib.colorxlate;
      ghost var labels, style := LabelRules(n), StyleRules(a);
      ghost var shape, size := ShapeRules(a, shapes.entries[..]), SizeRules(a, lib);
      assert NodeDirectives(n, shapes.entries[..], lib) == labels + style + shape + size;
      ok := DrawNodeLabel(n);
      if !ok {
        Regroup(labels, style, shape, size);
        FailedStays(labels, style + shape + size, s, x);
        return;
      }
      ghost var mid := calls;
      ok := DrawNodeStyle(n);
      VertexCompose(start, mid, id, labels, style, s, x);
      if !ok {
        Regroup(labels, style, shape, size);
        FailedStays(labels + style, shape + size, s, x);
        return;
      }
      mid := calls;
      DrawNodeShape(n);
      VertexCompose(start, mid, id, labels + style, shape, s, x);
      mid := calls;
      DrawNodeSize(n);
      VertexCompose(start, mid, id, labels + style + shape, size, s, x);
    }

    /** draw_edge: create the edge between its tail and head, install the
        edge's colour scheme, then run the blocks; a colour that cannot be
        resolved ends the run. */
    method DrawEdge(e: Edge) returns (ok: bool)
      modifies this`calls, this`scheme
      ensures var st := EdgeStep(e, old(scheme), lib);
        calls == old(calls) + st.calls && scheme == st.scheme && ok == st.ok
    {
      var a, id := e.attrs, e.id;
      Emit(NewEdge(id, e.tail, e.head));
      if Present(a, "colorscheme") {
        scheme := Some(Val(a, "colorscheme"));
      }
      ghost var t := Resolve(EdgeDirectives(a), scheme, lib.colorxlate);
      ok := DrawEdgeBody(e);
      Assoc(old(calls), [NewEdge(id, e.tail, e.head)], EdgeSets(id, t.settings));
    }

    /** The blocks of draw_edge, in order, under the current scheme. */
    method DrawEdgeBody(e: Edge) returns (ok: bool)
      modifies this`calls
      ensures var t := Resolve(EdgeDirectives(e.attrs), scheme, lib.colorxlate);
        calls == old(calls) + EdgeSets(e.id, t.settings) && ok == t.failed.None?
    {
      var a, id := e.attrs, e.id;
      ghost var start := calls;
      ghost var s, x := scheme, lib.colorxlate;
      ghost var color, labels, lines := ColorRules(a), EdgeLabelRules(a), LineRules(a);
      EdgeDirectivesParts(a);
      ok := DrawEdgeColor(e);
      if !ok {
        Assoc(color, labels, lines);
        FailedStays(color, labels + lines, s, x);
        return;
      }
      ghost var mid := calls;
      ok := DrawEdgeLabel(e);
      EdgeCompose(start, mid, id, color, labels, s, x);
      if !ok {
        FailedStays(color + labels, lines, s, x);
        return;
      }
      mid := calls;
      DrawEdgeLines(e);
      EdgeCompose(start, mid, id, color + labels, lines, s, x);
    }

    /** draw_edge, "Set the edge color": "invis" hides the edge, any other
        value is converted. */
    method DrawEdgeColor(e: Edge) returns (ok: bool)
      modifies this`calls
      ensures var t := Resolve(ColorRules(e.attrs), scheme, lib.colorxlate);
        calls == old(calls) + EdgeSets(e.id, t.settings) && ok == t.failed.None?
    {
      var a, id := e.attrs, e.id;
      ghost var s, x := scheme, lib.colorxlate;
      ok := true;
      if Present(a, "color") {
        if Val(a, "color") == "invis" {
          EdgeSetsSnoc(id, [], "visible", "false");
          Emit(SetEdge(id, "visible", "false"));
          ResolveOne(Plain("visible", "false"), s, x);
        } else {
          ok := SetEdgeColor(id, "color", Val(a, "color"));
          if ok {
            EdgeSetsSnoc(id, [], "color", ConvertColor(Val(a, "color"), s, x).value);
          }
          ResolveOne(Colored("color", Val(a, "color")), s, x);
        }
      }
    }

    /** draw_edge, "Handle fonts and labels". */
    method DrawEdgeLabel(e: Edge) returns (ok: bool)
      modifies this`calls
      ensures var t := Resolve(EdgeLabelRules(e.attrs), scheme, lib.colorxlate);
        calls == old(calls) + EdgeSets(e.id, t.settings) && ok == t.failed.None?
    {
      var a, id := e.attrs, e.id;
      ghost var s, x := scheme, lib.colorxlate;
      ghost var t := Translation([], None);
      ok := true;
      assert calls == old(calls) + EdgeSets(id, t.settings);
      if Present(a, "label") {
        if Present(a, "label") {
          EdgeSetsSnoc(id, t.settings, "label", Val(a, "label"));
          Emit(SetEdge(id, "label", Val(a, "label")));
        }
        t := NextIf(Present(a, "label"), t, Plain("label", Val(a, "label")), s, x);
        ok := DrawEdgeFonts(id, a, old(calls), t);
        t := NextIf(Present(a, "fontcolor"), t, Colored("fontcolor", Val(a, "fontcolor")), s, x);
        t := NextIf(Present(a, "fontname"), t, Plain("fontfamily", Val(a, "fontname")), s, x);
        t := NextIf(Present(a, "fontsize"), t, Plain("fontsize", Val(a, "fontsize")), s, x);
      }
      EdgeLabelResolve(a, s, x);
    }

    /** The font part of the edge label block: colour, family and size,
        each when present; the colour may end the run. */
    method DrawEdgeFonts(id: int, a: AttrMap, ghost start: seq<Call>, ghost t0: Translation) returns (ok: bool)
      requires t0.failed.None? && calls == start + EdgeSets(id, t0.settings)
      modifies this`calls
      ensures var s, x := scheme, lib.colorxlate;
        var t1 := NextIf(Present(a, "fontcolor"), t0, Colored("fontcolor", Val(a, "fontcolor")), s, x);
        var t2 := NextIf(Present(a, "fontname"), t1, Plain("fontfamily", Val(a, "fontname")), s, x);
        var t3 := NextIf(Present(a, "fontsize"), t2, Plain("fontsize", Val(a, "fontsize")), s, x);
        calls == start + EdgeSets(id, t3.settings) && ok == t3.failed.None?
    {
      ghost var s, x := scheme, lib.colorxlate;
      ghost var t := t0;
      ok := true;
      if Present(a, "fontcolor") {
        ok := SetEdgeColor(id, "fontcolor", Val(a, "fontcolor"));
        if ok {
          EdgeSetsSnoc(id, t.settings, "fontcolor", ConvertColor(Val(a, "fontcolor"), s, x).value);
        }
      }
      t := NextIf(Present(a, "fontcolor"), t, Colored("fontcolor", Val(a, "fontcolor")), s, x);
      ok := DrawEdgeFaces(id, a, start, t, ok);
    }

    /** The font family and size of the label block, each when present,
        after a run `t0` that may already have failed. */
    method DrawEdgeFaces(id: int, a: AttrMap, ghost start: seq<Call>, ghost t0: Translation, ok0: bool) returns (ok: bool)
      requires ok0 == t0.failed.None? && calls == start + EdgeSets(id, t0.settings)
      modifies this`calls
      ensures var s, x := scheme, lib.colorxlate;
        var t1 := NextIf(Present(a, "fontname"), t0, Plain("fontfamily", Val(a, "fontname")), s, x);
        var t2 := NextIf(Present(a, "fontsize"), t1, Plain("fontsize", Val(a, "fontsize")), s, x);
        calls == start + EdgeSets(id, t2.settings) && ok == t2.failed.None?
    {
      ghost var s, x := scheme, lib.colorxlate;
      ghost var t := t0;
      ok := ok0;
      if ok && Present(a, "fontname") {
        EdgeSetsSnoc(id, t.settings, "fontfamily", Val(a, "fontname"));
        Emit(SetEdge(id, "fontfamily", Val(a, "fontname")));
      }
      t := NextIf(Present(a, "fontname"), t, Plain("fontfamily", Val(a, "fontname")), s, x);
      assert ok == t.failed.None? && calls == start + EdgeSets(id, t.settings);
      if ok && Present(a, "fontsize") {
        EdgeSetsSnoc(id, t.settings, "fontsize", Val(a, "fontsize"));
        Emit(SetEdge(id, "fontsize", Val(a, "fontsize")));
      }
      t := NextIf(Present(a, "fontsize"), t, Plain("fontsize", Val(a, "fontsize")), s, x);
    }

    /** Width, stroke, strength, arrowhead and direction, in draw_edge's
        order; none of them can fail. */
    method DrawEdgeLines(e: Edge)
      modifies this`calls
      ensures var t := Resolve(LineRules(e.attrs), scheme, lib.colorxlate);
        calls == old(calls) + EdgeSets(e.id, t.settings) && t.failed.None?
    {
      var a, id := e.attrs, e.id;
      ghost var start := calls;
      ghost var s, x := scheme, lib.colorxlate;
      ghost var width, stroke, strength := PenwidthRules(a), StrokeRules(a), WeightRules(a);
      ghost var arrow, dir := ArrowsizeRules(a), DirRules(a);
      DrawEdgeWidth(e);
      ghost var mid := calls;
      DrawEdgeStroke(e);
      EdgeCompose(start, mid, id, width, stroke, s, x);
      mid := calls;
      DrawEdgeStrength(e);
      EdgeCompose(start, mid, id, width + stroke, strength, s, x);
      mid := calls;
      DrawEdgeArrowsize(e);
      EdgeCompose(start, mid, id, width + stroke + strength, arrow, s, x);
      mid := calls;
      DrawEdgeDir(e);
      EdgeCompose(start, mid, id, width + stroke + strength + arrow, dir, s, x);
    }

    /** "Set the edge width": the pen width, verbatim. */
    method DrawEdgeWidth(e: Edge)
      modifies this`calls
      ensures var t := Resolve(PenwidthRules(e.attrs), scheme, lib.colorxlate);
        calls == old(calls) + EdgeSets(e.id, t.settings) && t.failed.None?
    {
      var a, id := e.attrs, e.id;
      if Present(a, "penwidth") {
        EdgeSetsSnoc(id, [], "width", Val(a, "penwidth"));
        Emit(SetEdge(id, "width", Val(a, "penwidth")));
        ResolveOne(Plain("width", Val(a, "penwidth")), scheme, lib.colorxlate);
      }
    }

    /** "Set the edge style": the first stroke the style names. */
    method DrawEdgeStroke(e: Edge)
      modifies this`calls
      ensures var t := Resolve(StrokeRules(e.attrs), scheme, lib.colorxlate);
        calls == old(calls) + EdgeSets(e.id, t.settings) && t.failed.None?
    {
      var a, id := e.attrs, e.id;
      if Present(a, "style") {
        var style := Val(a, "style");
        var stroke := "";
        if Contains(style, "solid") {
          stroke := "solid";
        } else if Contains(style, "dashed") {
          stroke := "dashed";
        } else if Contains(style, "dotted") {
          stroke := "dotted";
        } else if Contains(style, "invis") {
          stroke := "none";
        }
        if stroke != "" {
          EdgeSetsSnoc(id, [], "stroke", stroke);
          Emit(SetEdge(id, "stroke", stroke));
          ResolveOne(Plain("stroke", stroke), scheme, lib.colorxlate);
        }
      }
    }

    /** "Set the edge strength": the weight, verbatim. */
    method DrawEdgeStrength(e: Edge)
      modifies this`calls
      ensures var t := Resolve(WeightRules(e.attrs), scheme, lib.colorxlate);
        calls == old(calls) + EdgeSets(e.id, t.settings) && t.failed.None?
    {
      var a, id := e.attrs, e.id;
      if Present(a, "weight") {
        EdgeSetsSnoc(id, [], "strength", Val(a, "weight"));
        Emit(SetEdge(id, "strength", Val(a, "weight")));
        ResolveOne(Plain("strength", Val(a, "weight")), scheme, lib.colorxlate);
      }
    }

    /** "Set the arrowhead size": both the radius and the length. */
    method DrawEdgeArrowsize(e: Edge)
      modifies this`calls
      ensures var t := Resolve(ArrowsizeRules(e.attrs), scheme, lib.colorxlate);
        calls == old(calls) + EdgeSets(e.id, t.settings) && t.failed.None?
    {
      var a, id := e.attrs, e.id;
      if Present(a, "arrowsize") {
        var size := Val(a, "arrowsize");
        EdgeSetsSnoc(id, [], "arrow_radius", size);
        Emit(SetEdge(id, "arrow_radius", size));
        EdgeSetsSnoc(id, [("arrow_radius", size)], "arrow_length", size);
        Emit(SetEdge(id, "arrow_length", size));
        ResolveOne(Plain("arrow_radius", size), scheme, lib.colorxlate);
        ResolveSnoc([Plain("arrow_radius", size)], Plain("arrow_length", size), scheme, lib.colorxlate);
        assert [Plain("arrow_radius", size)] + [Plain("arrow_length", size)] == ArrowsizeRules(a);
      }
    }

    /** The direction: "back" reverses the arrow, "none" removes it. */
    method DrawEdgeDir(e: Edge)
      modifies this`calls
      ensures var t := Resolve(DirRules(e.attrs), scheme, lib.colorxlate);
        calls == old(calls) + EdgeSets(e.id, t.settings) && t.failed.None?
    {
      var a, id := e.attrs, e.id;
      if Present(a, "dir") {
        if Val(a, "dir") == "back" {
          EdgeSetsSnoc(id, [], "arrow_reverse", "true");
          Emit(SetEdge(id, "arrow_reverse", "true"));
          ResolveOne(Plain("arrow_reverse", "true"), scheme, lib.colorxlate);
        } else if Val(a, "dir") == "none" {
          EdgeSetsSnoc(id, [], "arrow", "false");
          Emit(SetEdge(id, "arrow", "false"));
          ResolveOne(Plain("arrow", "false"), scheme, lib.colorxlate);
        }
      }
    }

    /** The node loop of main. */
    method DrawAllNodes(ns: seq<Node>) returns (ok: bool)
      requires Valid()
      modifies this`calls, this`scheme
      ensures Valid()
      ensures var st := DrawNodes(ns, old(Step(calls, scheme, true)), NodeDrawer(PlanarToSolid, lib));
        calls == st.calls && scheme == st.scheme && ok == st.ok
    {
      ghost var table := shapes.entries[..];
      ghost var draw := NodeDrawer(table, lib);
      ghost var nodes := DrawNodes(ns, Step(calls, scheme, true), draw);
      ok := true;
      var i := 0;
      while i < |ns| && ok
        invariant 0 <= i <= |ns|
        invariant shapes.entries[..] == table
        invariant nodes == DrawNodes(ns[i..], Step(calls, scheme, ok), draw)
      {
        ghost var before := Step(calls, scheme, ok);
        NodesFrom(ns, i, before, draw);
        ok := DrawNode(ns[i]);
        assert Step(calls, scheme, ok) == Then(before, draw(ns[i], before.scheme));
        i := i + 1;
      }
      assert i == |ns| || !ok;
      assert i == |ns| ==> ns[i..] == [];
      NodesStopped(ns[i..], Step(calls, scheme, ok), draw);
    }

    /** The edge loops of main, from the state the node loop left. */
    method DrawAllEdges(ns: seq<Node>, ok0: bool) returns (ok: bool)
      modifies this`calls, this`scheme
      ensures var st := DrawEdges(AllEdges(ns), old(Step(calls, scheme, ok0)), EdgeDrawer(lib));
        calls == st.calls && scheme == st.scheme && ok == st.ok
    {
      ghost var draw := EdgeDrawer(lib);
      ghost var edges := DrawEdges(AllEdges(ns), Step(calls, scheme, ok0), draw);
      ok := ok0;
      var j := 0;
      while j < |ns| && ok
        invariant 0 <= j <= |ns|
        invariant edges == DrawEdges(AllEdges(ns[j..]), Step(calls, scheme, ok), draw)
      {
        AllEdgesFrom(ns, j);
        ok := DrawOutEdges(ns[j].out, AllEdges(ns[j + 1..]));
        j := j + 1;
      }
      if ok {
        assert ns[j..] == [];
      }
      EdgesStopped(AllEdges(ns[j..]), Step(calls, scheme, ok), draw);
    }

    /** The inner edge loop of main over one node's outgoing edges `out`,
        with `rest` still to come after them. */
    method DrawOutEdges(out: seq<Edge>, ghost rest: seq<Edge>) returns (ok: bool)
      modifies this`calls, this`scheme
      ensures DrawEdges(out + rest, old(Step(calls, scheme, true)), EdgeDrawer(lib))
        == DrawEdges(rest, Step(calls, scheme, ok), EdgeDrawer(lib))
    {
      ghost var draw := EdgeDrawer(lib);
      ghost var edges := DrawEdges(out + rest, Step(calls, scheme, true), draw);
      ok := true;
      var k := 0;
      while k < |out| && ok
        invariant 0 <= k <= |out|
        invariant edges == DrawEdges(out[k..] + rest, Step(calls, scheme, ok), draw)
      {
        ghost var before := Step(calls, scheme, ok);
        SuffixThen(out, k, rest);
        EdgesFrom(out[k..] + rest, before, draw);
        ok := DrawEdge(out[k]);
        assert Step(calls, scheme, ok) == Then(before, draw(out[k], before.scheme));
        k := k + 1;
      }
      if ok {
        assert out[k..] + rest == rest;
      } else {
        EdgesStopped(out[k..] + rest, Step(calls, scheme, ok), draw);
        EdgesStopped(rest, Step(calls, scheme, ok), draw);
      }
    }
  }
}
