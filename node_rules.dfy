/** draw_node's rules: which vertex attributes a node's Graphviz attributes
    turn into, in the order draw_node sets them. */
module NodeRules {
  import opened Wrappers
  import opened Attributes
  import opened Shapes
  import opened DotGraph
  import opened Directives

  /** The label text: `value == NULL ? agnameof(node) : value`. Only used
      once the label is present, so the node's name is never chosen. */
  function LabelText(n: Node): string
  {
    match Get(n.attrs, "label")
    case None => n.name
    case Some(v) => v
  }

  /** Labels and fonts: the font rules apply only to a labelled node. */
  function LabelRules(n: Node): seq<Directive>
  {
    var a := n.attrs;
    if !Present(a, "label") then []
    else
      [Plain("label", LabelText(n))]
      + Opt(Present(a, "fontcolor"), Colored("fontcolor", Val(a, "fontcolor")))
      + Opt(Present(a, "fontname"), Plain("fontfamily", Val(a, "fontname")))
      + Opt(Present(a, "fontsize"), Plain("fontsize", Val(a, "fontsize")))
  }

  /** The style: "filled" takes the colour from fillcolor, "invis" hides the
      vertex. Both tests look at the style string. */
  function StyleRules(a: AttrMap): seq<Directive>
  {
    if !Present(a, "style") then []
    else
      Opt(Contains(Val(a, "style"), "filled") && Present(a, "fillcolor"), Colored("color", Val(a, "fillcolor")))
      + Opt(Contains(Val(a, "style"), "invis"), Plain("visible", "false"))
  }

  /** The shape, through the planar-to-solid table `shapes`. */
  function ShapeRules(a: AttrMap, shapes: seq<PlanarSolid>): seq<Directive>
  {
    Opt(Present(a, "shape"), Plain("shape", Lookup(shapes, Val(a, "shape"))))
  }

  /** The local `size` of draw_node: it starts at 0.0 and is raised to the
      parsed width, then to the parsed height, when either is larger. So it
      is the largest of 0 and whichever of the two are present: at least
      each of them, and equal to one of them unless it is 0. */
  function NodeSize(a: AttrMap, atof: string -> real): (size: real)
    ensures size >= 0.0
    ensures Present(a, "width") ==> size >= atof(a["width"])
    ensures Present(a, "height") ==> size >= atof(a["height"])
    ensures size == 0.0
      || (Present(a, "width") && size == atof(a["width"]))
      || (Present(a, "height") && size == atof(a["height"]))
  {
    var afterWidth := if Present(a, "width") && atof(Val(a, "width")) > 0.0 then atof(Val(a, "width")) else 0.0;
    if Present(a, "height") && atof(Val(a, "height")) > afterWidth then atof(Val(a, "height")) else afterWidth
  }

  /** The size, set only when it is positive. */
  function SizeRules(a: AttrMap, lib: Library): seq<Directive>
  {
    var size := NodeSize(a, lib.atof);
    Opt(size > 0.0, Plain("size", lib.fixed5(size)))
  }

  /** Every request draw_node makes for a node, in order, with `shapes` the
      contents of the planar-to-solid table. */
  function NodeDirectives(n: Node, shapes: seq<PlanarSolid>, lib: Library): seq<Directive>
  {
    LabelRules(n) + StyleRules(n.attrs) + ShapeRules(n.attrs, shapes) + SizeRules(n.attrs, lib)
  }

  /** draw_node sets only these eight vertex attributes. */
  lemma NodeAttributes(n: Node, shapes: seq<PlanarSolid>, lib: Library)
    ensures SetsOnly(NodeDirectives(n, shapes, lib),
                     {"label", "fontcolor", "fontfamily", "fontsize", "color", "visible", "shape", "size"})
  {
    var names := {"label", "fontcolor", "fontfamily", "fontsize", "color", "visible", "shape", "size"};
    var l, st, sh, sz := LabelRules(n), StyleRules(n.attrs), ShapeRules(n.attrs, shapes), SizeRules(n.attrs, lib);
    assert SetsOnly(l, names) && SetsOnly(st, names) && SetsOnly(sh, names) && SetsOnly(sz, names);
    SetsOnlyAppend(l, st, names);
    SetsOnlyAppend(l + st, sh, names);
    SetsOnlyAppend(l + st + sh, sz, names);
  }

  /** A labelled node's first request sets the label; with a font colour,
      the second converts it. */
  lemma NodeDirectivesStart(n: Node, shapes: seq<PlanarSolid>, lib: Library)
    requires Present(n.attrs, "label")
    ensures var ds, a := NodeDirectives(n, shapes, lib), n.attrs;
      && |ds| > 0 && ds[0] == Plain("label", a["label"])
      && (Present(a, "fontcolor") ==>
            |ds| > 1 && ds[..2] == [Plain("label", a["label"]), Colored("fontcolor", a["fontcolor"])])
  {
    var labels := LabelRules(n);
    assert NodeDirectives(n, shapes, lib)[..|labels|] == labels;
  }

  /** The label rules filtered by attribute. */
  lemma LabelNamed(n: Node, attr: string)
    ensures var a := n.attrs;
      var hasLabel := Present(a, "label");
      Named(LabelRules(n), attr) ==
        Opt(hasLabel && attr == "label", Plain("label", LabelText(n)))
        + Opt(hasLabel && Present(a, "fontcolor") && attr == "fontcolor", Colored("fontcolor", Val(a, "fontcolor")))
        + Opt(hasLabel && Present(a, "fontname") && attr == "fontfamily", Plain("fontfamily", Val(a, "fontname")))
        + Opt(hasLabel && Present(a, "fontsize") && attr == "fontsize", Plain("fontsize", Val(a, "fontsize")))
  {
    var a := n.attrs;
    NamedOpt();
    if Present(a, "label") {
      assert [Plain("label", LabelText(n))] == Opt(true, Plain("label", LabelText(n)));
      NamedAppend4(Opt(true, Plain("label", LabelText(n))),
        Opt(Present(a, "fontcolor"), Colored("fontcolor", Val(a, "fontcolor"))),
        Opt(Present(a, "fontname"), Plain("fontfamily", Val(a, "fontname"))),
        Opt(Present(a, "fontsize"), Plain("fontsize", Val(a, "fontsize"))), attr);
    }
  }

  /** The style rules filtered by attribute. */
  lemma StyleNamed(a: AttrMap, attr: string)
    ensures var hasStyle := Present(a, "style");
      Named(StyleRules(a), attr) ==
        Opt(hasStyle && Contains(Val(a, "style"), "filled") && Present(a, "fillcolor") && attr == "color",
            Colored("color", Val(a, "fillcolor")))
        + Opt(hasStyle && Contains(Val(a, "style"), "invis") && attr == "visible", Plain("visible", "false"))
  {
    NamedOpt();
    if Present(a, "style") {
      NamedAppend(
        Opt(Contains(Val(a, "style"), "filled") && Present(a, "fillcolor"), Colored("color", Val(a, "fillcolor"))),
        Opt(Contains(Val(a, "style"), "invis"), Plain("visible", "false")), attr);
    }
  }

  /** NodeDirectives filtered by attribute, group by group. */
  lemma NodeNamed(n: Node, shapes: seq<PlanarSolid>, lib: Library, attr: string)
    ensures Named(NodeDirectives(n, shapes, lib), attr) ==
      Named(LabelRules(n), attr) + Named(StyleRules(n.attrs), attr)
      + Named(ShapeRules(n.attrs, shapes), attr) + Named(SizeRules(n.attrs, lib), attr)
    ensures Named(ShapeRules(n.attrs, shapes), attr) ==
      Opt(Present(n.attrs, "shape") && attr == "shape", Plain("shape", Lookup(shapes, Val(n.attrs, "shape"))))
    ensures var size := NodeSize(n.attrs, lib.atof);
      Named(SizeRules(n.attrs, lib), attr) == Opt(size > 0.0 && attr == "size", Plain("size", lib.fixed5(size)))
  {
    NamedOpt();
    NamedAppend4(LabelRules(n), StyleRules(n.attrs), ShapeRules(n.attrs, shapes), SizeRules(n.attrs, lib), attr);
  }

  /** The label is set exactly when it is present, verbatim: the fallback to
      the node's name never applies. */
  lemma NodeLabelRule(n: Node, shapes: seq<PlanarSolid>, lib: Library)
    ensures var ds, a := NodeDirectives(n, shapes, lib), n.attrs;
      Named(ds, "label") == (if Present(a, "label") then [Plain("label", a["label"])] else [])
  {
    NodeNamed(n, shapes, lib, "label");
    LabelNamed(n, "label");
    StyleNamed(n.attrs, "label");
  }

  /** fontcolor is set, through convert_color, exactly when both it and the
      label are present. */
  lemma NodeFontColorRule(n: Node, shapes: seq<PlanarSolid>, lib: Library)
    ensures var ds, a := NodeDirectives(n, shapes, lib), n.attrs;
      Named(ds, "fontcolor") ==
        (if Present(a, "label") && Present(a, "fontcolor") then [Colored("fontcolor", a["fontcolor"])] else [])
  {
    NodeNamed(n, shapes, lib, "fontcolor");
    LabelNamed(n, "fontcolor");
    StyleNamed(n.attrs, "fontcolor");
  }

  /** fontfamily is set, to fontname verbatim, exactly when both fontname and
      the label are present. */
  lemma NodeFontFamilyRule(n: Node, shapes: seq<PlanarSolid>, lib: Library)
    ensures var ds, a := NodeDirectives(n, shapes, lib), n.attrs;
      Named(ds, "fontfamily") ==
        (if Present(a, "label") && Present(a, "fontname") then [Plain("fontfamily", a["fontname"])] else [])
  {
    NodeNamed(n, shapes, lib, "fontfamily");
    LabelNamed(n, "fontfamily");
    StyleNamed(n.attrs, "fontfamily");
  }

  /** fontsize is set, verbatim, exactly when both it and the label are
      present. */
  lemma NodeFontSizeRule(n: Node, shapes: seq<PlanarSolid>, lib: Library)
    ensures var ds, a := NodeDirectives(n, shapes, lib), n.attrs;
      Named(ds, "fontsize") ==
        (if Present(a, "label") && Present(a, "fontsize") then [Plain("fontsize", a["fontsize"])] else [])
  {
    NodeNamed(n, shapes, lib, "fontsize");
    LabelNamed(n, "fontsize");
    StyleNamed(n.attrs, "fontsize");
  }

  /** The colour comes from fillcolor, through convert_color, only when the
      style contains "filled". */
  lemma NodeFillRule(n: Node, shapes: seq<PlanarSolid>, lib: Library)
    ensures var ds, a := NodeDirectives(n, shapes, lib), n.attrs;
      Named(ds, "color") ==
        (if Present(a, "style") && Contains(a["style"], "filled") && Present(a, "fillcolor")
         then [Colored("color", a["fillcolor"])] else [])
  {
    NodeNamed(n, shapes, lib, "color");
    LabelNamed(n, "color");
    StyleNamed(n.attrs, "color");
  }

  /** visible=false is set whenever the style contains "invis", whatever
      else the style says (the test reads the style, not fillcolor). */
  lemma NodeInvisibleRule(n: Node, shapes: seq<PlanarSolid>, lib: Library)
    ensures var ds, a := NodeDirectives(n, shapes, lib), n.attrs;
      Named(ds, "visible") ==
        (if Present(a, "style") && Contains(a["style"], "invis") then [Plain("visible", "false")] else [])
  {
    NodeNamed(n, shapes, lib, "visible");
    LabelNamed(n, "visible");
    StyleNamed(n.attrs, "visible");
  }

  /** The shape is set exactly when it is present, to the solid the table
      gives for it. */
  lemma NodeShapeRule(n: Node, shapes: seq<PlanarSolid>, lib: Library)
    ensures var ds, a := NodeDirectives(n, shapes, lib), n.attrs;
      Named(ds, "shape") ==
        (if Present(a, "shape") then [Plain("shape", Lookup(shapes, a["shape"]))] else [])
  {
    NodeNamed(n, shapes, lib, "shape");
    LabelNamed(n, "shape");
    StyleNamed(n.attrs, "shape");
  }

  /** The size is set exactly when it is positive, so never when width and
      height are both missing or not positive. */
  lemma NodeSizeRule(n: Node, shapes: seq<PlanarSolid>, lib: Library)
    ensures var ds, a := NodeDirectives(n, shapes, lib), n.attrs;
      var size := NodeSize(a, lib.atof);
      && Named(ds, "size") == (if size > 0.0 then [Plain("size", lib.fixed5(size))] else [])
      && ((!Present(a, "width") || lib.atof(a["width"]) <= 0.0)
          && (!Present(a, "height") || lib.atof(a["height"]) <= 0.0)
          ==> Named(ds, "size") == [])
  {
    NodeNamed(n, shapes, lib, "size");
    LabelNamed(n, "size");
    StyleNamed(n.attrs, "size");
  }
}
