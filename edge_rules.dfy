/** draw_edge's rules: which edge attributes an edge's Graphviz attributes
    turn into, in the order draw_edge sets them. */
module EdgeRules {
  import opened Attributes
  import opened Directives

  /** The colour: the literal "invis" hides the edge instead of colouring it. */
  function ColorRules(a: AttrMap): seq<Directive>
  {
    if !Present(a, "color") then []
    else if Val(a, "color") == "invis" then [Plain("visible", "false")]
    else [Colored("color", Val(a, "color"))]
  }

  /** Labels and fonts. The label's presence is tested twice, as in the
      source; the inner test always passes. */
  function EdgeLabelRules(a: AttrMap): seq<Directive>
  {
    if !Present(a, "label") then []
    else
      Opt(Present(a, "label"), Plain("label", Val(a, "label")))
      + Opt(Present(a, "fontcolor"), Colored("fontcolor", Val(a, "fontcolor")))
      + Opt(Present(a, "fontname"), Plain("fontfamily", Val(a, "fontname")))
      + Opt(Present(a, "fontsize"), Plain("fontsize", Val(a, "fontsize")))
  }

  /** The pen width becomes the edge width, verbatim. */
  function PenwidthRules(a: AttrMap): seq<Directive>
  {
    Opt(Present(a, "penwidth"), Plain("width", Val(a, "penwidth")))
  }

  /** The stroke: the first of solid, dashed, dotted, invis that the style
      contains decides it. */
  function StrokeRules(a: AttrMap): seq<Directive>
  {
    if !Present(a, "style") then []
    else
      var style := Val(a, "style");
      if Contains(style, "solid") then [Plain("stroke", "solid")]
      else if Contains(style, "dashed") then [Plain("stroke", "dashed")]
      else if Contains(style, "dotted") then [Plain("stroke", "dotted")]
      else if Contains(style, "invis") then [Plain("stroke", "none")]
      else []
  }

  /** The weight becomes the edge strength, verbatim. */
  function WeightRules(a: AttrMap): seq<Directive>
  {
    Opt(Present(a, "weight"), Plain("strength", Val(a, "weight")))
  }

  /** The arrow size sets both the arrowhead radius and its length. */
  function ArrowsizeRules(a: AttrMap): seq<Directive>
  {
    if !Present(a, "arrowsize") then []
    else [Plain("arrow_radius", Val(a, "arrowsize")), Plain("arrow_length", Val(a, "arrowsize"))]
  }

  /** The direction: "back" reverses the arrow, "none" removes it, anything
      else (forward is the default, both is not supported) sets nothing. */
  function DirRules(a: AttrMap): seq<Directive>
  {
    if !Present(a, "dir") then []
    else if Val(a, "dir") == "back" then [Plain("arrow_reverse", "true")]
    else if Val(a, "dir") == "none" then [Plain("arrow", "false")]
    else []
  }

  /** Every request draw_edge makes for an edge, in order. */
  function EdgeDirectives(a: AttrMap): seq<Directive>
  {
    ColorRules(a) + EdgeLabelRules(a) + PenwidthRules(a) + StrokeRules(a)
    + WeightRules(a) + ArrowsizeRules(a) + DirRules(a)
  }

  /** The requests after the colour and the label blocks, none of which
      names a colour. */
  function LineRules(a: AttrMap): seq<Directive>
  {
    PenwidthRules(a) + StrokeRules(a) + WeightRules(a) + ArrowsizeRules(a) + DirRules(a)
  }

  /** EdgeDirectives as the colour block, the label block and the rest. */
  lemma EdgeDirectivesParts(a: AttrMap)
    ensures EdgeDirectives(a) == ColorRules(a) + EdgeLabelRules(a) + LineRules(a)
  {
    var c, l, p, s, w, r, d :=
      ColorRules(a), EdgeLabelRules(a), PenwidthRules(a), StrokeRules(a), WeightRules(a), ArrowsizeRules(a), DirRules(a);
    Regroup7(c, l, p, s, w, r, d);
  }

  /** draw_edge sets only these thirteen edge attributes. */
  lemma EdgeAttributes(a: AttrMap)
    ensures SetsOnly(EdgeDirectives(a), {"visible", "color", "label", "fontcolor", "fontfamily", "fontsize",
                                          "width", "stroke", "strength", "arrow_radius", "arrow_length",
                                          "arrow_reverse", "arrow"})
  {
    var names := {"visible", "color", "label", "fontcolor", "fontfamily", "fontsize", "width", "stroke",
                  "strength", "arrow_radius", "arrow_length", "arrow_reverse", "arrow"};
    var c, l, p := ColorRules(a), EdgeLabelRules(a), PenwidthRules(a);
    var k, w, z, r := StrokeRules(a), WeightRules(a), ArrowsizeRules(a), DirRules(a);
    assert SetsOnly(c, names) && SetsOnly(l, names) && SetsOnly(p, names) && SetsOnly(k, names);
    assert SetsOnly(w, names) && SetsOnly(z, names) && SetsOnly(r, names);
    SetsOnlyAppend(c, l, names);
    SetsOnlyAppend(c + l, p, names);
    SetsOnlyAppend(c + l + p, k, names);
    SetsOnlyAppend(c + l + p + k, w, names);
    SetsOnlyAppend(c + l + p + k + w, z, names);
    SetsOnlyAppend(c + l + p + k + w + z, r, names);
  }

  /** EdgeDirectives filtered by attribute, group by group. */
  lemma EdgeNamed(a: AttrMap, attr: string)
    ensures Named(EdgeDirectives(a), attr) ==
      Named(ColorRules(a), attr) + Named(EdgeLabelRules(a), attr) + Named(PenwidthRules(a), attr)
      + Named(StrokeRules(a), attr) + Named(WeightRules(a), attr) + Named(ArrowsizeRules(a), attr)
      + Named(DirRules(a), attr)
    ensures Named(PenwidthRules(a), attr) == Opt(Present(a, "penwidth") && attr == "width", Plain("width", Val(a, "penwidth")))
    ensures Named(WeightRules(a), attr) == Opt(Present(a, "weight") && attr == "strength", Plain("strength", Val(a, "weight")))
  {
    NamedOpt();
    var c, l, p, s, w, r, d :=
      ColorRules(a), EdgeLabelRules(a), PenwidthRules(a), StrokeRules(a), WeightRules(a), ArrowsizeRules(a), DirRules(a);
    NamedAppend(c + l + p + s + w + r, d, attr);
    NamedAppend(c + l + p + s + w, r, attr);
    NamedAppend(c + l + p + s, w, attr);
    NamedAppend4(c, l, p, s, attr);
  }

  /** The colour group filtered by attribute. */
  lemma ColorNamed(a: AttrMap, attr: string)
    ensures var hasColor := Present(a, "color");
      Named(ColorRules(a), attr) ==
        Opt(hasColor && Val(a, "color") == "invis" && attr == "visible", Plain("visible", "false"))
        + Opt(hasColor && Val(a, "color") != "invis" && attr == "color", Colored("color", Val(a, "color")))
  {
    NamedOpt();
  }

  /** The label group filtered by attribute. */
  lemma EdgeLabelNamed(a: AttrMap, attr: string)
    ensures var hasLabel := Present(a, "label");
      Named(EdgeLabelRules(a), attr) ==
        Opt(hasLabel && attr == "label", Plain("label", Val(a, "label")))
        + Opt(hasLabel && Present(a, "fontcolor") && attr == "fontcolor", Colored("fontcolor", Val(a, "fontcolor")))
        + Opt(hasLabel && Present(a, "fontname") && attr == "fontfamily", Plain("fontfamily", Val(a, "fontname")))
        + Opt(hasLabel && Present(a, "fontsize") && attr == "fontsize", Plain("fontsize", Val(a, "fontsize")))
  {
    NamedOpt();
    if Present(a, "label") {
      NamedAppend4(
        Opt(Present(a, "label"), Plain("label", Val(a, "label"))),
        Opt(Present(a, "fontcolor"), Colored("fontcolor", Val(a, "fontcolor"))),
        Opt(Present(a, "fontname"), Plain("fontfamily", Val(a, "fontname"))),
        Opt(Present(a, "fontsize"), Plain("fontsize", Val(a, "fontsize"))), attr);
    }
  }

  /** The stroke group filtered by attribute: at most one request. */
  lemma StrokeNamed(a: AttrMap, attr: string)
    ensures Named(StrokeRules(a), attr) == if attr == "stroke" then StrokeRules(a) else []
  {
    NamedOpt();
    assert forall v :: [Plain("stroke", v)] == Opt(true, Plain("stroke", v));
  }

  /** The arrow-size group filtered by attribute. */
  lemma ArrowsizeNamed(a: AttrMap, attr: string)
    ensures var hasSize := Present(a, "arrowsize");
      Named(ArrowsizeRules(a), attr) ==
        Opt(hasSize && attr == "arrow_radius", Plain("arrow_radius", Val(a, "arrowsize")))
        + Opt(hasSize && attr == "arrow_length", Plain("arrow_length", Val(a, "arrowsize")))
  {
    NamedOpt();
    if Present(a, "arrowsize") {
      var v := Val(a, "arrowsize");
      assert [Plain("arrow_radius", v), Plain("arrow_length", v)] ==
        Opt(true, Plain("arrow_radius", v)) + Opt(true, Plain("arrow_length", v));
      NamedAppend(Opt(true, Plain("arrow_radius", v)), Opt(true, Plain("arrow_length", v)), attr);
    }
  }

  /** The direction group filtered by attribute. */
  lemma DirNamed(a: AttrMap, attr: string)
    ensures var hasDir := Present(a, "dir");
      Named(DirRules(a), attr) ==
        Opt(hasDir && Val(a, "dir") == "back" && attr == "arrow_reverse", Plain("arrow_reverse", "true"))
        + Opt(hasDir && Val(a, "dir") == "none" && attr == "arrow", Plain("arrow", "false"))
  {
    NamedOpt();
  }

  /** The colour group sets only visible and color. */
  lemma ColorAbsent(a: AttrMap, attr: string)
    requires attr != "visible" && attr != "color"
    ensures Named(ColorRules(a), attr) == []
  {
    ColorNamed(a, attr);
  }

  /** The label group sets only label and the three font attributes. */
  lemma EdgeLabelAbsent(a: AttrMap, attr: string)
    requires attr != "label" && attr != "fontcolor" && attr != "fontfamily" && attr != "fontsize"
    ensures Named(EdgeLabelRules(a), attr) == []
  {
    EdgeLabelNamed(a, attr);
  }

  /** The stroke group sets only stroke. */
  lemma StrokeAbsent(a: AttrMap, attr: string)
    requires attr != "stroke"
    ensures Named(StrokeRules(a), attr) == []
  {
    StrokeNamed(a, attr);
  }

  /** The arrow-size group sets only arrow_radius and arrow_length. */
  lemma ArrowsizeAbsent(a: AttrMap, attr: string)
    requires attr != "arrow_radius" && attr != "arrow_length"
    ensures Named(ArrowsizeRules(a), attr) == []
  {
    ArrowsizeNamed(a, attr);
  }

  /** The direction group sets only arrow_reverse and arrow. */
  lemma DirAbsent(a: AttrMap, attr: string)
    requires attr != "arrow_reverse" && attr != "arrow"
    ensures Named(DirRules(a), attr) == []
  {
    DirNamed(a, attr);
  }

  /** visible and color are set by the colour group alone. */
  lemma EdgeNamedColor(a: AttrMap, attr: string)
    requires attr == "visible" || attr == "color"
    ensures Named(EdgeDirectives(a), attr) == Named(ColorRules(a), attr)
  {
    EdgeNamed(a, attr);
    EdgeLabelAbsent(a, attr);
    StrokeAbsent(a, attr);
    ArrowsizeAbsent(a, attr);
    DirAbsent(a, attr);
  }

  /** label and the font attributes are set by the label group alone. */
  lemma EdgeNamedLabel(a: AttrMap, attr: string)
    requires attr == "label" || attr == "fontcolor" || attr == "fontfamily" || attr == "fontsize"
    ensures Named(EdgeDirectives(a), attr) == Named(EdgeLabelRules(a), attr)
  {
    EdgeNamed(a, attr);
    ColorAbsent(a, attr);
    StrokeAbsent(a, attr);
    ArrowsizeAbsent(a, attr);
    DirAbsent(a, attr);
  }

  /** width and strength are set by their own rules alone. */
  lemma EdgeNamedVerbatim(a: AttrMap, attr: string)
    requires attr == "width" || attr == "strength"
    ensures Named(EdgeDirectives(a), attr) ==
      Opt(Present(a, "penwidth") && attr == "width", Plain("width", Val(a, "penwidth")))
      + Opt(Present(a, "weight") && attr == "strength", Plain("strength", Val(a, "weight")))
  {
    EdgeNamed(a, attr);
    ColorAbsent(a, attr);
    EdgeLabelAbsent(a, attr);
    StrokeAbsent(a, attr);
    ArrowsizeAbsent(a, attr);
    DirAbsent(a, attr);
  }

  /** stroke is set by the stroke group alone. */
  lemma EdgeNamedStroke(a: AttrMap)
    ensures Named(EdgeDirectives(a), "stroke") == StrokeRules(a)
  {
    EdgeNamed(a, "stroke");
    StrokeNamed(a, "stroke");
    ColorAbsent(a, "stroke");
    EdgeLabelAbsent(a, "stroke");
    ArrowsizeAbsent(a, "stroke");
    DirAbsent(a, "stroke");
  }

  /** arrow_radius and arrow_length are set by the arrow-size group alone. */
  lemma EdgeNamedArrowsize(a: AttrMap, attr: string)
    requires attr == "arrow_radius" || attr == "arrow_length"
    ensures Named(EdgeDirectives(a), attr) == Named(ArrowsizeRules(a), attr)
  {
    EdgeNamed(a, attr);
    ColorAbsent(a, attr);
    EdgeLabelAbsent(a, attr);
    StrokeAbsent(a, attr);
    DirAbsent(a, attr);
  }

  /** arrow_reverse and arrow are set by the direction group alone. */
  lemma EdgeNamedDir(a: AttrMap, attr: string)
    requires attr == "arrow_reverse" || attr == "arrow"
    ensures Named(EdgeDirectives(a), attr) == Named(DirRules(a), attr)
  {
    EdgeNamed(a, attr);
    ColorAbsent(a, attr);
    EdgeLabelAbsent(a, attr);
    StrokeAbsent(a, attr);
    ArrowsizeAbsent(a, attr);
  }

  /** The literal colour "invis" hides the edge and sets no colour; any other
      colour that is present is set, through convert_color. */
  lemma EdgeColorRule(a: AttrMap)
    ensures var ds := EdgeDirectives(a);
      && Named(ds, "visible") ==
           (if Present(a, "color") && a["color"] == "invis" then [Plain("visible", "false")] else [])
      && Named(ds, "color") ==
           (if Present(a, "color") && a["color"] != "invis" then [Colored("color", a["color"])] else [])
  {
    EdgeNamedColor(a, "visible");
    ColorNamed(a, "visible");
    EdgeNamedColor(a, "color");
    ColorNamed(a, "color");
  }

  /** The label is set exactly when it is present, verbatim. */
  lemma EdgeLabelRule(a: AttrMap)
    ensures Named(EdgeDirectives(a), "label") ==
      (if Present(a, "label") then [Plain("label", a["label"])] else [])
  {
    EdgeNamedLabel(a, "label");
    EdgeLabelNamed(a, "label");
  }

  /** fontcolor is set, through convert_color, exactly when both it and the
      label are present. */
  lemma EdgeFontColorRule(a: AttrMap)
    ensures Named(EdgeDirectives(a), "fontcolor") ==
      (if Present(a, "label") && Present(a, "fontcolor") then [Colored("fontcolor", a["fontcolor"])] else [])
  {
    EdgeNamedLabel(a, "fontcolor");
    EdgeLabelNamed(a, "fontcolor");
  }

  /** fontfamily is set, to fontname verbatim, exactly when both fontname and
      the label are present. */
  lemma EdgeFontFamilyRule(a: AttrMap)
    ensures Named(EdgeDirectives(a), "fontfamily") ==
      (if Present(a, "label") && Present(a, "fontname") then [Plain("fontfamily", a["fontname"])] else [])
  {
    EdgeNamedLabel(a, "fontfamily");
    EdgeLabelNamed(a, "fontfamily");
  }

  /** fontsize is set, verbatim, exactly when both it and the label are
      present. */
  lemma EdgeFontSizeRule(a: AttrMap)
    ensures Named(EdgeDirectives(a), "fontsize") ==
      (if Present(a, "label") && Present(a, "fontsize") then [Plain("fontsize", a["fontsize"])] else [])
  {
    EdgeNamedLabel(a, "fontsize");
    EdgeLabelNamed(a, "fontsize");
  }

  /** penwidth becomes width and weight becomes strength, verbatim, each
      exactly when present. */
  lemma EdgeVerbatimRule(a: AttrMap)
    ensures var ds := EdgeDirectives(a);
      && Named(ds, "width") == (if Present(a, "penwidth") then [Plain("width", a["penwidth"])] else [])
      && Named(ds, "strength") == (if Present(a, "weight") then [Plain("strength", a["weight"])] else [])
  {
    EdgeNamedVerbatim(a, "width");
    EdgeNamedVerbatim(a, "strength");
  }

  /** The stroke group's choice among solid, dashed, dotted and invis. */
  lemma StrokeChoice(a: AttrMap)
    ensures var strokes := StrokeRules(a);
      var has := Present(a, "style");
      var solid, dashed := has && Contains(a["style"], "solid"), has && Contains(a["style"], "dashed");
      var dotted, invis := has && Contains(a["style"], "dotted"), has && Contains(a["style"], "invis");
      && |strokes| <= 1
      && (strokes != [] <==> solid || dashed || dotted || invis)
      && (Plain("stroke", "solid") in strokes <==> solid)
      && (Plain("stroke", "dashed") in strokes <==> !solid && dashed)
      && (Plain("stroke", "dotted") in strokes <==> !solid && !dashed && dotted)
      && (Plain("stroke", "none") in strokes <==> !solid && !dashed && !dotted && invis)
  {
  }

  /** At most one stroke is set, and the style's keywords decide it in the
      order solid, dashed, dotted, invis (which maps to "none"). */
  lemma EdgeStrokeRule(a: AttrMap)
    ensures var strokes := Named(EdgeDirectives(a), "stroke");
      var has := Present(a, "style");
      var solid, dashed := has && Contains(a["style"], "solid"), has && Contains(a["style"], "dashed");
      var dotted, invis := has && Contains(a["style"], "dotted"), has && Contains(a["style"], "invis");
      && |strokes| <= 1
      && (strokes != [] <==> solid || dashed || dotted || invis)
      && (Plain("stroke", "solid") in strokes <==> solid)
      && (Plain("stroke", "dashed") in strokes <==> !solid && dashed)
      && (Plain("stroke", "dotted") in strokes <==> !solid && !dashed && dotted)
      && (Plain("stroke", "none") in strokes <==> !solid && !dashed && !dotted && invis)
  {
    EdgeNamedStroke(a);
    StrokeChoice(a);
  }

  /** The arrow size sets arrow_radius and arrow_length, both to its value,
      exactly when it is present. */
  lemma EdgeArrowsizeRule(a: AttrMap)
    ensures var ds := EdgeDirectives(a);
      && Named(ds, "arrow_radius") == (if Present(a, "arrowsize") then [Plain("arrow_radius", a["arrowsize"])] else [])
      && Named(ds, "arrow_length") == (if Present(a, "arrowsize") then [Plain("arrow_length", a["arrowsize"])] else [])
  {
    EdgeNamedArrowsize(a, "arrow_radius");
    ArrowsizeNamed(a, "arrow_radius");
    EdgeNamedArrowsize(a, "arrow_length");
    ArrowsizeNamed(a, "arrow_length");
  }

  /** dir=back only reverses the arrow, dir=none only removes it, any other
      direction does neither; the two are never both set. */
  lemma EdgeDirRule(a: AttrMap)
    ensures var ds := EdgeDirectives(a);
      && Named(ds, "arrow_reverse") ==
           (if Present(a, "dir") && a["dir"] == "back" then [Plain("arrow_reverse", "true")] else [])
      && Named(ds, "arrow") ==
           (if Present(a, "dir") && a["dir"] == "none" then [Plain("arrow", "false")] else [])
      && (Named(ds, "arrow_reverse") == [] || Named(ds, "arrow") == [])
  {
    EdgeNamedDir(a, "arrow_reverse");
    DirNamed(a, "arrow_reverse");
    EdgeNamedDir(a, "arrow");
    DirNamed(a, "arrow");
  }
}
