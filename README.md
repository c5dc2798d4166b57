# dot2ubi attribute translation, in Dafny

dot2ubi reads a Graphviz graph and draws it in 3-D on a Ubigraph server.
First it clears the canvas and sends default vertex and edge styles. Then it
creates every node's vertex. Then it creates every node's outgoing edges.
Each element's Graphviz attributes become Ubigraph attributes as follows:

- a colour goes through `convert_color`, which prints `#RRGGBB`, except
  the edge colour `invis`, which sets `visible=false` instead;
- a node shape goes through the planar-to-solid table;
- a node size is the largest of 0, the width and the height, and is sent
  only when it is positive;
- the node style, the edge style and `dir` become fixed Ubigraph settings
  (`visible=false`, one of four strokes, `arrow_reverse=true` or
  `arrow=false`);
- label, font name, font size, pen width, weight and arrow size are passed
  on verbatim.

If a colour cannot be resolved, the program exits. A `colorscheme` attribute
installs a colour scheme, and that scheme stays in force for later elements.

The model has these modules:

- `Attributes` (`attributes.dfy`): attribute maps, the `GET_*_VALUE`
  presence test, and `strstr` as `Contains`.
- `Colors` (`colors.dfy`): `convert_color` over an abstract `colorxlate`,
  with the `#RRGGBB` format and a parser that inverts it.
- `Shapes` (`shapes.dfy`): the 25-entry table. The class `ShapeTable` fills
  an array in a loop (`initialize_planar_to_solid`). `ConvertShape` is the
  search loop of `convert_shape`.
- `DotGraph` (`dotgraph.dfy`): nodes, edges and graphs as the loader
  delivers them, plus the library routines the translator calls
  (`colorxlate`, `atof`, `sprintf("%31.5f")`), which stay abstract.
- `Directives` (`directives.dfy`): a rule asks for an attribute to be set
  to a verbatim value (`Plain`) or to a converted colour (`Colored`).
  `Resolve` carries out one element's requests in order. It stops at the
  first colour that cannot be resolved, which is where the program exits.
- `NodeRules` and `EdgeRules` (`node_rules.dfy`, `edge_rules.dfy`): the
  ordered requests of `draw_node` and `draw_edge` as pure functions of the
  attributes, with one lemma per rule. A rule lemma says exactly which
  value of a Ubigraph attribute is requested, and under which condition.
  Most cover one attribute. The colour, verbatim, arrow-size and direction
  lemmas of edges each cover the two attributes their rule sets.
- `Scene` (`scene.dfy`): the whole trace of Ubigraph calls as a function of
  the graph (`SceneOf`). It covers the defaults, the node loop and the edge
  loops, plus ordering lemmas.
- `Dot2Ubi` (`dot2ubi.dfy`): the imperative program. The class `Session`
  holds three things:
  - the trace of calls sent so far;
  - the colour-scheme cell;
  - the shape table.

  Its methods issue the calls one at a time, as `draw_node`, `draw_edge` and
  the loops of `main` do. Each method is proved to leave exactly the trace
  and scheme that the `Scene` functions describe. `Run` is `main`.

## Model

| member | source | states |
|---|---|---|
| Attributes.Present | dot2ubi.c:15-17 | an attribute is present exactly when its value, read as empty when missing, is not empty, so a missing attribute and an empty one are treated alike |
| Attributes.Contains | dot2ubi.c:196-202 | the substring test always finds the empty word, and never finds a word longer than the value |
| Attributes.ContainsIffOccurs | dot2ubi.c:196-202 | the substring test used for styles holds exactly when the word occurs at some position of the value |
| Colors.FormatRgb | dot2ubi.c:143-146 | the printed colour is '#' followed by six upper-case hexadecimal digits |
| Colors.Hex2RoundTrip | dot2ubi.c:143-146 | `%02X` of a byte reads back as that byte, and every pair of upper-case digits is what `%02X` prints for the byte it spells |
| Colors.FormatRgbRoundTrip | dot2ubi.c:143-146 | the printed colour holds red, green and blue, in that order; alpha is not printed |
| Colors.ParseRgbRoundTrip | dot2ubi.c:143-146 | every `#RRGGBB` string is the print of the channels it spells, whatever the alpha |
| Colors.ConvertColor | dot2ubi.c:134-148 | fails exactly when colorxlate fails under the active scheme; otherwise gives a `#RRGGBB` string that holds the resolved red, green and blue |
| Shapes.LookupFirstMatch | dot2ubi.c:155-164 | the lookup answers with the solid of the first entry whose name is exactly equal to the shape |
| Shapes.LookupNoMatch | dot2ubi.c:166 | a shape that no entry names maps to "torus" |
| Shapes.ShapeTable.constructor | dot2ubi.c:35-74 | the table array holds the 25 associations of initial_map in their order |
| Shapes.ShapeTable.ConvertShape | dot2ubi.c:151-167 | the scan returns the first matching entry's solid, or "torus" when none matches; it has no modifies clause, so the disabled swap never reorders the table |
| Directives.ResolveSpec | dot2ubi.c:139-142 | an element's requests are carried out in order, each giving its own setting, until the first colour that cannot be resolved; that colour is recorded and nothing after it is set |
| Directives.ResolveAppend | dot2ubi.c:139-142 | carrying out two runs of requests in a row is carrying out the second only when the first did not fail |
| NodeRules.NodeDirectives | dot2ubi.c:183-226 | the requests of draw_node in source order: the label block, the style block, the shape and the size (no contract of its own; the rule lemmas below state what it requests) |
| NodeRules.NodeAttributes | dot2ubi.c:183-226 | draw_node sets only label, fontcolor, fontfamily, fontsize, color, visible, shape and size |
| NodeRules.NodeLabelRule | dot2ubi.c:184-185 | the label is set exactly when it is present, to its value verbatim; the fallback to the node's name is never taken |
| NodeRules.NodeFontColorRule | dot2ubi.c:184-187 | fontcolor is requested, as a colour to convert, exactly when both it and the label are present |
| NodeRules.NodeFontFamilyRule | dot2ubi.c:184-189 | fontfamily is set to fontname verbatim exactly when both fontname and the label are present |
| NodeRules.NodeFontSizeRule | dot2ubi.c:184-191 | fontsize is set verbatim exactly when both it and the label are present |
| NodeRules.NodeFillRule | dot2ubi.c:195-201 | color is requested from fillcolor exactly when the style contains "filled" and fillcolor is present |
| NodeRules.NodeInvisibleRule | dot2ubi.c:195-204 | visible=false is set exactly when the style contains "invis", whatever else the style contains |
| NodeRules.NodeShapeRule | dot2ubi.c:207-208 | the shape is set exactly when present, to the table's solid for it |
| NodeRules.NodeSize | dot2ubi.c:174-220 | the size is at least 0, at least each width and height that is present, and equal to one of them unless it is 0 |
| NodeRules.NodeSizeRule | dot2ubi.c:221-226 | size is set exactly when the size is positive, so never when width and height are both missing or not positive |
| EdgeRules.EdgeDirectives | dot2ubi.c:242-293 | the requests of draw_edge in source order: colour, label block, penwidth, stroke, weight, arrow size and direction (no contract of its own; the rule lemmas below state what it requests) |
| EdgeRules.EdgeAttributes | dot2ubi.c:242-293 | draw_edge sets only visible, color, label, fontcolor, fontfamily, fontsize, width, stroke, strength, arrow_radius, arrow_length, arrow_reverse and arrow |
| EdgeRules.EdgeColorRule | dot2ubi.c:243-248 | a colour equal to "invis" sets visible=false and no colour; any other colour that is present is requested as a colour to convert |
| EdgeRules.EdgeLabelRule | dot2ubi.c:251-253 | the label is set exactly when it is present, verbatim; the repeated check changes nothing |
| EdgeRules.EdgeFontColorRule | dot2ubi.c:251-255 | fontcolor is requested exactly when both it and the label are present |
| EdgeRules.EdgeFontFamilyRule | dot2ubi.c:251-257 | fontfamily is set to fontname verbatim exactly when both fontname and the label are present |
| EdgeRules.EdgeFontSizeRule | dot2ubi.c:251-259 | fontsize is set verbatim exactly when both it and the label are present |
| EdgeRules.EdgeVerbatimRule | dot2ubi.c:263-280 | penwidth becomes width and weight becomes strength, verbatim, each exactly when present |
| EdgeRules.EdgeStrokeRule | dot2ubi.c:267-276 | at most one stroke is set; solid, dashed, dotted and invis (as "none") are tried in that order, and the first that the style contains wins |
| EdgeRules.EdgeArrowsizeRule | dot2ubi.c:283-286 | an arrowsize that is present sets both arrow_radius and arrow_length to its value; otherwise neither is set |
| EdgeRules.EdgeDirRule | dot2ubi.c:287-293 | dir=back sets only arrow_reverse=true, dir=none sets only arrow=false, any other direction sets neither, and the two are never both set |
| Scene.Defaults | dot2ubi.c:115-129 | the calls of initialize_ubigraph in order (no contract of its own; DefaultsShape and DefaultsArrows state its properties) |
| Scene.DefaultsShape | dot2ubi.c:115-129 | the defaults start by clearing the canvas, touch no vertex or edge, and include the sphere shape and the 0.75 size |
| Scene.DefaultsArrows | dot2ubi.c:122-125 | the arrow defaults are sent exactly when the graph is directed |
| Scene.NodeStep | dot2ubi.c:170-227 | one node's calls: its vertex, then the settings of its requests up to the first unresolvable colour, under the scheme its colorscheme installs or the one in force before (no contract of its own; NodeStepCalls, NodeLabelStep and NodeFontColorStep state its properties) |
| Scene.EdgeStep | dot2ubi.c:230-294 | one edge's calls: the edge between its tail and head, then the settings of its requests up to the first unresolvable colour (no contract of its own; EdgeStepCalls and EdgeColorStep state its properties) |
| Scene.SceneOf | dot2ubi.c:303-317 | the defaults, then every node in order, then every node's out-edges in order, each under the scheme left by the elements before it, stopping at the first failure (no contract of its own; VerticesBeforeEdges and EdgesFollowTheirVertices state its properties) |
| Scene.NodeLabelStep | dot2ubi.c:177-185 | a labelled node's vertex is created and its label is set right after, verbatim |
| Scene.NodeFontColorStep | dot2ubi.c:180-187 | a node's font colour is resolved under the scheme left by its own colorscheme, or by earlier elements when it has none; on failure the node keeps only its vertex and label and the run ends |
| Scene.EdgeColorStep | dot2ubi.c:236-248 | an edge colour other than "invis" is resolved under the scheme in force after the edge's colorscheme; on failure only the edge exists and the run ends; otherwise the colour is the edge's first setting |
| Scene.NodeStepCalls | dot2ubi.c:177-226 | draw_node creates its vertex first and afterwards sets attributes of that vertex only |
| Scene.EdgeStepCalls | dot2ubi.c:236-293 | draw_edge creates the edge between its tail and head first and afterwards sets attributes of that edge only |
| Scene.AllEdgesMembers | dot2ubi.c:313-317 | the edge loops visit exactly the outgoing edges of the graph's nodes |
| Scene.VerticesBeforeEdges | dot2ubi.c:306-317 | the trace starts with the defaults, and no vertex is created or changed after the first edge call |
| Scene.EdgesFollowTheirVertices | dot2ubi.c:309-317 | in a well-formed graph every edge is created after the vertices at both of its ends |
| Dot2Ubi.Session.constructor | dot2ubi.c:110-131 | the trace is exactly the defaults, no colour scheme is installed yet, and the shape table is built |
| Dot2Ubi.Session.SendDefaults | dot2ubi.c:115-129 | the trace is extended by exactly the defaults, with the arrow defaults only for a directed graph |
| Dot2Ubi.Session.SendVertexDefaults | dot2ubi.c:115-121 | the trace is extended by the clear and the six vertex defaults |
| Dot2Ubi.Session.SendEdgeDefaults | dot2ubi.c:126-129 | the trace is extended by the four edge defaults |
| Dot2Ubi.Session.Emit | dot2ubi.c:177 | one Ubigraph request is appended to the trace and nothing else changes |
| Dot2Ubi.Session.SetVertexColor | dot2ubi.c:134-148 | with a colour that can be resolved, exactly one vertex setting with its `#RRGGBB` form is appended; otherwise nothing is appended and failure is reported |
| Dot2Ubi.Session.SetEdgeColor | dot2ubi.c:247-255 | with a colour that can be resolved, exactly one edge setting with its `#RRGGBB` form is appended (the edge colour and the edge font colour); otherwise nothing is appended and failure is reported |
| Dot2Ubi.Session.DrawNodeLabel | dot2ubi.c:183-192 | the trace is extended by exactly the label block's settings up to the first unresolvable colour, and the result says whether that colour resolved |
| Dot2Ubi.Session.DrawNodeFonts | dot2ubi.c:186-191 | after the label, the font colour, family and size requests are carried out one by one, each only when its attribute is present, stopping at a colour that cannot be resolved |
| Dot2Ubi.Session.DrawNodeFaces | dot2ubi.c:188-191 | the font family and size requests are carried out, each only when its attribute is present and the run has not failed |
| Dot2Ubi.Session.DrawNodeStyle | dot2ubi.c:194-204 | the trace is extended by exactly the style block's settings up to the first unresolvable colour |
| Dot2Ubi.Session.DrawStyleFlags | dot2ubi.c:196-203 | the fill colour is requested only for a "filled" style with a fillcolor, then visible=false for an "invis" style, which is skipped once the colour failed |
| Dot2Ubi.Session.DrawNodeSize | dot2ubi.c:211-226 | the two conditional raises of the local size leave the trace extended by exactly the size rule's settings |
| Dot2Ubi.Session.DrawNodeShape | dot2ubi.c:207-208 | the trace is extended by exactly the shape rule's settings, with the table's solid |
| Dot2Ubi.Session.DrawNodeBody | dot2ubi.c:183-226 | the trace is extended by exactly the settings of the node's requests, in order, up to the first unresolvable colour |
| Dot2Ubi.Session.DrawNode | dot2ubi.c:170-227 | the trace grows by exactly the node's step: its vertex, then its settings up to the first colour that cannot be resolved; the scheme becomes the node's colorscheme if it has one; the result says whether the run goes on |
| Dot2Ubi.Session.DrawEdgeBody | dot2ubi.c:242-293 | the trace is extended by exactly the settings of the edge's requests, in order, up to the first unresolvable colour |
| Dot2Ubi.Session.DrawEdgeColor | dot2ubi.c:242-248 | the trace is extended by exactly the colour rule's settings: visible=false for "invis", otherwise the converted colour, or nothing with failure reported |
| Dot2Ubi.Session.DrawEdgeLabel | dot2ubi.c:250-260 | the trace is extended by exactly the label block's settings up to the first unresolvable colour; the label is tested twice, as in the source |
| Dot2Ubi.Session.DrawEdgeFonts | dot2ubi.c:254-259 | after the label, the font colour, family and size requests are carried out one by one, each only when its attribute is present, stopping at a colour that cannot be resolved |
| Dot2Ubi.Session.DrawEdgeFaces | dot2ubi.c:256-259 | the font family and size requests are carried out, each only when its attribute is present and the run has not failed |
| Dot2Ubi.Session.DrawEdgeLines | dot2ubi.c:262-293 | the trace is extended by exactly the settings of the penwidth, stroke, weight, arrow-size and direction rules, none of which can fail |
| Dot2Ubi.Session.DrawEdgeWidth | dot2ubi.c:262-264 | the trace is extended by width set to penwidth when it is present, and by nothing otherwise |
| Dot2Ubi.Session.DrawEdgeStroke | dot2ubi.c:267-276 | the else-if chain extends the trace by exactly the stroke rule's settings |
| Dot2Ubi.Session.DrawEdgeStrength | dot2ubi.c:278-280 | the trace is extended by strength set to weight when it is present, and by nothing otherwise |
| Dot2Ubi.Session.DrawEdgeArrowsize | dot2ubi.c:283-286 | the two calls extend the trace by exactly the arrow-size rule's settings |
| Dot2Ubi.Session.DrawEdgeDir | dot2ubi.c:287-293 | the trace is extended by exactly the direction rule's settings |
| Dot2Ubi.Session.DrawEdge | dot2ubi.c:230-294 | the trace grows by exactly the edge's step; the scheme becomes the edge's colorscheme if it has one; the result says whether the run goes on |
| Dot2Ubi.Session.DrawAllNodes | dot2ubi.c:309-310 | the node loop leaves the trace, scheme and status of the scene's node fold, and stops at the first failure |
| Dot2Ubi.Session.DrawAllEdges | dot2ubi.c:313-317 | the nested edge loops leave the trace, scheme and status of the scene's edge fold over all out-edges, in order |
| Dot2Ubi.Session.DrawOutEdges | dot2ubi.c:315-316 | drawing one node's out-edges and then the edges after them is the same fold as drawing the edges after them from the state this loop leaves |
| Dot2Ubi.Run | dot2ubi.c:296-322 | the program's calls and its exit status are exactly those of the scene of the graph |

## Left out

- Reading the dot file (`read_dot`, `agread`, `fopen`, standard input, dot2ubi.c:78-107) and `agclose`: these are file I/O and a foreign parser. The graph is a parameter of `Run`.
- Ubigraph calls and their return codes: they are entries appended to the trace of calls, not a canvas. A server failure is not modelled.
- The internals of `colorxlate` and `setColorScheme`: `colorxlate` is an abstract function of the installed scheme and the colour name, and the scheme is a cell of the session.
- `atof` and `sprintf("%31.5f")`: abstract functions of `Library` from strings to reals and back. Floating-point behaviour beyond comparison, such as NaN, is not modelled.
- NodeRules.NodeSize: states the maximum over real numbers and does not cover NaN results of `atof`.
- The `(int)` cast in `UBID`: ids are unbounded integers taken from the graph.
- The `malloc` failure path and `perror` in `initialize_planar_to_solid` (dot2ubi.c:67-71): the table is always allocated.
- The error message of `convert_color` and `progname`: the exit is modelled as the run stopping, with status false.
- Pointers: the table holds the associations by value, in an array, so aliasing of `initial_map` entries is not modelled. The graph iteration functions (`agfstnode`, `agnxtnode`, `agfstout`, `agnxtout`) are sequences.
- The static buffer that `convert_color` returns is a fresh string value.

## Where the code is followed

- The colour scheme is a single cell that is never reset. A node or edge
  without a `colorscheme` attribute resolves its colours under the scheme of
  the last element that had one. It is not scoped to one element.
- The size starts at 0 and is raised only by larger values. A width or
  height that is present but not positive therefore gives no size, even when
  it is the only one present.
- After an unresolvable colour, the calls already sent stay in the trace.
  Nothing after them is sent.
- The `value` declared inside the "filled" block is a separate variable. The
  "invis" test therefore reads the style, and `visible=false` does not
  depend on `fillcolor`.
- The label fallback to the node's name, and the repeated label check on
  edges, are both modelled as written. Lemmas show that neither changes
  anything.
