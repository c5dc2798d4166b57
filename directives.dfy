/** What a translation rule asks for, before colours are resolved, and the
    fail-stop resolution that turns the requests of one element into the
    (attribute, value) settings sent to Ubigraph. */
module Directives {
  import opened Wrappers
  import opened Colors

  /** One (attribute, value) pair for ubigraph_set_vertex_attribute or
      ubigraph_set_edge_attribute. */
  type Setting = (string, string)

  /** A rule's request: set `attr` to a value taken verbatim, or to what
      convert_color makes of a colour name. */
  datatype Directive = Plain(attr: string, value: string) | Colored(attr: string, color: string)

  /** The settings an element received, in order, and the colour name whose
      resolution failed and ended the run, if one did. */
  datatype Translation = Translation(settings: seq<Setting>, failed: Option<string>)

  /** One request carried out: None when its colour cannot be resolved. */
  function Apply(d: Directive, scheme: Option<string>, xlate: ColorXlate): Option<Setting>
  {
    match d
    case Plain(k, v) => Some((k, v))
    case Colored(k, c) =>
      match ConvertColor(c, scheme, xlate)
      case None => None
      case Some(hex) => Some((k, hex))
  }

  /** One more request after the run `t`: nothing happens once a colour has
      failed; otherwise the request adds its setting, or fails. */
  function Next(t: Translation, d: Directive, scheme: Option<string>, xlate: ColorXlate): Translation
  {
    if t.failed.Some? then t
    else match Apply(d, scheme, xlate)
      case None => Translation(t.settings, Some(d.color))
      case Some(s) => Translation(t.settings + [s], None)
  }

  /** Next, when the request is made at all. */
  function NextIf(c: bool, t: Translation, d: Directive, scheme: Option<string>, xlate: ColorXlate): Translation
  {
    if c then Next(t, d, scheme, xlate) else t
  }

  /** Carries out the requests in order and stops at the first colour that
      cannot be resolved (convert_color calls exit there). */
  function Resolve(ds: seq<Directive>, scheme: Option<string>, xlate: ColorXlate): Translation
    decreases |ds|
  {
    if ds == [] then Translation([], None)
    else Next(Resolve(ds[..|ds| - 1], scheme, xlate), ds[|ds| - 1], scheme, xlate)
  }

  /** A guarded request at the end of a run. */
  lemma ResolveOpt(ds: seq<Directive>, c: bool, d: Directive, scheme: Option<string>, xlate: ColorXlate)
    ensures Resolve(ds + Opt(c, d), scheme, xlate) == NextIf(c, Resolve(ds, scheme, xlate), d, scheme, xlate)
  {
    if c {
      assert (ds + [d])[..|ds|] == ds;
    } else {
      assert ds + [] == ds;
    }
  }

  /** The resolution of a run of requests: either every request is carried
      out, each giving the setting at its own position, or the requests before
      the first unresolvable colour are carried out and nothing after it. */
  lemma {:induction false} ResolveSpec(ds: seq<Directive>, scheme: Option<string>, xlate: ColorXlate)
    ensures var t := Resolve(ds, scheme, xlate);
      && |t.settings| <= |ds|
      && (forall i :: 0 <= i < |t.settings| ==> Apply(ds[i], scheme, xlate) == Some(t.settings[i]))
      && (t.failed.None? <==> |t.settings| == |ds|)
      && (t.failed.Some? ==>
            var k := |t.settings|;
            Apply(ds[k], scheme, xlate).None? && t.failed == Some(ds[k].color))
    decreases |ds|
  {
    if ds != [] {
      var init := ds[..|ds| - 1];
      ResolveSpec(init, scheme, xlate);
      var t := Resolve(init, scheme, xlate);
      assert forall i :: 0 <= i < |init| ==> init[i] == ds[i];
    }
  }

  /** Resolving two runs one after the other: the second run is reached only
      when the first one did not fail. */
  lemma {:induction false} ResolveAppend(xs: seq<Directive>, ys: seq<Directive>, scheme: Option<string>, xlate: ColorXlate)
    ensures var tx := Resolve(xs, scheme, xlate);
      var ty := Resolve(ys, scheme, xlate);
      Resolve(xs + ys, scheme, xlate) ==
        if tx.failed.Some? then tx else Translation(tx.settings + ty.settings, ty.failed)
    decreases |ys|
  {
    if ys == [] {
      assert xs + ys == xs;
    } else {
      var ys' := ys[..|ys| - 1];
      assert (xs + ys)[..|xs + ys| - 1] == xs + ys';
      ResolveAppend(xs, ys', scheme, xlate);
    }
  }

  /** One more request after a run that has not failed. */
  lemma ResolveSnoc(ds: seq<Directive>, d: Directive, scheme: Option<string>, xlate: ColorXlate)
    requires Resolve(ds, scheme, xlate).failed.None?
    ensures var t := Resolve(ds, scheme, xlate);
      Resolve(ds + [d], scheme, xlate) ==
        match Apply(d, scheme, xlate)
        case None => Translation(t.settings, Some(d.color))
        case Some(st) => Translation(t.settings + [st], None)
  {
    assert (ds + [d])[..|ds|] == ds;
  }

  /** A run of one request. */
  lemma ResolveOne(d: Directive, scheme: Option<string>, xlate: ColorXlate)
    ensures Resolve([d], scheme, xlate) == Next(Translation([], None), d, scheme, xlate)
  {
    assert [d][..0] == [];
  }

  /** A verbatim request followed by a colour request: the colour decides
      whether anything after them is carried out. */
  lemma ResolvePlainColored(k: string, v: string, c: string, color: string, ys: seq<Directive>,
                            scheme: Option<string>, xlate: ColorXlate)
    ensures var t := Resolve([Plain(k, v), Colored(c, color)] + ys, scheme, xlate);
      match ConvertColor(color, scheme, xlate)
      case None => t == Translation([(k, v)], Some(color))
      case Some(hex) => |t.settings| >= 2 && t.settings[0] == (k, v) && t.settings[1] == (c, hex)
  {
    var pre := [Plain(k, v), Colored(c, color)];
    ResolveAppend(pre, ys, scheme, xlate);
    assert pre[..1] == [Plain(k, v)] && pre[..1][..0] == [];
    assert Resolve(pre[..1], scheme, xlate) == Translation([(k, v)], None);
  }

  // Assoc, Regroup and Regroup7 model nothing in dot2ubi.c: they regroup
  // concatenations of requests or calls so that the proofs of the drawing
  // methods match one block of rules at a time, without unfolding the rule
  // functions themselves.

  /** Regrouping three blocks of elements. */
  lemma Assoc<T>(a: seq<T>, b: seq<T>, c: seq<T>)
    ensures a + b + c == a + (b + c)
  {
  }

  /** Regrouping four blocks of elements. */
  lemma Regroup<T>(a: seq<T>, b: seq<T>, c: seq<T>, d: seq<T>)
    ensures a + b + c + d == a + (b + c + d) == a + b + (c + d)
  {
  }

  /** Regrouping seven blocks as two and the other five. */
  lemma Regroup7<T>(a: seq<T>, b: seq<T>, c: seq<T>, d: seq<T>, e: seq<T>, f: seq<T>, g: seq<T>)
    ensures a + b + c + d + e + f + g == a + b + (c + d + e + f + g)
  {
  }

  /** Every request of `ds` sets one of `names`. */
  ghost predicate SetsOnly(ds: seq<Directive>, names: set<string>)
  {
    forall d :: d in ds ==> d.attr in names
  }

  /** SetsOnly of two runs carries over to the runs one after the other. */
  lemma SetsOnlyAppend(xs: seq<Directive>, ys: seq<Directive>, names: set<string>)
    requires SetsOnly(xs, names) && SetsOnly(ys, names)
    ensures SetsOnly(xs + ys, names)
  {
  }

  /** The requests that set attribute `attr`, in order. */
  function Named(ds: seq<Directive>, attr: string): seq<Directive>
    decreases |ds|
  {
    if ds == [] then []
    else (if ds[0].attr == attr then [ds[0]] else []) + Named(ds[1..], attr)
  }

  /** Filtering by attribute distributes over concatenation. */
  lemma {:induction false} NamedAppend(xs: seq<Directive>, ys: seq<Directive>, attr: string)
    ensures Named(xs + ys, attr) == Named(xs, attr) + Named(ys, attr)
    decreases |xs|
  {
    if xs != [] {
      assert (xs + ys)[1..] == xs[1..] + ys;
      NamedAppend(xs[1..], ys, attr);
    } else {
      assert xs + ys == ys;
    }
  }

  /** The request `d` when `c` holds, nothing otherwise. */
  function Opt(c: bool, d: Directive): seq<Directive>
  {
    if c then [d] else []
  }

  /** Filtering a guarded request, for every guard and request. */
  lemma NamedOpt()
    ensures forall c: bool, d: Directive, attr: string ::
      Named(Opt(c, d), attr) == Opt(c && d.attr == attr, d)
  {
  }

  /** Filtering four consecutive runs of requests. */
  lemma NamedAppend4(p1: seq<Directive>, p2: seq<Directive>, p3: seq<Directive>, p4: seq<Directive>, attr: string)
    ensures Named(p1 + p2 + p3 + p4, attr) == Named(p1, attr) + Named(p2, attr) + Named(p3, attr) + Named(p4, attr)
  {
    NamedAppend(p1 + p2 + p3, p4, attr);
    NamedAppend(p1 + p2, p3, attr);
    NamedAppend(p1, p2, attr);
  }
}
