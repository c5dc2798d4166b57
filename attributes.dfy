/** The attribute map every Graphviz node and edge carries, and the two string
    tests the translator applies to attribute values: presence and substring
    search. */
module Attributes {
  import opened Wrappers

  /** An element's attributes as agget sees them: attribute name to value. */
  type AttrMap = map<string, string>

  /** agget: the attribute's value, or None (NULL) when the element has none. */
  function Get(a: AttrMap, key: string): Option<string>
  {
    if key in a then Some(a[key]) else None
  }

  /** The attribute's value, with a missing attribute read as empty. */
  function Val(a: AttrMap, key: string): string
  {
    match Get(a, key)
    case None => ""
    case Some(v) => v
  }

  /** GET_NODE_VALUE / GET_EDGE_VALUE: agget gave a non-NULL, non-empty string.
      A missing attribute and an empty one are both "not present". */
  predicate Present(a: AttrMap, key: string)
    ensures Present(a, key) <==> Val(a, key) != ""
  {
    match Get(a, key)
    case None => false
    case Some(v) => v != ""
  }

  /** strstr(s, sub) != NULL, computed as a scan over the start positions. */
  predicate Contains(s: string, sub: string)
    ensures sub == [] ==> Contains(s, sub)
    ensures Contains(s, sub) ==> |sub| <= |s|
    decreases |s|
  {
    sub <= s || (s != [] && Contains(s[1..], sub))
  }

  /** `sub` occurs in `s` starting at index `i`. */
  ghost predicate OccursAt(s: string, sub: string, i: int)
  {
    0 <= i && i + |sub| <= |s| && s[i..i + |sub|] == sub
  }

  /** The scan finds `sub` exactly when it occurs somewhere in `s`. */
  lemma {:induction false} ContainsIffOccurs(s: string, sub: string)
    ensures Contains(s, sub) <==> exists i :: OccursAt(s, sub, i)
    decreases |s|
  {
    if sub <= s {
      assert s[0..|sub|] == sub;
      assert OccursAt(s, sub, 0);
    } else if s == [] {
      assert forall i :: !OccursAt(s, sub, i);
    } else {
      ContainsIffOccurs(s[1..], sub);
      if exists i :: OccursAt(s[1..], sub, i) {
        var i :| OccursAt(s[1..], sub, i);
        assert s[1..][i..i + |sub|] == s[i + 1..i + 1 + |sub|];
        assert OccursAt(s, sub, i + 1);
      }
      if exists i :: OccursAt(s, sub, i) {
        var i :| OccursAt(s, sub, i);
        assert s[1..][i - 1..i - 1 + |sub|] == s[i..i + |sub|];
        assert OccursAt(s[1..], sub, i - 1);
      }
    }
  }
}
