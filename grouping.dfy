/** BySingle and ByTuple: the grouping specification of a query, printed as
    the value of the grouping parameter. */
module Groupings {
  import opened Wrappers

  /** A grouping property as its toString() renders it; the Property
      enumeration itself is not part of this model. */
  type Property = string

  const Separator: string := "-and-"

  /** Both constructors reject null properties, which the types here rule out. */
  datatype By = BySingle(property: Property) | ByTuple(outer: Property, inner: Property)

  /** print: the property for a single grouping, "outer-and-inner" for a tuple. */
  function Print(g: By): (s: string)
    ensures g.BySingle? ==> s == g.property
    ensures g.ByTuple? ==> |s| == |g.outer| + 5 + |g.inner|
    ensures g.ByTuple? ==> s[..|g.outer|] == g.outer && s[|s| - |g.inner|..] == g.inner
    ensures g.ByTuple? ==> s[|g.outer|..|g.outer| + 5] == Separator
  {
    match g
    case BySingle(p) => p
    case ByTuple(outer, inner) => outer + Separator + inner
  }

  predicate SeparatorAt(s: string, j: nat) {
    j + 5 <= |s| && s[j..j + 5] == Separator
  }

  /** The first position at or after k where the separator starts, if any. */
  function SeparatorFrom(s: string, k: nat): (r: Option<nat>)
    requires k <= |s|
    ensures r.Some? ==> k <= r.value && SeparatorAt(s, r.value)
    ensures r.Some? ==> forall j :: k <= j < r.value ==> !SeparatorAt(s, j)
    ensures r.None? ==> forall j :: k <= j <= |s| ==> !SeparatorAt(s, j)
    decreases |s| - k
  {
    if k + 5 > |s| then None
    else if s[k..k + 5] == Separator then Some(k)
    else SeparatorFrom(s, k + 1)
  }

  /** Reads a printed tuple back into (outer, inner), splitting at the first
      separator. */
  function ParseTuple(s: string): Option<(Property, Property)> {
    match SeparatorFrom(s, 0)
    case None => None
    case Some(k) => Some((s[..k], s[k + 5..]))
  }

  lemma {:induction false} SeparatorAfter(s: string, k: nat, n: nat)
    requires k <= n && n + 5 <= |s| && s[n..n + 5] == Separator
    requires forall j :: k <= j < n ==> s[j] != '-'
    ensures SeparatorFrom(s, k) == Some(n)
    decreases n - k
  {
    if k < n {
      assert s[k..k + 5][0] == s[k] != '-';
      SeparatorAfter(s, k + 1, n);
    }
  }

  /** A tuple whose outer property has no '-' prints to a string that reads
      back as the same (outer, inner) pair, in that order. */
  lemma TupleRoundTrip(outer: Property, inner: Property)
    requires '-' !in outer
    ensures ParseTuple(Print(ByTuple(outer, inner))) == Some((outer, inner))
  {
    var s := Print(ByTuple(outer, inner));
    forall j | 0 <= j < |outer| ensures s[j] != '-' {
      assert s[j] == outer[j];
    }
    SeparatorAfter(s, 0, |outer|);
    assert s[|outer| + 5..] == inner;
  }
}
