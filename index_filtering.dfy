/** IndexFiltering: the predicate-based resource path
    /name1/value1/name2/value2..., whose first predicate is always the
    client id. */
module IndexFilterings {
  import opened Wrappers
  import opened UrlPathParts
  import opened EqFilters

  /** "name/value" for one predicate. */
  function Pair(e: Eq): string {
    PropertyName(e) + "/" + ValueText(e.value)
  }

  /** The pairs of the predicates in order, with "/" between neighbours only. */
  function Pairs(eqs: seq<Eq>): string {
    if eqs == [] then ""
    else if |eqs| == 1 then Pair(eqs[0])
    else Pair(eqs[0]) + "/" + Pairs(eqs[1..])
  }

  /** The path an ordered predicate set prints as. */
  function PathOf(eqs: seq<Eq>): (s: string)
    ensures |s| > 0 && s[0] == '/'
  {
    "/" + Pairs(eqs)
  }

  /** The predicate every filtering starts with. */
  function ClientPredicate(clientId: string): Eq {
    Eq(ClientId, Some(clientId))
  }

  predicate Distinct(eqs: seq<Eq>) {
    forall i, j :: 0 <= i < j < |eqs| ==> eqs[i] != eqs[j]
  }

  /** LinkedHashSet.add: an element equal to one already present (by
      Eq.equals, which is structural equality, see EqualsIsEquivalence) is
      dropped; otherwise it goes to the end. */
  function Add(eqs: seq<Eq>, e: Eq): (r: seq<Eq>)
    ensures e in r && |eqs| <= |r| <= |eqs| + 1
    ensures r[..|eqs|] == eqs
    ensures forall x :: x in r <==> x in eqs || x == e
    ensures Distinct(eqs) ==> Distinct(r)
  {
    if e in eqs then eqs else eqs + [e]
  }

  /** Pairs are printed in insertion order with no separator after the last
      value: adding a predicate at the end appends "/" and its pair. */
  lemma {:induction false} PairsAppend(eqs: seq<Eq>, e: Eq)
    requires eqs != []
    ensures Pairs(eqs + [e]) == Pairs(eqs) + "/" + Pair(e)
  {
    var all := eqs + [e];
    if |eqs| == 1 {
      assert all[1..] == [e];
    } else {
      assert all[1..] == eqs[1..] + [e];
      PairsAppend(eqs[1..], e);
      var head, rest, last := Pair(eqs[0]), Pairs(eqs[1..]), Pair(e);
      calc {
        Pairs(all);
        head + "/" + Pairs(eqs[1..] + [e]);
        head + "/" + (rest + "/" + last);
        (head + "/" + rest) + "/" + last;
      }
    }
  }

  lemma PathOfAppend(eqs: seq<Eq>, e: Eq)
    requires eqs != []
    ensures PathOf(eqs + [e]) == PathOf(eqs) + "/" + PropertyName(e) + "/" + ValueText(e.value)
  {
    PairsAppend(eqs, e);
  }

  class IndexFiltering {
    /** The insertion-ordered predicate set, fixed once constructed. */
    const filtering: seq<Eq>

    ghost predicate Valid()
      reads this
    {
      |filtering| > 0 && filtering[0].property == ClientId && Distinct(filtering)
    }

    /** Filtering by client id only. */
    constructor ForClient(clientId: string)
      ensures Valid() && filtering == [ClientPredicate(clientId)]
    {
      filtering := [ClientPredicate(clientId)];
    }

    /** Filtering by client id and one more predicate, added to the set after
        the client-id predicate. */
    constructor ForClientAnd(clientId: string, eq: Eq)
      ensures Valid() && filtering == Add([ClientPredicate(clientId)], eq)
    {
      var eqs := [ClientPredicate(clientId)];
      eqs := Add(eqs, eq);
      filtering := eqs;
    }

    /** print / buildPath: starting from "/", append each predicate's pair
        and a "/" when another predicate follows. Changes nothing. */
    method Print() returns (s: string)
      ensures s == PathOf(filtering)
    {
      s := "/";
      var i := 0;
      while i < |filtering|
        invariant 0 <= i <= |filtering|
        invariant i < |filtering| ==> s + Pairs(filtering[i..]) == PathOf(filtering)
        invariant i == |filtering| ==> s == PathOf(filtering)
      {
        var eq := filtering[i];
        PairsFrom(filtering, i);
        var pair := PropertyName(eq) + "/" + ValueText(eq.value);
        s := s + pair;
        if i + 1 < |filtering| {
          s := s + "/";
        }
        i := i + 1;
      }
    }
  }

  /** The pairs from the i-th predicate on: its pair, then "/" and the rest
      when another predicate follows. */
  lemma PairsFrom(eqs: seq<Eq>, i: int)
    requires 0 <= i < |eqs|
    ensures i + 1 < |eqs| ==> Pairs(eqs[i..]) == Pair(eqs[i]) + "/" + Pairs(eqs[i + 1..])
    ensures i + 1 == |eqs| ==> Pairs(eqs[i..]) == Pair(eqs[i])
  {
    var rest := eqs[i..];
    assert rest[0] == eqs[i];
    if i + 1 < |eqs| {
      assert rest[1..] == eqs[i + 1..];
    }
  }

  /** Built from a client id only, the path is "/agent-read/" + clientId. */
  lemma ClientOnlyPath(clientId: string)
    ensures PathOf([ClientPredicate(clientId)]) == "/agent-read/" + clientId
  {
  }

  /** With an extra predicate, the path is the client-id path followed by the
      extra pair, unless the extra predicate equals the client-id predicate,
      in which case the set drops it. */
  lemma ClientAndPath(clientId: string, eq: Eq)
    ensures eq != ClientPredicate(clientId) ==>
      PathOf(Add([ClientPredicate(clientId)], eq))
        == "/agent-read/" + clientId + "/" + PropertyName(eq) + "/" + ValueText(eq.value)
    ensures eq == ClientPredicate(clientId) ==>
      PathOf(Add([ClientPredicate(clientId)], eq)) == "/agent-read/" + clientId
  {
    if eq != ClientPredicate(clientId) {
      PathOfAppend([ClientPredicate(clientId)], eq);
    }
  }
}
