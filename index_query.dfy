/** IndexQuery: optional time bounds, a last/first flag and a grouping,
    printed as a query string with a fixed parameter order. */
module IndexQueries {
  import opened Wrappers
  import opened JavaText
  import Groupings

  /** The time parameter names (TimeConstraint.P_NAME_FROM / P_NAME_TO). */
  const FromParam: string := "from"
  const ToParam: string := "to"
  /** Grouping.P_NAME and LastOrFirst.P_NAME: their values are not part of this
      model, so they stay uninterpreted constants. */
  const GroupParam: string
  const LastOrFirstParam: string

  datatype IndexQuery = IndexQuery(
    from: Option<int>,
    to: Option<int>,
    lastOrFirst: Option<bool>,
    group: Option<Groupings.By>)

  /** copy: a query with the given range and the same flag and grouping. */
  function Copy(q: IndexQuery, lower: Option<int>, upper: Option<int>): (r: IndexQuery)
    ensures r.from == lower && r.to == upper
    ensures r.lastOrFirst == q.lastOrFirst && r.group == q.group
  {
    q.(from := lower, to := upper)
  }

  /** Copying with the query's own range gives the query back, and a second
      copy overrides the first. */
  lemma CopyLaws(q: IndexQuery, f1: Option<int>, t1: Option<int>, f2: Option<int>, t2: Option<int>)
    ensures Copy(q, q.from, q.to) == q
    ensures Copy(Copy(q, f1, t1), f2, t2) == Copy(q, f2, t2)
  {
  }

  // ---------------------------------------------------------------------
  // print, as the source computes it

  /** One map entry; a null value is None. */
  datatype Entry = Entry(key: string, value: Option<string>)

  /** LinkedHashMap.put: an existing key keeps its position and takes the new
      value; a new key goes to the end. */
  function Put(m: seq<Entry>, key: string, value: Option<string>): (r: seq<Entry>)
    ensures |r| == |m| || r == m + [Entry(key, value)]
    ensures forall i :: 0 <= i < |r| ==> r[i] in m || r[i] == Entry(key, value)
  {
    if m == [] then [Entry(key, value)]
    else if m[0].key == key then [Entry(key, value)] + m[1..]
    else [m[0]] + Put(m[1..], key, value)
  }

  /** put of a new key appends its entry at the end. */
  lemma {:induction false} PutFresh(m: seq<Entry>, key: string, value: Option<string>)
    requires forall i :: 0 <= i < |m| ==> m[i].key != key
    ensures Put(m, key, value) == m + [Entry(key, value)]
  {
    if m != [] {
      assert m[0].key != key;
      PutFresh(m[1..], key, value);
      assert [m[0]] + (m[1..] + [Entry(key, value)]) == m + [Entry(key, value)];
    }
  }

  /** put of a key first held at position i replaces that entry in place,
      with the new value, and leaves every other entry where it was. */
  lemma {:induction false} PutExisting(m: seq<Entry>, key: string, value: Option<string>, i: int)
    requires 0 <= i < |m| && m[i].key == key
    requires forall j :: 0 <= j < i ==> m[j].key != key
    ensures Put(m, key, value) == m[..i] + [Entry(key, value)] + m[i + 1..]
  {
    if i > 0 {
      assert m[0].key != key;
      var tail := m[1..];
      assert tail[i - 1] == m[i];
      assert forall j :: 0 <= j < i - 1 ==> tail[j] == m[j + 1];
      PutExisting(tail, key, value, i - 1);
      assert m[..i] == [m[0]] + tail[..i - 1];
      assert m[i + 1..] == tail[i..];
    }
  }

  /** String.valueOf of a timestamp, or null. */
  function TimeText(t: Option<int>): (r: Option<string>)
    ensures r.Some? <==> t.Some?
  {
    if t.Some? then Some(DecimalString(t.value)) else None
  }

  /** property.print() of the grouping, or null. */
  function GroupText(g: Option<Groupings.By>): (r: Option<string>)
    ensures r.Some? <==> g.Some?
  {
    if g.Some? then Some(Groupings.Print(g.value)) else None
  }

  /** lastOrFirst.toString(), or null. */
  function FlagText(b: Option<bool>): (r: Option<string>)
    ensures r.Some? <==> b.Some?
  {
    if b.Some? then Some(BoolString(b.value)) else None
  }

  /** The map print fills, in put order. */
  function Entries(q: IndexQuery): (r: seq<Entry>)
    ensures 1 <= |r| <= 4
  {
    var m0 := Put([], FromParam, TimeText(q.from));
    var m1 := Put(m0, ToParam, TimeText(q.to));
    var m2 := Put(m1, GroupParam, GroupText(q.group));
    Put(m2, LastOrFirstParam, FlagText(q.lastOrFirst))
  }

  /** Lists.reverse. */
  function Reverse(es: seq<Entry>): (r: seq<Entry>)
    ensures |r| == |es|
    ensures forall i :: 0 <= i < |r| ==> r[i] == es[|es| - 1 - i]
  {
    if es == [] then [] else [es[|es| - 1]] + Reverse(es[..|es| - 1])
  }

  /** One step of buildQueryString: a present entry is put in front of the
      result, with "&" in between when the result is non-empty and does not
      already start with "&". */
  function Prepend(result: string, e: Entry): (r: string)
    ensures e.value.None? ==> r == result
    ensures e.value.Some? ==> |r| > |result|
  {
    match e.value
    case None => result
    case Some(v) =>
      var rest := if |result| > 0 && result[0] != '&' then "&" + result else result;
      e.key + "=" + v + rest
  }

  /** buildQueryString over the remaining entries of the iterator. */
  function BuildQueryString(itr: seq<Entry>, result: string): (r: string)
    ensures r == "" || r[0] == '?'
    ensures result != "" ==> r != ""
  {
    if itr == [] then (if result == "" then "" else "?" + result)
    else BuildQueryString(itr[1..], Prepend(result, itr[0]))
  }

  /** print. */
  function Print(q: IndexQuery): (r: string)
    ensures r == "" || r[0] == '?'
  {
    BuildQueryString(Reverse(Entries(q)), "")
  }

  // ---------------------------------------------------------------------
  // Reference definition of the query string print produces

  function Param(key: string, value: string): string {
    key + "=" + value
  }

  /** The present parameters, "key=value", in the order from, to, group,
      lastOrFirst. */
  function Params(q: IndexQuery): seq<string> {
    (if q.from.Some? then [Param(FromParam, DecimalString(q.from.value))] else [])
    + (if q.to.Some? then [Param(ToParam, DecimalString(q.to.value))] else [])
    + (if q.group.Some? then [Param(GroupParam, Groupings.Print(q.group.value))] else [])
    + (if q.lastOrFirst.Some? then [Param(LastOrFirstParam, BoolString(q.lastOrFirst.value))] else [])
  }

  /** The parameters joined by single "&"s. */
  function Join(ps: seq<string>): string {
    if ps == [] then ""
    else if |ps| == 1 then ps[0]
    else ps[0] + "&" + Join(ps[1..])
  }

  /** "?" + the joined parameters, or "" when there are none. */
  function QueryText(ps: seq<string>): string {
    if ps == [] then "" else "?" + Join(ps)
  }

  /** The four parameter names are distinct and none starts with "&"; the
      two names this model leaves uninterpreted must meet this for print to
      emit each present parameter exactly once, in order. */
  predicate ParamNamesSound() {
    var names := [FromParam, ToParam, GroupParam, LastOrFirstParam];
    (forall i, j :: 0 <= i < j < 4 ==> names[i] != names[j])
    && (forall i :: 0 <= i < 4 ==> |names[i]| == 0 || names[i][0] != '&')
  }

  // ---------------------------------------------------------------------
  // Lemmas

  /** A separator is written only between parameters: appending one more
      parameter appends "&" and the parameter. */
  lemma {:induction false} JoinAppend(ps: seq<string>, p: string)
    requires ps != []
    ensures Join(ps + [p]) == Join(ps) + "&" + p
  {
    var all := ps + [p];
    if |ps| == 1 {
      assert all[1..] == [p];
    } else {
      assert all[1..] == ps[1..] + [p];
      JoinAppend(ps[1..], p);
      var head, rest := ps[0], Join(ps[1..]);
      calc {
        Join(all);
        head + "&" + Join(ps[1..] + [p]);
        head + "&" + (rest + "&" + p);
        (head + "&" + rest) + "&" + p;
      }
    }
  }

  predicate ParamLike(p: string) {
    |p| > 0 && p[0] != '&'
  }

  lemma {:induction false} JoinStart(ps: seq<string>)
    requires forall i :: 0 <= i < |ps| ==> ParamLike(ps[i])
    ensures ps == [] <==> Join(ps) == ""
    ensures ps != [] ==> ParamLike(Join(ps))
  {
    if |ps| > 1 {
      JoinStart(ps[1..]);
    }
  }

  /** The "key=value" texts of the present entries, in order. */
  function Present(es: seq<Entry>): seq<string> {
    if es == [] then []
    else
      var last := es[|es| - 1];
      Present(es[..|es| - 1]) + (if last.value.Some? then [Param(last.key, last.value.value)] else [])
  }

  function Rendered(e: Entry): seq<string> {
    if e.value.Some? then [Param(e.key, e.value.value)] else []
  }

  lemma PresentSnoc(init: seq<Entry>, e: Entry)
    ensures Present(init + [e]) == Present(init) + Rendered(e)
  {
    assert (init + [e])[..|init|] == init;
  }

  /** Prepending onto an already joined tail gives the join of the longer list. */
  lemma JoinCons(p: string, tail: seq<string>)
    ensures Join([p] + tail) == if tail == [] then p else p + "&" + Join(tail)
  {
    assert ([p] + tail)[1..] == tail;
  }

  lemma ParamIsParamLike(key: string, value: string)
    requires |key| == 0 || key[0] != '&'
    ensures ParamLike(Param(key, value))
  {
    var p := Param(key, value);
    if |key| > 0 {
      assert p[0] == key[0];
    } else {
      assert p[0] == '=';
    }
  }

  lemma PrependNonEmpty(e: Entry, j: string)
    requires e.value.Some? && ParamLike(j)
    ensures Prepend(j, e) == Param(e.key, e.value.value) + "&" + j
  {
  }

  lemma PrependJoin(e: Entry, tail: seq<string>)
    requires e.value.Some? && (|e.key| == 0 || e.key[0] != '&')
    requires forall i :: 0 <= i < |tail| ==> ParamLike(tail[i])
    ensures Prepend(Join(tail), e) == Join([Param(e.key, e.value.value)] + tail)
    ensures ParamLike(Param(e.key, e.value.value))
  {
    ParamIsParamLike(e.key, e.value.value);
    JoinStart(tail);
    JoinCons(Param(e.key, e.value.value), tail);
    if tail != [] {
      PrependNonEmpty(e, Join(tail));
    }
  }

  /** The reversed prepend fold over the entries yields "?" + the present
      entries joined by "&", followed by whatever was already accumulated. */
  lemma {:induction false} BuildReversed(es: seq<Entry>, tail: seq<string>)
    requires forall i :: 0 <= i < |es| ==> |es[i].key| == 0 || es[i].key[0] != '&'
    requires forall i :: 0 <= i < |tail| ==> ParamLike(tail[i])
    ensures BuildQueryString(Reverse(es), Join(tail)) == QueryText(Present(es) + tail)
    decreases |es|
  {
    if es == [] {
      JoinStart(tail);
      assert Present(es) + tail == tail;
    } else {
      var init, e := es[..|es| - 1], es[|es| - 1];
      assert Reverse(es)[1..] == Reverse(init);
      assert Reverse(es)[0] == e;
      if e.value.Some? {
        var p := Param(e.key, e.value.value);
        PrependJoin(e, tail);
        BuildReversed(init, [p] + tail);
        assert Present(es) + tail == Present(init) + ([p] + tail);
      } else {
        BuildReversed(init, tail);
        assert Present(es) == Present(init);
      }
    }
  }

  /** With sound parameter names the map holds the four entries in put order. */
  lemma EntriesInOrder(q: IndexQuery)
    requires ParamNamesSound()
    ensures Entries(q) == [
      Entry(FromParam, TimeText(q.from)),
      Entry(ToParam, TimeText(q.to)),
      Entry(GroupParam, GroupText(q.group)),
      Entry(LastOrFirstParam, FlagText(q.lastOrFirst))]
  {
    var names := [FromParam, ToParam, GroupParam, LastOrFirstParam];
    assert names[0] != names[1] && names[0] != names[2] && names[0] != names[3];
    assert names[1] != names[2] && names[1] != names[3] && names[2] != names[3];
    var m0 := [Entry(FromParam, TimeText(q.from))];
    var m1 := m0 + [Entry(ToParam, TimeText(q.to))];
    var m2 := m1 + [Entry(GroupParam, GroupText(q.group))];
    PutFresh(m0, ToParam, TimeText(q.to));
    PutFresh(m1, GroupParam, GroupText(q.group));
    PutFresh(m2, LastOrFirstParam, FlagText(q.lastOrFirst));
  }

  lemma PresentOfFour(e0: Entry, e1: Entry, e2: Entry, e3: Entry)
    ensures Present([e0, e1, e2, e3]) == Rendered(e0) + Rendered(e1) + Rendered(e2) + Rendered(e3)
  {
    assert [e0, e1, e2, e3] == [e0, e1, e2] + [e3];
    assert [e0, e1, e2] == [e0, e1] + [e2];
    assert [e0, e1] == [e0] + [e1];
    assert [e0] == [] + [e0];
    PresentSnoc([], e0);
    PresentSnoc([e0], e1);
    PresentSnoc([e0, e1], e2);
    PresentSnoc([e0, e1, e2], e3);
  }

  lemma PresentOfEntries(q: IndexQuery)
    requires ParamNamesSound()
    ensures Present(Entries(q)) == Params(q)
  {
    EntriesInOrder(q);
    PresentOfFour(
      Entry(FromParam, TimeText(q.from)), Entry(ToParam, TimeText(q.to)),
      Entry(GroupParam, GroupText(q.group)), Entry(LastOrFirstParam, FlagText(q.lastOrFirst)));
  }

  /** print emits the present parameters in the order from, to, group,
      lastOrFirst, drops absent ones, joins them with single "&"s and puts
      "?" in front exactly when one is present. */
  lemma PrintIsQueryText(q: IndexQuery)
    requires ParamNamesSound()
    ensures Print(q) == QueryText(Params(q))
  {
    EntriesInOrder(q);
    var es := Entries(q);
    var names := [FromParam, ToParam, GroupParam, LastOrFirstParam];
    assert forall i :: 0 <= i < 4 ==> es[i].key == names[i];
    BuildReversed(es, []);
    PresentOfEntries(q);
    assert Present(es) + [] == Params(q);
  }

  /** A query with no parameter prints as the empty string, whatever the
      parameter names are. */
  lemma EmptyQueryPrintsNothing()
    ensures Print(IndexQuery(None, None, None, None)) == ""
  {
    var es := Entries(IndexQuery(None, None, None, None));
    assert forall i :: 0 <= i < |es| ==> es[i].value == None;
    BuildNothing(Reverse(es));
  }

  lemma {:induction false} BuildNothing(itr: seq<Entry>)
    requires forall i :: 0 <= i < |itr| ==> itr[i].value == None
    ensures BuildQueryString(itr, "") == ""
  {
    if itr != [] {
      BuildNothing(itr[1..]);
    }
  }

  /** The query string is empty exactly when no parameter is present, and
      otherwise starts with "?". */
  lemma PrintEmptyIff(q: IndexQuery)
    requires ParamNamesSound()
    ensures Print(q) == "" <==> q == IndexQuery(None, None, None, None)
    ensures Print(q) != "" ==> Print(q)[0] == '?'
  {
    PrintIsQueryText(q);
  }

  lemma QueryTextTwo(a: string, b: string)
    ensures QueryText([a, b]) == "?" + a + "&" + b
  {
    assert [a, b][1..] == [b];
    calc {
      QueryText([a, b]);
      "?" + (a + "&" + Join([b]));
      "?" + (a + "&" + b);
      "?" + a + "&" + b;
    }
  }

  lemma QueryTextThree(a: string, b: string, c: string)
    ensures QueryText([a, b, c]) == "?" + a + "&" + b + "&" + c
  {
    assert [a, b, c][1..] == [b, c];
    assert [b, c][1..] == [c];
    calc {
      QueryText([a, b, c]);
      "?" + (a + "&" + Join([b, c]));
      "?" + (a + "&" + (b + "&" + c));
      "?" + a + "&" + b + "&" + c;
    }
  }

  /** A range alone prints as "?from=<from>&to=<to>". */
  lemma PrintRange(q: IndexQuery)
    requires ParamNamesSound()
    requires q.from.Some? && q.to.Some? && q.group.None? && q.lastOrFirst.None?
    ensures Print(q) == "?" + Param(FromParam, DecimalString(q.from.value)) + "&" + Param(ToParam, DecimalString(q.to.value))
  {
    PrintIsQueryText(q);
    RangeText(q);
  }

  lemma RangeText(q: IndexQuery)
    requires q.from.Some? && q.to.Some? && q.group.None? && q.lastOrFirst.None?
    ensures QueryText(Params(q)) == "?" + Param(FromParam, DecimalString(q.from.value)) + "&" + Param(ToParam, DecimalString(q.to.value))
  {
    var a, b := Param(FromParam, DecimalString(q.from.value)), Param(ToParam, DecimalString(q.to.value));
    assert Params(q) == [a, b];
    QueryTextTwo(a, b);
  }

  /** A range with a last/first flag and no grouping prints as
      "?from=<from>&to=<to>&<lastOrFirst name>=<flag>". */
  lemma PrintRangeAndFlag(q: IndexQuery)
    requires ParamNamesSound()
    requires q.from.Some? && q.to.Some? && q.group.None? && q.lastOrFirst.Some?
    ensures Print(q)
      == "?" + Param(FromParam, DecimalString(q.from.value)) + "&" + Param(ToParam, DecimalString(q.to.value))
         + "&" + Param(LastOrFirstParam, BoolString(q.lastOrFirst.value))
  {
    PrintIsQueryText(q);
    RangeAndFlagText(q);
  }

  lemma RangeAndFlagText(q: IndexQuery)
    requires q.from.Some? && q.to.Some? && q.group.None? && q.lastOrFirst.Some?
    ensures QueryText(Params(q))
      == "?" + Param(FromParam, DecimalString(q.from.value)) + "&" + Param(ToParam, DecimalString(q.to.value))
         + "&" + Param(LastOrFirstParam, BoolString(q.lastOrFirst.value))
  {
    var a, b, c := Param(FromParam, DecimalString(q.from.value)), Param(ToParam, DecimalString(q.to.value)),
      Param(LastOrFirstParam, BoolString(q.lastOrFirst.value));
    assert Params(q) == [a, b, c];
    QueryTextThree(a, b, c);
  }
}
