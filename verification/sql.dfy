/**
 * Parameterised SQL as the route handlers build it: the statement text
 * refers to its parameters by 1-based placeholders `$1`, `$2`, ... and the
 * values travel separately, in a parameter list.
 */
module Sql {
  import opened Js
  import Text

  /**
   * One bound parameter: a JavaScript value passed as is, the text
   * `JSON.stringify` makes of a value, or the number NaN (what
   * arithmetic on a non-numeric query string yields).
   */
  datatype Param = PValue(v: Json) | PStringified(v: Json) | PNaN

  /** A string parameter. */
  function PStr(s: string): Param
  {
    PValue(JStr(s))
  }

  /** An integer parameter. */
  function PInt(n: int): Param
  {
    PValue(JNum(n as real))
  }

  /** The placeholder text `$k`. */
  function Placeholder(k: nat): string
  {
    "$" + Text.NatToString(k)
  }

  /** The `%v%` pattern an ILIKE substring match binds. */
  function Like(v: string): string
  {
    "%" + v + "%"
  }

  /** The `%v%` text a template literal makes of a query value. */
  function LikeOf(v: Json): Param
  {
    PStr(Like(JsString(v)))
  }

  /**
   * The numeric value of a query value: `None` for NaN (and for values
   * that are not integers, which the model does not follow).
   */
  function NumOrNaN(n: Option<int>): Param
  {
    if n.Some? then PInt(n.value) else PNaN
  }

  /** `(page - 1) * limit` with the values coerced to numbers. */
  function OffsetParam(page: Option<int>, limit: Option<int>): (p: Param)
    ensures page.Some? && limit.Some? ==> p == PInt((page.value - 1) * limit.value)
    ensures page.None? || limit.None? ==> p == PNaN
  {
    if page.Some? && limit.Some? then PInt((page.value - 1) * limit.value) else PNaN
  }

  /** A placeholder number that names an existing parameter. */
  predicate Refers(k: nat, params: seq<Param>)
  {
    1 <= k <= |params|
  }

  /** A filter the request asks for: what it constrains and the value it binds. */
  datatype Filter<K> = Filter(kind: K, value: Param)

  /** A WHERE condition: what it constrains and the placeholder it uses. */
  datatype Cond<K> = Cond(kind: K, idx: nat)

  /** The filters' kinds, in order. */
  function Kinds<K>(fs: seq<Filter<K>>): (r: seq<K>)
    ensures |r| == |fs| && forall i :: 0 <= i < |fs| ==> r[i] == fs[i].kind
  {
    seq(|fs|, i requires 0 <= i < |fs| => fs[i].kind)
  }

  /** The filters' values, in order: the parameters they bind. */
  function Values<K>(fs: seq<Filter<K>>): (r: seq<Param>)
    ensures |r| == |fs| && forall i :: 0 <= i < |fs| ==> r[i] == fs[i].value
  {
    seq(|fs|, i requires 0 <= i < |fs| => fs[i].value)
  }

  /**
   * The conditions for the filters when the first one uses placeholder
   * `first`: the i-th uses `first + i`.
   */
  function Numbered<K>(fs: seq<Filter<K>>, first: nat): (r: seq<Cond<K>>)
    ensures |r| == |fs| && forall i :: 0 <= i < |fs| ==> r[i] == Cond(fs[i].kind, first + i)
  {
    seq(|fs|, i requires 0 <= i < |fs| => Cond(fs[i].kind, first + i))
  }

  /**
   * When the filters' values follow `lead`, the condition numbered
   * `|lead| + 1 + i` names the parameter of the i-th filter.
   */
  lemma NumberedRefers<K>(lead: seq<Param>, fs: seq<Filter<K>>, tail: seq<Param>, i: nat)
    requires i < |fs|
    ensures Numbered(fs, |lead| + 1)[i].idx == |lead| + 1 + i
    ensures Refers(|lead| + 1 + i, lead + Values(fs) + tail)
    ensures (lead + Values(fs) + tail)[|lead| + i] == fs[i].value
  {
    assert (lead + Values(fs) + tail)[|lead| + i] == Values(fs)[i];
  }

  /** The filter when it is asked for, else nothing. */
  function Opt<K>(present: bool, f: Filter<K>): (r: seq<Filter<K>>)
    ensures |r| <= 1 && (f in r <==> present)
  {
    if present then [f] else []
  }

  /** Extending the filters by one numbers the new condition after the old ones. */
  lemma NumberedSnoc<K>(fs: seq<Filter<K>>, f: Filter<K>, first: nat)
    ensures Numbered(fs + [f], first) == Numbered(fs, first) + [Cond(f.kind, first + |fs|)]
    ensures Values(fs + [f]) == Values(fs) + [f.value]
  {
    assert (fs + [f])[..|fs|] == fs;
  }

  /**
   * One `if (value) { count++; conditions.push(...); params.push(...) }`
   * block: when the filter is asked for, its condition takes the next
   * placeholder and its value the next parameter; `count` stays the number
   * of parameters.
   */
  method AddFilter<K>(present: bool, f: Filter<K>, conds: seq<Cond<K>>, params: seq<Param>, count: nat,
                      ghost lead: seq<Param>, ghost fs: seq<Filter<K>>)
    returns (conds2: seq<Cond<K>>, params2: seq<Param>, count2: nat)
    requires params == lead + Values(fs) && conds == Numbered(fs, |lead| + 1) && count == |params|
    ensures params2 == lead + Values(fs + Opt(present, f)) && conds2 == Numbered(fs + Opt(present, f), |lead| + 1)
    ensures count2 == |params2|
  {
    if present {
      NumberedSnoc(fs, f, |lead| + 1);
      count2 := count + 1;
      conds2 := conds + [Cond(f.kind, count2)];
      params2 := params + [f.value];
    } else {
      assert fs + [] == fs;
      conds2, params2, count2 := conds, params, count;
    }
  }

  /** Filters whose kinds are listed in strictly increasing rank. */
  predicate RankOrdered<K>(fs: seq<Filter<K>>, rank: K -> nat)
  {
    forall i, j :: 0 <= i < j < |fs| ==> rank(fs[i].kind) < rank(fs[j].kind)
  }

  /**
   * Appending a filter that ranks after every filter so far keeps the
   * order, and the filters are the old ones and possibly the new one.
   */
  lemma OptAfter<K>(fs: seq<Filter<K>>, present: bool, f: Filter<K>, rank: K -> nat)
    requires RankOrdered(fs, rank)
    requires forall i :: 0 <= i < |fs| ==> rank(fs[i].kind) < rank(f.kind)
    ensures RankOrdered(fs + Opt(present, f), rank)
    ensures forall i :: 0 <= i < |fs + Opt(present, f)| ==> rank((fs + Opt(present, f))[i].kind) <= rank(f.kind)
    ensures forall g :: g in fs + Opt(present, f) <==> g in fs || (present && g == f)
  {
    if present {
      var r := fs + [f];
      forall i, j | 0 <= i < j < |r| ensures rank(r[i].kind) < rank(r[j].kind) {
        if j == |fs| {
          assert r[i] == fs[i];
        } else {
          assert r[i] == fs[i] && r[j] == fs[j];
        }
      }
    } else {
      assert fs + [] == fs;
    }
  }

  /**
   * Four filters tested in turn: the result holds exactly the ones asked
   * for, and when their kinds rank in the order tested, so do the
   * result's.
   */
  lemma FourFilters<K>(p1: bool, g1: Filter<K>, p2: bool, g2: Filter<K>, p3: bool, g3: Filter<K>,
                       p4: bool, g4: Filter<K>, rank: K -> nat)
    requires rank(g1.kind) < rank(g2.kind) < rank(g3.kind) < rank(g4.kind)
    ensures var fs := Opt(p1, g1) + Opt(p2, g2) + Opt(p3, g3) + Opt(p4, g4);
      (forall f :: f in fs <==> (p1 && f == g1) || (p2 && f == g2) || (p3 && f == g3) || (p4 && f == g4))
      && RankOrdered(fs, rank)
  {
    var f1 := Opt(p1, g1);
    var f2 := f1 + Opt(p2, g2);
    var f3 := f2 + Opt(p3, g3);
    assert [] + f1 == f1;
    OptAfter([], p1, g1, rank);
    OptAfter(f1, p2, g2, rank);
    OptAfter(f2, p3, g3, rank);
    OptAfter(f3, p4, g4, rank);
  }

  /**
   * Three filters tested in turn: the result holds exactly the ones asked
   * for, and when their kinds rank in the order tested, so do the
   * result's.
   */
  lemma ThreeFilters<K>(p1: bool, g1: Filter<K>, p2: bool, g2: Filter<K>, p3: bool, g3: Filter<K>, rank: K -> nat)
    requires rank(g1.kind) < rank(g2.kind) < rank(g3.kind)
    ensures var fs := Opt(p1, g1) + Opt(p2, g2) + Opt(p3, g3);
      (forall f :: f in fs <==> (p1 && f == g1) || (p2 && f == g2) || (p3 && f == g3))
      && RankOrdered(fs, rank)
  {
    var f1 := Opt(p1, g1);
    var f2 := f1 + Opt(p2, g2);
    assert [] + f1 == f1;
    OptAfter([], p1, g1, rank);
    OptAfter(f1, p2, g2, rank);
    OptAfter(f2, p3, g3, rank);
  }

  /** Two rank-ordered runs, the first ranking below the second, make one. */
  lemma RankOrderedConcat<K>(a: seq<Filter<K>>, b: seq<Filter<K>>, bound: nat, rank: K -> nat)
    requires RankOrdered(a, rank) && RankOrdered(b, rank)
    requires forall f :: f in a ==> rank(f.kind) < bound
    requires forall f :: f in b ==> bound <= rank(f.kind)
    ensures RankOrdered(a + b, rank)
  {
    var r := a + b;
    forall i, j | 0 <= i < j < |r| ensures rank(r[i].kind) < rank(r[j].kind) {
      if j < |a| {
        assert r[i] == a[i] && r[j] == a[j];
      } else if i >= |a| {
        assert r[i] == b[i - |a|] && r[j] == b[j - |a|];
      } else {
        assert r[i] == a[i] && r[j] == b[j - |a|];
        assert a[i] in a && b[j - |a|] in b;
      }
    }
  }

  /**
   * A filter that is always applied followed by four optional ones, all
   * ranked in the order tested: the result starts with the first, holds
   * exactly the optional filters asked for, and keeps the rank order.
   */
  lemma LeadThenFour<K>(g0: Filter<K>, p1: bool, g1: Filter<K>, p2: bool, g2: Filter<K>,
                        p3: bool, g3: Filter<K>, p4: bool, g4: Filter<K>, rank: K -> nat)
    requires rank(g0.kind) < rank(g1.kind) < rank(g2.kind) < rank(g3.kind) < rank(g4.kind)
    ensures var fs := [g0] + Opt(p1, g1) + Opt(p2, g2) + Opt(p3, g3) + Opt(p4, g4);
      fs[0] == g0
      && (forall f :: f in fs <==> f == g0 || (p1 && f == g1) || (p2 && f == g2) || (p3 && f == g3) || (p4 && f == g4))
      && RankOrdered(fs, rank)
  {
    var f1 := [g0] + Opt(p1, g1);
    var f2 := f1 + Opt(p2, g2);
    var f3 := f2 + Opt(p3, g3);
    assert forall g :: g in [g0] <==> g == g0;
    OptAfter([g0], p1, g1, rank);
    OptAfter(f1, p2, g2, rank);
    OptAfter(f2, p3, g3, rank);
    OptAfter(f3, p4, g4, rank);
  }

  /**
   * The filters' parameters followed by a limit and an offset: the
   * placeholder `$k` of the k-th condition names the k-th filter's value,
   * `$(n + 1)` the limit and `$(n + 2)` the offset.
   */
  lemma PagedPlaceholders<K>(fs: seq<Filter<K>>, limit: Param, offset: Param)
    ensures var params := Values(fs) + [limit, offset];
      (forall k :: 0 <= k < |fs| ==> Numbered(fs, 1)[k].idx == k + 1 && Refers(k + 1, Values(fs))
                                      && Refers(k + 1, params) && params[k] == fs[k].value)
      && Refers(|fs| + 1, params) && params[|fs|] == limit
      && Refers(|fs| + 2, params) && params[|fs| + 1] == offset
  {
    var params := Values(fs) + [limit, offset];
    forall k | 0 <= k < |fs|
      ensures params[k] == fs[k].value
    {
      assert params[k] == Values(fs)[k];
    }
    assert params[|fs|] == limit && params[|fs| + 1] == offset;
  }

  /**
   * One `if (value) { conditions.push(... $paramIndex ...);
   * params.push(value); paramIndex++ }` block: the condition takes the
   * number the next parameter will have, and `paramIndex` stays one past
   * the number of parameters.
   */
  method AddIndexed<K>(present: bool, f: Filter<K>, conds: seq<Cond<K>>, params: seq<Param>, paramIndex: nat,
                       ghost fs: seq<Filter<K>>)
    returns (conds2: seq<Cond<K>>, params2: seq<Param>, paramIndex2: nat)
    requires params == Values(fs) && conds == Numbered(fs, 1) && paramIndex == |params| + 1
    ensures params2 == Values(fs + Opt(present, f)) && conds2 == Numbered(fs + Opt(present, f), 1)
    ensures paramIndex2 == |params2| + 1
  {
    if present {
      NumberedSnoc(fs, f, 1);
      conds2 := conds + [Cond(f.kind, paramIndex)];
      params2 := params + [f.value];
      paramIndex2 := paramIndex + 1;
    } else {
      assert fs + [] == fs;
      conds2, params2, paramIndex2 := conds, params, paramIndex;
    }
  }
}

