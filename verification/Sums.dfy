/** Sums over the rows of a table that satisfy a condition, for any way of adding that is
    associative and commutative and has a zero. */
module Sums {
  datatype Adding<!M> = Adding(zero: M, add: (M, M) -> M)

  /** Names three values, for the laws to be applied to. */
  ghost predicate Consider<M>(a: M, b: M, c: M) { true }

  ghost predicate Lawful<M(!new)>(g: Adding<M>) {
    forall a, b, c {:trigger Consider(a, b, c)} :: Consider(a, b, c) ==>
      && g.add(a, b) == g.add(b, a)
      && g.add(g.add(a, b), c) == g.add(a, g.add(b, c))
      && g.add(a, g.zero) == a
  }

  function Sum<R, M>(g: Adding<M>, rows: seq<R>, value: R -> M, keep: R -> bool): M {
    if rows == [] then g.zero
    else
      var n := |rows| - 1;
      var before := Sum(g, rows[..n], value, keep);
      if keep(rows[n]) then g.add(before, value(rows[n])) else before
  }

  lemma SumSnoc<R, M>(g: Adding<M>, rows: seq<R>, x: R, value: R -> M, keep: R -> bool)
    ensures Sum(g, rows + [x], value, keep)
      == if keep(x) then g.add(Sum(g, rows, value, keep), value(x)) else Sum(g, rows, value, keep)
  {
    assert (rows + [x])[..|rows|] == rows;
  }

  lemma {:induction false} SumSame<R, M>(g: Adding<M>, rows: seq<R>, value: R -> M, p: R -> bool, q: R -> bool)
    requires forall r | r in rows :: p(r) == q(r)
    ensures Sum(g, rows, value, p) == Sum(g, rows, value, q)
  {
    if rows != [] {
      SumSame(g, rows[..|rows| - 1], value, p, q);
      assert rows[|rows| - 1] in rows;
    }
  }

  lemma {:induction false} SumNone<R, M>(g: Adding<M>, rows: seq<R>, value: R -> M, p: R -> bool)
    requires forall r | r in rows :: !p(r)
    ensures Sum(g, rows, value, p) == g.zero
  {
    if rows != [] {
      SumNone(g, rows[..|rows| - 1], value, p);
      assert rows[|rows| - 1] in rows;
    }
  }

  /** Only what is kept matters. */
  lemma {:induction false} SumKept<R, M>(g: Adding<M>, rows: seq<R>, others: seq<R>, value: R -> M, keep: R -> bool)
    requires |rows| == |others|
    requires forall i | 0 <= i < |rows| ::
      keep(rows[i]) == keep(others[i]) && (keep(rows[i]) ==> value(rows[i]) == value(others[i]))
    ensures Sum(g, rows, value, keep) == Sum(g, others, value, keep)
  {
    if rows != [] { SumKept(g, rows[..|rows| - 1], others[..|rows| - 1], value, keep); }
  }

  /** A sum over a condition is the sum over two conditions that exclude each other and make it up. */
  lemma {:induction false} SumSplit<R, M(!new)>(g: Adding<M>, rows: seq<R>, value: R -> M,
                                                p: R -> bool, q: R -> bool, r: R -> bool)
    requires Lawful(g) && forall x | x in rows :: p(x) == (q(x) || r(x)) && !(q(x) && r(x))
    ensures Sum(g, rows, value, p) == g.add(Sum(g, rows, value, q), Sum(g, rows, value, r))
  {
    if rows == [] {
      assert Consider(g.zero, g.zero, g.zero);
    } else {
      var before, x := rows[..|rows| - 1], rows[|rows| - 1];
      SumSplit(g, before, value, p, q, r);
      assert x in rows;
      var a, b, m := Sum(g, before, value, q), Sum(g, before, value, r), value(x);
      assert Consider(a, b, m) && Consider(a, m, b) && Consider(b, m, a);
    }
  }

  lemma {:induction false} SumAppend<R, M(!new)>(g: Adding<M>, rows: seq<R>, more: seq<R>, value: R -> M, p: R -> bool)
    requires Lawful(g)
    ensures Sum(g, rows + more, value, p) == g.add(Sum(g, rows, value, p), Sum(g, more, value, p))
  {
    var a := Sum(g, rows, value, p);
    if more == [] {
      assert rows + more == rows;
      assert Consider(a, a, a);
    } else {
      var before, x := more[..|more| - 1], more[|more| - 1];
      SumAppend(g, rows, before, value, p);
      assert rows + more == rows + before + [x];
      SumSnoc(g, rows + before, x, value, p);
      assert Consider(a, Sum(g, before, value, p), value(x));
    }
  }

  function Filter<R>(rows: seq<R>, inside: R -> bool): seq<R> {
    if rows == [] then []
    else
      var before, x := Filter(rows[..|rows| - 1], inside), rows[|rows| - 1];
      if inside(x) then before + [x] else before
  }

  /** Rows a sum would not keep anyway may be dropped first. */
  lemma {:induction false} SumFilter<R, M>(g: Adding<M>, rows: seq<R>, value: R -> M,
                                           inside: R -> bool, keep: R -> bool)
    requires forall r | r in rows && keep(r) :: inside(r)
    ensures Sum(g, Filter(rows, inside), value, keep) == Sum(g, rows, value, keep)
  {
    if rows != [] {
      var before, x := rows[..|rows| - 1], rows[|rows| - 1];
      assert rows == before + [x];
      SumFilter(g, before, value, inside, keep);
      SumSnoc(g, before, x, value, keep);
      SumSnoc(g, Filter(before, inside), x, value, keep);
    }
  }

  lemma SumAppendFilter<R, M(!new)>(g: Adding<M>, rows: seq<R>, more: seq<R>, value: R -> M,
                                    inside: R -> bool, keep: R -> bool)
    requires Lawful(g) && forall r | r in more && keep(r) :: inside(r)
    ensures Sum(g, rows + Filter(more, inside), value, keep) == Sum(g, rows + more, value, keep)
  {
    SumAppend(g, rows, Filter(more, inside), value, keep);
    SumAppend(g, rows, more, value, keep);
    SumFilter(g, more, value, inside, keep);
  }

  lemma {:induction false} FilterMembers<R>(rows: seq<R>, inside: R -> bool)
    ensures forall r | r in Filter(rows, inside) :: r in rows && inside(r)
    ensures forall r | r in rows && inside(r) :: r in Filter(rows, inside)
  {
    if rows != [] {
      FilterMembers(rows[..|rows| - 1], inside);
      assert rows == rows[..|rows| - 1] + [rows[|rows| - 1]];
    }
  }

  // ----- grouping -----

  function Class<R, K(==)>(keep: R -> bool, key: R -> K, k: K): R -> bool { (r: R) => keep(r) && key(r) == k }

  /** The sums of the groups, added up. */
  function SumGroups<R, M, K(==)>(g: Adding<M>, rows: seq<R>, value: R -> M, keep: R -> bool,
                                  key: R -> K, keys: seq<K>): M {
    if keys == [] then g.zero
    else g.add(SumGroups(g, rows, value, keep, key, keys[..|keys| - 1]),
               Sum(g, rows, value, Class(keep, key, keys[|keys| - 1])))
  }

  predicate NoRepeats<K(==)>(keys: seq<K>) { forall i, j | 0 <= i < j < |keys| :: keys[i] != keys[j] }

  function Grouped<R, K(==)>(keep: R -> bool, key: R -> K, keys: seq<K>): R -> bool {
    (r: R) => keep(r) && key(r) in keys
  }

  lemma {:induction false} GroupsSum<R, M(!new), K>(g: Adding<M>, rows: seq<R>, value: R -> M, keep: R -> bool,
                                                    key: R -> K, keys: seq<K>)
    requires Lawful(g) && NoRepeats(keys)
    ensures SumGroups(g, rows, value, keep, key, keys) == Sum(g, rows, value, Grouped(keep, key, keys))
  {
    if keys == [] {
      SumNone(g, rows, value, Grouped(keep, key, keys));
    } else {
      var n := |keys| - 1;
      GroupsSum(g, rows, value, keep, key, keys[..n]);
      assert keys == keys[..n] + [keys[n]];
      SumSplit(g, rows, value, Grouped(keep, key, keys), Grouped(keep, key, keys[..n]), Class(keep, key, keys[n]));
    }
  }

  /** However rows are grouped, the groups add up to the whole. */
  lemma GroupsMakeUpTotal<R, M(!new), K>(g: Adding<M>, rows: seq<R>, value: R -> M, keep: R -> bool,
                                         key: R -> K, keys: seq<K>)
    requires Lawful(g) && NoRepeats(keys) && forall r | r in rows && keep(r) :: key(r) in keys
    ensures SumGroups(g, rows, value, keep, key, keys) == Sum(g, rows, value, keep)
  {
    GroupsSum(g, rows, value, keep, key, keys);
    SumSame(g, rows, value, Grouped(keep, key, keys), keep);
  }

  // ----- order -----

  ghost predicate Compare<M>(a: M, b: M, c: M, d: M) { true }

  /** Adding respects an order in which zero is not above itself. */
  ghost predicate Ordered<M(!new)>(g: Adding<M>, leq: (M, M) -> bool) {
    && leq(g.zero, g.zero)
    && forall a, b, c, d {:trigger Compare(a, b, c, d)} ::
      Compare(a, b, c, d) && leq(a, c) && leq(b, d) ==> leq(g.add(a, b), g.add(c, d))
  }

  lemma {:induction false} SumMonotone<R, M(!new)>(g: Adding<M>, leq: (M, M) -> bool, rows: seq<R>, more: seq<R>,
                                                   value: R -> M, keep: R -> bool)
    requires Ordered(g, leq) && |rows| == |more|
    requires forall i | 0 <= i < |rows| :: keep(rows[i]) == keep(more[i]) && leq(value(rows[i]), value(more[i]))
    ensures leq(Sum(g, rows, value, keep), Sum(g, more, value, keep))
  {
    if rows != [] {
      var n := |rows| - 1;
      SumMonotone(g, leq, rows[..n], more[..n], value, keep);
      assert Compare(Sum(g, rows[..n], value, keep), value(rows[n]), Sum(g, more[..n], value, keep), value(more[n]));
    }
  }

  lemma {:induction false} SumPositive<R, M(!new)>(g: Adding<M>, leq: (M, M) -> bool, rows: seq<R>,
                                                   value: R -> M, keep: R -> bool)
    requires Lawful(g) && Ordered(g, leq) && forall r | r in rows :: leq(g.zero, value(r))
    ensures leq(g.zero, Sum(g, rows, value, keep))
  {
    if rows != [] {
      var n := |rows| - 1;
      SumPositive(g, leq, rows[..n], value, keep);
      assert rows[n] in rows;
      assert Compare(g.zero, g.zero, Sum(g, rows[..n], value, keep), value(rows[n]));
      assert Consider(g.zero, g.zero, g.zero);
    }
  }

  /** Sums only grow when rows grow and rows that are not negative are added. */
  lemma SumGrows<R, M(!new)>(g: Adding<M>, leq: (M, M) -> bool, rows: seq<R>, grown: seq<R>, more: seq<R>,
                             value: R -> M, keep: R -> bool)
    requires Lawful(g) && Ordered(g, leq) && |rows| == |grown|
    requires forall i | 0 <= i < |rows| :: keep(rows[i]) == keep(grown[i]) && leq(value(rows[i]), value(grown[i]))
    requires forall r | r in more :: leq(g.zero, value(r))
    ensures leq(Sum(g, rows, value, keep), Sum(g, grown + more, value, keep))
  {
    SumMonotone(g, leq, rows, grown, value, keep);
    SumPositive(g, leq, more, value, keep);
    SumAppend(g, grown, more, value, keep);
    var a := Sum(g, rows, value, keep);
    assert Compare(a, g.zero, Sum(g, grown, value, keep), Sum(g, more, value, keep));
    assert Consider(a, a, a);
  }
}
