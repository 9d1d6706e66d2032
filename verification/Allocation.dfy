/** Splitting a whole number of opportunities in proportion to sample counts
    (`proportionalIntegerAllocation` in internal/sandbox/joint_delivery.go). */
module Allocation {

  function Sum(s: seq<int>): int {
    if s == [] then 0 else Sum(s[..|s| - 1]) + s[|s| - 1]
  }

  datatype Remainder = Remainder(index: nat, value: nat)

  /** The order in which leftover units are handed out. */
  predicate Before(a: Remainder, b: Remainder) {
    a.value > b.value || (a.value == b.value && a.index < b.index)
  }

  // ----- the stable descending sort -----

  function Insert(t: seq<Remainder>, r: Remainder): seq<Remainder> {
    if t == [] || t[|t| - 1].value >= r.value then t + [r]
    else Insert(t[..|t| - 1], r) + [t[|t| - 1]]
  }

  function SortStable(s: seq<Remainder>): seq<Remainder> {
    if s == [] then [] else Insert(SortStable(s[..|s| - 1]), s[|s| - 1])
  }

  predicate Ordered(t: seq<Remainder>) {
    forall i, j | 0 <= i < j < |t| :: Before(t[i], t[j])
  }

  function Values(t: seq<Remainder>): int {
    if t == [] then 0 else Values(t[..|t| - 1]) + t[|t| - 1].value
  }

  lemma {:induction false} InsertContents(t: seq<Remainder>, r: Remainder)
    ensures var u := Insert(t, r);
      |u| == |t| + 1 && Values(u) == Values(t) + r.value && multiset(u) == multiset(t) + multiset{r}
  {
    var u := Insert(t, r);
    if t == [] || t[|t| - 1].value >= r.value {
      assert u[..|t|] == t;
    } else {
      InsertContents(t[..|t| - 1], r);
      assert u[..|t|] == Insert(t[..|t| - 1], r) && t == t[..|t| - 1] + [t[|t| - 1]];
    }
  }

  lemma {:induction false} InsertOrdered(t: seq<Remainder>, r: Remainder)
    requires Ordered(t) && forall x | x in t :: x.index < r.index
    ensures Ordered(Insert(t, r))
  {
    var u := Insert(t, r);
    if t == [] || t[|t| - 1].value >= r.value {
      forall i | 0 <= i < |t| ensures Before(t[i], r) {
        assert t[i] in t;
        if i < |t| - 1 { assert Before(t[i], t[|t| - 1]); }
      }
    } else {
      var before, last := t[..|t| - 1], t[|t| - 1];
      InsertOrdered(before, r);
      forall x | x in Insert(before, r) ensures Before(x, last) {
        InsertMember(before, r, x);
        if x != r {
          var k :| 0 <= k < |before| && before[k] == x;
          assert Before(t[k], t[|t| - 1]);
        } else {
          assert last in t;
        }
      }
      OrderedSnoc(Insert(before, r), last);
    }
  }

  lemma InsertMember(t: seq<Remainder>, r: Remainder, x: Remainder)
    requires x in Insert(t, r)
    ensures x == r || x in t
  {
    InsertContents(t, r);
    assert x in multiset(Insert(t, r));
  }

  lemma OrderedSnoc(t: seq<Remainder>, last: Remainder)
    requires Ordered(t) && forall x | x in t :: Before(x, last)
    ensures Ordered(t + [last])
  {
    assert forall i | 0 <= i < |t| :: t[i] in t;
  }

  lemma AsMultiset(s: seq<Remainder>)
    requires s != []
    ensures multiset(s) == multiset(s[..|s| - 1]) + multiset{s[|s| - 1]}
  {
    assert s == s[..|s| - 1] + [s[|s| - 1]];
  }

  lemma {:induction false} SortContents(s: seq<Remainder>)
    ensures var u := SortStable(s); |u| == |s| && Values(u) == Values(s) && multiset(u) == multiset(s)
  {
    if s != [] {
      var before, last := s[..|s| - 1], s[|s| - 1];
      SortContents(before);
      InsertContents(SortStable(before), last);
      AsMultiset(s);
    }
  }

  lemma {:induction false} SortOrdered(s: seq<Remainder>)
    requires forall i, j | 0 <= i < j < |s| :: s[i].index < s[j].index
    ensures Ordered(SortStable(s))
  {
    if s != [] {
      var before, last := s[..|s| - 1], s[|s| - 1];
      SortOrdered(before);
      SortContents(before);
      forall x | x in SortStable(before) ensures x.index < last.index {
        assert x in multiset(SortStable(before));
        assert x in before;
      }
      InsertOrdered(SortStable(before), last);
    }
  }

  // ----- exact shares -----

  function Floor(total: nat, count: nat, d: int): nat
    requires d > 0
  { total * count / d }

  function Rest(total: nat, count: nat, d: int): (r: nat)
    requires d > 0
    ensures d * Floor(total, count, d) + r == total * count && r < d
  { total * count % d }

  // ----- the specification -----

  function Floors(total: nat, counts: seq<nat>, d: int): seq<int>
    requires d > 0
  {
    seq(|counts|, i requires 0 <= i < |counts| => Floor(total, counts[i], d))
  }

  function Remainders(total: nat, counts: seq<nat>, d: int): seq<Remainder>
    requires d > 0
  {
    seq(|counts|, i requires 0 <= i < |counts| => Remainder(i, Rest(total, counts[i], d)))
  }

  /** The first `k` units go, one by one and round and round, to the entries in `order`. */
  function Spread(out: seq<int>, order: seq<Remainder>, k: int): (r: seq<int>)
    requires order != [] && forall x | x in order :: x.index < |out|
    ensures |r| == |out|
  {
    if k <= 0 then out
    else
      var o := Spread(out, order, k - 1);
      var i := order[(k - 1) % |order|].index;
      assert order[(k - 1) % |order|] in order;
      o[i := o[i] + 1]
  }

  function Order(total: nat, counts: seq<nat>, d: int): (t: seq<Remainder>)
    requires d > 0
    ensures |t| == |counts| && forall x | x in t :: x.index < |counts|
  {
    var s := Remainders(total, counts, d);
    SortContents(s);
    assert forall x | x in SortStable(s) :: x in multiset(SortStable(s));
    SortStable(s)
  }

  /** The order is a strictly ordered arrangement of all the remainders. */
  lemma OrderFacts(total: nat, counts: seq<nat>, d: int)
    requires d > 0
    ensures var t, s := Order(total, counts, d), Remainders(total, counts, d);
      && Ordered(t) && Values(t) == Values(s)
      && (forall x | x in t :: x.index < |counts| && x == s[x.index])
      && (forall x | x in s :: x in t)
  {
    var s := Remainders(total, counts, d);
    var t := Order(total, counts, d);
    SortContents(s);
    SortOrdered(s);
    forall x | x in t ensures x.index < |counts| && x == s[x.index] {
      assert x in multiset(t);
      assert x in s;
    }
    forall x | x in s ensures x in t { assert x in multiset(s); }
  }

  function Allocate(total: int, counts: seq<nat>, d: int): (out: seq<int>)
    ensures |out| == |counts|
  {
    if total <= 0 || d <= 0 || counts == [] then seq(|counts|, _ => 0)
    else
      Spread(Floors(total, counts, d), Order(total, counts, d), total - Sum(Floors(total, counts, d)))
  }

  /** What largest-remainder apportionment means: the shares add up, each is its exact share
      rounded down or up, and units are rounded up in order of their remainders. */
  predicate LargestRemainder(total: nat, counts: seq<nat>, d: int, out: seq<int>)
    requires d > 0
  {
    |out| == |counts| && Sum(out) == total && Rounded(total, counts, d, out) && ByPriority(total, counts, d, out)
  }

  predicate Rounded(total: nat, counts: seq<nat>, d: int, out: seq<int>)
    requires d > 0 && |out| == |counts|
  {
    forall i | 0 <= i < |out| ::
      out[i] == Floor(total, counts[i], d) || (RoundedUp(total, counts, d, out, i) && Rest(total, counts[i], d) > 0)
  }

  predicate ByPriority(total: nat, counts: seq<nat>, d: int, out: seq<int>)
    requires d > 0 && |out| == |counts|
  {
    forall i, j | 0 <= i < |out| && 0 <= j < |out|
      && RoundedUp(total, counts, d, out, i) && !RoundedUp(total, counts, d, out, j) ::
      Before(Remainder(i, Rest(total, counts[i], d)), Remainder(j, Rest(total, counts[j], d)))
  }

  predicate RoundedUp(total: nat, counts: seq<nat>, d: int, out: seq<int>, i: nat)
    requires d > 0 && |out| == |counts| && i < |out|
  {
    out[i] == Floor(total, counts[i], d) + 1
  }

  // ----- the method -----

  /** The source divides by the number of entries when units are left over, so an empty list
      is only acceptable when there is nothing to hand out. */
  method ProportionalIntegerAllocation(total: int, counts: seq<nat>, denominator: int) returns (out: array<int>)
    requires total <= 0 || denominator <= 0 || counts != []
    ensures fresh(out) && out[..] == Allocate(total, counts, denominator)
  {
    out := new int[|counts|](_ => 0);
    if total <= 0 || denominator <= 0 { return; }
    var remainders, settled := RoundDown(out, total, counts, denominator);
    remainders := SortStable(remainders);
    assert remainders == Order(total, counts, denominator);
    HandOut(out, remainders, total - settled);
  }

  /** Every share rounded down, with what was lost to rounding. */
  method RoundDown(out: array<int>, total: nat, counts: seq<nat>, denominator: int)
    returns (remainders: seq<Remainder>, settled: int)
    requires denominator > 0 && out.Length == |counts|
    modifies out
    ensures out[..] == Floors(total, counts, denominator) && settled == Sum(Floors(total, counts, denominator))
    ensures remainders == Remainders(total, counts, denominator)
  {
    remainders, settled := [], 0;
    ghost var floors := Floors(total, counts, denominator);
    for index := 0 to |counts|
      invariant forall k | 0 <= k < index :: out[k] == floors[k]
      invariant remainders == Remainders(total, counts, denominator)[..index]
      invariant settled == Sum(floors[..index])
    {
      var numerator := total * counts[index];
      out[index] := numerator / denominator;
      settled := settled + out[index];
      remainders := remainders + [Remainder(index, numerator % denominator)];
      assert out[index] == floors[index] && floors[..index + 1][..index] == floors[..index];
    }
    assert floors[..|counts|] == floors && out[..] == floors;
  }

  /** Bump the shares the order points at, starting over when the order is used up. */
  method HandOut(out: array<int>, order: seq<Remainder>, leftover: int)
    requires order != [] && forall x | x in order :: x.index < out.Length
    modifies out
    ensures out[..] == Spread(old(out[..]), order, leftover)
  {
    var extra := 0;
    while extra < leftover
      invariant 0 <= extra && (extra <= leftover || extra == 0)
      invariant out[..] == Spread(old(out[..]), order, extra)
    {
      assert order[extra % |order|] in order;
      var i := order[extra % |order|].index;
      out[i] := out[i] + 1;
      extra := extra + 1;
    }
  }

  // ----- the specification is largest-remainder apportionment -----

  lemma {:induction false} SumUpdate(s: seq<int>, i: nat, v: int)
    requires i < |s|
    ensures Sum(s[i := v]) == Sum(s) - s[i] + v
  {
    var n := |s| - 1;
    if i == n {
      assert s[i := v][..n] == s[..n];
    } else {
      assert s[i := v][..n] == s[..n][i := v];
      SumUpdate(s[..n], i, v);
    }
  }

  lemma {:induction false} SpreadSum(out: seq<int>, order: seq<Remainder>, k: nat)
    requires order != [] && forall x | x in order :: x.index < |out|
    ensures Sum(Spread(out, order, k)) == Sum(out) + k
  {
    if k > 0 {
      SpreadSum(out, order, k - 1);
      var o := Spread(out, order, k - 1);
      assert order[(k - 1) % |order|] in order;
      var i := order[(k - 1) % |order|].index;
      SumUpdate(o, i, o[i] + 1);
    }
  }

  /** Entry `i` of the order's first `k`. */
  predicate Served(order: seq<Remainder>, k: int, i: nat) {
    exists e :: 0 <= e < k && e < |order| && order[e].index == i
  }

  lemma SmallMod(k: nat, n: nat)
    requires k < n
    ensures k % n == k
  {}

  lemma {:induction false} SpreadOnce(out: seq<int>, order: seq<Remainder>, k: nat, i: nat)
    requires order != [] && forall x | x in order :: x.index < |out|
    requires k <= |order| && i < |out|
    requires forall a, b | 0 <= a < b < |order| :: order[a].index != order[b].index
    ensures Spread(out, order, k)[i] == out[i] + if Served(order, k, i) then 1 else 0
  {
    if k > 0 {
      SpreadOnce(out, order, k - 1, i);
      SmallMod(k - 1, |order|);
      assert order[k - 1] in order;
      if Served(order, k - 1, i) {
        var e :| 0 <= e < k - 1 && e < |order| && order[e].index == i;
        assert order[e].index != order[k - 1].index;
        assert Served(order, k, i);
      } else if order[k - 1].index == i {
        assert Served(order, k, i);
      }
    }
  }

  lemma {:induction false} FloorsAndRemainders(total: nat, counts: seq<nat>, d: int)
    requires d > 0
    ensures d * Sum(Floors(total, counts, d)) + Values(Remainders(total, counts, d)) == total * Sum(counts)
  {
    if counts != [] {
      var n := |counts| - 1;
      FloorsAndRemainders(total, counts[..n], d);
      assert Floors(total, counts, d)[..n] == Floors(total, counts[..n], d);
      assert Remainders(total, counts, d)[..n] == Remainders(total, counts[..n], d);
      AddShare(total, Sum(counts[..n]), counts[n], d,
               Sum(Floors(total, counts[..n], d)), Values(Remainders(total, counts[..n], d)));
    }
  }

  lemma AddShare(total: nat, s: int, c: nat, d: int, f: int, r: int)
    requires d > 0 && d * f + r == total * s
    ensures d * (f + Floor(total, c, d)) + (r + Rest(total, c, d)) == total * (s + c)
  {
    var g := Floor(total, c, d);
    assert d * (f + g) == d * f + d * g && total * (s + c) == total * s + total * c;
  }

  lemma {:induction false} ValuesBound(t: seq<Remainder>, e: nat, d: int)
    requires e <= |t| && (forall x | x in t :: x.value < d)
    requires forall i | e <= i < |t| :: t[i].value == 0
    ensures 0 <= Values(t) <= e * (d - 1)
  {
    if t == [] {
      assert e == 0;
    } else if e == |t| {
      assert t[|t| - 1] in t;
      ValuesBound(t[..|t| - 1], e - 1, d);
      OneMore(e, d - 1, Values(t[..|t| - 1]), t[|t| - 1].value);
    } else {
      ValuesBound(t[..|t| - 1], e, d);
    }
  }

  lemma OneMore(e: int, most: int, sum: int, x: int)
    requires sum <= (e - 1) * most && x <= most
    ensures sum + x <= e * most
  {
    assert e * most == (e - 1) * most + most;
  }

  lemma Crowded(d: int, k: int, e: int)
    requires d > 0 && k > e
    ensures d * k >= d * e + d
    ensures e * (d - 1) == d * e - e
  {
    var more := k - e - 1;
    assert d * more >= 0;
    assert d * k == d * (e + 1 + more) == d * e + d + d * more;
    assert e * (d - 1) == e * d - e;
  }

  /** There are never more leftover units than entries with a positive remainder. */
  lemma LeftoversArePositive(t: seq<Remainder>, k: int, d: int)
    requires d > 0 && Ordered(t) && (forall x | x in t :: x.value < d) && Values(t) == d * k
    ensures 0 <= k <= |t|
    ensures forall e | 0 <= e < k :: t[e].value > 0
  {
    ValuesBound(t, |t|, d);
    if k < 0 { Crowded(d, 0, k); }
    if k > |t| { Crowded(d, k, |t|); }
    forall e | 0 <= e < k ensures t[e].value > 0 {
      if t[e].value == 0 { ZeroTail(t, e, d); Crowded(d, k, e); }
    }
  }

  lemma ZeroTail(t: seq<Remainder>, e: nat, d: int)
    requires Ordered(t) && (forall x | x in t :: x.value < d) && e < |t| && t[e].value == 0
    ensures Values(t) <= e * (d - 1)
  {
    forall i | e <= i < |t| ensures t[i].value == 0 { if e < i { assert Before(t[e], t[i]); } }
    ValuesBound(t, e, d);
  }

  lemma OrderDistinct(total: nat, counts: seq<nat>, d: int)
    requires d > 0
    ensures var t := Order(total, counts, d);
      forall a, b | 0 <= a < b < |t| :: t[a].index != t[b].index
  {
    var t := Order(total, counts, d);
    OrderFacts(total, counts, d);
    forall a, b | 0 <= a < b < |t| ensures t[a].index != t[b].index {
      assert t[a] in t && t[b] in t && Before(t[a], t[b]);
    }
  }

  /** How many units are left after rounding down, and who gets them. */
  lemma Leftovers(total: nat, counts: seq<nat>, d: int) returns (k: nat)
    requires d > 0 && Sum(counts) == d
    ensures k == total - Sum(Floors(total, counts, d)) && k <= |counts|
    ensures var t := Order(total, counts, d); forall e | 0 <= e < k :: t[e].value > 0
  {
    var leftover := total - Sum(Floors(total, counts, d));
    OrderValues(total, counts, d);
    OrderBelow(total, counts, d);
    LeftoversArePositive(Order(total, counts, d), leftover, d);
    k := leftover;
  }

  lemma OrderBelow(total: nat, counts: seq<nat>, d: int)
    requires d > 0
    ensures var t := Order(total, counts, d); |t| == |counts| && Ordered(t) && forall x | x in t :: x.value < d
  {
    OrderFacts(total, counts, d);
    forall x | x in Order(total, counts, d) ensures x.value < d {
      assert x == Remainders(total, counts, d)[x.index];
    }
  }

  lemma OrderValues(total: nat, counts: seq<nat>, d: int)
    requires d > 0 && Sum(counts) == d
    ensures Values(Order(total, counts, d)) == d * (total - Sum(Floors(total, counts, d)))
  {
    FloorsAndRemainders(total, counts, d);
    OrderFacts(total, counts, d);
    WhatIsLeft(total, Sum(Floors(total, counts, d)), d, Sum(counts), Values(Remainders(total, counts, d)));
  }

  lemma WhatIsLeft(total: int, floors: int, d: int, sum: int, rest: int)
    requires sum == d && d * floors + rest == total * sum
    ensures rest == d * (total - floors)
  {
    assert d * (total - floors) == total * d - d * floors;
  }

  /** One share of the split that hands out the first `k` units of the order. */
  lemma SpreadShare(total: nat, counts: seq<nat>, d: int, k: nat, i: nat)
    requires d > 0 && i < |counts| && k <= |counts|
    requires var t := Order(total, counts, d); forall e | 0 <= e < k :: t[e].value > 0
    ensures var t := Order(total, counts, d);
      Spread(Floors(total, counts, d), t, k)[i] == Floor(total, counts[i], d) + (if Served(t, k, i) then 1 else 0)
    ensures Served(Order(total, counts, d), k, i) ==> Rest(total, counts[i], d) > 0
  {
    var t := Order(total, counts, d);
    OrderDistinct(total, counts, d);
    SpreadOnce(Floors(total, counts, d), t, k, i);
    if Served(t, k, i) {
      OrderFacts(total, counts, d);
      var e :| 0 <= e < k && e < |t| && t[e].index == i;
      assert t[e] in t;
    }
  }

  lemma ServedFirst(total: nat, counts: seq<nat>, d: int, k: nat, i: nat, j: nat)
    requires d > 0 && i < |counts| && j < |counts| && k <= |counts|
    requires var t := Order(total, counts, d); Served(t, k, i) && !Served(t, k, j)
    ensures Before(Remainder(i, Rest(total, counts[i], d)), Remainder(j, Rest(total, counts[j], d)))
  {
    var t := Order(total, counts, d);
    OrderFacts(total, counts, d);
    var e :| 0 <= e < k && e < |t| && t[e].index == i;
    var rj := Remainders(total, counts, d)[j];
    assert rj in Remainders(total, counts, d);
    var f :| 0 <= f < |t| && t[f] == rj;
    assert t[e] in t && f >= k && Before(t[e], t[f]);
  }

  lemma SpreadIsLargestRemainder(total: nat, counts: seq<nat>, d: int, k: nat, out: seq<int>)
    requires d > 0 && counts != [] && k <= |counts| && k == total - Sum(Floors(total, counts, d))
    requires var t := Order(total, counts, d); forall e | 0 <= e < k :: t[e].value > 0
    requires out == Spread(Floors(total, counts, d), Order(total, counts, d), k)
    ensures LargestRemainder(total, counts, d, out)
  {
    var t := Order(total, counts, d);
    SpreadSum(Floors(total, counts, d), t, k);
    assert Rounded(total, counts, d, out) by {
      forall i | 0 <= i < |out|
        ensures out[i] == Floor(total, counts[i], d)
          || (RoundedUp(total, counts, d, out, i) && Rest(total, counts[i], d) > 0)
      {
        SpreadShare(total, counts, d, k, i);
      }
    }
    assert ByPriority(total, counts, d, out) by {
      forall i, j | 0 <= i < |out| && 0 <= j < |out|
        && RoundedUp(total, counts, d, out, i) && !RoundedUp(total, counts, d, out, j)
        ensures Before(Remainder(i, Rest(total, counts[i], d)), Remainder(j, Rest(total, counts[j], d)))
      {
        SpreadShare(total, counts, d, k, i);
        SpreadShare(total, counts, d, k, j);
        ServedFirst(total, counts, d, k, i, j);
      }
    }
  }

  /** When the counts make up the denominator, the result is the largest-remainder split. */
  lemma AllocateIsLargestRemainder(total: nat, counts: seq<nat>, d: int)
    requires d > 0 && Sum(counts) == d
    ensures LargestRemainder(total, counts, d, Allocate(total, counts, d))
  {
    var out := Allocate(total, counts, d);
    if total == 0 {
      SumZeros(|counts|);
      assert forall i | 0 <= i < |out| :: out[i] == Floor(total, counts[i], d);
    } else {
      var k := Leftovers(total, counts, d);
      SpreadIsLargestRemainder(total, counts, d, k, out);
    }
  }

  lemma {:induction false} SumZeros(n: nat)
    ensures Sum(seq(n, _ => 0)) == 0
  {
    if n > 0 {
      assert seq(n, _ => 0)[..n - 1] == seq(n - 1, _ => 0);
      SumZeros(n - 1);
    }
  }

  // ----- consequences used by delivery -----

  lemma {:induction false} SumNonnegative(s: seq<int>)
    requires forall x | x in s :: x >= 0
    ensures Sum(s) >= 0
    ensures forall x | x in s :: x <= Sum(s)
  {
    if s != [] {
      var before := s[..|s| - 1];
      assert forall x | x in before :: x in s;
      SumNonnegative(before);
      assert s[|s| - 1] in s && s == before + [s[|s| - 1]];
    }
  }

  /** A share never leaves its exact value by a whole unit, and nothing yields nothing. */
  lemma ShareNearExact(total: nat, counts: seq<nat>, d: int, out: seq<int>, i: nat)
    requires d > 0 && LargestRemainder(total, counts, d, out) && i < |out|
    ensures total * counts[i] - d < d * out[i] < total * counts[i] + d
    ensures counts[i] == 0 ==> out[i] == 0
    ensures out[i] >= 0
  {
    var f, r := Floor(total, counts[i], d), Rest(total, counts[i], d);
    if out[i] == f + 1 { assert d * out[i] == d * f + d; }
    if counts[i] == 0 { assert total * counts[i] == 0; }
  }

  lemma Squeeze(total: nat, c: nat, d: int, o: int)
    requires 0 < d && total <= d && d * o < total * c + d
    ensures o <= c
  {
    var gap := d - total;
    assert total * c == d * c - gap * c && gap * c >= 0;
    if o > c { Crowded(d, o, c); }
  }

  /** Splitting no more units than there are counts never gives an entry more than its count. */
  lemma ShareWithinCount(total: nat, counts: seq<nat>, d: int, out: seq<int>, i: nat)
    requires d > 0 && LargestRemainder(total, counts, d, out) && i < |out| && total <= d
    ensures out[i] <= counts[i]
  {
    ShareNearExact(total, counts, d, out, i);
    Squeeze(total, counts[i], d, out[i]);
  }

  // ----- the largest-remainder split is unique -----

  /** Shares that are pointwise at least as large, and larger once, add up to more. */
  lemma {:induction false} SumStrict(a: seq<int>, b: seq<int>, i: nat)
    requires |a| == |b| && i < |a| && a[i] < b[i]
    requires forall k | 0 <= k < |a| :: a[k] <= b[k]
    ensures Sum(a) < Sum(b)
  {
    var n := |a| - 1;
    SumMono(a[..n], b[..n]);
    if i < n { SumStrict(a[..n], b[..n], i); }
  }

  lemma {:induction false} SumMono(a: seq<int>, b: seq<int>)
    requires |a| == |b| && forall k | 0 <= k < |a| :: a[k] <= b[k]
    ensures Sum(a) <= Sum(b)
  {
    if a != [] { SumMono(a[..|a| - 1], b[..|b| - 1]); }
  }

  lemma SplitIsUnique(total: nat, counts: seq<nat>, d: int, a: seq<int>, b: seq<int>)
    requires d > 0 && LargestRemainder(total, counts, d, a) && LargestRemainder(total, counts, d, b)
    ensures a == b
  {
    forall i | 0 <= i < |a| ensures a[i] == b[i] {
      if a[i] < b[i] { NoSurplus(total, counts, d, a, b, i); }
      if b[i] < a[i] { NoSurplus(total, counts, d, b, a, i); }
    }
  }

  lemma Priority(total: nat, counts: seq<nat>, d: int, out: seq<int>, i: nat, j: nat)
    requires d > 0 && LargestRemainder(total, counts, d, out) && i < |out| && j < |out|
    requires RoundedUp(total, counts, d, out, i) && !RoundedUp(total, counts, d, out, j)
    ensures Before(Remainder(i, Rest(total, counts[i], d)), Remainder(j, Rest(total, counts[j], d)))
  {}

  lemma NoSurplus(total: nat, counts: seq<nat>, d: int, a: seq<int>, b: seq<int>, i: nat)
    requires d > 0 && LargestRemainder(total, counts, d, a) && LargestRemainder(total, counts, d, b)
    requires i < |a|
    ensures a[i] >= b[i]
  {
    if a[i] < b[i] {
      if forall k | 0 <= k < |a| :: a[k] <= b[k] {
        SumStrict(a, b, i);
      } else {
        var j :| 0 <= j < |a| && b[j] < a[j];
        Priority(total, counts, d, b, i, j);
        Priority(total, counts, d, a, j, i);
      }
    }
  }
}
