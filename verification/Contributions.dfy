/** Comparing two windows and splitting the change of return on ad spend between entities
    (`Compare` in internal/ads/comparison.go). */
module Contributions {
  import opened Options
  import opened Decimals
  import opened Sums
  import opened Metrics
  import opened Comparisons
  import Orders
  import R = Reports

  datatype Contribution = Contribution(entity: string, previous: Metrics, current: Metrics, points: Option<real>)
  datatype Comparison = Comparison(
    previous: Metrics, current: Metrics, previousRoas: Option<real>, currentRoas: Option<real>,
    delta: Option<real>, contributions: seq<Contribution>)

  function Difference(a: Option<real>, b: Option<real>): Option<real> {
    if a.Some? && b.Some? then Some(a.value - b.value) else None
  }

  function Problem(p: R.Report, c: R.Report): Option<Problem> {
    if !p.complete || !c.complete then Some(Incomplete)
    else if p.basis != c.basis || p.query.level != c.query.level || p.query.entity != c.query.entity then
      Some(Incompatible)
    else if !R.GoodQuery(p.query) || !R.GoodQuery(c.query) then Some(BadQuery)
    else if p.query.end - p.query.start != c.query.end - c.query.start || p.query.end >= c.query.start then
      Some(BadWindows)
    else if !TotalsAgree(Sum(ADDITIVE, p.rows, R.Value, R.All), p.totals)
            || !TotalsAgree(Sum(ADDITIVE, c.rows, R.Value, R.All), c.totals) then Some(TotalsDiffer)
    else None
  }

  /** Two reports can be compared exactly when both are complete, ask the same of the same source,
      and cover windows of one length of which the first ends before the second begins, and when
      their rows make up their totals. */
  lemma ComparableIff(p: R.Report, c: R.Report)
    ensures Problem(p, c).None? <==>
      && p.complete && c.complete && p.basis == c.basis
      && p.query.level == c.query.level && p.query.entity == c.query.entity
      && p.query.start <= p.query.end <= p.query.start + 92 && p.query.end < c.query.start
      && c.query.end == c.query.start + (p.query.end - p.query.start)
      && TotalsAgree(Sum(ADDITIVE, p.rows, R.Value, R.All), p.totals)
      && TotalsAgree(Sum(ADDITIVE, c.rows, R.Value, R.All), c.totals)
  {}

  /** What one entity contributes; an entity without rows in a window counts as zero there. */
  function ContributionOf(div: Division, p: R.Report, c: R.Report, id: string): Contribution {
    var before, after := EntitySum(p.rows, id), EntitySum(c.rows, id);
    var delta := Difference(Roas(div, c.totals), Roas(div, p.totals));
    var a, b := Ratio(div, after.revenue, c.totals.spend), Ratio(div, before.revenue, p.totals.spend);
    Contribution(id, before, after, if delta.Some? then Difference(a, b) else None)
  }

  const ByName: (Contribution, Contribution) -> bool :=
    (a: Contribution, b: Contribution) => Orders.Less(a.entity, b.entity)

  /** One contribution for every entity with rows in either window, in order of names. */
  ghost predicate Split(div: Division, p: R.Report, c: R.Report, cs: seq<Contribution>) {
    && Orders.Sorted(ByName, cs)
    && (forall x | x in cs :: x == ContributionOf(div, p, c, x.entity))
    && forall id :: HasContribution(cs, id) <==> HasRow(p.rows, id) || HasRow(c.rows, id)
  }

  predicate HasContribution(cs: seq<Contribution>, id: string) { exists i :: 0 <= i < |cs| && cs[i].entity == id }

  method Compare(div: Division, p: R.Report, c: R.Report) returns (result: Result<Comparison>)
    ensures result.Err? <==> Problem(p, c).Some?
    ensures result.Err? ==> Some(result.problem) == Problem(p, c)
    ensures result.Ok? ==> var x := result.value;
      && x.previous == p.totals && x.current == c.totals
      && x.previousRoas == Roas(div, p.totals) && x.currentRoas == Roas(div, c.totals)
      && x.delta == Difference(x.currentRoas, x.previousRoas) && Split(div, p, c, x.contributions)
  {
    if !p.complete || !c.complete { return Err(Incomplete); }
    if p.basis != c.basis || p.query.level != c.query.level || p.query.entity != c.query.entity {
      return Err(Incompatible);
    }
    if !R.GoodQuery(p.query) { return Err(BadQuery); }
    if !R.GoodQuery(c.query) { return Err(BadQuery); }
    if p.query.end - p.query.start != c.query.end - c.query.start || p.query.end >= c.query.start {
      return Err(BadWindows);
    }
    var before := Analyze(div, p);
    if before.Err? { return Err(before.problem); }
    var after := Analyze(div, c);
    if after.Err? { return Err(after.problem); }
    var delta := Difference(after.value.roas, before.value.roas);
    var groups := MergeRankings(before.value.ranking, after.value.ranking);
    MergedSums(div, p, c, before.value.ranking, after.value.ranking);
    var contributions := Contribute(div, p, c, groups, delta);
    return Ok(Comparison(p.totals, c.totals, before.value.roas, after.value.roas, delta, contributions));
  }

  datatype Pair = Pair(previous: Metrics, current: Metrics)

  function MetricsIn(ranking: seq<Finding>, id: string): Metrics {
    if ranking == [] then ZERO
    else if ranking[|ranking| - 1].entity == id then ranking[|ranking| - 1].metrics
    else MetricsIn(ranking[..|ranking| - 1], id)
  }

  /** Both rankings in one map, with zero where an entity is missing from one of them. */
  ghost predicate Merged(groups: map<string, Pair>, before: seq<Finding>, after: seq<Finding>) {
    && (forall id :: id in groups <==> HasFinding(before, id) || HasFinding(after, id))
    && forall id | id in groups :: groups[id] == Pair(MetricsIn(before, id), MetricsIn(after, id))
  }

  method MergeRankings(before: seq<Finding>, after: seq<Finding>) returns (groups: map<string, Pair>)
    ensures Merged(groups, before, after)
  {
    groups := map[];
    for i := 0 to |before|
      invariant Merged(groups, before[..i], [])
    {
      MergedBefore(groups, before[..i], before[i]);
      assert before[..i + 1] == before[..i] + [before[i]];
      groups := groups[before[i].entity := Pair(before[i].metrics, ZERO)];
    }
    assert before[..|before|] == before;
    for i := 0 to |after|
      invariant Merged(groups, before, after[..i])
    {
      var f := after[i];
      MergedAfter(groups, before, after[..i], f);
      assert after[..i + 1] == after[..i] + [f];
      var previous := if f.entity in groups then groups[f.entity].previous else ZERO;
      groups := groups[f.entity := Pair(previous, f.metrics)];
    }
    assert after[..|after|] == after;
  }

  lemma MergedBefore(groups: map<string, Pair>, before: seq<Finding>, f: Finding)
    requires Merged(groups, before, [])
    ensures Merged(groups[f.entity := Pair(f.metrics, ZERO)], before + [f], [])
  {
    HasFindingSnoc(before, f);
    assert (before + [f])[..|before|] == before;
  }

  lemma MergedAfter(groups: map<string, Pair>, before: seq<Finding>, after: seq<Finding>, f: Finding)
    requires Merged(groups, before, after)
    ensures var previous := if f.entity in groups then groups[f.entity].previous else ZERO;
      Merged(groups[f.entity := Pair(previous, f.metrics)], before, after + [f])
  {
    HasFindingSnoc(after, f);
    assert (after + [f])[..|after|] == after;
    if f.entity !in groups { NotFound(before, f.entity); }
  }

  lemma HasFindingSnoc(ranking: seq<Finding>, f: Finding)
    ensures forall id :: HasFinding(ranking + [f], id) <==> HasFinding(ranking, id) || f.entity == id
  {
    var all := ranking + [f];
    forall id ensures HasFinding(all, id) <==> HasFinding(ranking, id) || f.entity == id {
      assert all[|ranking|] == f;
      if i :| 0 <= i < |ranking| && ranking[i].entity == id { assert all[i] == ranking[i]; }
    }
  }

  lemma {:induction false} NotFound(ranking: seq<Finding>, id: string)
    requires !HasFinding(ranking, id)
    ensures MetricsIn(ranking, id) == ZERO
  {
    if ranking != [] {
      var n := |ranking| - 1;
      assert ranking[n].entity != id;
      assert forall i | 0 <= i < n :: ranking[..n][i] == ranking[i];
      NotFound(ranking[..n], id);
    }
  }

  lemma {:induction false} FoundAt(ranking: seq<Finding>, id: string) returns (i: nat)
    requires HasFinding(ranking, id)
    ensures i < |ranking| && ranking[i].entity == id && MetricsIn(ranking, id) == ranking[i].metrics
  {
    var n := |ranking| - 1;
    if ranking[n].entity == id {
      i := n;
    } else {
      var k :| 0 <= k < |ranking| && ranking[k].entity == id;
      assert ranking[..n][k].entity == id;
      i := FoundAt(ranking[..n], id);
    }
  }

  /** What the rankings say of an entity is the sum of its rows. */
  lemma RankingSums(div: Division, r: R.Report, ranking: seq<Finding>)
    requires Ranked(div, r.rows, r.totals, ranking)
    ensures forall id :: MetricsIn(ranking, id) == EntitySum(r.rows, id)
  {
    forall id ensures MetricsIn(ranking, id) == EntitySum(r.rows, id) {
      if HasFinding(ranking, id) {
        var i := FoundAt(ranking, id);
        assert ranking[i] in ranking;
      } else {
        NotFound(ranking, id);
        assert !HasRow(r.rows, id);
        SumNone(ADDITIVE, r.rows, R.Value, Class(R.All, EntityOf, id));
      }
    }
  }

  lemma MergedSums(div: Division, p: R.Report, c: R.Report, before: seq<Finding>, after: seq<Finding>)
    requires Ranked(div, p.rows, p.totals, before) && Ranked(div, c.rows, c.totals, after)
    ensures forall groups: map<string, Pair> | Merged(groups, before, after) :: Paired(groups, p, c)
  {
    RankingSums(div, p, before);
    RankingSums(div, c, after);
  }

  ghost predicate Paired(groups: map<string, Pair>, p: R.Report, c: R.Report) {
    && (forall id :: id in groups <==> HasRow(p.rows, id) || HasRow(c.rows, id))
    && forall id | id in groups :: groups[id] == Pair(EntitySum(p.rows, id), EntitySum(c.rows, id))
  }

  method Contribute(div: Division, p: R.Report, c: R.Report, groups: map<string, Pair>, delta: Option<real>)
    returns (contributions: seq<Contribution>)
    requires Paired(groups, p, c) && delta == Difference(Roas(div, c.totals), Roas(div, p.totals))
    ensures Split(div, p, c, contributions)
  {
    contributions := [];
    var left := groups.Keys;
    while left != {}
      invariant left <= groups.Keys && Orders.Sorted(ByName, contributions)
      invariant forall x | x in contributions ::
        x == ContributionOf(div, p, c, x.entity) && x.entity in groups && x.entity !in left
      invariant forall id | id in groups && id !in left :: ContributionOf(div, p, c, id) in contributions
    {
      var id :| id in left;
      var v := groups[id];
      var a, b := Ratio(div, v.current.revenue, c.totals.spend), Ratio(div, v.previous.revenue, p.totals.spend);
      var points := if delta.Some? && a.Some? && b.Some? then Some(a.value - b.value) else None;
      var x := Contribution(id, v.previous, v.current, points);
      assert x == ContributionOf(div, p, c, id);
      AddContribution(contributions, x);
      contributions := Orders.Insert(ByName, contributions, x);
      left := left - {id};
    }
    AllContribute(div, p, c, groups, contributions);
  }

  lemma AllContribute(div: Division, p: R.Report, c: R.Report, groups: map<string, Pair>, cs: seq<Contribution>)
    requires Paired(groups, p, c)
    requires forall x | x in cs :: x.entity in groups
    requires forall id | id in groups :: ContributionOf(div, p, c, id) in cs
    ensures forall id :: HasContribution(cs, id) <==> HasRow(p.rows, id) || HasRow(c.rows, id)
  {
    forall id ensures HasContribution(cs, id) <==> HasRow(p.rows, id) || HasRow(c.rows, id) {
      if id in groups {
        var i :| 0 <= i < |cs| && cs[i] == ContributionOf(div, p, c, id);
      }
      if i :| 0 <= i < |cs| && cs[i].entity == id { assert cs[i] in cs; }
    }
  }

  lemma AddContribution(cs: seq<Contribution>, x: Contribution)
    requires Orders.Sorted(ByName, cs) && forall y | y in cs :: y.entity != x.entity
    ensures var r := Orders.Insert(ByName, cs, x);
      Orders.Sorted(ByName, r) && forall y :: y in r <==> y in cs || y == x
  {
    forall y | y in cs ensures ByName(y, x) || ByName(x, y) { Orders.LessTotal(y.entity, x.entity); }
    forall y, z | y in cs && z in cs && ByName(y, z) && ByName(z, x) ensures ByName(y, x) {
      Orders.LessTransitive(y.entity, z.entity, x.entity);
    }
    Orders.InsertSorted(ByName, cs, x);
    Orders.InsertMembers(ByName, cs, x);
  }

  // ----- the contributions add up -----

  /** Every quotient is within `eps` of the exact one. */
  ghost predicate Accurate(div: Division, eps: real) {
    eps >= 0.0 && forall n, d {:trigger Divided(n, d)} :: Divided(n, d) && d != 0.0 ==> Near(div(n, d), n / d, eps)
  }

  /** Names a quotient whose accuracy matters. */
  ghost predicate Divided(n: real, d: real) { true }

  /** The rounding errors of `n` differences of quotients. */
  function Slack(n: nat, eps: real): real { if n == 0 then 0.0 else Slack(n - 1, eps) + 2.0 * eps }

  lemma {:induction false} SlackIs(n: nat, eps: real)
    ensures Slack(n, eps) == 2.0 * n as real * eps
  {
    if n > 0 { SlackIs(n - 1, eps); Growth(n, eps); }
  }

  predicate Near(x: real, y: real, eps: real) { -eps <= x - y <= eps }

  function Points(cs: seq<Contribution>): real {
    if cs == [] then 0.0
    else Points(cs[..|cs| - 1]) + if cs[|cs| - 1].points.Some? then cs[|cs| - 1].points.value else 0.0
  }

  function Names(cs: seq<Contribution>): (ids: seq<string>)
    ensures |ids| == |cs|
  {
    seq(|cs|, i requires 0 <= i < |cs| => cs[i].entity)
  }

  function Revenue(m: Metrics): real { if m.revenue.Some? then m.revenue.value else 0.0 }

  function RevenueSum(rows: seq<R.Row>, ids: seq<string>): real {
    if ids == [] then 0.0 else RevenueSum(rows, ids[..|ids| - 1]) + Revenue(EntitySum(rows, ids[|ids| - 1]))
  }

  lemma AddRevenue(a: Metrics, b: Metrics)
    requires Add(a, b).revenue.Some?
    ensures a.revenue.Some? && b.revenue.Some? && Revenue(Add(a, b)) == Revenue(a) + Revenue(b)
  {}

  /** A known total makes every part known, and the parts add up to it. */
  lemma {:induction false} RevenueParts(rows: seq<R.Row>, ids: seq<string>)
    requires SumGroups(ADDITIVE, rows, R.Value, R.All, EntityOf, ids).revenue.Some?
    ensures forall i | 0 <= i < |ids| :: EntitySum(rows, ids[i]).revenue.Some?
    ensures Revenue(SumGroups(ADDITIVE, rows, R.Value, R.All, EntityOf, ids)) == RevenueSum(rows, ids)
  {
    if ids != [] {
      var n := |ids| - 1;
      AddRevenue(SumGroups(ADDITIVE, rows, R.Value, R.All, EntityOf, ids[..n]), EntitySum(rows, ids[n]));
      RevenueParts(rows, ids[..n]);
      assert forall i | 0 <= i < n :: ids[..n][i] == ids[i];
    }
  }

  lemma RevenueIsShared(r: R.Report, ids: seq<string>)
    requires TotalsAgree(Sum(ADDITIVE, r.rows, R.Value, R.All), r.totals) && r.totals.revenue.Some?
    requires NoRepeats(ids) && forall id | HasRow(r.rows, id) :: id in ids
    ensures forall i | 0 <= i < |ids| :: EntitySum(r.rows, ids[i]).revenue.Some?
    ensures Revenue(r.totals) == RevenueSum(r.rows, ids)
  {
    AddIsLawful();
    forall x | x in r.rows ensures EntityOf(x) in ids {
      var k :| 0 <= k < |r.rows| && r.rows[k] == x;
      assert HasRow(r.rows, x.entity);
    }
    GroupsMakeUpTotal(ADDITIVE, r.rows, R.Value, R.All, EntityOf, ids);
    RevenueParts(r.rows, ids);
  }

  function SharesOf(rows: seq<R.Row>, ids: seq<string>, spend: real): real
    requires spend != 0.0
  {
    if ids == [] then 0.0
    else SharesOf(rows, ids[..|ids| - 1], spend) + Revenue(EntitySum(rows, ids[|ids| - 1])) / spend
  }

  lemma DivideSum(a: real, b: real, d: real)
    requires d != 0.0
    ensures (a + b) / d == a / d + b / d
  {}

  lemma {:induction false} SharesAreOfSum(rows: seq<R.Row>, ids: seq<string>, spend: real)
    requires spend != 0.0
    ensures SharesOf(rows, ids, spend) == RevenueSum(rows, ids) / spend
  {
    if ids != [] {
      var n := |ids| - 1;
      SharesAreOfSum(rows, ids[..n], spend);
      DivideSum(RevenueSum(rows, ids[..n]), Revenue(EntitySum(rows, ids[n])), spend);
    }
  }

  lemma NearAdd(x: real, y: real, e: real, v: real, w: real, d: real, bound: real)
    requires Near(x, y, e) && Near(v, w, d) && bound == e + d
    ensures Near(x + v, y + w, bound)
  {}

  lemma Growth(n: nat, eps: real)
    requires n > 0
    ensures 2.0 * n as real * eps == 2.0 * (n - 1) as real * eps + 2.0 * eps
  {}

  /** The contributions are as `Split` says, with all revenues known. */
  ghost predicate KnownSplit(div: Division, p: R.Report, c: R.Report, cs: seq<Contribution>) {
    && p.totals.spend != 0.0 && c.totals.spend != 0.0 && p.totals.revenue.Some? && c.totals.revenue.Some?
    && forall i | 0 <= i < |cs| ::
      cs[i] == ContributionOf(div, p, c, cs[i].entity) && cs[i].previous.revenue.Some? && cs[i].current.revenue.Some?
  }

  /** The points of the first `n` contributions are near the change of their revenue shares. */
  lemma {:induction false} PointsNear(div: Division, eps: real, p: R.Report, c: R.Report, cs: seq<Contribution>, n: nat)
    requires Accurate(div, eps) && n <= |cs| && KnownSplit(div, p, c, cs)
    ensures var ids := Names(cs)[..n];
      Near(Points(cs[..n]), SharesOf(c.rows, ids, c.totals.spend) - SharesOf(p.rows, ids, p.totals.spend),
           Slack(n, eps))
  {
    if n > 0 {
      PointsNear(div, eps, p, c, cs, n - 1);
      var x, ids := cs[n - 1], Names(cs)[..n - 1];
      assert cs[..n][..n - 1] == cs[..n - 1] && Names(cs)[..n][..n - 1] == ids;
      PointNear(div, eps, p, c, x);
      NearAdd(Points(cs[..n - 1]), SharesOf(c.rows, ids, c.totals.spend) - SharesOf(p.rows, ids, p.totals.spend),
              Slack(n - 1, eps), x.points.value,
              Revenue(x.current) / c.totals.spend - Revenue(x.previous) / p.totals.spend, 2.0 * eps,
              Slack(n, eps));
    }
  }

  lemma PointNear(div: Division, eps: real, p: R.Report, c: R.Report, x: Contribution)
    requires Accurate(div, eps) && p.totals.spend != 0.0 && c.totals.spend != 0.0
    requires x == ContributionOf(div, p, c, x.entity) && x.previous.revenue.Some? && x.current.revenue.Some?
    requires p.totals.revenue.Some? && c.totals.revenue.Some?
    ensures x.points.Some?
    ensures Near(x.points.value, Revenue(x.current) / c.totals.spend - Revenue(x.previous) / p.totals.spend, 2.0 * eps)
  {
    assert Divided(Revenue(x.current), c.totals.spend) && Divided(Revenue(x.previous), p.totals.spend);
  }

  lemma NamesDiffer(cs: seq<Contribution>)
    requires Orders.Sorted(ByName, cs)
    ensures NoRepeats(Names(cs))
  {
    forall i, j | 0 <= i < j < |cs| ensures Names(cs)[i] != Names(cs)[j] {
      assert ByName(cs[i], cs[j]);
      Orders.LessIrreflexive(cs[i].entity);
    }
  }

  lemma SplitIsKnown(div: Division, p: R.Report, c: R.Report, cs: seq<Contribution>)
    requires Problem(p, c).None? && Split(div, p, c, cs)
    requires p.totals.spend != 0.0 && c.totals.spend != 0.0 && p.totals.revenue.Some? && c.totals.revenue.Some?
    ensures KnownSplit(div, p, c, cs)
    ensures Revenue(p.totals) == RevenueSum(p.rows, Names(cs)) && Revenue(c.totals) == RevenueSum(c.rows, Names(cs))
  {
    var ids := Names(cs);
    NamesDiffer(cs);
    forall id | HasRow(p.rows, id) || HasRow(c.rows, id) ensures id in ids {
      var i :| 0 <= i < |cs| && cs[i].entity == id;
      assert ids[i] == id;
    }
    RevenueIsShared(p, ids);
    RevenueIsShared(c, ids);
    forall i | 0 <= i < |cs|
      ensures cs[i] == ContributionOf(div, p, c, cs[i].entity)
      ensures cs[i].previous.revenue.Some? && cs[i].current.revenue.Some?
    {
      assert cs[i] in cs && ids[i] == cs[i].entity;
    }
  }

  /** The change of return is near the change of the exact quotients. */
  lemma DeltaNear(div: Division, eps: real, p: R.Report, c: R.Report)
    requires Accurate(div, eps)
    requires p.totals.spend != 0.0 && c.totals.spend != 0.0 && p.totals.revenue.Some? && c.totals.revenue.Some?
    ensures var delta := Difference(Roas(div, c.totals), Roas(div, p.totals));
      && delta.Some?
      && Near(Revenue(c.totals) / c.totals.spend - Revenue(p.totals) / p.totals.spend, delta.value, 2.0 * eps)
  {
    assert Divided(Revenue(c.totals), c.totals.spend) && Divided(Revenue(p.totals), p.totals.spend);
  }

  lemma NearTransitive(x: real, y: real, z: real, e: real, d: real, bound: real)
    requires Near(x, y, e) && Near(y, z, d) && bound == e + d
    ensures Near(x, z, bound)
  {}

  lemma SameQuotient(a: real, b: real, d: real)
    requires a == b && d != 0.0
    ensures a / d == b / d
  {}

  lemma KnownAddUp(div: Division, eps: real, p: R.Report, c: R.Report, cs: seq<Contribution>)
    requires Accurate(div, eps) && KnownSplit(div, p, c, cs)
    requires Revenue(p.totals) == RevenueSum(p.rows, Names(cs)) && Revenue(c.totals) == RevenueSum(c.rows, Names(cs))
    ensures Near(Points(cs), Revenue(c.totals) / c.totals.spend - Revenue(p.totals) / p.totals.spend,
                 Slack(|cs|, eps))
  {
    var n, ids := |cs|, Names(cs);
    PointsNear(div, eps, p, c, cs, n);
    assert cs[..n] == cs && ids[..n] == ids;
    SharesAreOfSum(p.rows, ids, p.totals.spend);
    SharesAreOfSum(c.rows, ids, c.totals.spend);
    SameQuotient(Revenue(p.totals), RevenueSum(p.rows, ids), p.totals.spend);
    SameQuotient(Revenue(c.totals), RevenueSum(c.rows, ids), c.totals.spend);
  }

  lemma DeltaKnown(div: Division, p: R.Report, c: R.Report)
    requires Difference(Roas(div, c.totals), Roas(div, p.totals)).Some?
    ensures p.totals.spend != 0.0 && c.totals.spend != 0.0 && p.totals.revenue.Some? && c.totals.revenue.Some?
  {}

  /** When the change of return is known, together the points of the entities are the change:
      exactly under exact division, and otherwise within two roundings for each entity and two
      for the change itself. */
  lemma ContributionsAddUp(div: Division, eps: real, p: R.Report, c: R.Report, cs: seq<Contribution>, delta: real)
    requires Accurate(div, eps) && Problem(p, c).None? && Split(div, p, c, cs)
    requires Difference(Roas(div, c.totals), Roas(div, p.totals)) == Some(delta)
    ensures Near(Points(cs), delta, Slack(|cs| + 1, eps))
  {
    DeltaKnown(div, p, c);
    SplitIsKnown(div, p, c, cs);
    KnownAddUp(div, eps, p, c, cs);
    DeltaNear(div, eps, p, c);
    NearTransitive(Points(cs), Revenue(c.totals) / c.totals.spend - Revenue(p.totals) / p.totals.spend, delta,
                   Slack(|cs|, eps), 2.0 * eps, Slack(|cs| + 1, eps));
  }

  /** And every entity has points then. */
  lemma KnownHasPoints(div: Division, eps: real, p: R.Report, c: R.Report, cs: seq<Contribution>)
    requires Accurate(div, eps) && Problem(p, c).None? && Split(div, p, c, cs)
    requires Difference(Roas(div, c.totals), Roas(div, p.totals)).Some?
    ensures forall i | 0 <= i < |cs| :: cs[i].points.Some?
  {
    DeltaKnown(div, p, c);
    SplitIsKnown(div, p, c, cs);
    forall i | 0 <= i < |cs| ensures cs[i].points.Some? { PointNear(div, eps, p, c, cs[i]); }
  }

  /** An entity's points are its own revenue against the spend of all, now and before, within a
      rounding each: what the change of return would lack without that revenue. */
  lemma PointsAreOwn(div: Division, eps: real, p: R.Report, c: R.Report, cs: seq<Contribution>, i: nat)
    requires Accurate(div, eps) && Problem(p, c).None? && Split(div, p, c, cs) && i < |cs|
    requires Difference(Roas(div, c.totals), Roas(div, p.totals)).Some?
    ensures var x := cs[i];
      && x.previous == EntitySum(p.rows, x.entity) && x.current == EntitySum(c.rows, x.entity)
      && x.points.Some? && x.previous.revenue.Some? && x.current.revenue.Some?
      && Near(x.points.value,
              x.current.revenue.value / c.totals.spend - x.previous.revenue.value / p.totals.spend, 2.0 * eps)
  {
    DeltaKnown(div, p, c);
    SplitIsKnown(div, p, c, cs);
    PointNear(div, eps, p, c, cs[i]);
    assert cs[i] in cs;
  }

  /** When it is unknown, no entity gets points. */
  lemma UnknownHasNoPoints(div: Division, p: R.Report, c: R.Report, cs: seq<Contribution>)
    requires Split(div, p, c, cs) && Difference(Roas(div, c.totals), Roas(div, p.totals)).None?
    ensures forall i | 0 <= i < |cs| :: cs[i].points.None?
  {
    forall i | 0 <= i < |cs| ensures cs[i].points.None? { assert cs[i] in cs; }
  }

  // ----- the decimal division in use -----

  const UNIT := 0.0000000000000001

  /** Sixteen decimals, half away from zero. */
  const Div16: Division := (n: real, d: real) => if d == 0.0 then 0.0 else Round(n / d / UNIT) as real * UNIT

  lemma RoundsNear(x: real)
    ensures Near(Round(x) as real, x, 0.5)
  {}

  lemma Div16IsAccurate()
    ensures Accurate(Div16, 0.5 * UNIT)
  {
    forall n: real, d: real {:trigger Divided(n, d)} | Divided(n, d) && d != 0.0
      ensures Near(Div16(n, d), n / d, 0.5 * UNIT)
    {
      RoundsNear(n / d / UNIT);
    }
  }

  /** Two roundings of half a unit each are one unit. */
  lemma SlackInUnits(n: nat, bound: real)
    requires bound == n as real * UNIT
    ensures Slack(n, 0.5 * UNIT) == bound
  {
    SlackIs(n, 0.5 * UNIT);
  }

  /** With sixteen-decimal division the points miss the change by at most (n + 1) units. */
  lemma RoundedContributionsAddUp(p: R.Report, c: R.Report, cs: seq<Contribution>, delta: real, bound: real)
    requires Problem(p, c).None? && Split(Div16, p, c, cs)
    requires Difference(Roas(Div16, c.totals), Roas(Div16, p.totals)) == Some(delta)
    requires bound == (|cs| + 1) as real * UNIT
    ensures Near(Points(cs), delta, bound)
  {
    Div16IsAccurate();
    SlackInUnits(|cs| + 1, bound);
    ContributionsAddUp(Div16, 0.5 * UNIT, p, c, cs, delta);
  }

  /** With exact division they meet it. */
  lemma ExactContributionsAddUp(div: Division, p: R.Report, c: R.Report, cs: seq<Contribution>, delta: real)
    requires Accurate(div, 0.0) && Problem(p, c).None? && Split(div, p, c, cs)
    requires Difference(Roas(div, c.totals), Roas(div, p.totals)) == Some(delta)
    ensures Points(cs) == delta
  {
    SlackIs(|cs| + 1, 0.0);
    ContributionsAddUp(div, 0.0, p, c, cs, delta);
  }
}
