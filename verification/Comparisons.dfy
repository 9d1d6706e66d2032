/** Ranking a report's entities (`Analyze` in internal/ads/analysis.go) and splitting a change of
    return on ad spend between them (`Compare` in internal/ads/comparison.go). */
module Comparisons {
  import opened Options
  import opened Sums
  import opened Metrics
  import Orders
  import R = Reports

  /** Decimal division is a parameter, so that it can be exact or rounded. */
  type Division = (real, real) -> real

  function Ratio(div: Division, n: Option<real>, d: real): Option<real> {
    if n.None? || d == 0.0 then None else Some(div(n.value, d))
  }

  function Roas(div: Division, m: Metrics): Option<real> { Ratio(div, m.revenue, m.spend) }

  /** A ratio is known exactly when its numerator is and it does not divide by zero. */
  lemma RoasKnownIff(div: Division, m: Metrics)
    ensures Roas(div, m).Some? <==> m.revenue.Some? && m.spend != 0.0
    ensures Roas(div, m).Some? ==> Roas(div, m).value == div(m.revenue.value, m.spend)
  {}

  datatype Finding = Finding(entity: string, metrics: Metrics, roas: Option<real>, share: Option<real>)
  datatype Calculation = Calculation(totals: Metrics, roas: Option<real>, ranking: seq<Finding>)
  datatype Problem = Incomplete | TotalsDiffer | Incompatible | BadQuery | BadWindows
  datatype Result<+T> = Ok(value: T) | Err(problem: Problem)

  const EntityOf: R.Row -> string := (r: R.Row) => r.entity

  function EntitySum(rows: seq<R.Row>, id: string): Metrics {
    Sum(ADDITIVE, rows, R.Value, Class(R.All, EntityOf, id))
  }

  /** Worst return first, unknown returns last, equal returns by name. */
  predicate Precedes(a: Finding, b: Finding) {
    if a.roas == b.roas then Orders.Less(a.entity, b.entity)
    else if a.roas.None? then false
    else if b.roas.None? then true
    else a.roas.value < b.roas.value
  }

  const Worse: (Finding, Finding) -> bool := (a: Finding, b: Finding) => Precedes(a, b)

  lemma PrecedesTransitive(a: Finding, b: Finding, c: Finding)
    requires Precedes(a, b) && Precedes(b, c)
    ensures Precedes(a, c)
  {
    if a.roas == b.roas == c.roas { Orders.LessTransitive(a.entity, b.entity, c.entity); }
  }

  lemma PrecedesTotal(a: Finding, b: Finding)
    requires a.entity != b.entity
    ensures Precedes(a, b) || Precedes(b, a)
  {
    Orders.LessTotal(a.entity, b.entity);
  }

  /** A finding is about the rows of its entity: their sum, its return, and its share of the spend of
      all, known unless nothing was spent. */
  lemma FindingTells(div: Division, rows: seq<R.Row>, totals: Metrics, id: string)
    ensures var f := FindingOf(div, rows, totals, id);
      && f.entity == id && f.metrics == Sum(ADDITIVE, rows, R.Value, Class(R.All, EntityOf, id))
      && f.roas == Roas(div, f.metrics)
      && f.share == if totals.spend == 0.0 then None else Some(div(f.metrics.spend, totals.spend))
  {}

  /** One finding for every entity of the rows, with the sum of its rows, in ranking order. */
  ghost predicate Ranked(div: Division, rows: seq<R.Row>, totals: Metrics, ranking: seq<Finding>) {
    && Orders.Sorted(Worse, ranking)
    && Unalike(ranking)
    && (forall f | f in ranking :: f == FindingOf(div, rows, totals, f.entity))
    && forall id :: HasRow(rows, id) <==> HasFinding(ranking, id)
  }

  predicate HasRow(rows: seq<R.Row>, id: string) { exists i :: 0 <= i < |rows| && rows[i].entity == id }

  predicate HasFinding(ranking: seq<Finding>, id: string) { exists i :: 0 <= i < |ranking| && ranking[i].entity == id }

  predicate Unalike(ranking: seq<Finding>) {
    forall i, j | 0 <= i < j < |ranking| :: ranking[i].entity != ranking[j].entity
  }

  function FindingOf(div: Division, rows: seq<R.Row>, totals: Metrics, id: string): Finding {
    var m := EntitySum(rows, id);
    Finding(id, m, Roas(div, m), Ratio(div, Some(m.spend), totals.spend))
  }

  predicate TotalsAgree(actual: Metrics, totals: Metrics) {
    && actual.spend == totals.spend && actual.impressions == totals.impressions && actual.clicks == totals.clicks
    && actual.revenue == totals.revenue && actual.conversions == totals.conversions
  }

  /** Totals that agree give the same returns and the same counts. */
  lemma AgreeingTotals(div: Division, a: Metrics, b: Metrics)
    requires TotalsAgree(a, b)
    ensures Roas(div, a) == Roas(div, b) && a.conversions == b.conversions
    ensures a.spend == b.spend && a.impressions == b.impressions && a.clicks == b.clicks
  {}

  /** Known returns first and rising, unknown ones last; equal ones by name. */
  predicate WorstFirst(ranking: seq<Finding>) {
    forall i, j | 0 <= i < j < |ranking| ::
      && (ranking[j].roas.Some? ==> ranking[i].roas.Some? && ranking[i].roas.value <= ranking[j].roas.value)
      && (ranking[i].roas == ranking[j].roas ==> Orders.Less(ranking[i].entity, ranking[j].entity))
  }

  lemma RankedWorstFirst(ranking: seq<Finding>)
    requires Orders.Sorted(Worse, ranking)
    ensures WorstFirst(ranking)
  {
    forall i, j | 0 <= i < j < |ranking|
      ensures ranking[j].roas.Some? ==> ranking[i].roas.Some? && ranking[i].roas.value <= ranking[j].roas.value
      ensures ranking[i].roas == ranking[j].roas ==> Orders.Less(ranking[i].entity, ranking[j].entity)
    {
      assert Worse(ranking[i], ranking[j]);
    }
  }

  method Analyze(div: Division, r: R.Report) returns (result: Result<Calculation>)
    ensures result == Err(Incomplete) <==> !r.complete
    ensures result == Err(TotalsDiffer)
      <==> r.complete && !TotalsAgree(Sum(ADDITIVE, r.rows, R.Value, R.All), r.totals)
    ensures result.Ok? ==> var c := result.value;
      && c.totals == r.totals && c.roas == Roas(div, r.totals)
      && Ranked(div, r.rows, r.totals, c.ranking) && WorstFirst(c.ranking)
    ensures result.Err? ==> result.problem in {Incomplete, TotalsDiffer}
  {
    if !r.complete { return Err(Incomplete); }
    var groups, actual := GroupByEntity(r.rows);
    if !TotalsAgree(actual, r.totals) { return Err(TotalsDiffer); }
    var ranking := Rank(div, groups, r.totals);
    forall id ensures HasRow(r.rows, id) <==> HasFinding(ranking, id) {
      if i :| 0 <= i < |ranking| && ranking[i].entity == id { assert ranking[i] in ranking; }
    }
    RankedWorstFirst(ranking);
    return Ok(Calculation(r.totals, Roas(div, r.totals), ranking));
  }

  /** Each entity with a row has the sum of its rows. */
  ghost predicate EntityGroups(rows: seq<R.Row>, groups: map<string, Metrics>) {
    forall id :: (id in groups <==> HasRow(rows, id)) && SumIn(groups, id) == EntitySum(rows, id)
  }

  function SumIn(groups: map<string, Metrics>, id: string): Metrics { if id in groups then groups[id] else ZERO }

  lemma EntityGroupsSnoc(rows: seq<R.Row>, x: R.Row, groups: map<string, Metrics>)
    requires EntityGroups(rows, groups)
    ensures EntityGroups(rows + [x], groups[x.entity := Add(SumIn(groups, x.entity), x.metrics)])
  {
    var more := groups[x.entity := Add(SumIn(groups, x.entity), x.metrics)];
    HasRowSnoc(rows, x);
    forall id ensures (id in more <==> HasRow(rows + [x], id)) && SumIn(more, id) == EntitySum(rows + [x], id) {
      SumSnoc(ADDITIVE, rows, x, R.Value, Class(R.All, EntityOf, id));
    }
  }

  method GroupByEntity(rows: seq<R.Row>) returns (groups: map<string, Metrics>, actual: Metrics)
    ensures actual == Sum(ADDITIVE, rows, R.Value, R.All) && EntityGroups(rows, groups)
  {
    groups, actual := map[], ZERO;
    for i := 0 to |rows|
      invariant actual == Sum(ADDITIVE, rows[..i], R.Value, R.All) && EntityGroups(rows[..i], groups)
    {
      var row := rows[i];
      assert rows[..i + 1] == rows[..i] + [row];
      SumSnoc(ADDITIVE, rows[..i], row, R.Value, R.All);
      EntityGroupsSnoc(rows[..i], row, groups);
      actual := Add(actual, row.metrics);
      groups := groups[row.entity := Add(SumIn(groups, row.entity), row.metrics)];
    }
    assert rows[..|rows|] == rows;
  }

  lemma HasRowSnoc(rows: seq<R.Row>, x: R.Row)
    ensures forall id :: HasRow(rows + [x], id) <==> HasRow(rows, id) || x.entity == id
  {
    var all := rows + [x];
    forall id ensures HasRow(all, id) <==> HasRow(rows, id) || x.entity == id {
      assert all[|rows|] == x;
      if i :| 0 <= i < |rows| && rows[i].entity == id { assert all[i] == rows[i]; }
    }
  }

  method Rank(div: Division, groups: map<string, Metrics>, totals: Metrics) returns (ranking: seq<Finding>)
    ensures Orders.Sorted(Worse, ranking)
    ensures Unalike(ranking)
    ensures forall f | f in ranking :: f.entity in groups && f == Found(div, f.entity, groups[f.entity], totals)
    ensures forall id | id in groups :: HasFinding(ranking, id)
  {
    ranking := [];
    var left := groups.Keys;
    while left != {}
      invariant left <= groups.Keys
      invariant Orders.Sorted(Worse, ranking)
      invariant Unalike(ranking)
      invariant forall f | f in ranking ::
        f.entity in groups && f.entity !in left && f == Found(div, f.entity, groups[f.entity], totals)
      invariant forall id | id in groups && id !in left :: Found(div, id, groups[id], totals) in ranking
    {
      var id :| id in left;
      var f := Found(div, id, groups[id], totals);
      RankOne(ranking, f);
      ranking := Orders.Insert(Worse, ranking, f);
      left := left - {id};
    }
    forall id | id in groups ensures HasFinding(ranking, id) {
      var i :| 0 <= i < |ranking| && ranking[i] == Found(div, id, groups[id], totals);
    }
  }

  function Found(div: Division, id: string, m: Metrics, totals: Metrics): Finding {
    Finding(id, m, Roas(div, m), Ratio(div, Some(m.spend), totals.spend))
  }

  lemma RankOne(ranking: seq<Finding>, f: Finding)
    requires Orders.Sorted(Worse, ranking)
    requires Unalike(ranking)
    requires forall g | g in ranking :: g.entity != f.entity
    ensures var r := Orders.Insert(Worse, ranking, f);
      && Orders.Sorted(Worse, r) && (forall g :: g in r <==> g in ranking || g == f)
      && Unalike(r)
  {
    forall g | g in ranking ensures Worse(g, f) || Worse(f, g) { PrecedesTotal(g, f); }
    forall g, h | g in ranking && h in ranking && Worse(g, h) && Worse(h, f) ensures Worse(g, f) {
      PrecedesTransitive(g, h, f);
    }
    Orders.InsertSorted(Worse, ranking, f);
    Orders.InsertMembers(Worse, ranking, f);
    InsertDistinct(ranking, f);
  }

  lemma UnalikeSnoc(ranking: seq<Finding>, f: Finding)
    ensures Unalike(ranking + [f]) <==> Unalike(ranking) && forall g | g in ranking :: g.entity != f.entity
  {
    var all := ranking + [f];
    if Unalike(all) {
      forall i, j | 0 <= i < j < |ranking| ensures ranking[i].entity != ranking[j].entity {
        assert all[i].entity != all[j].entity;
      }
      forall i | 0 <= i < |ranking| ensures ranking[i].entity != f.entity {
        assert all[i].entity != all[|ranking|].entity;
      }
    } else if Unalike(ranking) && forall g | g in ranking :: g.entity != f.entity {
      assert forall i | 0 <= i < |ranking| :: ranking[i] in ranking;
    }
  }

  lemma {:induction false} InsertDistinct(ranking: seq<Finding>, f: Finding)
    requires Unalike(ranking) && forall g | g in ranking :: g.entity != f.entity
    ensures Unalike(Orders.Insert(Worse, ranking, f))
  {
    if ranking == [] || Worse(ranking[|ranking| - 1], f) {
      UnalikeSnoc(ranking, f);
    } else {
      var front, last := ranking[..|ranking| - 1], ranking[|ranking| - 1];
      assert ranking == front + [last] && last in ranking;
      UnalikeSnoc(front, last);
      InsertDistinct(front, f);
      Orders.InsertMembers(Worse, front, f);
      UnalikeSnoc(Orders.Insert(Worse, front, f), last);
    }
  }

  // ----- a sandbox report is always accepted -----

  function Keys(rows: seq<R.Row>): (ks: seq<(string, int)>)
    ensures |ks| == |rows|
  {
    seq(|rows|, i requires 0 <= i < |rows| => (rows[i].entity, rows[i].date))
  }

  lemma {:induction false} RowsOfEntity(s: R.State, q: R.Query, rows: seq<R.Row>, id: string, n: nat)
    requires R.Tree(s.entities) && R.GroupRows(s, q, rows) && n <= |rows| && q.entity == "" && id != ""
    ensures Sum(ADDITIVE, rows[..n], R.Value, Class(R.All, EntityOf, id))
      == Sum(ADDITIVE, R.Records(s), R.Value,
             Grouped(R.Keep(s, q.(entity := id)), R.KeyAt(s, q.level), Keys(rows)[..n]))
  {
    var mine, key := R.Keep(s, q.(entity := id)), R.KeyAt(s, q.level);
    var all := Grouped(mine, key, Keys(rows)[..n]);
    if n == 0 {
      SumNone(ADDITIVE, R.Records(s), R.Value, all);
    } else {
      var x := rows[n - 1];
      var k, before := (x.entity, x.date), Grouped(mine, key, Keys(rows)[..n - 1]);
      RowsOfEntity(s, q, rows, id, n - 1);
      assert rows[..n] == rows[..n - 1] + [x];
      SumSnoc(ADDITIVE, rows[..n - 1], x, R.Value, Class(R.All, EntityOf, id));
      assert Keys(rows)[..n] == Keys(rows)[..n - 1] + [k];
      if x.entity == id {
        AddIsLawful();
        assert k !in Keys(rows)[..n - 1];
        SumSplit(ADDITIVE, R.Records(s), R.Value, all, before, Class(R.Keep(s, q), key, k));
      } else {
        SumSame(ADDITIVE, R.Records(s), R.Value, all, before);
      }
    }
  }

  /** The rows a report has for an entity add up to the totals of the entity's own report. */
  lemma EntityRowsAreItsReport(s: R.State, q: R.Query, rows: seq<R.Row>, id: string)
    requires R.Tree(s.entities) && R.GroupRows(s, q, rows) && q.entity == "" && id != ""
    ensures EntitySum(rows, id) == R.Totals(s, q.(entity := id))
  {
    var mine, key := R.Keep(s, q.(entity := id)), R.KeyAt(s, q.level);
    RowsOfEntity(s, q, rows, id, |rows|);
    assert rows[..|rows|] == rows && Keys(rows)[..|rows|] == Keys(rows);
    forall r | r in R.Records(s) && mine(r) ensures key(r) in Keys(rows) {
      var i :| 0 <= i < |R.Records(s)| && R.Records(s)[i] == r;
      assert R.Present(R.Records(s), R.Keep(s, q), key, key(r));
      var j :| 0 <= j < |rows| && (rows[j].entity, rows[j].date) == key(r);
      assert Keys(rows)[j] == key(r);
    }
    SumSame(ADDITIVE, R.Records(s), R.Value, Grouped(mine, key, Keys(rows)), mine);
  }

  /** Analysis accepts every complete report the sandbox makes, of the account or of one entity,
      and in an account-wide one ranks each entity by exactly the totals that the entity's own
      report would show. */
  method AnalyzeReport(div: Division, s: R.State, q: R.Query) returns (result: Result<Calculation>)
    requires R.Sound(s) && R.GoodQuery(q) && R.Found(s, q)
    ensures result.Ok? <==> R.IsComplete(s, q)
    ensures result.Ok? ==> result.value.totals == R.Totals(s, q)
    ensures result.Ok? && q.entity == "" ==> forall f | f in result.value.ranking && f.entity != "" ::
      f.metrics == R.Totals(s, q.(entity := f.entity))
  {
    var report := R.MakeReport(s, q);
    var r := report.value;
    result := Analyze(div, r);
    forall f | result.Ok? && q.entity == "" && f in result.value.ranking && f.entity != ""
      ensures f.metrics == R.Totals(s, q.(entity := f.entity))
    {
      EntityRowsAreItsReport(s, q, r.rows, f.entity);
    }
  }
}
