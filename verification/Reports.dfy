/** Reports over a hierarchy of ads, and the metrics automated rules look at (`Report` in
    internal/sandbox/backend.go, `ruleMetrics` in internal/sandbox/rules.go). Dates are numbered
    days and instants are numbered minutes; `day` is the account's calendar. */
module Reports {
  import opened Options
  import opened Sums
  import opened Metrics

  datatype Level = Ad | AdGroup | Campaign | Advertiser
  datatype Entity = Entity(id: string, level: Level, parent: string)
  datatype Row = Row(entity: string, date: int, metrics: Metrics)
  datatype Fact = Fact(ad: string, hour: int, available: int, metrics: Metrics)

  /** `basis` stands for a source, its currency, time zone and attribution. The seed covers the
      dates from `seedStart` to `seedEnd`; `latest` is the date of the clock. */
  datatype State = State(
    basis: string, seedStart: int, seedEnd: int, latest: int, account: string, entities: map<string, Entity>,
    rows: seq<Row>, facts: seq<Fact>, clock: int, day: int -> int)

  datatype Query = Query(level: Level, entity: string, start: int, end: int)
  datatype Report = Report(basis: string, query: Query, complete: bool, rows: seq<Row>, totals: Metrics)

  // ----- the hierarchy -----

  function Rank(level: Level): nat {
    match level case Ad => 0 case AdGroup => 1 case Campaign => 2 case Advertiser => 3
  }

  /** Ads belong to ad groups and ad groups to campaigns, and all of them exist. */
  predicate Tree(entities: map<string, Entity>) {
    forall id | id in entities :: var e := entities[id];
      && e.id == id && id != "" && e.level != Advertiser
      && (e.level != Campaign ==> e.parent in entities && Rank(entities[e.parent].level) == Rank(e.level) + 1)
  }

  predicate IsAd(s: State, id: string) { id in s.entities && s.entities[id].level == Ad }

  /** The invariant of a backend: rows and facts belong to ads, and facts are in the past. */
  ghost predicate Sound(s: State) {
    && Tree(s.entities)
    && (forall r | r in s.rows :: IsAd(s, r.entity))
    && forall f | f in s.facts :: IsAd(s, f.ad) && f.hour <= s.clock
  }

  /** The ancestor of an entity at a level of its own hierarchy. */
  function Ancestor(entities: map<string, Entity>, id: string, level: Level): (r: string)
    requires Tree(entities) && id in entities && Rank(entities[id].level) <= Rank(level) < 3
    ensures r in entities && entities[r].level == level
    decreases 3 - Rank(entities[id].level)
  {
    if entities[id].level == level then id else Ancestor(entities, entities[id].parent, level)
  }

  function Owner(s: State, ad: string, level: Level): string
    requires Tree(s.entities)
  {
    if level == Advertiser then s.account
    else if ad in s.entities && Rank(s.entities[ad].level) <= Rank(level) then Ancestor(s.entities, ad, level)
    else ""
  }

  // ----- what a report is about -----

  /** Conversions and revenue appear only once they have been attributed and reported. */
  function Visible(f: Fact, now: int): Metrics {
    if now >= f.available then f.metrics else f.metrics.(conversions := Some(0.0), revenue := Some(0.0))
  }

  function FactRow(s: State, f: Fact): Row { Row(f.ad, s.day(f.hour), Visible(f, s.clock)) }

  function FactRows(s: State): (r: seq<Row>)
    ensures |r| == |s.facts|
  {
    seq(|s.facts|, i requires 0 <= i < |s.facts| => FactRow(s, s.facts[i]))
  }

  /** Everything known at the clock: seeded rows and generated facts. */
  function Records(s: State): seq<Row> { s.rows + FactRows(s) }

  const Value: Row -> Metrics := (r: Row) => r.metrics

  function Keep(s: State, q: Query): Row -> bool
    requires Tree(s.entities)
  {
    (r: Row) => q.start <= r.date <= q.end && (q.entity == "" || Owner(s, r.entity, q.level) == q.entity)
  }

  /** What the totals of a report mean. */
  function Totals(s: State, q: Query): Metrics
    requires Tree(s.entities)
  {
    Sum(ADDITIVE, Records(s), Value, Keep(s, q))
  }

  function KeyAt(s: State, level: Level): Row -> (string, int)
    requires Tree(s.entities)
  {
    (r: Row) => (Owner(s, r.entity, level), r.date)
  }

  const All: Row -> bool := (r: Row) => true

  // ----- the methods -----

  type Groups = map<(string, int), Metrics>

  function Known(groups: Groups, k: (string, int)): Metrics {
    if k in groups then groups[k] else ZERO
  }

  /** At most 93 days, in order. */
  predicate GoodQuery(q: Query) { q.start <= q.end <= q.start + 92 }

  /** The entity asked for, if any, exists at the level asked for. */
  predicate Found(s: State, q: Query) {
    q.entity == ""
    || (if q.level == Advertiser then q.entity == s.account
        else q.entity in s.entities && s.entities[q.entity].level == q.level)
  }

  /** A report, or none for a query that is malformed or names nothing. Rows come out in some
      order, one for each entity and date. */
  method MakeReport(s: State, q: Query) returns (report: Option<Report>)
    requires Sound(s)
    ensures report.None? <==> !GoodQuery(q) || !Found(s, q)
    ensures report.Some? ==> var r := report.value;
      && r.basis == s.basis && r.query == q && r.complete == IsComplete(s, q) && r.totals == Totals(s, q)
      && r.totals == Sum(ADDITIVE, r.rows, Value, All) && GroupRows(s, q, r.rows)
  {
    if !GoodQuery(q) || !Found(s, q) { return None; }
    var complete := CheckCoverage(s, q);
    var records := CollectRecords(s, q);
    var groups := GroupRecords(s, q, records);
    var rows, totals, keys := FlattenGroups(groups);
    FlatRows(s, q, records, groups, keys, rows, totals);
    report := Some(Report(s.basis, q, complete, rows, totals));
  }

  // ----- completeness -----

  /** How many facts an ad has on a date. */
  function Count(facts: seq<Fact>, day: int -> int, ad: string, date: int): nat {
    if facts == [] then 0
    else
      var f := facts[|facts| - 1];
      Count(facts[..|facts| - 1], day, ad, date) + if f.ad == ad && day(f.hour) == date then 1 else 0
  }

  predicate Seeded(s: State, ad: string, date: int) {
    date <= s.seedEnd && exists i :: 0 <= i < |s.rows| && s.rows[i].entity == ad && s.rows[i].date == date
  }

  predicate Covered(s: State, ad: string, date: int) { Seeded(s, ad, date) || Count(s.facts, s.day, ad, date) >= 24 }

  /** Whether an ad belongs to what the query asks about. */
  predicate InScope(s: State, q: Query, ad: string)
    requires Tree(s.entities)
  {
    IsAd(s, ad) && (q.entity == "" || q.level == Advertiser || Ancestor(s.entities, ad, q.level) == q.entity)
  }

  predicate AdCovered(s: State, q: Query, ad: string) { forall date | q.start <= date <= q.end :: Covered(s, ad, date) }

  predicate IsComplete(s: State, q: Query)
    requires Tree(s.entities)
  {
    && s.seedStart <= q.start && q.end <= s.latest
    && forall ad | ad in s.entities && InScope(s, q, ad) :: AdCovered(s, q, ad)
  }

  method CheckCoverage(s: State, q: Query) returns (complete: bool)
    requires Tree(s.entities)
    ensures complete == IsComplete(s, q)
  {
    var coverage := CollectCoverage(s);
    complete := s.seedStart <= q.start && q.end <= s.latest;
    ghost var inDates := complete;
    var left := s.entities.Keys;
    while left != {}
      invariant left <= s.entities.Keys
      invariant complete <==>
        inDates && forall ad | ad in s.entities && ad !in left && InScope(s, q, ad) :: AdCovered(s, q, ad)
    {
      var ad :| ad in left;
      left := left - {ad};
      if !InScope(s, q, ad) { continue; }
      ghost var before := complete;
      var date := q.start;
      while date <= q.end
        invariant q.start <= date
        invariant complete <==> before && forall d | q.start <= d < date && d <= q.end :: Covered(s, ad, d)
        decreases q.end - date
      {
        if (ad, date) !in coverage { complete := false; }
        date := date + 1;
      }
      assert complete <==> before && AdCovered(s, q, ad);
    }
  }

  method CollectCoverage(s: State) returns (coverage: set<(string, int)>)
    ensures forall ad, date :: (ad, date) in coverage <==> Covered(s, ad, date)
  {
    coverage := {};
    for i := 0 to |s.rows|
      invariant forall ad, date ::
        (ad, date) in coverage
        <==> date <= s.seedEnd && exists k :: 0 <= k < i && s.rows[k].entity == ad && s.rows[k].date == date
    {
      var row := s.rows[i];
      if row.date <= s.seedEnd { coverage := coverage + {(row.entity, row.date)}; }
    }
    var hours: map<(string, int), nat> := map[];
    for i := 0 to |s.facts|
      invariant forall ad, date :: Hours(hours, (ad, date)) == Count(s.facts[..i], s.day, ad, date)
      invariant forall ad, date ::
        (ad, date) in coverage <==> Seeded(s, ad, date) || Count(s.facts[..i], s.day, ad, date) >= 24
    {
      var f := s.facts[i];
      assert s.facts[..i + 1][..i] == s.facts[..i];
      var k := (f.ad, s.day(f.hour));
      hours := hours[k := Hours(hours, k) + 1];
      if hours[k] == 24 { coverage := coverage + {k}; }
    }
    assert s.facts[..|s.facts|] == s.facts;
  }

  function Hours(hours: map<(string, int), nat>, k: (string, int)): nat { if k in hours then hours[k] else 0 }

  method GroupRecords(s: State, q: Query, records: seq<Row>) returns (groups: Groups)
    requires Tree(s.entities)
    ensures Grouping(records, Keep(s, q), KeyAt(s, q.level), groups)
  {
    groups := map[];
    ghost var key, keep := KeyAt(s, q.level), Keep(s, q);
    for i := 0 to |records|
      invariant Grouping(records[..i], keep, key, groups)
    {
      var row := records[i];
      assert records[..i + 1] == records[..i] + [row];
      GroupingSnoc(records[..i], row, keep, key, groups);
      var id := Owner(s, row.entity, q.level);
      if q.start <= row.date <= q.end && (q.entity == "" || q.entity == id) {
        groups := groups[(id, row.date) := Add(Known(groups, (id, row.date)), row.metrics)];
      }
    }
    assert records[..|records|] == records;
  }

  /** Each group holds the sum of its rows, and there are groups for no other keys. */
  ghost predicate Grouping(rows: seq<Row>, keep: Row -> bool, key: Row -> (string, int), groups: Groups) {
    && (forall k :: Known(groups, k) == Sum(ADDITIVE, rows, Value, Class(keep, key, k)))
    && forall k :: k in groups <==> Present(rows, keep, key, k)
  }

  lemma GroupingSnoc(rows: seq<Row>, x: Row, keep: Row -> bool, key: Row -> (string, int), groups: Groups)
    requires Grouping(rows, keep, key, groups)
    ensures Grouping(rows + [x], keep, key,
                     if keep(x) then groups[key(x) := Add(Known(groups, key(x)), x.metrics)] else groups)
  {
    var more := if keep(x) then groups[key(x) := Add(Known(groups, key(x)), x.metrics)] else groups;
    PresentSnoc(rows, x, keep, key);
    forall k ensures Known(more, k) == Sum(ADDITIVE, rows + [x], Value, Class(keep, key, k)) {
      SumSnoc(ADDITIVE, rows, x, Value, Class(keep, key, k));
    }
  }

  lemma FlatRows(s: State, q: Query, records: seq<Row>, groups: Groups,
                 keys: seq<(string, int)>, rows: seq<Row>, totals: Metrics)
    requires Sound(s) && records == s.rows + Filter(FactRows(s), Inside(q))
    requires Grouping(records, Keep(s, q), KeyAt(s, q.level), groups)
    requires Flat(groups, keys, rows) && totals == Sum(ADDITIVE, rows, Value, All)
    ensures totals == Totals(s, q) && GroupRows(s, q, rows)
  {
    var keep, key := Keep(s, q), KeyAt(s, q.level);
    FlatTotal(records, keep, key, groups, keys, rows);
    CollectedSum(s, q, keep);
    FlatGroups(s, q, records, groups, keys, rows);
  }

  /** The rows add up to what was grouped. */
  lemma FlatTotal(records: seq<Row>, keep: Row -> bool, key: Row -> (string, int),
                  groups: Groups, keys: seq<(string, int)>, rows: seq<Row>)
    requires Grouping(records, keep, key, groups) && Flat(groups, keys, rows)
    ensures Sum(ADDITIVE, rows, Value, All) == Sum(ADDITIVE, records, Value, keep)
  {
    AddIsLawful();
    AllKeysKnown(records, keep, key, groups, keys, rows);
    GroupsMakeUpTotal(ADDITIVE, records, Value, keep, key, keys);
    PartsAreGroups(records, keep, key, keys);
    FlatParts(records, keep, key, groups, keys, rows);
    FlatSum(PartOf(records, keep, key), keys, rows, |keys|);
    assert keys[..|keys|] == keys && rows[..|rows|] == rows;
  }

  lemma AllKeysKnown(records: seq<Row>, keep: Row -> bool, key: Row -> (string, int),
                     groups: Groups, keys: seq<(string, int)>, rows: seq<Row>)
    requires Grouping(records, keep, key, groups) && Flat(groups, keys, rows)
    ensures forall r | r in records && keep(r) :: key(r) in keys
  {
    forall r | r in records && keep(r) ensures key(r) in keys {
      var i :| 0 <= i < |records| && records[i] == r;
      assert Present(records, keep, key, key(r));
    }
  }

  lemma FlatGroups(s: State, q: Query, records: seq<Row>, groups: Groups,
                   keys: seq<(string, int)>, rows: seq<Row>)
    requires Sound(s) && records == s.rows + Filter(FactRows(s), Inside(q))
    requires Grouping(records, Keep(s, q), KeyAt(s, q.level), groups) && Flat(groups, keys, rows)
    ensures GroupRows(s, q, rows)
  {
    var keep, key := Keep(s, q), KeyAt(s, q.level);
    CollectedPresent(s, q, keep, key);
    forall i | 0 <= i < |rows|
      ensures rows[i].metrics == Sum(ADDITIVE, Records(s), Value, Class(keep, key, (rows[i].entity, rows[i].date)))
    {
      CollectedSum(s, q, Class(keep, key, keys[i]));
      assert Known(groups, keys[i]) == rows[i].metrics;
    }
  }

  /** The rows are the groups, in the order of the keys. */
  ghost predicate Flat(groups: Groups, keys: seq<(string, int)>, rows: seq<Row>) {
    && |rows| == |keys| && NoRepeats(keys) && (forall k :: k in keys <==> k in groups)
    && forall i | 0 <= i < |rows| :: keys[i] in groups && rows[i] == Row(keys[i].0, keys[i].1, groups[keys[i]])
  }

  function PartOf(records: seq<Row>, keep: Row -> bool, key: Row -> (string, int)): ((string, int)) -> Metrics {
    (k: (string, int)) => Sum(ADDITIVE, records, Value, Class(keep, key, k))
  }

  function SumParts(part: ((string, int)) -> Metrics, keys: seq<(string, int)>): Metrics {
    if keys == [] then ZERO else Add(SumParts(part, keys[..|keys| - 1]), part(keys[|keys| - 1]))
  }

  lemma {:induction false} PartsAreGroups(records: seq<Row>, keep: Row -> bool, key: Row -> (string, int),
                                          keys: seq<(string, int)>)
    ensures SumParts(PartOf(records, keep, key), keys) == SumGroups(ADDITIVE, records, Value, keep, key, keys)
  {
    if keys != [] { PartsAreGroups(records, keep, key, keys[..|keys| - 1]); }
  }

  /** Every row is the part of its key. */
  predicate RowsAreParts(part: ((string, int)) -> Metrics, keys: seq<(string, int)>, rows: seq<Row>) {
    |rows| == |keys| && forall i | 0 <= i < |rows| :: rows[i].metrics == part(keys[i])
  }

  lemma FlatParts(records: seq<Row>, keep: Row -> bool, key: Row -> (string, int),
                  groups: Groups, keys: seq<(string, int)>, rows: seq<Row>)
    requires Grouping(records, keep, key, groups) && Flat(groups, keys, rows)
    ensures RowsAreParts(PartOf(records, keep, key), keys, rows)
  {
    forall i | 0 <= i < |rows| ensures rows[i].metrics == PartOf(records, keep, key)(keys[i]) {
      assert Known(groups, keys[i]) == rows[i].metrics;
    }
  }

  lemma {:induction false} FlatSum(part: ((string, int)) -> Metrics, keys: seq<(string, int)>, rows: seq<Row>, n: nat)
    requires RowsAreParts(part, keys, rows) && n <= |keys|
    ensures Sum(ADDITIVE, rows[..n], Value, All) == SumParts(part, keys[..n])
  {
    if n > 0 {
      FlatSum(part, keys, rows, n - 1);
      assert rows[..n] == rows[..n - 1] + [rows[n - 1]];
      SumSnoc(ADDITIVE, rows[..n - 1], rows[n - 1], Value, All);
      assert keys[..n][..n - 1] == keys[..n - 1];
    }
  }

  ghost predicate Present(rows: seq<Row>, keep: Row -> bool, key: Row -> (string, int), k: (string, int)) {
    exists i :: 0 <= i < |rows| && keep(rows[i]) && key(rows[i]) == k
  }

  lemma PresentSnoc(rows: seq<Row>, x: Row, keep: Row -> bool, key: Row -> (string, int))
    ensures forall k :: Present(rows + [x], keep, key, k) <==> Present(rows, keep, key, k) || (keep(x) && key(x) == k)
  {
    var all := rows + [x];
    assert all[|rows|] == x && forall i | 0 <= i < |rows| :: all[i] == rows[i];
    forall k ensures Present(all, keep, key, k) <==> Present(rows, keep, key, k) || (keep(x) && key(x) == k) {
      if i :| 0 <= i < |rows| && keep(rows[i]) && key(rows[i]) == k { assert all[i] == rows[i]; }
    }
  }

  /** The rows of a report: one for every entity and date that has a record in it, with the sum of
      that entity's records of that date. */
  ghost predicate GroupRows(s: State, q: Query, rows: seq<Row>)
    requires Tree(s.entities)
  {
    var keep, key := Keep(s, q), KeyAt(s, q.level);
    && (forall i, j | 0 <= i < j < |rows| :: (rows[i].entity, rows[i].date) != (rows[j].entity, rows[j].date))
    && (forall i | 0 <= i < |rows| ::
          rows[i].metrics == Sum(ADDITIVE, Records(s), Value, Class(keep, key, (rows[i].entity, rows[i].date))))
    && forall k ::
      Present(Records(s), keep, key, k) <==> exists i :: 0 <= i < |rows| && (rows[i].entity, rows[i].date) == k
  }

  function Inside(q: Query): Row -> bool { (r: Row) => q.start <= r.date <= q.end }

  method CollectRecords(s: State, q: Query) returns (records: seq<Row>)
    ensures records == s.rows + Filter(FactRows(s), Inside(q))
  {
    records := s.rows;
    for i := 0 to |s.facts|
      invariant records == s.rows + Filter(FactRows(s)[..i], Inside(q))
    {
      var row := FactRow(s, s.facts[i]);
      assert FactRows(s)[..i + 1][..i] == FactRows(s)[..i] && FactRows(s)[i] == row;
      if q.start <= row.date <= q.end { records := records + [row]; }
    }
    assert FactRows(s)[..|s.facts|] == FactRows(s);
  }

  /** Dropping facts outside the window first makes no difference to sums inside it. */
  lemma CollectedSum(s: State, q: Query, keep: Row -> bool)
    requires forall r: Row | keep(r) :: q.start <= r.date <= q.end
    ensures Sum(ADDITIVE, s.rows + Filter(FactRows(s), Inside(q)), Value, keep)
      == Sum(ADDITIVE, Records(s), Value, keep)
  {
    AddIsLawful();
    SumAppendFilter(ADDITIVE, s.rows, FactRows(s), Value, Inside(q), keep);
  }

  lemma CollectedPresent(s: State, q: Query, keep: Row -> bool, key: Row -> (string, int))
    requires forall r: Row | keep(r) :: q.start <= r.date <= q.end
    ensures forall k ::
      Present(s.rows + Filter(FactRows(s), Inside(q)), keep, key, k) <==> Present(Records(s), keep, key, k)
  {
    var a, b := s.rows + Filter(FactRows(s), Inside(q)), Records(s);
    FilterMembers(FactRows(s), Inside(q));
    forall k ensures Present(a, keep, key, k) <==> Present(b, keep, key, k) {
      PresentIn(a, b, keep, key, k);
      PresentIn(b, a, keep, key, k);
    }
  }

  lemma PresentIn(a: seq<Row>, b: seq<Row>, keep: Row -> bool, key: Row -> (string, int), k: (string, int))
    requires forall r | r in a && keep(r) :: r in b
    ensures Present(a, keep, key, k) ==> Present(b, keep, key, k)
  {
    if Present(a, keep, key, k) {
      var i :| 0 <= i < |a| && keep(a[i]) && key(a[i]) == k;
      assert a[i] in a;
      var j :| 0 <= j < |b| && b[j] == a[i];
      assert keep(b[j]);
    }
  }

  method FlattenGroups(groups: Groups)
    returns (rows: seq<Row>, totals: Metrics, ghost keys: seq<(string, int)>)
    ensures Flat(groups, keys, rows) && totals == Sum(ADDITIVE, rows, Value, All)
  {
    rows, totals, keys := [], ZERO, [];
    var left := groups.Keys;
    while left != {}
      invariant left <= groups.Keys && |rows| == |keys| && NoRepeats(keys)
      invariant forall k :: k in keys <==> k in groups && k !in left
      invariant forall i | 0 <= i < |rows| :: keys[i] in groups && rows[i] == Row(keys[i].0, keys[i].1, groups[keys[i]])
      invariant totals == Sum(ADDITIVE, rows, Value, All)
    {
      var k :| k in left;
      var row := Row(k.0, k.1, groups[k]);
      SumSnoc(ADDITIVE, rows, row, Value, All);
      rows, keys := rows + [row], keys + [k];
      totals := Add(totals, row.metrics);
      left := left - {k};
    }
  }
}
