/** What holds of reports for every hierarchy, record set, window and clock. */
module ReportTheorems {
  import opened Sums
  import opened Metrics
  import opened Reports

  // ----- roll-up -----

  /** A query is answered exactly when it has at most 93 days in order and asks for nobody, for the
      account by its id, or for an entity there is at the level it has. */
  lemma AnsweredIff(s: State, q: Query)
    ensures GoodQuery(q) && Found(s, q)
      <==> && q.start <= q.end && q.end - q.start < 93
           && (q.entity != "" ==>
                 if q.level == Advertiser then q.entity == s.account
                 else exists id :: id in s.entities && id == q.entity && s.entities[id].level == q.level)
  {}

  /** A record of an ad belongs to the ad, its ad group, that group's campaign and the account. */
  lemma OwnersOfAd(s: State, ad: string)
    requires Tree(s.entities) && IsAd(s, ad)
    ensures var group := s.entities[ad].parent; var campaign := s.entities[group].parent;
      && Owner(s, ad, Ad) == ad && Owner(s, ad, AdGroup) == group
      && Owner(s, ad, Campaign) == campaign && Owner(s, ad, Advertiser) == s.account
  {
    var group := s.entities[ad].parent;
    assert Ancestor(s.entities, ad, AdGroup) == Ancestor(s.entities, group, AdGroup) == group;
    assert Ancestor(s.entities, ad, Campaign) == Ancestor(s.entities, group, Campaign);
    assert Ancestor(s.entities, group, Campaign) == Ancestor(s.entities, s.entities[group].parent, Campaign);
  }

  /** The same window has the same totals at every level. */
  lemma LevelsAgree(s: State, q: Query, level: Level)
    requires Tree(s.entities) && q.entity == ""
    ensures Totals(s, q) == Totals(s, q.(level := level))
  {
    SumSame(ADDITIVE, Records(s), Value, Keep(s, q), Keep(s, q.(level := level)));
  }

  function OwnerOf(s: State, level: Level): Row -> string
    requires Tree(s.entities)
  {
    (r: Row) => Owner(s, r.entity, level)
  }

  /** The reports of several entities of a level, added up. */
  function TotalsOf(s: State, q: Query, ids: seq<string>): Metrics
    requires Tree(s.entities)
  {
    if ids == [] then ZERO else Add(TotalsOf(s, q, ids[..|ids| - 1]), Totals(s, q.(entity := ids[|ids| - 1])))
  }

  lemma {:induction false} TotalsAreGroups(s: State, q: Query, ids: seq<string>)
    requires Tree(s.entities) && q.entity == "" && "" !in ids
    ensures TotalsOf(s, q, ids) == SumGroups(ADDITIVE, Records(s), Value, Keep(s, q), OwnerOf(s, q.level), ids)
  {
    if ids != [] {
      var n := |ids| - 1;
      TotalsAreGroups(s, q, ids[..n]);
      assert ids[n] in ids;
      SumSame(ADDITIVE, Records(s), Value, Keep(s, q.(entity := ids[n])),
              Class(Keep(s, q), OwnerOf(s, q.level), ids[n]));
    }
  }

  /** The totals of a level are the totals of its entities, each counted once, added up. */
  lemma EntitiesMakeUpTotal(s: State, q: Query, ids: seq<string>)
    requires Tree(s.entities) && q.entity == "" && "" !in ids && NoRepeats(ids)
    requires forall r | r in Records(s) :: Owner(s, r.entity, q.level) in ids
    ensures TotalsOf(s, q, ids) == Totals(s, q)
  {
    AddIsLawful();
    TotalsAreGroups(s, q, ids);
    GroupsMakeUpTotal(ADDITIVE, Records(s), Value, Keep(s, q), OwnerOf(s, q.level), ids);
  }

  /** Adjacent windows add up to the window they make. */
  lemma WindowsMakeUpTotal(s: State, q: Query, middle: int)
    requires Tree(s.entities) && q.start <= middle <= q.end
    ensures Totals(s, q) == Add(Totals(s, q.(end := middle)), Totals(s, q.(start := middle + 1)))
  {
    AddIsLawful();
    SumSplit(ADDITIVE, Records(s), Value, Keep(s, q), Keep(s, q.(end := middle)), Keep(s, q.(start := middle + 1)));
  }

  // ----- time only adds -----

  /** A later state of the same backend: the clock has moved on, perhaps across midnight, and
      facts have been appended. */
  ghost predicate Later(s: State, t: State) {
    && t == s.(clock := t.clock, latest := t.latest, facts := t.facts) && s.clock <= t.clock
    && s.facts <= t.facts
  }

  predicate Counted(facts: seq<Fact>) { forall f | f in facts :: Leq(ZERO, f.metrics) }

  lemma VisibleGrows(f: Fact, now: int, later: int)
    requires now <= later && Leq(ZERO, f.metrics)
    ensures Leq(Visible(f, now), Visible(f, later)) && Leq(ZERO, Visible(f, later))
  {}

  lemma SelfLeq(m: Metrics)
    ensures Leq(m, m)
  {}

  /** A record of the earlier state is there later, for the same ad and date, with no less. */
  lemma RecordGrows(s: State, t: State, q: Query, i: nat)
    requires Tree(s.entities) && Later(s, t) && Counted(t.facts) && i < |Records(s)|
    ensures var grown := t.rows + FactRows(t)[..|s.facts|];
      && |grown| == |Records(s)| && Keep(s, q)(Records(s)[i]) == Keep(s, q)(grown[i])
      && AtMost(Value(Records(s)[i]), Value(grown[i]))
  {
    if i < |s.rows| {
      SelfLeq(s.rows[i].metrics);
    } else {
      assert t.facts[i - |s.rows|] in t.facts;
      VisibleGrows(t.facts[i - |s.rows|], s.clock, t.clock);
    }
  }

  lemma RecordIsPositive(s: State, t: State, r: Row)
    requires Later(s, t) && Counted(t.facts) && r in FactRows(t)[|s.facts|..]
    ensures AtMost(ADDITIVE.zero, Value(r))
  {
    var i :| |s.facts| <= i < |t.facts| && FactRows(t)[i] == r;
    assert t.facts[i] in t.facts;
    VisibleGrows(t.facts[i], t.clock, t.clock);
  }

  /** For a fixed window no total ever decreases as the clock advances: what is still to be
      attributed only fills in. */
  lemma TotalsNeverDecrease(s: State, t: State, q: Query)
    requires Tree(s.entities) && Later(s, t) && Counted(t.facts)
    ensures Leq(Totals(s, q), Totals(t, q))
  {
    AddIsLawful();
    AddIsOrdered();
    var n := |s.facts|;
    var grown, more := t.rows + FactRows(t)[..n], FactRows(t)[n..];
    assert Records(t) == grown + more;
    forall i | 0 <= i < |Records(s)|
      ensures Keep(s, q)(Records(s)[i]) == Keep(s, q)(grown[i])
      ensures AtMost(Value(Records(s)[i]), Value(grown[i]))
    {
      RecordGrows(s, t, q, i);
    }
    forall r | r in more ensures AtMost(ADDITIVE.zero, Value(r)) { RecordIsPositive(s, t, r); }
    SumGrows(ADDITIVE, AtMost, Records(s), grown, more, Value, Keep(s, q));
    SumSame(ADDITIVE, Records(t), Value, Keep(s, q), Keep(t, q));
  }

  // ----- the second aggregator -----

  datatype Span = Today | Last3Days | Last7Days

  function Days(span: Span): int { match span case Today => 1 case Last3Days => 3 case Last7Days => 7 }

  predicate Matches(s: State, target: Entity, id: string)
    requires Tree(s.entities) && target.level != Advertiser
  {
    id in s.entities && Rank(s.entities[id].level) <= Rank(target.level)
    && Ancestor(s.entities, id, target.level) == target.id
  }

  function RuleKeep(s: State, target: Entity, start: int, end: int): Row -> bool
    requires Tree(s.entities) && target.level != Advertiser
  {
    (r: Row) => start <= r.date <= end && Matches(s, target, r.entity)
  }

  /** The facts an evaluation at `at` looks at, as it sees them. */
  function PastRows(facts: seq<Fact>, day: int -> int, at: int): seq<Row> {
    if facts == [] then []
    else
      var f := facts[|facts| - 1];
      PastRows(facts[..|facts| - 1], day, at) + if f.hour <= at then [Row(f.ad, day(f.hour), Visible(f, at))] else []
  }

  function RuleTotals(s: State, target: Entity, span: Span, at: int): Metrics
    requires Tree(s.entities) && target.level != Advertiser
  {
    Sum(ADDITIVE, s.rows + PastRows(s.facts, s.day, at), Value,
        RuleKeep(s, target, s.day(at) + 1 - Days(span), s.day(at)))
  }

  method RowMetrics(s: State, target: Entity, start: int, end: int) returns (total: Metrics)
    requires Tree(s.entities) && target.level != Advertiser
    ensures total == Sum(ADDITIVE, s.rows, Value, RuleKeep(s, target, start, end))
  {
    ghost var keep := RuleKeep(s, target, start, end);
    total := ZERO;
    for i := 0 to |s.rows|
      invariant total == Sum(ADDITIVE, s.rows[..i], Value, keep)
    {
      var row := s.rows[i];
      SumSnoc(ADDITIVE, s.rows[..i], row, Value, keep);
      assert s.rows[..i + 1] == s.rows[..i] + [row];
      if row.date >= start && row.date <= end && Matches(s, target, row.entity) { total := Add(total, row.metrics); }
    }
    assert s.rows[..|s.rows|] == s.rows;
  }

  method RuleMetrics(s: State, target: Entity, span: Span, at: int) returns (total: Metrics)
    requires Tree(s.entities) && target.level != Advertiser
    ensures total == RuleTotals(s, target, span, at)
  {
    var end := s.day(at);
    var start := end + 1 - Days(span);
    ghost var keep := RuleKeep(s, target, start, end);
    total := RowMetrics(s, target, start, end);
    assert s.rows + PastRows(s.facts[..0], s.day, at) == s.rows;
    for i := 0 to |s.facts|
      invariant total == Sum(ADDITIVE, s.rows + PastRows(s.facts[..i], s.day, at), Value, keep)
    {
      var f := s.facts[i];
      var day := s.day(f.hour);
      PastSnoc(s, i, at, keep);
      if !(day < start || day > end || f.hour > at || !Matches(s, target, f.ad)) {
        total := Add(total, Visible(f, at));
      }
    }
    assert s.facts[..|s.facts|] == s.facts;
  }

  lemma PastSnoc(s: State, i: nat, at: int, keep: Row -> bool)
    requires i < |s.facts|
    ensures var f := s.facts[i]; var row := Row(f.ad, s.day(f.hour), Visible(f, at));
      var before := Sum(ADDITIVE, s.rows + PastRows(s.facts[..i], s.day, at), Value, keep);
      Sum(ADDITIVE, s.rows + PastRows(s.facts[..i + 1], s.day, at), Value, keep)
      == if f.hour <= at && keep(row) then Add(before, row.metrics) else before
  {
    var f := s.facts[i];
    var row := Row(f.ad, s.day(f.hour), Visible(f, at));
    var before := s.rows + PastRows(s.facts[..i], s.day, at);
    assert s.facts[..i + 1][..i] == s.facts[..i];
    assert s.rows + PastRows(s.facts[..i + 1], s.day, at) == if f.hour <= at then before + [row] else before;
    SumSnoc(ADDITIVE, before, row, Value, keep);
  }

  lemma {:induction false} PastIsKnown(s: State, facts: seq<Fact>, at: int)
    requires forall f | f in facts :: f.hour <= at && Visible(f, at) == Visible(f, s.clock)
    ensures PastRows(facts, s.day, at) == seq(|facts|, i requires 0 <= i < |facts| => FactRow(s, facts[i]))
  {
    if facts != [] {
      var before, f := facts[..|facts| - 1], facts[|facts| - 1];
      assert f in facts;
      PastIsKnown(s, before, at);
      assert seq(|facts|, i requires 0 <= i < |facts| => FactRow(s, facts[i]))
        == seq(|before|, i requires 0 <= i < |before| => FactRow(s, before[i])) + [FactRow(s, f)];
    }
  }

  /** Rules act on what reports show: at the clock, and at the half hour after it, the metrics of
      a rule's target are the totals a report gives for that entity and window. Facts become
      available in whole hours from the clock. */
  lemma RulesSeeWhatReportsSay(s: State, target: Entity, span: Span, at: int)
    requires Sound(s) && target.id in s.entities && s.entities[target.id] == target
    requires s.clock <= at < s.clock + 60 && forall f | f in s.facts :: (f.available - s.clock) % 60 == 0
    ensures var start := match span
                         case Today => s.day(at)
                         case Last3Days => s.day(at) - 2
                         case Last7Days => s.day(at) - 6;
      RuleTotals(s, target, span, at) == Totals(s, Query(target.level, target.id, start, s.day(at)))
  {
    var q := Query(target.level, target.id, s.day(at) + 1 - Days(span), s.day(at));
    AllAreKnown(s, at);
    forall r | r in Records(s) ensures RuleKeep(s, target, q.start, q.end)(r) == Keep(s, q)(r) { RecordsAreAds(s, r); }
    SumSame(ADDITIVE, Records(s), Value, RuleKeep(s, target, q.start, q.end), Keep(s, q));
  }

  lemma AllAreKnown(s: State, at: int)
    requires Sound(s)
    requires s.clock <= at < s.clock + 60 && forall f | f in s.facts :: (f.available - s.clock) % 60 == 0
    ensures PastRows(s.facts, s.day, at) == FactRows(s)
  {
    forall f | f in s.facts ensures f.hour <= at && Visible(f, at) == Visible(f, s.clock) {
      NoHourBetween(f.available, s.clock, at);
    }
    PastIsKnown(s, s.facts, at);
  }

  lemma NoHourBetween(available: int, clock: int, at: int)
    requires clock <= at < clock + 60 && (available - clock) % 60 == 0
    ensures at >= available <==> clock >= available
  {}

  lemma RecordsAreAds(s: State, r: Row)
    requires Sound(s) && r in Records(s)
    ensures IsAd(s, r.entity)
  {
    if r !in s.rows {
      var i :| 0 <= i < |s.facts| && FactRows(s)[i] == r;
      assert s.facts[i] in s.facts;
    }
  }

  // ----- what is not yet attributed -----

  /** The same metrics, but for conversions and revenue. */
  predicate SameDelivery(m: Metrics, n: Metrics) {
    n == m.(conversions := n.conversions, revenue := n.revenue)
  }

  /** The same facts, but for the conversions and revenue of those not attributed by `now`. */
  predicate SameUntil(fs: seq<Fact>, gs: seq<Fact>, now: int) {
    |fs| == |gs| && forall i | 0 <= i < |fs| ::
      && gs[i] == fs[i].(metrics := gs[i].metrics)
      && (if fs[i].available <= now then gs[i].metrics == fs[i].metrics else SameDelivery(fs[i].metrics, gs[i].metrics))
  }

  lemma {:induction false} PastSame(fs: seq<Fact>, gs: seq<Fact>, day: int -> int, at: int)
    requires SameUntil(fs, gs, at)
    ensures PastRows(fs, day, at) == PastRows(gs, day, at)
  {
    if fs != [] { PastSame(fs[..|fs| - 1], gs[..|fs| - 1], day, at); }
  }

  /** Conversions and revenue that are not attributed yet show nowhere: neither in a report at the
      clock, nor to a rule at its evaluation. */
  lemma NothingLeaks(s: State, t: State, q: Query, target: Entity, span: Span, at: int)
    requires Tree(s.entities) && target.level != Advertiser && t == s.(facts := t.facts)
    ensures SameUntil(s.facts, t.facts, s.clock) ==> Totals(s, q) == Totals(t, q)
    ensures SameUntil(s.facts, t.facts, at) ==> RuleTotals(s, target, span, at) == RuleTotals(t, target, span, at)
  {
    if SameUntil(s.facts, t.facts, s.clock) {
      assert FactRows(s) == FactRows(t);
      SumSame(ADDITIVE, Records(s), Value, Keep(s, q), Keep(t, q));
    }
    if SameUntil(s.facts, t.facts, at) { RuleSame(s, t, target, span, at); }
  }

  lemma RuleSame(s: State, t: State, target: Entity, span: Span, at: int)
    requires Tree(s.entities) && target.level != Advertiser && t == s.(facts := t.facts)
    requires SameUntil(s.facts, t.facts, at)
    ensures RuleTotals(s, target, span, at) == RuleTotals(t, target, span, at)
  {
    var start, end := s.day(at) + 1 - Days(span), s.day(at);
    var rows := s.rows + PastRows(s.facts, s.day, at);
    PastSame(s.facts, t.facts, s.day, at);
    SumSame(ADDITIVE, rows, Value, RuleKeep(s, target, start, end), RuleKeep(t, target, start, end));
  }

  /** A fact as it will be reported in the end. */
  function OwnRow(day: int -> int, f: Fact): Row { Row(f.ad, day(f.hour), f.metrics) }

  function OwnRows(facts: seq<Fact>, day: int -> int): (r: seq<Row>)
    ensures |r| == |facts|
  {
    seq(|facts|, i requires 0 <= i < |facts| => OwnRow(day, facts[i]))
  }

  /** Once everything a query keeps is attributed, its totals are the sum of the rows' and the
      facts' own metrics. */
  lemma AttributedIsShown(s: State, q: Query)
    requires Tree(s.entities)
    requires forall f | f in s.facts && Keep(s, q)(OwnRow(s.day, f)) :: f.available <= s.clock
    ensures Totals(s, q) == Sum(ADDITIVE, s.rows + OwnRows(s.facts, s.day), Value, Keep(s, q))
  {
    var shown, own := Records(s), s.rows + OwnRows(s.facts, s.day);
    forall i | 0 <= i < |shown|
      ensures Keep(s, q)(shown[i]) == Keep(s, q)(own[i]) && (Keep(s, q)(shown[i]) ==> Value(shown[i]) == Value(own[i]))
    {
      if i >= |s.rows| { assert s.facts[i - |s.rows|] in s.facts; }
    }
    SumKept(ADDITIVE, shown, own, Value, Keep(s, q));
  }

  const DeliversSame: (Metrics, Metrics) -> bool := (m: Metrics, n: Metrics) => SameDelivery(m, n)

  lemma DeliveryIsOrdered()
    ensures Ordered(ADDITIVE, DeliversSame)
  {
    forall a: Metrics, b: Metrics, c: Metrics, d: Metrics {:trigger Compare(a, b, c, d)}
      | Compare(a, b, c, d) && DeliversSame(a, c) && DeliversSame(b, d)
      ensures DeliversSame(ADDITIVE.add(a, b), ADDITIVE.add(c, d))
    {
      AddSameDelivery(a, b, c, d);
    }
  }

  lemma AddSameDelivery(a: Metrics, b: Metrics, c: Metrics, d: Metrics)
    requires SameDelivery(a, c) && SameDelivery(b, d)
    ensures SameDelivery(Add(a, b), Add(c, d))
  {}

  /** Spend, impressions, clicks, landings and views are reported in full at once. */
  lemma DeliveryIsShownAtOnce(s: State, q: Query)
    requires Tree(s.entities)
    ensures SameDelivery(Totals(s, q), Sum(ADDITIVE, s.rows + OwnRows(s.facts, s.day), Value, Keep(s, q)))
  {
    var shown, own := Records(s), s.rows + OwnRows(s.facts, s.day);
    DeliveryIsOrdered();
    forall i | 0 <= i < |shown|
      ensures Keep(s, q)(shown[i]) == Keep(s, q)(own[i]) && DeliversSame(Value(shown[i]), Value(own[i])) {}
    SumMonotone(ADDITIVE, DeliversSame, shown, own, Value, Keep(s, q));
  }

  // ----- when a generated day is complete -----

  function HoursOf(facts: seq<Fact>, day: int -> int, ad: string, date: int): set<int> {
    set f | f in facts && f.ad == ad && day(f.hour) == date :: f.hour
  }

  /** No ad has two facts of an hour. */
  predicate OncePerHour(facts: seq<Fact>) {
    forall i, j | 0 <= i < j < |facts| :: (facts[i].ad, facts[i].hour) != (facts[j].ad, facts[j].hour)
  }

  lemma {:induction false} CountIsHours(facts: seq<Fact>, day: int -> int, ad: string, date: int)
    requires OncePerHour(facts)
    ensures Count(facts, day, ad, date) == |HoursOf(facts, day, ad, date)|
  {
    if facts != [] {
      var before, f := facts[..|facts| - 1], facts[|facts| - 1];
      assert facts == before + [f];
      CountIsHours(before, day, ad, date);
      HoursSnoc(before, f, day, ad, date);
      if f.ad == ad && day(f.hour) == date { NewHour(facts, day, ad, date); }
    }
  }

  lemma HoursSnoc(facts: seq<Fact>, f: Fact, day: int -> int, ad: string, date: int)
    ensures HoursOf(facts + [f], day, ad, date)
      == HoursOf(facts, day, ad, date) + if f.ad == ad && day(f.hour) == date then {f.hour} else {}
  {}

  lemma NewHour(facts: seq<Fact>, day: int -> int, ad: string, date: int)
    requires OncePerHour(facts) && facts != [] && facts[|facts| - 1].ad == ad
    ensures facts[|facts| - 1].hour !in HoursOf(facts[..|facts| - 1], day, ad, date)
  {
    var n := |facts| - 1;
    forall g | g in facts[..n] && g.ad == ad ensures g.hour != facts[n].hour {
      var i :| 0 <= i < n && facts[i] == g;
      assert (facts[i].ad, facts[i].hour) != (facts[n].ad, facts[n].hour);
    }
  }

  lemma {:induction false} SubsetSize<T>(a: set<T>, b: set<T>)
    requires a <= b
    ensures |a| <= |b|
  {
    if a != {} {
      var x :| x in a;
      SubsetSize(a - {x}, b - {x});
    }
  }

  /** A date of the seed is covered by a row of the ad, unless it happens to have 24 facts. */
  lemma SeededIff(s: State, ad: string, date: int)
    requires date <= s.seedEnd && |HoursOf(s.facts, s.day, ad, date)| < 24 && OncePerHour(s.facts)
    ensures Covered(s, ad, date) <==> exists r :: r in s.rows && r.entity == ad && r.date == date
  {
    CountIsHours(s.facts, s.day, ad, date);
    if r :| r in s.rows && r.entity == ad && r.date == date {
      var i :| 0 <= i < |s.rows| && s.rows[i] == r;
      assert Seeded(s, ad, date);
    }
  }

  /** Once all hours of a generated day have their fact for an ad, the day is covered exactly when
      it has at least 24 hours. */
  lemma CoveredIff(s: State, ad: string, date: int, hours: set<int>)
    requires OncePerHour(s.facts) && s.seedEnd < date
    requires HoursOf(s.facts, s.day, ad, date) == hours
    ensures Covered(s, ad, date) <==> |hours| >= 24
  {
    CountIsHours(s.facts, s.day, ad, date);
  }

  /** So a report over generated dates is complete exactly when each of them has at least 24
      hours: `hours` gives the hours of a date, all of which have been generated. */
  lemma GeneratedCompleteIff(s: State, q: Query, hours: int -> set<int>, ad: string)
    requires Tree(s.entities) && OncePerHour(s.facts) && ad in s.entities && InScope(s, q, ad)
    requires s.seedStart <= q.start && q.end <= s.latest && s.seedEnd < q.start
    requires forall a, date | a in s.entities && InScope(s, q, a) && q.start <= date <= q.end ::
      HoursOf(s.facts, s.day, a, date) == hours(date)
    ensures IsComplete(s, q) <==> forall date | q.start <= date <= q.end :: |hours(date)| >= 24
  {
    forall a, date | a in s.entities && InScope(s, q, a) && q.start <= date <= q.end
      ensures Covered(s, a, date) <==> |hours(date)| >= 24
    {
      CoveredIff(s, a, date, hours(date));
    }
    assert AdCovered(s, q, ad) <==> forall date | q.start <= date <= q.end :: |hours(date)| >= 24;
  }

  /** On a day of at most 23 hours, such as the one on which clocks go forward, an ad can never
      have the 24 facts that make a generated day complete: any report of an ad over such a day
      stays incomplete for ever. */
  lemma ShortDayNeverComplete(s: State, q: Query, ad: string, date: int, hours: set<int>)
    requires Sound(s) && OncePerHour(s.facts) && ad in s.entities && InScope(s, q, ad)
    requires q.start <= date <= q.end && s.seedEnd < date
    requires |hours| <= 23 && forall f | f in s.facts && s.day(f.hour) == date :: f.hour in hours
    ensures !IsComplete(s, q)
  {
    CountIsHours(s.facts, s.day, ad, date);
    SubsetSize(HoursOf(s.facts, s.day, ad, date), hours);
    assert !Covered(s, ad, date);
    assert !AdCovered(s, q, ad);
  }
}
