/** What an hour brings an ad, and what makes a stored fact valid (internal/sandbox/causal_model.go,
    joint_delivery.go and simulation.go). Random draws are parameters; instants are minutes. */
module Facts {
  import opened Decimals

  // ----- random outcomes -----

  /** What the generator would give: single draws, and one draw of a normal distribution. */
  datatype Dice = Dice(draws: nat -> real, normal: real)

  /** How many of the first `n` draws lie below `p`. */
  function Hits(draws: nat -> real, p: real, n: nat): (k: nat)
    ensures k <= n
  {
    if n == 0 then 0 else Hits(draws, p, n - 1) + if draws(n - 1) < p then 1 else 0
  }

  /** What a number of successes has to be: certain at the ends, a count of draws for few trials, and
      the nearest whole number to a draw within range for many. */
  predicate Success(n: int, p: real, dice: Dice, out: int) {
    if n <= 0 || p <= 0.0 then out == 0
    else if p >= 1.0 then out == n
    else if n <= 1024 then out == Hits(dice.draws, p, n)
    else
      && 0 <= out <= n
      && (dice.normal <= 0.0 ==> out == 0) && (dice.normal >= n as real ==> out == n)
      && (0.0 < dice.normal < n as real ==> out as real - 0.5 <= dice.normal <= out as real + 0.5)
  }

  /** `binomial`: successes among `n` trials, counted one by one for few trials, and one rounded
      normal draw for many. */
  method Binomial(n: int, p: real, dice: Dice) returns (out: int)
    ensures Success(n, p, dice, out) && 0 <= out && (n <= 0 ==> out == 0) && (n > 0 ==> out <= n)
  {
    var q := Clamp(p, 0.0, 1.0);
    if n <= 0 || q == 0.0 { return 0; }
    if q == 1.0 { return n; }
    if n <= 1024 {
      out := 0;
      for i := 0 to n
        invariant out == Hits(dice.draws, q, i)
      {
        if dice.draws(i) < q { out := out + 1; }
      }
      return;
    }
    var x := Clamp(dice.normal, 0.0, n as real);
    RoundWithin(x, n);
    return Round(x);
  }

  lemma RoundWithin(x: real, n: int)
    requires 0.0 <= x <= n as real
    ensures 0 <= Round(x) <= n && Round(x) as real - 0.5 <= x <= Round(x) as real + 0.5
    ensures x == n as real ==> Round(x) == n
  {}

  /** The value of the first `n` conversions, and of those among them that are tracked. */
  function Worth(values: nat -> real, n: nat): real { if n == 0 then 0.0 else Worth(values, n - 1) + values(n - 1) }

  function TrackedWorth(values: nat -> real, coins: nat -> real, coverage: real, n: nat): real {
    if n == 0 then 0.0
    else TrackedWorth(values, coins, coverage, n - 1) + if coins(n - 1) < coverage then values(n - 1) else 0.0
  }

  /** `orderValues`: every conversion has a value; the tracked ones are reported. */
  method OrderValues(conversions: int, values: nat -> real, coins: nat -> real, coverage: real)
    returns (trueRevenue: real, reported: int, reportedRevenue: real)
    requires forall i :: values(i) > 0.0
    ensures var n := if conversions > 0 then conversions else 0;
      && trueRevenue == Worth(values, n) && reported == Hits(coins, coverage, n)
      && reportedRevenue == TrackedWorth(values, coins, coverage, n)
    ensures 0 <= reported && (conversions <= 0 ==> reported == 0) && (conversions > 0 ==> reported <= conversions)
    ensures 0.0 <= reportedRevenue <= trueRevenue
    ensures reported == 0 ==> reportedRevenue == 0.0
    ensures reported == conversions ==> reportedRevenue == trueRevenue
  {
    trueRevenue, reported, reportedRevenue := 0.0, 0, 0.0;
    for i := 0 to if conversions > 0 then conversions else 0
      invariant 0 <= reported <= i && 0.0 <= reportedRevenue <= trueRevenue
      invariant trueRevenue == Worth(values, i) && reported == Hits(coins, coverage, i)
      invariant reportedRevenue == TrackedWorth(values, coins, coverage, i)
      invariant reported == 0 ==> reportedRevenue == 0.0
      invariant reported == i ==> reportedRevenue == trueRevenue
    {
      var value := values(i);
      trueRevenue := trueRevenue + value;
      if coins(i) < coverage {
        reported := reported + 1;
        reportedRevenue := reportedRevenue + value;
      }
    }
  }

  // ----- one candidate -----

  /** How far people went: from an impression to a click to the landing page, and through the video. */
  datatype Funnel = Funnel(impressions: int, clicks: int, landing: int, views2: int, views6: int, complete: int)

  /** Conversions are attributed to a click or to a view. */
  datatype Outcome = Outcome(
    spend: real, funnel: Funnel, byClick: int, byView: int, conversions: int, reported: int,
    trueRevenue: real, reportedRevenue: real)

  /** Every stage is reached by no more people than the stage before it. */
  predicate Narrows(f: Funnel) {
    0 <= f.landing <= f.clicks <= f.impressions && 0 <= f.complete <= f.views6 <= f.views2 <= f.impressions
  }

  predicate Possible(o: Outcome) {
    && o.spend >= 0.0 && Narrows(o.funnel) && 0 <= o.reported <= o.conversions <= o.funnel.impressions
    && o.conversions == o.byClick + o.byView && 0 <= o.byClick <= o.funnel.clicks
    && 0 <= o.byView <= o.funnel.impressions - o.funnel.clicks
    && 0.0 <= o.reportedRevenue <= o.trueRevenue
  }

  /** The chances of one candidate at each stage. */
  datatype Rates = Rates(
    click: real, buy: real, viewBuy: real, landing: real, view2: real, view6: real, complete: real, coverage: real)

  /** What the generator gives for one candidate. */
  datatype Luck = Luck(clicks: Dice, buys: Dice, viewBuys: Dice, landing: Dice, view2: Dice, view6: Dice,
                       complete: Dice, values: nat -> real, coins: nat -> real)

  ghost predicate Fair(l: Luck) { forall i :: l.values(i) > 0.0 }

  /** `materializeCandidateOutcomes`: an impression converts through its click or through its view,
      never both, so there are no more conversions than impressions. */
  /** Every stage is drawn from the one before it, with its own chance and its own draws. */
  predicate FunnelDrawn(f: Funnel, rates: Rates, l: Luck) {
    && Success(f.impressions, rates.click, l.clicks, f.clicks) && Success(f.clicks, rates.landing, l.landing, f.landing)
    && Success(f.impressions, rates.view2, l.view2, f.views2) && Success(f.views2, rates.view6, l.view6, f.views6)
    && Success(f.views6, rates.complete, l.complete, f.complete)
  }

  /** Clicks convert, and so do impressions without a click; each conversion has its value. */
  predicate SalesDrawn(o: Outcome, rates: Rates, l: Luck)
    requires o.conversions >= 0
  {
    && Success(o.funnel.clicks, rates.buy, l.buys, o.byClick)
    && Success(o.funnel.impressions - o.funnel.clicks, rates.viewBuy, l.viewBuys, o.byView)
    && o.trueRevenue == Worth(l.values, o.conversions) && o.reported == Hits(l.coins, rates.coverage, o.conversions)
    && o.reportedRevenue == TrackedWorth(l.values, l.coins, rates.coverage, o.conversions)
  }

  method DrawFunnel(impressions: nat, rates: Rates, l: Luck) returns (f: Funnel)
    ensures f.impressions == impressions && Narrows(f) && FunnelDrawn(f, rates, l)
  {
    var clicks := Binomial(impressions, rates.click, l.clicks);
    var landing := Binomial(clicks, rates.landing, l.landing);
    var views2 := Binomial(impressions, rates.view2, l.view2);
    var views6 := Binomial(views2, rates.view6, l.view6);
    var complete := Binomial(views6, rates.complete, l.complete);
    f := Funnel(impressions, clicks, landing, views2, views6, complete);
  }

  /** `materializeCandidateOutcomes`: an impression converts through its click or through its view,
      never both, so there are no more conversions than impressions. */
  method Materialize(impressions: nat, cost: real, rates: Rates, l: Luck) returns (o: Outcome)
    requires cost >= 0.0 && Fair(l)
    ensures Possible(o) && o.funnel.impressions == impressions && o.spend == impressions as real * cost
    ensures FunnelDrawn(o.funnel, rates, l) && SalesDrawn(o, rates, l)
    ensures impressions == 0 ==> o == Outcome(0.0, Funnel(0, 0, 0, 0, 0, 0), 0, 0, 0, 0, 0.0, 0.0)
  {
    var f := DrawFunnel(impressions, rates, l);
    var byClick := Binomial(f.clicks, rates.buy, l.buys);
    var byView := Binomial(f.impressions - f.clicks, rates.viewBuy, l.viewBuys);
    var conversions := byClick + byView;
    var trueRevenue, reported, reportedRevenue := OrderValues(conversions, l.values, l.coins, rates.coverage);
    var spend := impressions as real * cost;
    SpendNonNegative(impressions, cost);
    o := Outcome(spend, f, byClick, byView, conversions, reported, trueRevenue, reportedRevenue);
    if impressions == 0 { NothingHappens(o, rates, l); }
  }

  lemma SpendNonNegative(n: nat, cost: real)
    requires cost >= 0.0
    ensures n as real * cost >= 0.0 && (n == 0 ==> n as real * cost == 0.0)
  {}

  lemma NothingHappens(o: Outcome, rates: Rates, l: Luck)
    requires Possible(o) && SalesDrawn(o, rates, l) && o.funnel.impressions == 0 && o.spend == 0.0
    ensures o == Outcome(0.0, Funnel(0, 0, 0, 0, 0, 0), 0, 0, 0, 0, 0.0, 0.0)
  {}

  // ----- one fact -----

  datatype Figures = Figures(spend: real, funnel: Funnel, conversions: int, revenue: real)
  datatype Fact = Fact(
    ad: string, hour: int, available: int, reported: Figures, actual: Figures, byClick: int, byView: int)

  const NOTHING := Figures(0.0, Funnel(0, 0, 0, 0, 0, 0), 0, 0.0)

  function Joined(f: Funnel, g: Funnel): Funnel {
    Funnel(f.impressions + g.impressions, f.clicks + g.clicks, f.landing + g.landing, f.views2 + g.views2,
           f.views6 + g.views6, f.complete + g.complete)
  }

  function Reported(m: Figures, o: Outcome): Figures {
    Figures(m.spend + o.spend, Joined(m.funnel, o.funnel), m.conversions + o.reported, m.revenue + o.reportedRevenue)
  }

  function Actual(m: Figures, o: Outcome): Figures {
    Figures(m.spend + o.spend, Joined(m.funnel, o.funnel), m.conversions + o.conversions, m.revenue + o.trueRevenue)
  }

  function ReportedAll(os: seq<Outcome>): Figures {
    if os == [] then NOTHING else Reported(ReportedAll(os[..|os| - 1]), os[|os| - 1])
  }

  function ActualAll(os: seq<Outcome>): Figures {
    if os == [] then NOTHING else Actual(ActualAll(os[..|os| - 1]), os[|os| - 1])
  }

  function ByClick(os: seq<Outcome>): int { if os == [] then 0 else ByClick(os[..|os| - 1]) + os[|os| - 1].byClick }

  function ByView(os: seq<Outcome>): int { if os == [] then 0 else ByView(os[..|os| - 1]) + os[|os| - 1].byView }

  function Round2(x: real): real { Round(x * 100.0) as real / 100.0 }

  function Finished(m: Figures): Figures { m.(spend := Truncate4(m.spend), revenue := Round2(m.revenue)) }

  /** The fact of an ad for an hour, from the outcomes of its candidates. */
  function FactOf(ad: string, hour: int, delay: nat, os: seq<Outcome>): Fact {
    Fact(ad, hour, hour + 60 * delay, Finished(ReportedAll(os)), Finished(ActualAll(os)), ByClick(os), ByView(os))
  }

  predicate Counts(m: Figures) {
    && m.spend >= 0.0 && m.funnel.impressions >= 0 && 0 <= m.funnel.clicks <= m.funnel.impressions
    && m.conversions >= 0 && m.revenue >= 0.0
  }

  /** `validHourFact`: what a restart demands of a stored fact of an existing ad. */
  predicate Valid(f: Fact, start: int, clock: int) {
    && start < f.hour <= clock && f.hour % 60 == 0 && Counts(f.reported)
    && f.available >= f.hour && Counts(f.actual)
    && f.reported.funnel.impressions == f.actual.funnel.impressions
    && f.reported.funnel.clicks == f.actual.funnel.clicks
    && f.reported.spend == f.actual.spend && f.reported.conversions <= f.actual.conversions
    && f.reported.revenue <= f.actual.revenue
  }

  /** Reported and true figures of one funnel, the reported ones no higher. */
  predicate Consistent(r: Figures, a: Figures) {
    && Counts(r) && Counts(a) && r.spend == a.spend && r.funnel == a.funnel && Narrows(a.funnel)
    && r.conversions <= a.conversions <= a.funnel.impressions && r.revenue <= a.revenue
  }

  lemma {:induction false} SumsConsistent(os: seq<Outcome>)
    requires forall i | 0 <= i < |os| :: Possible(os[i])
    ensures Consistent(ReportedAll(os), ActualAll(os))
  {
    if os != [] { SumsConsistent(os[..|os| - 1]); }
  }

  lemma RoundMonotone(x: real, y: real)
    requires 0.0 <= x <= y
    ensures 0.0 <= Round2(x) <= Round2(y)
  {
    var a, b := x * 100.0, y * 100.0;
    assert 0.0 <= a <= b;
    assert 0 <= Round(a) <= Round(b);
  }

  lemma TruncateNonNegative(x: real)
    requires x >= 0.0
    ensures Truncate4(x) >= 0.0
  {
    assert (x * 10000.0).Floor >= 0;
  }

  /** The figures of a generated fact, rounded separately, are consistent; and the fact of a past
      hour is valid after a restart exactly when its hour is a whole one. */
  lemma GeneratedFactValidIff(ad: string, hour: int, delay: nat, os: seq<Outcome>, start: int, clock: int)
    requires start < hour <= clock && forall i | 0 <= i < |os| :: Possible(os[i])
    ensures var f := FactOf(ad, hour, delay, os);
      Consistent(f.reported, f.actual) && (Valid(f, start, clock) <==> hour % 60 == 0)
  {
    var r, a := ReportedAll(os), ActualAll(os);
    SumsConsistent(os);
    RoundMonotone(r.revenue, a.revenue);
    TruncateNonNegative(r.spend);
  }

  // ----- what a fact says of its candidates -----

  function Plus(m: Figures, n: Figures): Figures {
    Figures(m.spend + n.spend, Joined(m.funnel, n.funnel), m.conversions + n.conversions, m.revenue + n.revenue)
  }

  lemma PlusOne(m: Figures, n: Figures, o: Outcome)
    ensures Reported(Plus(m, n), o) == Plus(m, Reported(n, o)) && Actual(Plus(m, n), o) == Plus(m, Actual(n, o))
  {}

  lemma PlusNothing(m: Figures)
    ensures Plus(m, NOTHING) == m
  {}

  /** Figures of candidates add up, however the candidates are divided. */
  lemma {:induction false} ReportedAddUp(os: seq<Outcome>, more: seq<Outcome>)
    ensures ReportedAll(os + more) == Plus(ReportedAll(os), ReportedAll(more))
  {
    if more == [] {
      assert os + more == os;
      PlusNothing(ReportedAll(os));
    } else {
      var before, o := more[..|more| - 1], more[|more| - 1];
      ReportedAddUp(os, before);
      assert (os + more)[..|os + more| - 1] == os + before;
      PlusOne(ReportedAll(os), ReportedAll(before), o);
    }
  }

  lemma {:induction false} ActualAddUp(os: seq<Outcome>, more: seq<Outcome>)
    ensures ActualAll(os + more) == Plus(ActualAll(os), ActualAll(more))
  {
    if more == [] {
      assert os + more == os;
      PlusNothing(ActualAll(os));
    } else {
      var before, o := more[..|more| - 1], more[|more| - 1];
      ActualAddUp(os, before);
      assert (os + more)[..|os + more| - 1] == os + before;
      PlusOne(ActualAll(os), ActualAll(before), o);
    }
  }

  /** One candidate's figures are its spend and funnel, with its reported or its true sales. */
  lemma FiguresOfOne(o: Outcome)
    ensures ReportedAll([o]) == Figures(o.spend, o.funnel, o.reported, o.reportedRevenue)
    ensures ActualAll([o]) == Figures(o.spend, o.funnel, o.conversions, o.trueRevenue)
  {
    assert [o][..0] == [];
  }

  lemma {:induction false} AttributionAddsUp(os: seq<Outcome>)
    requires forall i | 0 <= i < |os| :: Possible(os[i])
    ensures ByClick(os) + ByView(os) == ActualAll(os).conversions
    ensures 0 <= ByClick(os) <= ActualAll(os).funnel.clicks
    ensures 0 <= ByView(os) <= ActualAll(os).funnel.impressions - ActualAll(os).funnel.clicks
  {
    if os != [] { AttributionAddsUp(os[..|os| - 1]); }
  }

  /** `m` is `n` with its money rounded: spend down to ten-thousandths, revenue to the nearest cent. */
  predicate RoundedFrom(m: Figures, n: Figures) {
    && m == n.(spend := m.spend, revenue := m.revenue) && m.spend <= n.spend < m.spend + 0.0001
    && m.revenue - 0.005 <= n.revenue <= m.revenue + 0.005
  }

  lemma RoundsToCents(x: real)
    requires x >= 0.0
    ensures Round2(x) - 0.005 <= x <= Round2(x) + 0.005
  {
    var a := x * 100.0;
    assert Round(a) as real - 0.5 <= a <= Round(a) as real + 0.5;
  }

  lemma TruncatesDown(x: real)
    requires x >= 0.0
    ensures Truncate4(x) <= x < Truncate4(x) + 0.0001
  {
    var n := (x * 10000.0).Floor;
    assert n as real <= x * 10000.0 < n as real + 1.0;
  }

  /** A fact's figures are its candidates', rounded, and every true conversion is attributed to a
      click or to a view. It becomes visible when the delay is over. */
  lemma FactTells(ad: string, hour: int, delay: nat, os: seq<Outcome>)
    requires forall i | 0 <= i < |os| :: Possible(os[i])
    ensures var f := FactOf(ad, hour, delay, os);
      && f.ad == ad && f.hour == hour && f.available == hour + 60 * delay
      && RoundedFrom(f.reported, ReportedAll(os)) && RoundedFrom(f.actual, ActualAll(os))
      && f.byClick + f.byView == f.actual.conversions && 0 <= f.byClick <= f.actual.funnel.clicks
  {
    SumsConsistent(os);
    AttributionAddsUp(os);
    var r, a := ReportedAll(os), ActualAll(os);
    RoundsToCents(r.revenue);
    RoundsToCents(a.revenue);
    TruncatesDown(r.spend);
  }
}
