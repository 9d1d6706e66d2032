/** What the model remembers of an ad group's learning phase (`learningFor` in
    internal/sandbox/causal_model.go), and when it can be stored at all: JSON has no infinity. */
module Learning {
  import opened Decimals
  import opened Budgets
  import L = Ledgers

  /** `Infinite` budgets are +Inf in the source. */
  datatype State = State(fingerprint: string, budget: Limit, bid: real, clicks: int, conversions: real, progress: real)

  datatype Config = Config(clickThreshold: real, conversionThreshold: real, majorChange: real)

  datatype Group = Group(fingerprint: string, budget: L.Budget, bid: real)

  const NEW := State("", Finite(0.0), 0.0, 0, 0.0, 0.0)

  predicate Sound(c: Config) { c.clickThreshold > 0.0 && c.conversionThreshold > 0.0 && c.majorChange > 0.0 }

  /** The daily budget; a lifetime budget sets no daily one. */
  function DailyBudget(b: L.Budget): Limit { match b case Daily(cap) => Finite(cap) case _ => Infinite }

  function MajorRatio(before: Limit, after: Limit): real {
    if before.Infinite? || before.amount <= 0.0 || after.Infinite? then (if before == after then 0.0 else 1.0)
    else Abs(after.amount - before.amount) / before.amount
  }

  function Abs(x: real): real { if x < 0.0 then -x else x }

  /** Conversion of a float to an integer, towards zero. */
  function Whole(x: real): int { if x >= 0.0 then x.Floor else -((-x).Floor) }

  function MinInt(a: int, b: int): int { if a < b then a else b }

  function Progress(c: Config, clicks: int, conversions: real): real
    requires Sound(c)
  {
    Clamp(0.5 * clicks as real / c.clickThreshold + 0.5 * conversions / c.conversionThreshold, 0.0, 1.0)
  }

  predicate Changed(c: Config, s: State, g: Group) {
    s.fingerprint != g.fingerprint || MajorRatio(s.budget, DailyBudget(g.budget)) >= c.majorChange
    || MajorRatio(Finite(s.bid), Finite(g.bid)) >= c.majorChange
  }

  function Learn(c: Config, s: State, g: Group): State
    requires Sound(c)
  {
    var t :=
      if s.fingerprint == "" then s.(fingerprint := g.fingerprint)
      else if Changed(c, s, g) then
        s.(fingerprint := g.fingerprint,
           clicks := MinInt(Whole(s.clicks as real * 0.35), Whole(c.clickThreshold * 0.45)),
           conversions := Min(s.conversions * 0.35, c.conversionThreshold * 0.45))
      else s;
    t.(budget := DailyBudget(g.budget), bid := g.bid, progress := Progress(c, t.clicks, t.conversions))
  }

  /** Looking again without a material change changes nothing. */
  lemma LearnTwice(c: Config, s: State, g: Group)
    requires Sound(c) && g.fingerprint != ""
    ensures Learn(c, Learn(c, s, g), g) == Learn(c, s, g)
  {}

  /** A material change costs part of what was learned and never adds to it. */
  lemma ChangeForgets(c: Config, s: State, g: Group)
    requires Sound(c) && s.clicks >= 0 && s.conversions >= 0.0
    ensures var t := Learn(c, s, g);
      && 0 <= t.clicks <= s.clicks && 0.0 <= t.conversions <= s.conversions && 0.0 <= t.progress <= 1.0
      && (s.fingerprint != "" && Changed(c, s, g) ==> t.progress <= 0.45)
  {
    var t := Learn(c, s, g);
    if s.fingerprint != "" && Changed(c, s, g) {
      assert t.clicks as real <= c.clickThreshold * 0.45;
      AtMostShare(t.clicks as real, c.clickThreshold);
      AtMostShare(t.conversions, c.conversionThreshold);
    }
  }

  /** A budget or a bid that moved by the given share of what it was. */
  predicate MovedBy(share: real, before: Limit, after: Limit) {
    if before.Infinite? || before.amount <= 0.0 || after.Infinite? then before != after && 1.0 >= share
    else share * before.amount <= after.amount - before.amount || share * before.amount <= before.amount - after.amount
  }

  lemma RatioMoved(share: real, before: Limit, after: Limit)
    requires share > 0.0
    ensures MajorRatio(before, after) >= share <==> MovedBy(share, before, after)
  {
    if before.Finite? && before.amount > 0.0 && after.Finite? {
      QuotientAtLeast(Abs(after.amount - before.amount), before.amount, share);
    }
  }

  lemma QuotientAtLeast(x: real, d: real, share: real)
    requires d > 0.0
    ensures x / d >= share <==> x >= share * d
  {
    var q := x / d;
    assert q * d == x;
    if q < share { Larger(share, q, d); }
    if q > share { Larger(q, share, d); }
  }

  /** Learning starts over, in part, exactly when the target changed or the daily budget or the bid
      moved by the configured share. */
  lemma ChangedIff(c: Config, s: State, g: Group)
    requires Sound(c)
    ensures Changed(c, s, g)
      <==> || s.fingerprint != g.fingerprint || MovedBy(c.majorChange, s.budget, DailyBudget(g.budget))
           || MovedBy(c.majorChange, Finite(s.bid), Finite(g.bid))
  {
    RatioMoved(c.majorChange, s.budget, DailyBudget(g.budget));
    RatioMoved(c.majorChange, Finite(s.bid), Finite(g.bid));
  }

  /** Without such a change nothing is forgotten; with it 35 percent of what was learned stays, up to
      a cap, clicks rounded down. What was looked at is remembered. */
  lemma LearnKeeps(c: Config, s: State, g: Group)
    requires Sound(c) && s.clicks >= 0 && s.conversions >= 0.0
    ensures var t := Learn(c, s, g);
      && t.fingerprint == g.fingerprint && t.bid == g.bid && t.budget == DailyBudget(g.budget)
      && (s.fingerprint == "" || !Changed(c, s, g) ==> t.clicks == s.clicks && t.conversions == s.conversions)
      && (s.fingerprint != "" && Changed(c, s, g) ==>
            && (t.clicks as real <= s.clicks as real * 0.35 < t.clicks as real + 1.0
                || t.clicks as real <= c.clickThreshold * 0.45 < t.clicks as real + 1.0)
            && (t.conversions == s.conversions * 0.35 || t.conversions == c.conversionThreshold * 0.45))
  {}

  /** Progress is complete once both thresholds are reached, and grows with clicks and conversions. */
  lemma ProgressGrows(c: Config, clicks: int, conversions: real, more: int, sales: real)
    requires Sound(c) && 0 <= clicks <= more && 0.0 <= conversions <= sales
    ensures 0.0 <= Progress(c, clicks, conversions) <= Progress(c, more, sales) <= 1.0
    ensures clicks as real >= c.clickThreshold && conversions >= c.conversionThreshold ==>
      Progress(c, clicks, conversions) == 1.0
    ensures clicks == 0 && conversions == 0.0 ==> Progress(c, clicks, conversions) == 0.0
  {
    HalfGrows(clicks as real, more as real, c.clickThreshold);
    HalfGrows(conversions, sales, c.conversionThreshold);
  }

  lemma HalfGrows(x: real, y: real, threshold: real)
    requires threshold > 0.0 && 0.0 <= x <= y
    ensures 0.0 <= 0.5 * x / threshold <= 0.5 * y / threshold
    ensures x >= threshold ==> 0.5 * x / threshold >= 0.5
    ensures x == 0.0 ==> 0.5 * x / threshold == 0.0
  {
    QuotientAtLeast(0.5 * x, threshold, 0.0);
    QuotientAtLeast(0.5 * y, threshold, 0.5 * x / threshold);
    QuotientAtLeast(0.5 * x, threshold, 0.5);
  }

  lemma AtMostShare(x: real, threshold: real)
    requires threshold > 0.0 && x <= threshold * 0.45
    ensures 0.5 * x / threshold <= 0.225
  {
    var q := x / threshold;
    assert q * threshold == x;
    if q > 0.45 { Larger(q, 0.45, threshold); }
    assert 0.5 * x / threshold == 0.5 * q;
  }

  lemma Larger(a: real, b: real, t: real)
    requires a > b && t > 0.0
    ensures a * t > b * t
  {}

  // ----- an hour's learning, and storing it -----

  function Known(m: map<string, State>, id: string): State { if id in m then m[id] else NEW }

  /** What an hour leaves in the model. */
  predicate Learned(c: Config, groups: map<string, Group>, learning: map<string, State>, r: map<string, State>)
    requires Sound(c)
  {
    && r.Keys == learning.Keys + groups.Keys
    && (forall id | id in groups :: r[id] == Learn(c, Known(learning, id), groups[id]))
    && forall id | id in learning && id !in groups :: r[id] == learning[id]
  }

  /** Every ad group with an ad is looked at each hour. */
  method LearnAll(c: Config, groups: map<string, Group>, learning: map<string, State>) returns (r: map<string, State>)
    requires Sound(c)
    ensures Learned(c, groups, learning, r)
  {
    r := learning;
    var left := groups.Keys;
    while left != {}
      invariant left <= groups.Keys && r.Keys == learning.Keys + (groups.Keys - left)
      invariant forall id | id in groups && id !in left :: r[id] == Learn(c, Known(learning, id), groups[id])
      invariant forall id | id in r && (id !in groups || id in left) :: id in learning && r[id] == learning[id]
    {
      var id :| id in left;
      r := r[id := Learn(c, Known(learning, id), groups[id])];
      left := left - {id};
    }
  }

  predicate Encodable(learning: map<string, State>) { forall id | id in learning :: learning[id].budget.Finite? }

  /** After an hour the model can be stored exactly when every ad group with an ad has a daily
      budget: one without a budget, or with a lifetime budget, makes saving the advance fail. */
  lemma SavableIff(c: Config, groups: map<string, Group>, learning: map<string, State>, r: map<string, State>)
    requires Sound(c) && learning.Keys <= groups.Keys && Learned(c, groups, learning, r)
    ensures Encodable(r) <==> forall id | id in groups :: groups[id].budget.Daily?
  {}
}
