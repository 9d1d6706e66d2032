/** No budget is left idle: whoever is not served in full has met a limit that is used up. */
module BudgetUse {
  import opened Decimals
  import opened Budgets

  function GroupUnit(group: Id): Candidate -> real { (c: Candidate) => if c.group == group then c.cost else 0.0 }

  function CampaignUnit(campaign: Id): Candidate -> real {
    (c: Candidate) => if c.campaign == campaign then c.cost else 0.0
  }

  function Unit(): Candidate -> real { (c: Candidate) => c.cost }

  /** Less than one impression of each candidate is left of the limit; limits below the smallest
      amount the allocation tells from nothing count as used. */
  predicate UsedUp(limit: Limit, spent: real, units: real) {
    limit.Finite? && (limit.amount < TINY || limit.amount <= spent || limit.amount < spent + units)
  }

  /** An ad group belongs to one campaign. */
  predicate Nested(cs: seq<Candidate>) {
    forall c, d | c in cs && d in cs && c.group == d.group :: c.campaign == d.campaign
  }

  // ----- sums from below -----

  /** `f` of what is served misses the share `k` of `g` by less than a unit `u`. */
  ghost predicate AtLeast(rs: seq<Candidate>, f: Candidate -> real, u: Candidate -> real, k: real,
                          cs: seq<Candidate>, g: Candidate -> real)
  {
    |rs| == |cs| && forall i | 0 <= i < |cs| :: Near(k * g(cs[i]), f(rs[i]), u(cs[i]))
  }

  predicate Near(share: real, served: real, unit: real) {
    unit >= 0.0 && share <= served + unit && (unit > 0.0 ==> share < served + unit)
  }

  predicate NearShare(k: real, wish: real, served: real, unit: real) { Near(k * wish, served, unit) }

  lemma NearSum(k: real, x: real, y: real, x1: real, y1: real, u: real, u1: real)
    requires NearShare(k, y, x, u) && NearShare(k, y1, x1, u1)
    ensures NearShare(k, y + y1, x + x1, u + u1)
  {
    assert k * (y + y1) == k * y + k * y1;
  }

  lemma {:induction false} TotalAtLeast(rs: seq<Candidate>, f: Candidate -> real, u: Candidate -> real, k: real,
                                        cs: seq<Candidate>, g: Candidate -> real)
    requires AtLeast(rs, f, u, k, cs, g)
    ensures NearShare(k, Total(cs, g), Total(rs, f), Total(cs, u))
  {
    if cs != [] {
      var n := |cs| - 1;
      TotalAtLeast(rs[..n], f, u, k, cs[..n], g);
      NearSum(k, Total(rs[..n], f), Total(cs[..n], g), f(rs[n]), g(cs[n]), Total(cs[..n], u), u(cs[n]));
    }
  }

  // ----- one limit, one candidate -----

  /** A limit lets everything through, or exactly as much as it has. */
  lemma LargestShare(limit: Limit, desired: real)
    requires limit.Finite? ==> limit.amount >= 0.0
    ensures Scale(limit, desired) == 1.0
      || (limit.Finite? && (limit.amount < TINY || Scale(limit, desired) * desired == limit.amount))
  {
    if limit.Finite? { QuotientExact(limit.amount, desired, Max(desired, TINY)); }
  }

  lemma QuotientExact(r: real, desired: real, m: real)
    requires r >= 0.0 && m > 0.0 && m >= desired && (m == desired || m == TINY)
    ensures Min(1.0, r / m) == 1.0 || r < TINY || Min(1.0, r / m) * desired == r
  {
    var q := r / m;
    assert q * m == r;
    if q < 1.0 && r >= TINY {
      Monotone(m, q, 1.0);
      assert m == desired;
    }
  }

  lemma CutAbove(n: int, scale: real, cost: real)
    requires cost >= 0.0
    ensures Near(scale * (n as real * cost), Cut(n, scale) as real * cost, cost)
  {
    var m, x := Cut(n, scale) as real, n as real * scale;
    Monotone(cost, x, m + 1.0);
    assert scale * (n as real * cost) == cost * x;
    assert cost * (m + 1.0) == m * cost + cost;
    if cost > 0.0 { StrictlyMonotone(cost, x, m + 1.0); }
  }

  lemma StrictlyMonotone(k: real, a: real, b: real)
    requires k > 0.0 && a < b
    ensures k * a < k * b
  {}

  lemma TermAbove(c: Candidate, r: Candidate, scale: real, share: real)
    requires c.cost >= 0.0 && r == c.(final := Cut(c.desired, scale)) && share == scale * Wanted(c)
    ensures Near(share, Spend(r), c.cost)
  {
    CutAbove(c.desired, scale, c.cost);
    SameProduct(scale, Wanted(c), scale, c.desired as real * c.cost);
  }

  // ----- groups and campaigns -----

  lemma GroupTermAbove(c: Candidate, gs: Id -> real, ks: Id -> real, group: Id)
    requires c.cost >= 0.0 && (c.group == group ==> ks(c.campaign) == 1.0)
    ensures Near(gs(group) * GroupWish(group)(c), GroupCost(group)(CutOne(c, gs, ks)), GroupUnit(group)(c))
  {
    if c.group == group {
      var scale := gs(c.group) * ks(c.campaign);
      assert scale == gs(group);
      SameProduct(gs(group), GroupWish(group)(c), scale, Wanted(c));
      TermAbove(c, CutOne(c, gs, ks), scale, gs(group) * GroupWish(group)(c));
    } else {
      assert GroupWish(group)(c) == 0.0;
    }
  }

  lemma CampaignTermAbove(c: Candidate, gs: Id -> real, ks: Id -> real, campaign: Id)
    requires c.cost >= 0.0
    ensures Near(ks(campaign) * CampaignWish(gs, campaign)(c), CampaignCost(campaign)(CutOne(c, gs, ks)),
                 CampaignUnit(campaign)(c))
  {
    if c.campaign == campaign {
      var scale := gs(c.group) * ks(c.campaign);
      SameProduct(ks(campaign), CampaignWish(gs, campaign)(c), ks(c.campaign), Wanted(c) * gs(c.group));
      Associate(gs(c.group), ks(c.campaign), Wanted(c));
      TermAbove(c, CutOne(c, gs, ks), scale, scale * Wanted(c));
    } else {
      assert CampaignWish(gs, campaign)(c) == 0.0;
    }
  }

  lemma GroupTermsAbove(cs: seq<Candidate>, gs: Id -> real, ks: Id -> real, group: Id)
    requires Priced(cs) && forall c | c in cs && c.group == group :: ks(c.campaign) == 1.0
    ensures AtLeast(BudgetCut(cs, gs, ks), GroupCost(group), GroupUnit(group), gs(group), cs, GroupWish(group))
  {
    forall i | 0 <= i < |cs|
      ensures Near(gs(group) * GroupWish(group)(cs[i]), GroupCost(group)(BudgetCut(cs, gs, ks)[i]),
                   GroupUnit(group)(cs[i]))
    {
      assert cs[i] in cs;
      GroupTermAbove(cs[i], gs, ks, group);
    }
  }

  lemma CampaignTermsAbove(cs: seq<Candidate>, gs: Id -> real, ks: Id -> real, campaign: Id)
    requires Priced(cs)
    ensures AtLeast(BudgetCut(cs, gs, ks), CampaignCost(campaign), CampaignUnit(campaign), ks(campaign),
                    cs, CampaignWish(gs, campaign))
  {
    forall i | 0 <= i < |cs|
      ensures Near(ks(campaign) * CampaignWish(gs, campaign)(cs[i]),
                   CampaignCost(campaign)(BudgetCut(cs, gs, ks)[i]), CampaignUnit(campaign)(cs[i]))
    {
      assert cs[i] in cs;
      CampaignTermAbove(cs[i], gs, ks, campaign);
    }
  }

  /** A limit that lets only a share through is met by a sum that is near that share. */
  lemma Meets(limit: Limit, scale: real, wish: real, spent: real, units: real)
    requires limit.Finite? ==> limit.amount >= 0.0
    requires scale == Scale(limit, wish) && scale != 1.0 && NearShare(scale, wish, spent, units)
    ensures UsedUp(limit, spent, units)
  {
    LargestShare(limit, wish);
    SameProduct(scale, wish, Scale(limit, wish), wish);
  }

  /** `wish` is a name for the total, which then is one factor instead of a recursive sum. */
  lemma SumMeets(rs: seq<Candidate>, f: Candidate -> real, u: Candidate -> real, k: real,
                 cs: seq<Candidate>, g: Candidate -> real, wish: real, limit: Limit)
    requires AtLeast(rs, f, u, k, cs, g) && wish == Total(cs, g)
    requires (limit.Finite? ==> limit.amount >= 0.0) && k == Scale(limit, wish) && k != 1.0
    ensures UsedUp(limit, Total(rs, f), Total(cs, u))
  {
    TotalAtLeast(rs, f, u, k, cs, g);
    Meets(limit, k, wish, Total(rs, f), Total(cs, u));
  }

  lemma GroupIsUsed(cs: seq<Candidate>, limit: Id -> Limit, group: Id)
    requires Priced(cs) && Sane(limit) && GroupScales(cs, limit)(group) != 1.0
    requires forall c | c in cs && c.group == group ::
      CampaignScales(cs, GroupScales(cs, limit), limit)(c.campaign) == 1.0
    ensures UsedUp(limit(group), Total(Scaled(cs, limit), GroupCost(group)), Total(cs, GroupUnit(group)))
  {
    var gs := GroupScales(cs, limit);
    GroupTermsAbove(cs, gs, CampaignScales(cs, gs, limit), group);
    SumMeets(Scaled(cs, limit), GroupCost(group), GroupUnit(group), gs(group), cs, GroupWish(group),
             Total(cs, GroupWish(group)), limit(group));
  }

  lemma CampaignIsUsed(cs: seq<Candidate>, limit: Id -> Limit, campaign: Id)
    requires Priced(cs) && Sane(limit) && CampaignScales(cs, GroupScales(cs, limit), limit)(campaign) != 1.0
    ensures UsedUp(limit(campaign), Total(Scaled(cs, limit), CampaignCost(campaign)), Total(cs, CampaignUnit(campaign)))
  {
    var gs := GroupScales(cs, limit);
    var ks := CampaignScales(cs, gs, limit);
    CampaignTermsAbove(cs, gs, ks, campaign);
    SumMeets(Scaled(cs, limit), CampaignCost(campaign), CampaignUnit(campaign), ks(campaign), cs,
             CampaignWish(gs, campaign), Total(cs, CampaignWish(gs, campaign)), limit(campaign));
  }

  // ----- the balance -----

  lemma BalanceShare(available: real, desired: real)
    requires desired > available && desired >= TINY
    ensures PrepaidScale(available, desired) * desired >= available
  {
    var r := Max(0.0, available);
    var q := r / desired;
    assert q * desired == r;
  }

  lemma {:induction false} SameUnits(rs: seq<Candidate>, cs: seq<Candidate>)
    requires |rs| == |cs| && forall i | 0 <= i < |cs| :: rs[i].cost == cs[i].cost
    ensures Total(rs, Unit()) == Total(cs, Unit())
  {
    if cs != [] { SameUnits(rs[..|cs| - 1], cs[..|cs| - 1]); }
  }

  lemma CutTermAbove(c: Candidate, scale: real)
    requires c.cost >= 0.0
    ensures Near(scale * Cost()(c), Cost()(c.(final := Cut(c.final, scale))), Unit()(c))
  {
    CutAbove(c.final, scale, c.cost);
    SameProduct(scale, Cost()(c), scale, c.final as real * c.cost);
  }

  lemma CutTermsAbove(cs: seq<Candidate>, scale: real)
    requires Served(cs)
    ensures AtLeast(CutAll(cs, scale), Cost(), Unit(), scale, cs, Cost())
  {
    forall i | 0 <= i < |cs| ensures Near(scale * Cost()(cs[i]), Cost()(CutAll(cs, scale)[i]), Unit()(cs[i])) {
      assert cs[i] in cs;
      CutTermAbove(cs[i], scale);
    }
  }

  lemma BalanceMeets(cs: seq<Candidate>, available: real, k: real, desired: real)
    requires Served(cs) && desired == Total(cs, Cost()) && k * desired >= available
    ensures UsedUp(Finite(available), Total(CutAll(cs, k), Cost()), Total(cs, Unit()))
  {
    CutTermsAbove(cs, k);
    TotalAtLeast(CutAll(cs, k), Cost(), Unit(), k, cs, Cost());
    Covers(k, desired, available, Total(CutAll(cs, k), Cost()), Total(cs, Unit()));
  }

  lemma Covers(k: real, desired: real, available: real, spent: real, units: real)
    requires k * desired >= available && NearShare(k, desired, spent, units)
    ensures UsedUp(Finite(available), spent, units)
  {}

  lemma BalanceIsUsed(cs: seq<Candidate>, available: real)
    requires Served(cs) && Total(cs, Cost()) > available
    ensures UsedUp(Finite(available), Total(PrepaidCut(cs, available), Cost()), Total(cs, Unit()))
  {
    var d := Total(cs, Cost());
    if d >= TINY {
      BalanceShare(available, d);
      BalanceMeets(cs, available, PrepaidScale(available, d), d);
    }
  }

  // ----- what it means -----

  /** Whoever is not served every impression it won is held back by a limit that is used up, but for
      less than one impression of each candidate under it: its group's, its campaign's, or the
      balance. */
  lemma NoIdleBudget(cs: seq<Candidate>, limit: Id -> Limit, available: real, i: nat)
    requires Priced(cs) && Sane(limit) && Nested(cs) && i < |cs|
    ensures var rs := Allocated(cs, limit, available); var c := cs[i];
      || rs[i].final == c.desired
      || UsedUp(limit(c.group), Total(rs, GroupCost(c.group)), Total(cs, GroupUnit(c.group)))
      || UsedUp(limit(c.campaign), Total(rs, CampaignCost(c.campaign)), Total(cs, CampaignUnit(c.campaign)))
      || UsedUp(Finite(available), Total(rs, Cost()), Total(cs, Unit()))
  {
    if Total(Scaled(cs, limit), Cost()) > available {
      BalanceOfHourIsUsed(cs, limit, available);
    } else {
      InBalance(Scaled(cs, limit), available);
      ScaledOrUsed(cs, limit, i);
    }
  }

  lemma BalanceOfHourIsUsed(cs: seq<Candidate>, limit: Id -> Limit, available: real)
    requires Priced(cs) && Sane(limit) && Total(Scaled(cs, limit), Cost()) > available
    ensures UsedUp(Finite(available), Total(Allocated(cs, limit, available), Cost()), Total(cs, Unit()))
  {
    AllocationLowers(cs, limit, available);
    BalanceIsUsed(Scaled(cs, limit), available);
    SameUnits(Scaled(cs, limit), cs);
  }

  lemma ScaledOrUsed(cs: seq<Candidate>, limit: Id -> Limit, i: nat)
    requires Priced(cs) && Sane(limit) && Nested(cs) && i < |cs|
    ensures var rs := Scaled(cs, limit); var c := cs[i];
      || rs[i].final == c.desired
      || UsedUp(limit(c.group), Total(rs, GroupCost(c.group)), Total(cs, GroupUnit(c.group)))
      || UsedUp(limit(c.campaign), Total(rs, CampaignCost(c.campaign)), Total(cs, CampaignUnit(c.campaign)))
  {
    var c, gs := cs[i], GroupScales(cs, limit);
    var ks := CampaignScales(cs, gs, limit);
    if ks(c.campaign) != 1.0 {
      CampaignIsUsed(cs, limit, c.campaign);
    } else if gs(c.group) != 1.0 {
      assert c in cs;
      GroupIsUsed(cs, limit, c.group);
    } else {
      FullCut(c, gs, ks);
    }
  }

  // ----- fairness -----

  /** `x` is no larger a share of `a` than `y` is of `b`, but for `slack` of the latter. */
  predicate NoMore(x: int, a: int, y: int, b: int, slack: real) {
    x as real * b as real <= a as real * (y as real + slack)
  }

  lemma CrossBound(a: real, b: real, t: real, x: real, y: real, slack: real)
    requires a >= 0.0 && b >= 0.0 && x <= a * t && b * t <= y + slack
    ensures x * b <= a * (y + slack)
  {
    Monotone(b, x, a * t);
    Monotone(a, b * t, y + slack);
    assert b * (a * t) == a * (b * t);
  }

  lemma ShareTwice(n: int, s: real, z: real)
    requires n >= 0 && s >= 0.0 && 0.0 <= z <= 1.0
    ensures Cut(Cut(n, s), z) as real <= n as real * (s * z) <= Cut(Cut(n, s), z) as real + 2.0
  {
    var m := Cut(n, s);
    Monotone(z, m as real, n as real * s);
    Monotone(z, n as real * s, m as real + 1.0);
    assert z * (n as real * s) == n as real * (s * z);
    assert z * (m as real + 1.0) == m as real * z + z;
  }

  lemma OnceCut(n: nat, m: nat, s: real)
    ensures NoMore(Cut(n, s), n, Cut(m, s), m, 1.0)
  {
    CrossBound(n as real, m as real, s, Cut(n, s) as real, Cut(m, s) as real, 1.0);
  }

  lemma TwiceCut(n: nat, m: nat, s: real, z: real)
    requires s >= 0.0 && 0.0 <= z <= 1.0
    ensures NoMore(Cut(Cut(n, s), z), n, Cut(Cut(m, s), z), m, 2.0)
  {
    ShareTwice(n, s, z);
    ShareTwice(m, s, z);
    CrossBound(n as real, m as real, s * z, Cut(Cut(n, s), z) as real, Cut(Cut(m, s), z) as real, 2.0);
  }

  lemma NotCut(n: nat, m: nat)
    ensures NoMore(n, n, m, m, 1.0)
  {
    CrossBound(n as real, m as real, 1.0, n as real, m as real, 1.0);
  }

  /** The share that a group and a campaign let through of each of their candidates. */
  lemma ScaleFactor(cs: seq<Candidate>, limit: Id -> Limit, i: nat) returns (s: real)
    requires Sane(limit) && i < |cs|
    ensures s >= 0.0
    ensures forall j | 0 <= j < |cs| && cs[j].group == cs[i].group && cs[j].campaign == cs[i].campaign ::
      Scaled(cs, limit)[j].final == Cut(cs[j].desired, s)
  {
    var gs := GroupScales(cs, limit);
    var ks := CampaignScales(cs, gs, limit);
    ScalesAreShares(cs, limit);
    NonNegative(gs(cs[i].group), ks(cs[i].campaign));
    s := gs(cs[i].group) * ks(cs[i].campaign);
  }

  /** Candidates of one group and one campaign are cut in the same proportion: within one
      impression, and within two when the balance had to be shared as well. */
  lemma AllCutEvenly(cs: seq<Candidate>, limit: Id -> Limit, available: real, i: nat, j: nat)
    requires Priced(cs) && Sane(limit) && i < |cs| && j < |cs|
    requires cs[i].group == cs[j].group && cs[i].campaign == cs[j].campaign
    ensures var rs := Allocated(cs, limit, available);
      NoMore(rs[i].final, cs[i].desired, rs[j].final, cs[j].desired,
             if Total(Scaled(cs, limit), Cost()) > available then 2.0 else 1.0)
  {
    var s := ScaleFactor(cs, limit, i);
    var rs := Allocated(cs, limit, available);
    if Total(Scaled(cs, limit), Cost()) > available {
      var z := BalanceFactor(cs, limit, available);
      TwiceCut(cs[i].desired, cs[j].desired, s, z);
    } else {
      InBalance(Scaled(cs, limit), available);
      OnceCut(cs[i].desired, cs[j].desired, s);
    }
  }

  /** The balance is shared without priority: every candidate keeps the same share of what budgets
      left it, within one impression. */
  lemma BalanceIsShared(cs: seq<Candidate>, limit: Id -> Limit, available: real, i: nat, j: nat)
    requires Priced(cs) && Sane(limit) && i < |cs| && j < |cs|
    ensures var rs, scaled := Allocated(cs, limit, available), Scaled(cs, limit);
      NoMore(rs[i].final, scaled[i].final, rs[j].final, scaled[j].final, 1.0)
  {
    var scaled := Scaled(cs, limit);
    AllocationLowers(cs, limit, available);
    assert scaled[i] in scaled && scaled[j] in scaled;
    if Total(scaled, Cost()) > available {
      var z := BalanceFactor(cs, limit, available);
      OnceCut(scaled[i].final, scaled[j].final, z);
    } else {
      InBalance(scaled, available);
      NotCut(scaled[i].final, scaled[j].final);
    }
  }

  lemma BalanceFactor(cs: seq<Candidate>, limit: Id -> Limit, available: real) returns (z: real)
    requires Priced(cs) && Sane(limit) && Total(Scaled(cs, limit), Cost()) > available
    ensures 0.0 <= z <= 1.0 && Allocated(cs, limit, available) == CutAll(Scaled(cs, limit), z)
  {
    AllocationLowers(cs, limit, available);
    CostNonNegative(Scaled(cs, limit));
    z := PrepaidScale(available, Total(Scaled(cs, limit), Cost()));
    PrepaidScaleFits(available, Total(Scaled(cs, limit), Cost()));
  }
}
