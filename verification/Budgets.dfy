/** Joint budget allocation of one hour's candidates (`applyJointBudgetAllocation` in
    internal/sandbox/joint_delivery.go). Go floats are real numbers here. */
module Budgets {
  import opened Decimals

  type Id = nat

  /** One ad's chance to serve one cohort in one hour, after the auctions priced it. */
  datatype Candidate = Candidate(ad: Id, group: Id, campaign: Id, cohort: Id, desired: nat, final: int, cost: real)

  /** What is left of a budget; `Infinite` where the source holds +Inf. */
  datatype Limit = Infinite | Finite(amount: real)

  const TINY := 0.000000001

  // ----- specification -----

  /** The share of `desired` a limit lets through. */
  function Scale(limit: Limit, desired: real): real {
    match limit
    case Infinite => 1.0
    case Finite(r) => Min(1.0, r / Max(desired, TINY))
  }

  function Total(cs: seq<Candidate>, value: Candidate -> real): real {
    if cs == [] then 0.0 else Total(cs[..|cs| - 1], value) + value(cs[|cs| - 1])
  }

  function Wanted(c: Candidate): real { c.desired as real * c.cost }

  function Spend(c: Candidate): real { c.final as real * c.cost }

  function GroupWish(group: Id): Candidate -> real { (c: Candidate) => if c.group == group then Wanted(c) else 0.0 }

  function GroupCost(group: Id): Candidate -> real { (c: Candidate) => if c.group == group then Spend(c) else 0.0 }

  function CampaignCost(campaign: Id): Candidate -> real {
    (c: Candidate) => if c.campaign == campaign then Spend(c) else 0.0
  }

  function Cost(): Candidate -> real { (c: Candidate) => Spend(c) }

  /** What a campaign still wants once its groups have been scaled. */
  function CampaignWish(groupScale: Id -> real, campaign: Id): Candidate -> real {
    (c: Candidate) => if c.campaign == campaign then Wanted(c) * groupScale(c.group) else 0.0
  }

  function GroupScales(cs: seq<Candidate>, limit: Id -> Limit): Id -> real {
    (group: Id) => Scale(limit(group), Total(cs, GroupWish(group)))
  }

  function CampaignScales(cs: seq<Candidate>, groupScale: Id -> real, limit: Id -> Limit): Id -> real {
    (campaign: Id) => Scale(limit(campaign), Total(cs, CampaignWish(groupScale, campaign)))
  }

  /** Impressions left after scaling, rounded down to whole ones. */
  function Cut(n: int, scale: real): (m: int)
    ensures m as real <= n as real * scale < m as real + 1.0
  {
    (n as real * scale).Floor
  }

  function CutOne(c: Candidate, groupScale: Id -> real, campaignScale: Id -> real): Candidate {
    c.(final := Cut(c.desired, groupScale(c.group) * campaignScale(c.campaign)))
  }

  function BudgetCut(cs: seq<Candidate>, groupScale: Id -> real, campaignScale: Id -> real): (r: seq<Candidate>)
    ensures |r| == |cs|
  {
    seq(|cs|, i requires 0 <= i < |cs| => CutOne(cs[i], groupScale, campaignScale))
  }

  function CutAll(cs: seq<Candidate>, scale: real): (r: seq<Candidate>)
    ensures |r| == |cs|
  {
    seq(|cs|, i requires 0 <= i < |cs| => cs[i].(final := Cut(cs[i].final, scale)))
  }

  function PrepaidScale(available: real, desired: real): real { Max(0.0, available) / Max(desired, TINY) }

  function PrepaidCut(cs: seq<Candidate>, available: real): (r: seq<Candidate>)
    ensures |r| == |cs|
  {
    var desired := Total(cs, Cost());
    if desired > available then CutAll(cs, PrepaidScale(available, desired)) else cs
  }

  function Scaled(cs: seq<Candidate>, limit: Id -> Limit): (r: seq<Candidate>)
    ensures |r| == |cs|
  {
    var groupScale := GroupScales(cs, limit);
    BudgetCut(cs, groupScale, CampaignScales(cs, groupScale, limit))
  }

  /** The whole allocation: group scale times campaign scale, then the shared balance. */
  function Allocated(cs: seq<Candidate>, limit: Id -> Limit, available: real): (r: seq<Candidate>)
    ensures |r| == |cs|
  {
    PrepaidCut(Scaled(cs, limit), available)
  }

  // ----- the in-place algorithm -----

  function Look<K>(m: map<K, real>, k: K): real { if k in m then m[k] else 0.0 }

  method ApplyJointBudgetAllocation(candidates: array<Candidate>, limit: Id -> Limit, available: real)
    modifies candidates
    ensures candidates[..] == Allocated(old(candidates[..]), limit, available)
  {
    ghost var cs := candidates[..];
    var groupScale := ScaleGroups(candidates, limit);
    ghost var scales := GroupScales(cs, limit);
    var campaignScale := ScaleCampaigns(candidates, limit, groupScale, scales);
    ApplyScales(candidates, groupScale, campaignScale, scales, CampaignScales(cs, scales, limit));
    assert candidates[..] == Scaled(cs, limit);
    SharePrepaid(candidates, available);
  }

  ghost predicate Covers(m: map<Id, real>, scales: Id -> real) {
    forall k | k in m :: m[k] == scales(k)
  }

  /** The first level: what each ad group wants against its own budget. */
  method ScaleGroups(candidates: array<Candidate>, limit: Id -> Limit) returns (groupScale: map<Id, real>)
    ensures forall k | 0 <= k < candidates.Length :: candidates[k].group in groupScale
    ensures Covers(groupScale, GroupScales(candidates[..], limit))
  {
    ghost var cs := candidates[..];
    var n := candidates.Length;
    var groupDesired: map<Id, real> := map[];
    for i := 0 to n
      invariant forall g :: Look(groupDesired, g) == Total(cs[..i], GroupWish(g))
      invariant forall k | 0 <= k < i :: cs[k].group in groupDesired
    {
      var c := candidates[i];
      groupDesired := groupDesired[c.group := Look(groupDesired, c.group) + Wanted(c)];
      assert cs[..i + 1][..i] == cs[..i];
    }
    assert cs[..n] == cs;
    groupScale := map[];
    for i := 0 to n
      invariant Covers(groupScale, GroupScales(cs, limit))
      invariant forall k | 0 <= k < i :: cs[k].group in groupScale
    {
      var g := candidates[i].group;
      if g !in groupScale { groupScale := groupScale[g := Scale(limit(g), groupDesired[g])]; }
    }
  }

  method CampaignsDesired(candidates: array<Candidate>, groupScale: map<Id, real>, ghost scales: Id -> real)
    returns (desired: map<Id, real>)
    requires forall k | 0 <= k < candidates.Length :: candidates[k].group in groupScale
    requires Covers(groupScale, scales)
    ensures forall k :: Look(desired, k) == Total(candidates[..], CampaignWish(scales, k))
    ensures forall k | 0 <= k < candidates.Length :: candidates[k].campaign in desired
  {
    ghost var cs := candidates[..];
    desired := map[];
    for i := 0 to candidates.Length
      invariant forall k :: Look(desired, k) == Total(cs[..i], CampaignWish(scales, k))
      invariant forall k | 0 <= k < i :: cs[k].campaign in desired
    {
      var c := candidates[i];
      SameProduct(Wanted(c), groupScale[c.group], Wanted(c), scales(c.group));
      desired := desired[c.campaign := Look(desired, c.campaign) + Wanted(c) * groupScale[c.group]];
      assert cs[..i + 1][..i] == cs[..i];
    }
    assert cs[..candidates.Length] == cs;
  }

  /** The second level: what each campaign's scaled groups want against its own budget. */
  method ScaleCampaigns(candidates: array<Candidate>, limit: Id -> Limit,
                        groupScale: map<Id, real>, ghost scales: Id -> real)
    returns (campaignScale: map<Id, real>)
    requires forall k | 0 <= k < candidates.Length :: candidates[k].group in groupScale
    requires Covers(groupScale, scales)
    ensures forall k | 0 <= k < candidates.Length :: candidates[k].campaign in campaignScale
    ensures Covers(campaignScale, CampaignScales(candidates[..], scales, limit))
  {
    ghost var cs := candidates[..];
    var campaignDesired := CampaignsDesired(candidates, groupScale, scales);
    campaignScale := map[];
    for i := 0 to candidates.Length
      invariant Covers(campaignScale, CampaignScales(cs, scales, limit))
      invariant forall k | 0 <= k < i :: cs[k].campaign in campaignScale
    {
      var k := candidates[i].campaign;
      if k !in campaignScale { campaignScale := campaignScale[k := Scale(limit(k), campaignDesired[k])]; }
    }
  }

  method ApplyScales(candidates: array<Candidate>, groupScale: map<Id, real>, campaignScale: map<Id, real>,
                     ghost gs: Id -> real, ghost ks: Id -> real)
    requires forall k | 0 <= k < candidates.Length ::
      candidates[k].group in groupScale && candidates[k].campaign in campaignScale
    requires Covers(groupScale, gs) && Covers(campaignScale, ks)
    modifies candidates
    ensures candidates[..] == BudgetCut(old(candidates[..]), gs, ks)
  {
    ghost var cs := candidates[..];
    for i := 0 to candidates.Length
      invariant candidates[..i] == BudgetCut(cs, gs, ks)[..i]
      invariant forall k | i <= k < candidates.Length :: candidates[k] == cs[k]
    {
      var c := candidates[i];
      assert c == cs[i];
      assert groupScale[c.group] == gs(c.group) && campaignScale[c.campaign] == ks(c.campaign);
      var scale := groupScale[c.group] * campaignScale[c.campaign];
      SameProduct(groupScale[c.group], campaignScale[c.campaign], gs(c.group), ks(c.campaign));
      candidates[i] := c.(final := Cut(c.desired, scale));
      assert candidates[i] == CutOne(c, gs, ks);
    }
  }

  /** The prepaid balance is shared by all campaigns, without priority. */
  method SharePrepaid(candidates: array<Candidate>, available: real)
    modifies candidates
    ensures candidates[..] == PrepaidCut(old(candidates[..]), available)
  {
    ghost var cs := candidates[..];
    var desired := 0.0;
    for i := 0 to candidates.Length
      invariant desired == Total(cs[..i], Cost())
    {
      desired := desired + candidates[i].final as real * candidates[i].cost;
      assert cs[..i + 1][..i] == cs[..i];
    }
    assert cs[..candidates.Length] == cs;
    if desired > available {
      var scale := Max(0.0, available) / Max(desired, TINY);
      for i := 0 to candidates.Length
        invariant candidates[..i] == CutAll(cs, scale)[..i]
        invariant forall k | i <= k < candidates.Length :: candidates[k] == cs[k]
      {
        assert candidates[i] == cs[i];
        candidates[i] := candidates[i].(final := Cut(candidates[i].final, scale));
      }
    }
  }

  // ----- scaled sums -----

  lemma Monotone(k: real, a: real, b: real)
    requires k >= 0.0 && a <= b
    ensures k * a <= k * b
  {}

  lemma AddBound(k: real, x: real, y: real, x1: real, y1: real)
    requires x <= k * y && x1 <= k * y1
    ensures x + x1 <= k * (y + y1)
  {
    assert k * (y + y1) == k * y + k * y1;
  }

  ghost predicate AtMost(rs: seq<Candidate>, f: Candidate -> real, k: real, cs: seq<Candidate>, g: Candidate -> real) {
    |rs| == |cs| && forall i | 0 <= i < |cs| :: f(rs[i]) <= k * g(cs[i])
  }

  lemma {:induction false} TotalAtMost(rs: seq<Candidate>, f: Candidate -> real, k: real,
                                       cs: seq<Candidate>, g: Candidate -> real)
    requires AtMost(rs, f, k, cs, g)
    ensures Total(rs, f) <= k * Total(cs, g)
  {
    if cs != [] {
      var n := |cs| - 1;
      TotalAtMost(rs[..n], f, k, cs[..n], g);
      AddBound(k, Total(rs[..n], f), Total(cs[..n], g), f(rs[n]), g(cs[n]));
    }
  }

  lemma {:induction false} TotalMonotone(rs: seq<Candidate>, cs: seq<Candidate>, f: Candidate -> real)
    requires |rs| == |cs| && forall i | 0 <= i < |cs| :: f(rs[i]) <= f(cs[i])
    ensures Total(rs, f) <= Total(cs, f)
  {
    if cs != [] { TotalMonotone(rs[..|cs| - 1], cs[..|cs| - 1], f); }
  }

  lemma {:induction false} TotalNonNegative(cs: seq<Candidate>, f: Candidate -> real)
    requires forall c | c in cs :: f(c) >= 0.0
    ensures Total(cs, f) >= 0.0
  {
    if cs != [] { TotalNonNegative(cs[..|cs| - 1], f); assert cs[|cs| - 1] in cs; }
  }

  // ----- one candidate -----

  lemma CutSpend(n: int, scale: real, cost: real)
    requires cost >= 0.0
    ensures Cut(n, scale) as real * cost <= scale * (n as real * cost)
  {
    Monotone(cost, Cut(n, scale) as real, n as real * scale);
    assert cost * (n as real * scale) == scale * (n as real * cost);
  }

  lemma CutBounds(n: int, scale: real)
    requires n >= 0 && 0.0 <= scale
    ensures 0 <= Cut(n, scale) && (scale <= 1.0 ==> Cut(n, scale) <= n)
  {
    NonNegative(scale, n as real);
    if scale <= 1.0 { Share(scale, n as real); }
  }

  lemma Share(a: real, x: real)
    requires 0.0 <= a <= 1.0 && 0.0 <= x
    ensures 0.0 <= a * x <= x
  {}

  lemma NonNegative(a: real, x: real)
    requires 0.0 <= a && 0.0 <= x
    ensures 0.0 <= a * x && 0.0 <= x * a
  {}

  lemma SameProduct(a: real, x: real, b: real, y: real)
    requires a == b && x == y
    ensures a * x == b * y
  {}

  lemma TermSpend(c: Candidate, r: Candidate, scale: real)
    requires c.cost >= 0.0 && r == c.(final := Cut(c.desired, scale))
    ensures Spend(r) <= scale * Wanted(c)
  {
    CutSpend(c.desired, scale, c.cost);
  }

  /** Served spend is at most the scale's share of what was wanted, either way round. */
  lemma TermBound(c: Candidate, r: Candidate, a: real, b: real)
    requires c.cost >= 0.0 && 0.0 <= a && 0.0 <= b <= 1.0 && r == c.(final := Cut(c.desired, a * b))
    ensures Spend(r) <= a * Wanted(c)
    ensures Spend(r) <= b * (Wanted(c) * a)
  {
    TermSpend(c, r, a * b);
    NonNegative(c.cost, c.desired as real);
    EitherWay(Spend(r), a, b, Wanted(c));
  }

  lemma EitherWay(x: real, a: real, b: real, w: real)
    requires w >= 0.0 && 0.0 <= a && 0.0 <= b <= 1.0 && x <= a * b * w
    ensures x <= a * w
    ensures x <= b * (w * a)
  {
    Drop(a, b, w);
    Associate(a, b, w);
  }

  lemma Drop(a: real, b: real, w: real)
    requires w >= 0.0 && 0.0 <= a && 0.0 <= b <= 1.0
    ensures a * b * w <= a * w
  {
    NonNegative(a, w);
    Share(b, a * w);
  }

  lemma Associate(a: real, b: real, w: real)
    ensures a * b * w == b * (w * a)
  {}

  /** Every scale is a share, and what is scaled by it fits the limit. */
  lemma ScaleFits(limit: Limit, desired: real)
    requires limit.Finite? ==> limit.amount >= 0.0
    ensures 0.0 <= Scale(limit, desired) <= 1.0
    ensures limit.Finite? && desired >= 0.0 ==> Scale(limit, desired) * desired <= limit.amount
    ensures limit.Infinite? || limit.amount >= Max(desired, TINY) ==> Scale(limit, desired) == 1.0
  {
    if limit.Finite? { QuotientFits(limit.amount, desired, Max(desired, TINY)); }
  }

  lemma QuotientFits(r: real, desired: real, m: real)
    requires r >= 0.0 && m > 0.0 && m >= desired
    ensures 0.0 <= r / m
    ensures desired >= 0.0 ==> r / m * desired <= r && Min(1.0, r / m) * desired <= r
    ensures r >= m ==> r / m >= 1.0
    ensures r <= m ==> r / m <= 1.0
  {
    var q := r / m;
    assert q * m == r;
    assert q >= 0.0;
    if desired >= 0.0 {
      Monotone(q, desired, m);
      Monotone(desired, Min(1.0, q), q);
    }
  }

  // ----- sums after scaling -----

  predicate Priced(cs: seq<Candidate>) { forall c | c in cs :: c.cost >= 0.0 }

  predicate Served(cs: seq<Candidate>) { forall c | c in cs :: c.cost >= 0.0 && c.final >= 0 }

  ghost predicate Shares(scale: Id -> real) { forall id :: 0.0 <= scale(id) <= 1.0 }

  ghost predicate Sane(limit: Id -> Limit) { forall id :: limit(id).Finite? ==> limit(id).amount >= 0.0 }

  lemma GroupTerm(c: Candidate, gs: Id -> real, ks: Id -> real, group: Id)
    requires c.cost >= 0.0 && Shares(gs) && Shares(ks)
    ensures GroupCost(group)(CutOne(c, gs, ks)) <= gs(group) * GroupWish(group)(c)
  {
    if c.group == group {
      TermBound(c, CutOne(c, gs, ks), gs(c.group), ks(c.campaign));
      SameProduct(gs(c.group), Wanted(c), gs(group), GroupWish(group)(c));
    } else {
      assert GroupWish(group)(c) == 0.0;
    }
  }

  lemma CampaignTerm(c: Candidate, gs: Id -> real, ks: Id -> real, campaign: Id)
    requires c.cost >= 0.0 && Shares(gs) && Shares(ks)
    ensures CampaignCost(campaign)(CutOne(c, gs, ks)) <= ks(campaign) * CampaignWish(gs, campaign)(c)
  {
    if c.campaign == campaign {
      TermBound(c, CutOne(c, gs, ks), gs(c.group), ks(c.campaign));
      SameProduct(ks(c.campaign), Wanted(c) * gs(c.group), ks(campaign), CampaignWish(gs, campaign)(c));
    } else {
      assert CampaignWish(gs, campaign)(c) == 0.0;
    }
  }

  lemma GroupTerms(cs: seq<Candidate>, gs: Id -> real, ks: Id -> real, group: Id)
    requires Priced(cs) && Shares(gs) && Shares(ks)
    ensures AtMost(BudgetCut(cs, gs, ks), GroupCost(group), gs(group), cs, GroupWish(group))
  {
    forall i | 0 <= i < |cs|
      ensures GroupCost(group)(BudgetCut(cs, gs, ks)[i]) <= gs(group) * GroupWish(group)(cs[i])
    {
      assert cs[i] in cs;
      GroupTerm(cs[i], gs, ks, group);
    }
  }

  lemma CampaignTerms(cs: seq<Candidate>, gs: Id -> real, ks: Id -> real, campaign: Id)
    requires Priced(cs) && Shares(gs) && Shares(ks)
    ensures AtMost(BudgetCut(cs, gs, ks), CampaignCost(campaign), ks(campaign), cs, CampaignWish(gs, campaign))
  {
    forall i | 0 <= i < |cs|
      ensures CampaignCost(campaign)(BudgetCut(cs, gs, ks)[i]) <= ks(campaign) * CampaignWish(gs, campaign)(cs[i])
    {
      assert cs[i] in cs;
      CampaignTerm(cs[i], gs, ks, campaign);
    }
  }

  lemma WishesNonNegative(cs: seq<Candidate>, gs: Id -> real, id: Id)
    requires Priced(cs) && Shares(gs)
    ensures Total(cs, GroupWish(id)) >= 0.0 && Total(cs, CampaignWish(gs, id)) >= 0.0
  {
    forall c | c in cs ensures GroupWish(id)(c) >= 0.0 && CampaignWish(gs, id)(c) >= 0.0 {
      NonNegative(c.cost, c.desired as real);
      NonNegative(Wanted(c), gs(c.group));
    }
    TotalNonNegative(cs, GroupWish(id));
    TotalNonNegative(cs, CampaignWish(gs, id));
  }

  lemma BudgetCutServed(cs: seq<Candidate>, gs: Id -> real, ks: Id -> real)
    requires Priced(cs) && Shares(gs) && Shares(ks)
    ensures Served(BudgetCut(cs, gs, ks))
  {
    forall i | 0 <= i < |cs| ensures BudgetCut(cs, gs, ks)[i].cost >= 0.0 && BudgetCut(cs, gs, ks)[i].final >= 0 {
      var c := cs[i];
      assert c in cs;
      Share(gs(c.group), ks(c.campaign));
      CutBounds(c.desired, gs(c.group) * ks(c.campaign));
    }
  }

  /** `rs` serves no more of any candidate than `cs` does, and changes nothing else. */
  predicate Lowered(rs: seq<Candidate>, cs: seq<Candidate>) {
    |rs| == |cs| && forall i | 0 <= i < |cs| ::
      rs[i] == cs[i].(final := rs[i].final) && 0 <= rs[i].final <= cs[i].final && rs[i].cost >= 0.0
  }

  lemma CutAllLowers(cs: seq<Candidate>, scale: real)
    requires Served(cs) && 0.0 <= scale <= 1.0
    ensures Lowered(CutAll(cs, scale), cs)
  {
    forall i | 0 <= i < |cs| ensures 0 <= Cut(cs[i].final, scale) <= cs[i].final && cs[i].cost >= 0.0 {
      assert cs[i] in cs;
      CutBounds(cs[i].final, scale);
    }
  }

  lemma CutTerm(c: Candidate, scale: real)
    requires c.cost >= 0.0
    ensures Cost()(c.(final := Cut(c.final, scale))) <= scale * Cost()(c)
  {
    CutSpend(c.final, scale, c.cost);
    SameProduct(scale, Spend(c), scale, Cost()(c));
  }

  lemma CutAllSpend(cs: seq<Candidate>, scale: real)
    requires Served(cs)
    ensures Total(CutAll(cs, scale), Cost()) <= scale * Total(cs, Cost())
  {
    var rs, f := CutAll(cs, scale), Cost();
    forall i | 0 <= i < |cs| ensures f(rs[i]) <= scale * f(cs[i]) {
      assert cs[i] in cs;
      CutTerm(cs[i], scale);
    }
    TotalAtMost(rs, f, scale, cs, f);
  }

  lemma LoweredSpend(r: Candidate, c: Candidate)
    requires r == c.(final := r.final) && r.final <= c.final && c.cost >= 0.0
    ensures Spend(r) <= Spend(c)
  {
    Monotone(c.cost, r.final as real, c.final as real);
  }

  lemma LoweredTotals(rs: seq<Candidate>, cs: seq<Candidate>, id: Id)
    requires Lowered(rs, cs)
    ensures Total(rs, GroupCost(id)) <= Total(cs, GroupCost(id))
    ensures Total(rs, CampaignCost(id)) <= Total(cs, CampaignCost(id))
  {
    var f, g := GroupCost(id), CampaignCost(id);
    forall i | 0 <= i < |cs| ensures f(rs[i]) <= f(cs[i]) && g(rs[i]) <= g(cs[i])
    { LoweredSpend(rs[i], cs[i]); }
    TotalMonotone(rs, cs, f);
    TotalMonotone(rs, cs, g);
  }

  lemma PrepaidScaleFits(available: real, desired: real)
    requires desired >= 0.0 && desired > available
    ensures 0.0 <= PrepaidScale(available, desired) <= 1.0
    ensures PrepaidScale(available, desired) * desired <= Max(0.0, available)
  {
    QuotientFits(Max(0.0, available), desired, Max(desired, TINY));
  }

  lemma CostNonNegative(cs: seq<Candidate>)
    requires Served(cs)
    ensures Total(cs, Cost()) >= 0.0
  {
    forall c | c in cs ensures Cost()(c) >= 0.0 { NonNegative(c.cost, c.final as real); }
    TotalNonNegative(cs, Cost());
  }

  /** Sharing the balance only ever lowers what is served. */
  lemma PrepaidCutLowers(cs: seq<Candidate>, available: real)
    requires Served(cs)
    ensures Lowered(PrepaidCut(cs, available), cs)
  {
    CostNonNegative(cs);
    var d := Total(cs, Cost());
    if d > available {
      PrepaidScaleFits(available, d);
      CutAllLowers(cs, PrepaidScale(available, d));
    } else {
      forall i | 0 <= i < |cs| ensures cs[i].final >= 0 && cs[i].cost >= 0.0 { assert cs[i] in cs; }
    }
  }

  /** The shared balance is never overspent. */
  lemma PrepaidCutFits(cs: seq<Candidate>, available: real)
    requires Served(cs)
    ensures Total(PrepaidCut(cs, available), Cost()) <= Max(0.0, available)
  {
    CostNonNegative(cs);
    var d := Total(cs, Cost());
    if d > available {
      PrepaidScaleFits(available, d);
      CutAllSpend(cs, PrepaidScale(available, d));
    }
  }

  // ----- what the allocation guarantees -----

  lemma ScalesAreShares(cs: seq<Candidate>, limit: Id -> Limit)
    requires Sane(limit)
    ensures Shares(GroupScales(cs, limit)) && Shares(CampaignScales(cs, GroupScales(cs, limit), limit))
  {
    var gs := GroupScales(cs, limit);
    forall id ensures 0.0 <= gs(id) <= 1.0 { ScaleFits(limit(id), Total(cs, GroupWish(id))); }
    forall id ensures 0.0 <= CampaignScales(cs, gs, limit)(id) <= 1.0
    { ScaleFits(limit(id), Total(cs, CampaignWish(gs, id))); }
  }

  lemma AllocationLowers(cs: seq<Candidate>, limit: Id -> Limit, available: real)
    requires Priced(cs) && Sane(limit)
    ensures Served(Scaled(cs, limit)) && Lowered(Allocated(cs, limit, available), Scaled(cs, limit))
  {
    ScalesAreShares(cs, limit);
    BudgetCutServed(cs, GroupScales(cs, limit), CampaignScales(cs, GroupScales(cs, limit), limit));
    PrepaidCutLowers(Scaled(cs, limit), available);
  }

  /** `wish` is a name for the total, which then is one factor instead of a recursive sum. */
  lemma TotalFits(rs: seq<Candidate>, f: Candidate -> real, k: real,
                  cs: seq<Candidate>, g: Candidate -> real, wish: real, amount: real)
    requires AtMost(rs, f, k, cs, g) && wish == Total(cs, g) && k * wish <= amount
    ensures Total(rs, f) <= amount
  {
    TotalAtMost(rs, f, k, cs, g);
    SameProduct(k, wish, k, Total(cs, g));
  }

  lemma ScaleTimesWish(limit: Limit, scale: real, wish: real)
    requires limit.Finite? && limit.amount >= 0.0 && wish >= 0.0 && scale == Scale(limit, wish)
    ensures scale * wish <= limit.amount
  {
    ScaleFits(limit, wish);
    SameProduct(scale, wish, Scale(limit, wish), wish);
  }

  lemma GroupFits(cs: seq<Candidate>, limit: Id -> Limit, group: Id)
    requires Priced(cs) && Sane(limit) && limit(group).Finite?
    ensures Total(Scaled(cs, limit), GroupCost(group)) <= limit(group).amount
  {
    var gs := GroupScales(cs, limit);
    ScalesAreShares(cs, limit);
    WishesNonNegative(cs, gs, group);
    GroupTerms(cs, gs, CampaignScales(cs, gs, limit), group);
    var scale, wish := gs(group), Total(cs, GroupWish(group));
    ScaleTimesWish(limit(group), scale, wish);
    TotalFits(Scaled(cs, limit), GroupCost(group), scale, cs, GroupWish(group), wish, limit(group).amount);
  }

  lemma CampaignFits(cs: seq<Candidate>, limit: Id -> Limit, campaign: Id)
    requires Priced(cs) && Sane(limit) && limit(campaign).Finite?
    ensures Total(Scaled(cs, limit), CampaignCost(campaign)) <= limit(campaign).amount
  {
    var gs := GroupScales(cs, limit);
    var ks := CampaignScales(cs, gs, limit);
    ScalesAreShares(cs, limit);
    WishesNonNegative(cs, gs, campaign);
    CampaignTerms(cs, gs, ks, campaign);
    var scale, wish := ks(campaign), Total(cs, CampaignWish(gs, campaign));
    ScaleTimesWish(limit(campaign), scale, wish);
    TotalFits(Scaled(cs, limit), CampaignCost(campaign), scale, cs, CampaignWish(gs, campaign),
              wish, limit(campaign).amount);
  }

  /** No ad group spends more in the hour than its budget has left, and no campaign more than
      its own has left over all its groups. */
  lemma HourStaysInBudget(cs: seq<Candidate>, limit: Id -> Limit, available: real, id: Id)
    requires Priced(cs) && Sane(limit) && limit(id).Finite?
    ensures Total(Allocated(cs, limit, available), GroupCost(id)) <= limit(id).amount
    ensures Total(Allocated(cs, limit, available), CampaignCost(id)) <= limit(id).amount
  {
    AllocationLowers(cs, limit, available);
    GroupFits(cs, limit, id);
    CampaignFits(cs, limit, id);
    LoweredTotals(Allocated(cs, limit, available), Scaled(cs, limit), id);
  }

  /** The hour never costs more than the prepaid balance holds. */
  lemma HourStaysWithinBalance(cs: seq<Candidate>, limit: Id -> Limit, available: real)
    requires Priced(cs) && Sane(limit)
    ensures Total(Allocated(cs, limit, available), Cost()) <= Max(0.0, available)
  {
    AllocationLowers(cs, limit, available);
    PrepaidCutFits(Scaled(cs, limit), available);
  }

  /** A candidate is held back only when some limit binds: if neither its group's nor its
      campaign's budget nor the balance is short, every desired impression is served. */
  lemma UnboundIsServedInFull(cs: seq<Candidate>, limit: Id -> Limit, available: real, i: nat)
    requires Sane(limit) && i < |cs|
    requires limit(cs[i].group).Infinite?
      || limit(cs[i].group).amount >= Max(Total(cs, GroupWish(cs[i].group)), TINY)
    requires limit(cs[i].campaign).Infinite?
      || limit(cs[i].campaign).amount
      >= Max(Total(cs, CampaignWish(GroupScales(cs, limit), cs[i].campaign)), TINY)
    requires Total(Scaled(cs, limit), Cost()) <= available
    ensures Allocated(cs, limit, available)[i] == cs[i].(final := cs[i].desired)
  {
    var gs, c := GroupScales(cs, limit), cs[i];
    var ks := CampaignScales(cs, gs, limit);
    assert gs(c.group) == 1.0 by { FullScale(limit(c.group), Total(cs, GroupWish(c.group))); }
    assert ks(c.campaign) == 1.0 by { FullScale(limit(c.campaign), Total(cs, CampaignWish(gs, c.campaign))); }
    FullCut(c, gs, ks);
    InBalance(Scaled(cs, limit), available);
  }

  lemma InBalance(cs: seq<Candidate>, available: real)
    requires Total(cs, Cost()) <= available
    ensures PrepaidCut(cs, available) == cs
  {}

  lemma FullScale(limit: Limit, desired: real)
    requires limit.Infinite? || limit.amount >= Max(desired, TINY)
    ensures Scale(limit, desired) == 1.0
  {
    ScaleFits(limit, desired);
  }

  lemma FullCut(c: Candidate, gs: Id -> real, ks: Id -> real)
    requires gs(c.group) == 1.0 && ks(c.campaign) == 1.0
    ensures CutOne(c, gs, ks) == c.(final := c.desired)
  {}
}
