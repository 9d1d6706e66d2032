/** Budgets of a run are used: whoever an hour serves less than it won is under a budget that the
    run has used up, or under an empty balance. */
module DeliveryUse {
  import opened Decimals
  import opened Budgets
  import opened BudgetUse
  import opened Ledgers
  import opened Deliveries

  /** What was spent reaches the cap, but for less than `units`, or than the smallest amount told
      from nothing. */
  predicate Reaches(spent: real, cap: real, units: real) {
    cap <= spent || cap < spent + units || cap < spent + TINY
  }

  predicate Exhausted(budget: Budget, today: real, ever: real, units: real) {
    match budget
    case Unlimited => false
    case Daily(cap) => Reaches(today, cap, units)
    case Lifetime(cap) => Reaches(ever, cap, units)
  }

  /** A limit that an hour uses up is a budget that the run has used up. */
  lemma UsedIsExhausted(budget: Budget, today: real, ever: real, hour: real, units: real)
    requires UsedUp(Remaining(budget, today, ever), hour, units) && hour >= 0.0
    ensures Exhausted(budget, today + hour, ever + hour, units)
  {}

  /** What an hour adds to an entity's postings. */
  lemma HourAdds(posted: seq<Entry>, served: seq<Candidate>, isGroup: Id -> bool, day: Day, id: Id)
    requires Levelled(served, isGroup) && Served(served)
    ensures var hour := Total(served, if isGroup(id) then GroupCost(id) else CampaignCost(id));
      && hour >= 0.0
      && SpentOn(posted + Entries(served, day), day, id) == SpentOn(posted, day, id) + hour
      && SpentEver(posted + Entries(served, day), id) == SpentEver(posted, id) + hour
  {
    HourSpent(served, day, day, id);
    SpentAppend(posted, Entries(served, day), day, id);
    CostsNonNegative(served, id);
    if isGroup(id) { NoCost(served, CampaignCost(id)); } else { NoCost(served, GroupCost(id)); }
  }

  lemma CostsNonNegative(cs: seq<Candidate>, id: Id)
    requires Served(cs)
    ensures Total(cs, GroupCost(id)) >= 0.0 && Total(cs, CampaignCost(id)) >= 0.0
  {
    forall c | c in cs ensures GroupCost(id)(c) >= 0.0 && CampaignCost(id)(c) >= 0.0 {
      NonNegative(c.final as real, c.cost);
    }
    TotalNonNegative(cs, GroupCost(id));
    TotalNonNegative(cs, CampaignCost(id));
  }

  /** One entity of the hour: a limit it uses up is an exhausted budget. */
  lemma EntityExhausted(posted: seq<Entry>, h: Hour, served: seq<Candidate>, isGroup: Id -> bool, id: Id, units: real)
    requires Levelled(served, isGroup) && Served(served)
    requires var hour := Total(served, if isGroup(id) then GroupCost(id) else CampaignCost(id));
      UsedUp(FullLimits(posted, h.budgets, h.day)(id), hour, units)
    ensures var after := posted + Entries(served, h.day);
      Exhausted(h.budgets(id), SpentOn(after, h.day, id), SpentEver(after, id), units)
  {
    var hour := Total(served, if isGroup(id) then GroupCost(id) else CampaignCost(id));
    HourAdds(posted, served, isGroup, h.day, id);
    UsedIsExhausted(h.budgets(id), SpentOn(posted, h.day, id), SpentEver(posted, id), hour, units);
  }

  /** Candidate `i` of an hour that is not served in full is under an exhausted budget or an empty
      balance. */
  ghost predicate NothingIdle(h: Hour, served: seq<Candidate>, after: seq<Entry>, available: real, i: nat)
    requires i < |h.candidates| == |served|
  {
    var c, cs := h.candidates[i], h.candidates;
    || served[i].final == c.desired
    || Exhausted(h.budgets(c.group), SpentOn(after, h.day, c.group), SpentEver(after, c.group),
                 Total(cs, GroupUnit(c.group)))
    || Exhausted(h.budgets(c.campaign), SpentOn(after, h.day, c.campaign), SpentEver(after, c.campaign),
                 Total(cs, CampaignUnit(c.campaign)))
    || Reaches(Total(served, Cost()), available, Total(cs, Unit()))
  }

  lemma HourLeavesNothingIdle(posted: seq<Entry>, h: Hour, available: real, isGroup: Id -> bool, i: nat)
    requires Priced(h.candidates) && Levelled(h.candidates, isGroup) && Nested(h.candidates) && i < |h.candidates|
    ensures var served := Allocated(h.candidates, FullLimits(posted, h.budgets, h.day), available);
      NothingIdle(h, served, posted + Entries(served, h.day), available, i)
  {
    var limit, cs := FullLimits(posted, h.budgets, h.day), h.candidates;
    var served, c := Allocated(cs, limit, available), cs[i];
    RemainingSane(posted, h.budgets, h.day);
    AllocationLowers(cs, limit, available);
    forall d | d in served ensures d.cost >= 0.0 && d.final >= 0 {}
    SameOwners(served, cs, limit, available, isGroup);
    NoIdleBudget(cs, limit, available, i);
    assert c in cs;
    if UsedUp(limit(c.group), Total(served, GroupCost(c.group)), Total(cs, GroupUnit(c.group))) {
      EntityExhausted(posted, h, served, isGroup, c.group, Total(cs, GroupUnit(c.group)));
    } else if UsedUp(limit(c.campaign), Total(served, CampaignCost(c.campaign)), Total(cs, CampaignUnit(c.campaign))) {
      EntityExhausted(posted, h, served, isGroup, c.campaign, Total(cs, CampaignUnit(c.campaign)));
    } else if served[i].final != c.desired {
      BalanceReached(served, available, Total(cs, Unit()));
    }
  }

  lemma BalanceReached(served: seq<Candidate>, available: real, units: real)
    requires Served(served) && UsedUp(Finite(available), Total(served, Cost()), units)
    ensures Reaches(Total(served, Cost()), available, units)
  {
    CostNonNegative(served);
  }

  /** After every run, the last hour has left nothing idle: impressions that were won and not served
      are explained by a budget the run has used up, or by a balance the hour has used up. */
  lemma RunLeavesNothingIdle(account: Prepaid, hours: seq<Hour>, isGroup: Id -> bool, i: nat)
    requires TimeForward(hours) && Proper(hours, isGroup) && hours != []
    requires var h := hours[|hours| - 1]; Nested(h.candidates) && i < |h.candidates|
    ensures var h, e := hours[|hours| - 1], Run(Fresh(account), hours[..|hours| - 1]);
      NothingIdle(h, HourServes(h, e.books, e.account.available), Run(Fresh(account), hours).posted,
                  e.account.available, i)
  {
    var n := |hours| - 1;
    var h, e := hours[n], Run(Fresh(account), hours[..n]);
    assert h in hours;
    ForgettingIsInvisible(account, hours[..n]);
    if n > 0 { assert hours[n - 1].day <= h.day; }
    assert Recent(e.posted, h.day);
    SameAllocation(h.candidates, Limits(e.books, h.budgets, h.day), FullLimits(e.posted, h.budgets, h.day),
                   e.account.available);
    HourLeavesNothingIdle(e.posted, h, e.account.available, isGroup, i);
  }
}
