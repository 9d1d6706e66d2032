/** One virtual hour of paid delivery, and what holds of every run of hours, whatever candidates an
    hour brings: budgets, the prepaid balance and the daily bills. */
module Deliveries {
  import opened Decimals
  import opened Budgets
  import opened Ledgers

  /** What the outside of the engine decides about an hour: budgets may change between hours. */
  datatype Hour = Hour(day: Day, budgets: Id -> Budget, ads: seq<Id>, candidates: seq<Candidate>)

  datatype Engine = Engine(books: Books, account: Prepaid, facts: seq<Fact>, posted: seq<Entry>)

  function AdCost(ad: Id): Candidate -> real { (c: Candidate) => if c.ad == ad then Spend(c) else 0.0 }

  /** One fact per ad, its spend summed over cohorts and then truncated. */
  function AdFacts(cs: seq<Candidate>, ads: seq<Id>, day: Day): (r: seq<Fact>)
    ensures |r| == |ads|
  {
    seq(|ads|, i requires 0 <= i < |ads| => Fact(ads[i], day, Truncate4(Total(cs, AdCost(ads[i])))))
  }

  function HourServes(h: Hour, books: Books, available: real): seq<Candidate> {
    Allocated(h.candidates, Limits(books, h.budgets, h.day), available)
  }

  function Serve(e: Engine, h: Hour): Engine {
    var served := HourServes(h, e.books, e.account.available);
    var facts := AdFacts(served, h.ads, h.day);
    var entries := Entries(served, h.day);
    Engine(RecordAll(e.books, entries), Settle(e.account, h.day, facts), e.facts + facts, e.posted + entries)
  }

  function Run(e: Engine, hours: seq<Hour>): Engine {
    if hours == [] then e else Serve(Run(e, hours[..|hours| - 1]), hours[|hours| - 1])
  }

  function Fresh(account: Prepaid): Engine { Engine(Books(map[], map[]), account, [], []) }

  // ----- the hour, step by step -----

  method CollectFacts(candidates: array<Candidate>, ads: seq<Id>, day: Day) returns (facts: seq<Fact>)
    ensures facts == AdFacts(candidates[..], ads, day)
  {
    var spend: map<Id, real> := map[];
    for i := 0 to candidates.Length
      invariant forall ad :: Look(spend, ad) == Total(candidates[..i], AdCost(ad))
    {
      var c := candidates[i];
      spend := spend[c.ad := Look(spend, c.ad) + Spend(c)];
      assert candidates[..i + 1][..i] == candidates[..i];
    }
    assert candidates[..candidates.Length] == candidates[..];
    facts := [];
    for k := 0 to |ads|
      invariant facts == AdFacts(candidates[..], ads, day)[..k]
    {
      facts := facts + [Fact(ads[k], day, Truncate4(Look(spend, ads[k])))];
    }
  }

  method DeliverHour(ledger: Ledger, account: Account, candidates: array<Candidate>, day: Day,
                     budgets: Id -> Budget, ads: seq<Id>)
    returns (facts: seq<Fact>)
    modifies ledger, account, candidates
    ensures var h := Hour(day, budgets, ads, old(candidates[..]));
      var e := Serve(Engine(old(ledger.Value()), old(account.Value()), [], []), h);
      ledger.Value() == e.books && account.Value() == e.account && facts == e.facts
  {
    ApplyJointBudgetAllocation(candidates, Limits(ledger.Value(), budgets, day), account.available);
    ledger.PostHour(candidates, day);
    facts := CollectFacts(candidates, ads, day);
    account.SettleSpend(day, facts);
  }

  // ----- forgetting old days is invisible -----

  /** The engine without a ledger: it looks every question up in the full history of postings. */
  datatype Ideal = Ideal(account: Prepaid, facts: seq<Fact>, posted: seq<Entry>)

  function FullLimits(posted: seq<Entry>, budgets: Id -> Budget, day: Day): Id -> Limit {
    (id: Id) => Remaining(budgets(id), SpentOn(posted, day, id), SpentEver(posted, id))
  }

  function ServeIdeal(e: Ideal, h: Hour): Ideal {
    var served := Allocated(h.candidates, FullLimits(e.posted, h.budgets, h.day), e.account.available);
    var facts := AdFacts(served, h.ads, h.day);
    Ideal(Settle(e.account, h.day, facts), e.facts + facts, e.posted + Entries(served, h.day))
  }

  function RunIdeal(e: Ideal, hours: seq<Hour>): Ideal {
    if hours == [] then e else ServeIdeal(RunIdeal(e, hours[..|hours| - 1]), hours[|hours| - 1])
  }

  predicate TimeForward(hours: seq<Hour>) { forall i, j | 0 <= i < j < |hours| :: hours[i].day <= hours[j].day }

  /** All postings are from hours up to `day`, in order. */
  predicate UpTo(es: seq<Entry>, day: Day) { InOrder(es) && forall i | 0 <= i < |es| :: es[i].day <= day }

  lemma {:induction false} TotalSame(cs: seq<Candidate>, f: Candidate -> real, g: Candidate -> real)
    requires forall c | c in cs :: f(c) == g(c)
    ensures Total(cs, f) == Total(cs, g)
  {
    if cs != [] { TotalSame(cs[..|cs| - 1], f, g); assert cs[|cs| - 1] in cs; }
  }

  ghost predicate Same(f: Id -> real, g: Id -> real) { forall id :: f(id) == g(id) }

  lemma SameCut(cs: seq<Candidate>, gs: Id -> real, ks: Id -> real, gs': Id -> real, ks': Id -> real)
    requires Same(gs, gs') && Same(ks, ks')
    ensures BudgetCut(cs, gs, ks) == BudgetCut(cs, gs', ks')
  {
    forall i | 0 <= i < |cs| ensures CutOne(cs[i], gs, ks) == CutOne(cs[i], gs', ks') {
      SameProduct(gs(cs[i].group), ks(cs[i].campaign), gs'(cs[i].group), ks'(cs[i].campaign));
    }
  }

  lemma SameWish(cs: seq<Candidate>, gs: Id -> real, gs': Id -> real, campaign: Id)
    requires Same(gs, gs')
    ensures Total(cs, CampaignWish(gs, campaign)) == Total(cs, CampaignWish(gs', campaign))
  {
    var f, g := CampaignWish(gs, campaign), CampaignWish(gs', campaign);
    forall c | c in cs ensures f(c) == g(c) {
      SameProduct(Wanted(c), gs(c.group), Wanted(c), gs'(c.group));
      assert f(c) == if c.campaign == campaign then Wanted(c) * gs(c.group) else 0.0;
      assert g(c) == if c.campaign == campaign then Wanted(c) * gs'(c.group) else 0.0;
    }
    TotalSame(cs, f, g);
  }

  /** Only the limits' values matter. */
  lemma SameAllocation(cs: seq<Candidate>, limit: Id -> Limit, limit': Id -> Limit, available: real)
    requires forall id :: limit(id) == limit'(id)
    ensures Allocated(cs, limit, available) == Allocated(cs, limit', available)
  {
    var gs, gs' := GroupScales(cs, limit), GroupScales(cs, limit');
    assert Same(gs, gs');
    var ks, ks' := CampaignScales(cs, gs, limit), CampaignScales(cs, gs', limit');
    forall id ensures ks(id) == ks'(id) { SameWish(cs, gs, gs', id); }
    SameCut(cs, gs, ks, gs', ks');
  }

  /** The engine with its pruned ledger does, hour after hour, exactly what one would do that
      remembers every posting. */
  lemma {:induction false} ForgettingIsInvisible(account: Prepaid, hours: seq<Hour>)
    requires TimeForward(hours)
    ensures var e, i := Run(Fresh(account), hours), RunIdeal(Ideal(account, [], []), hours);
      e.account == i.account && e.facts == i.facts && e.posted == i.posted && Faithful(e.books, e.posted)
    ensures hours != [] ==> UpTo(Run(Fresh(account), hours).posted, hours[|hours| - 1].day)
    ensures hours == [] ==> Run(Fresh(account), hours).posted == []
  {
    if hours != [] {
      var n := |hours| - 1;
      ForgettingIsInvisible(account, hours[..n]);
      if n > 0 { assert hours[n - 1].day <= hours[n].day; }
      ServeFaithful(Run(Fresh(account), hours[..n]), hours[n]);
    }
  }

  lemma ServeFaithful(e: Engine, h: Hour)
    requires Faithful(e.books, e.posted) && UpTo(e.posted, h.day)
    ensures var e', i := Serve(e, h), ServeIdeal(Ideal(e.account, e.facts, e.posted), h);
      e'.account == i.account && e'.facts == i.facts && e'.posted == i.posted
    ensures Faithful(Serve(e, h).books, Serve(e, h).posted) && UpTo(Serve(e, h).posted, h.day)
  {
    assert Recent(e.posted, h.day);
    SameAllocation(h.candidates, Limits(e.books, h.budgets, h.day), FullLimits(e.posted, h.budgets, h.day),
                   e.account.available);
    var es := Entries(HourServes(h, e.books, e.account.available), h.day);
    LedgerIsFaithful(e.books, e.posted, es);
  }

  // ----- budget caps over whole runs -----

  /** Ids of ad groups are never ids of campaigns. */
  ghost predicate Levelled(cs: seq<Candidate>, isGroup: Id -> bool) {
    forall c | c in cs :: isGroup(c.group) && !isGroup(c.campaign)
  }

  ghost predicate Proper(hours: seq<Hour>, isGroup: Id -> bool) {
    forall h | h in hours :: Priced(h.candidates) && Levelled(h.candidates, isGroup)
  }

  lemma {:induction false} NoCost(cs: seq<Candidate>, f: Candidate -> real)
    requires forall c | c in cs :: f(c) == 0.0
    ensures Total(cs, f) == 0.0
  {
    if cs != [] { NoCost(cs[..|cs| - 1], f); assert cs[|cs| - 1] in cs; }
  }

  lemma RemainingSane(posted: seq<Entry>, budgets: Id -> Budget, day: Day)
    ensures Sane(FullLimits(posted, budgets, day))
  {
    var limit := FullLimits(posted, budgets, day);
    forall id ensures limit(id).Finite? ==> limit(id).amount >= 0.0 {
      assert limit(id) == Remaining(budgets(id), SpentOn(posted, day, id), SpentEver(posted, id));
    }
  }

  lemma SameOwners(rs: seq<Candidate>, cs: seq<Candidate>, limit: Id -> Limit, available: real, isGroup: Id -> bool)
    requires rs == Allocated(cs, limit, available) && Levelled(cs, isGroup)
    ensures Levelled(rs, isGroup)
  {
    forall i | 0 <= i < |rs| ensures rs[i].group == cs[i].group && rs[i].campaign == cs[i].campaign {}
    forall c | c in rs ensures isGroup(c.group) && !isGroup(c.campaign) {
      var i :| 0 <= i < |rs| && rs[i] == c;
      assert cs[i] in cs;
    }
  }

  /** An hour adds to an entity at most what its budget has left. */
  lemma HourAddsAtMost(e: Ideal, h: Hour, isGroup: Id -> bool, id: Id)
    requires Priced(h.candidates) && Levelled(h.candidates, isGroup)
    ensures var limit := FullLimits(e.posted, h.budgets, h.day);
      var es := Entries(Allocated(h.candidates, limit, e.account.available), h.day);
      limit(id).Finite? ==> SpentEver(es, id) <= limit(id).amount
  {
    var limit := FullLimits(e.posted, h.budgets, h.day);
    var served := Allocated(h.candidates, limit, e.account.available);
    RemainingSane(e.posted, h.budgets, h.day);
    if limit(id).Finite? {
      HourStaysInBudget(h.candidates, limit, e.account.available, id);
      HourSpent(served, h.day, h.day, id);
      SameOwners(served, h.candidates, limit, e.account.available, isGroup);
      if isGroup(id) { NoCost(served, CampaignCost(id)); } else { NoCost(served, GroupCost(id)); }
    }
  }

  /** What a day may cost an entity is at most the largest daily budget in force on that day. */
  lemma {:induction false} DailyCapHolds(account: Prepaid, hours: seq<Hour>, isGroup: Id -> bool,
                                         id: Id, day: Day, cap: real)
    requires Proper(hours, isGroup) && cap >= 0.0
    requires forall h | h in hours && h.day == day :: h.budgets(id).Daily? && h.budgets(id).cap <= cap
    ensures SpentOn(RunIdeal(Ideal(account, [], []), hours).posted, day, id) <= cap
  {
    if hours != [] {
      var n := |hours| - 1;
      var h := hours[n];
      assert h in hours;
      DailyCapHolds(account, hours[..n], isGroup, id, day, cap);
      var e := RunIdeal(Ideal(account, [], []), hours[..n]);
      var served := Allocated(h.candidates, FullLimits(e.posted, h.budgets, h.day), e.account.available);
      HourAddsAtMost(e, h, isGroup, id);
      HourSpent(served, h.day, day, id);
      SpentAppend(e.posted, Entries(served, h.day), day, id);
    }
  }

  /** Under lifetime budgets the whole run costs an entity at most the largest of them. */
  lemma {:induction false} LifetimeCapHolds(account: Prepaid, hours: seq<Hour>, isGroup: Id -> bool, id: Id, cap: real)
    requires Proper(hours, isGroup) && cap >= 0.0
    requires forall h | h in hours :: h.budgets(id).Lifetime? && h.budgets(id).cap <= cap
    ensures SpentEver(RunIdeal(Ideal(account, [], []), hours).posted, id) <= cap
  {
    if hours != [] {
      var n := |hours| - 1;
      var h := hours[n];
      assert h in hours;
      LifetimeCapHolds(account, hours[..n], isGroup, id, cap);
      var e := RunIdeal(Ideal(account, [], []), hours[..n]);
      var served := Allocated(h.candidates, FullLimits(e.posted, h.budgets, h.day), e.account.available);
      HourAddsAtMost(e, h, isGroup, id);
      SpentAppend(e.posted, Entries(served, h.day), h.day, id);
    }
  }

  /** The same of the engine with its pruned ledger: for every ad group and campaign, every day
      and every run. */
  lemma BudgetsHold(account: Prepaid, hours: seq<Hour>, isGroup: Id -> bool, id: Id, day: Day, cap: real)
    requires TimeForward(hours) && Proper(hours, isGroup) && cap >= 0.0
    ensures var posted := Run(Fresh(account), hours).posted;
      && ((forall h | h in hours && h.day == day :: h.budgets(id).Daily? && h.budgets(id).cap <= cap)
          ==> SpentOn(posted, day, id) <= cap)
      && ((forall h | h in hours :: h.budgets(id).Lifetime? && h.budgets(id).cap <= cap)
          ==> SpentEver(posted, id) <= cap)
  {
    ForgettingIsInvisible(account, hours);
    if forall h | h in hours && h.day == day :: h.budgets(id).Daily? && h.budgets(id).cap <= cap {
      DailyCapHolds(account, hours, isGroup, id, day, cap);
    }
    if forall h | h in hours :: h.budgets(id).Lifetime? && h.budgets(id).cap <= cap {
      LifetimeCapHolds(account, hours, isGroup, id, cap);
    }
  }

  // ----- the prepaid balance -----

  predicate Billable(h: Hour) {
    Priced(h.candidates) && forall i, j | 0 <= i < j < |h.ads| :: h.ads[i] != h.ads[j]
  }

  lemma TruncateLowers(x: real)
    requires x >= 0.0
    ensures 0.0 <= Truncate4(x) <= x
  {
    var n := (x * 10000.0).Floor;
    assert n as real <= x * 10000.0;
    assert n >= 0;
  }

  /** What the ads of a list spend together. */
  function AdTotals(cs: seq<Candidate>, ads: seq<Id>): real {
    if ads == [] then 0.0 else AdTotals(cs, ads[..|ads| - 1]) + Total(cs, AdCost(ads[|ads| - 1]))
  }

  lemma {:induction false} AdTotalsSnoc(cs: seq<Candidate>, c: Candidate, ads: seq<Id>)
    requires c.cost >= 0.0 && c.final >= 0
    requires forall i, j | 0 <= i < j < |ads| :: ads[i] != ads[j]
    ensures AdTotals(cs + [c], ads) == AdTotals(cs, ads) + if c.ad in ads then Spend(c) else 0.0
  {
    if ads != [] {
      var n := |ads| - 1;
      AdTotalsSnoc(cs, c, ads[..n]);
      assert (cs + [c])[..|cs|] == cs && (cs + [c])[|cs|] == c;
      assert ads == ads[..n] + [ads[n]];
    }
  }

  lemma {:induction false} NothingYet(ads: seq<Id>)
    ensures AdTotals([], ads) == 0.0
  {
    if ads != [] { NothingYet(ads[..|ads| - 1]); }
  }

  /** No candidate is counted twice: the ads together spend at most what all candidates cost. */
  lemma {:induction false} AdTotalsBound(cs: seq<Candidate>, ads: seq<Id>)
    requires Served(cs) && forall i, j | 0 <= i < j < |ads| :: ads[i] != ads[j]
    ensures AdTotals(cs, ads) <= Total(cs, Cost())
  {
    if cs == [] {
      NothingYet(ads);
    } else {
      var n := |cs| - 1;
      var c := cs[n];
      assert c in cs && cs == cs[..n] + [c];
      AdTotalsBound(cs[..n], ads);
      AdTotalsSnoc(cs[..n], c, ads);
      NonNegative(c.final as real, c.cost);
    }
  }

  lemma AdCostNonNegative(cs: seq<Candidate>, ad: Id)
    requires Served(cs)
    ensures Total(cs, AdCost(ad)) >= 0.0
  {
    forall c | c in cs ensures AdCost(ad)(c) >= 0.0 { NonNegative(c.final as real, c.cost); }
    TotalNonNegative(cs, AdCost(ad));
  }

  /** The facts report spends that are not negative and, truncated, sum to no more than the ads spent. */
  lemma {:induction false} FactsBound(cs: seq<Candidate>, ads: seq<Id>, day: Day)
    requires Served(cs)
    ensures var facts := AdFacts(cs, ads, day);
      0.0 <= FactSpend(facts) <= AdTotals(cs, ads) && forall f | f in facts :: f.spend >= 0.0 && f.day == day
  {
    if ads != [] {
      var n := |ads| - 1;
      FactsBound(cs, ads[..n], day);
      AdCostNonNegative(cs, ads[n]);
      TruncateLowers(Total(cs, AdCost(ads[n])));
      var facts := AdFacts(cs, ads, day);
      assert facts[..n] == AdFacts(cs, ads[..n], day) && facts == facts[..n] + [facts[n]];
    }
  }

  /** An hour reports, and so settles, at most the balance. */
  lemma HourReports(h: Hour, books: Books, available: real)
    requires Billable(h) && available >= 0.0
    ensures var facts := AdFacts(HourServes(h, books, available), h.ads, h.day);
      0.0 <= FactSpend(facts) <= available && forall f | f in facts :: f.spend >= 0.0 && f.day == h.day
  {
    var limit := Limits(books, h.budgets, h.day);
    var served := HourServes(h, books, available);
    LimitsSane(books, h.budgets, h.day);
    AllocationLowers(h.candidates, limit, available);
    forall c | c in served ensures c.cost >= 0.0 && c.final >= 0 {}
    HourStaysWithinBalance(h.candidates, limit, available);
    AdTotalsBound(served, h.ads);
    FactsBound(served, h.ads, h.day);
  }

  lemma LimitsSane(books: Books, budgets: Id -> Budget, day: Day)
    ensures Sane(Limits(books, budgets, day))
  {
    var limit := Limits(books, budgets, day);
    forall id ensures limit(id).Finite? ==> limit(id).amount >= 0.0 {
      assert limit(id) == Remaining(budgets(id), Look(books.daily, Key(day, id)), Look(books.lifetime, id));
    }
  }

  lemma {:induction false} FactSpendAppend(fs: seq<Fact>, gs: seq<Fact>)
    ensures FactSpend(fs + gs) == FactSpend(fs) + FactSpend(gs)
  {
    if gs == [] {
      assert fs + gs == fs;
    } else {
      FactSpendAppend(fs, gs[..|gs| - 1]);
      assert (fs + gs)[..|fs + gs| - 1] == fs + gs[..|gs| - 1];
    }
  }

  /** Over every run the balance never goes negative, and what leaves it, what leaves the cash
      and what the facts report are one and the same amount. */
  lemma {:induction false} PrepaidIsConserved(start: Engine, hours: seq<Hour>)
    requires start.account.available >= 0.0 && forall h | h in hours :: Billable(h)
    ensures var e := Run(start, hours); var spent := FactSpend(e.facts) - FactSpend(start.facts);
      && e.account.available >= 0.0 && spent >= 0.0
      && start.account.available - e.account.available == spent
      && start.account.cash - e.account.cash == spent
  {
    if hours != [] {
      var n := |hours| - 1;
      var h := hours[n];
      assert h in hours;
      PrepaidIsConserved(start, hours[..n]);
      var e := Run(start, hours[..n]);
      HourReports(h, e.books, e.account.available);
      FactSpendAppend(e.facts, AdFacts(HourServes(h, e.books, e.account.available), h.ads, h.day));
    }
  }

  // ----- what is served is what is paid for -----

  lemma TruncatedWhole(x: real) returns (n: nat)
    requires x >= 0.0
    ensures Truncate4(x) == n as real / 10000.0 && n as real / 10000.0 <= x < (n + 1) as real / 10000.0
  {
    n := (x * 10000.0).Floor;
  }

  /** An ad's fact reports what its candidates were served for, down to whole ten-thousandths. */
  lemma FactTellsSpend(cs: seq<Candidate>, ads: seq<Id>, day: Day, i: nat) returns (n: nat)
    requires Served(cs) && i < |ads|
    ensures var f := AdFacts(cs, ads, day)[i];
      && f.ad == ads[i] && f.day == day && f.spend == n as real / 10000.0
      && f.spend <= Total(cs, AdCost(ads[i])) < f.spend + 0.0001
  {
    AdCostNonNegative(cs, ads[i]);
    n := TruncatedWhole(Total(cs, AdCost(ads[i])));
  }

  /** All that was ever posted for ad groups; the same is posted for campaigns. */
  function PostedTotal(es: seq<Entry>): real {
    if es == [] then 0.0 else PostedTotal(es[..|es| - 1]) + es[|es| - 1].amount
  }

  lemma {:induction false} PostedIsCost(cs: seq<Candidate>, day: Day)
    ensures PostedTotal(Entries(cs, day)) == Total(cs, Cost())
  {
    if cs != [] {
      var n := |cs| - 1;
      PostedIsCost(cs[..n], day);
      assert Entries(cs, day)[..n] == Entries(cs[..n], day);
    }
  }

  lemma {:induction false} PostedAppend(es: seq<Entry>, more: seq<Entry>)
    ensures PostedTotal(es + more) == PostedTotal(es) + PostedTotal(more)
  {
    if more == [] {
      assert es + more == es;
    } else {
      PostedAppend(es, more[..|more| - 1]);
      assert (es + more)[..|es + more| - 1] == es + more[..|more| - 1];
    }
  }

  predicate AllListed(cs: seq<Candidate>, ads: seq<Id>) { forall c | c in cs :: c.ad in ads }

  /** When every candidate's ad is listed, the ads together spend what all candidates cost. */
  lemma {:induction false} AdTotalsExact(cs: seq<Candidate>, ads: seq<Id>)
    requires Served(cs) && AllListed(cs, ads) && forall i, j | 0 <= i < j < |ads| :: ads[i] != ads[j]
    ensures AdTotals(cs, ads) == Total(cs, Cost())
  {
    if cs == [] {
      NothingYet(ads);
    } else {
      var n := |cs| - 1;
      var c := cs[n];
      assert c in cs && cs == cs[..n] + [c];
      AdTotalsExact(cs[..n], ads);
      AdTotalsSnoc(cs[..n], c, ads);
    }
  }

  /** `reported` misses `spent` by less than a ten-thousandth for each of `n` facts. */
  predicate Truncated(spent: real, reported: real, n: nat) {
    reported <= spent <= reported + 0.0001 * n as real && (n > 0 ==> spent < reported + 0.0001 * n as real)
  }

  lemma TruncatedSum(a: real, x: real, n: nat, b: real, y: real, m: nat)
    requires Truncated(a, x, n) && Truncated(b, y, m)
    ensures Truncated(a + b, x + y, n + m)
  {}

  lemma {:induction false} FactsMissLittle(cs: seq<Candidate>, ads: seq<Id>, day: Day)
    requires Served(cs)
    ensures Truncated(AdTotals(cs, ads), FactSpend(AdFacts(cs, ads, day)), |ads|)
  {
    if ads != [] {
      var n := |ads| - 1;
      FactsMissLittle(cs, ads[..n], day);
      var whole := FactTellsSpend(cs, ads, day, n);
      var facts := AdFacts(cs, ads, day);
      assert facts[..n] == AdFacts(cs, ads[..n], day) && facts == facts[..n] + [facts[n]];
      TruncatedSum(AdTotals(cs, ads[..n]), FactSpend(facts[..n]), n, Total(cs, AdCost(ads[n])), facts[n].spend, 1);
    }
  }

  lemma HourAccounted(h: Hour, books: Books, available: real)
    requires Billable(h) && AllListed(h.candidates, h.ads)
    ensures var served := HourServes(h, books, available);
      Truncated(PostedTotal(Entries(served, h.day)), FactSpend(AdFacts(served, h.ads, h.day)), |h.ads|)
  {
    var limit, served := Limits(books, h.budgets, h.day), HourServes(h, books, available);
    LimitsSane(books, h.budgets, h.day);
    AllocationLowers(h.candidates, limit, available);
    forall c | c in served ensures c.cost >= 0.0 && c.final >= 0 {}
    SameAds(served, h.candidates, limit, available, h.ads);
    PostedIsCost(served, h.day);
    AdTotalsExact(served, h.ads);
    FactsMissLittle(served, h.ads, h.day);
  }

  lemma SameAds(rs: seq<Candidate>, cs: seq<Candidate>, limit: Id -> Limit, available: real, ads: seq<Id>)
    requires rs == Allocated(cs, limit, available) && AllListed(cs, ads)
    ensures AllListed(rs, ads)
  {
    forall i | 0 <= i < |rs| ensures rs[i].ad == cs[i].ad {}
    forall c | c in rs ensures c.ad in ads {
      var i :| 0 <= i < |rs| && rs[i] == c;
      assert cs[i] in cs;
    }
  }

  /** Nothing is delivered for free: over every run, what the ledger holds is what the facts report
      and what has left the balance and the cash, but for less than a ten-thousandth per fact. */
  lemma {:induction false} ServedIsPaid(account: Prepaid, hours: seq<Hour>)
    requires account.available >= 0.0
    requires forall h | h in hours :: Billable(h) && AllListed(h.candidates, h.ads)
    ensures var e := Run(Fresh(account), hours);
      && Truncated(PostedTotal(e.posted), FactSpend(e.facts), |e.facts|)
      && Truncated(PostedTotal(e.posted), account.available - e.account.available, |e.facts|)
      && Truncated(PostedTotal(e.posted), account.cash - e.account.cash, |e.facts|)
  {
    PrepaidIsConserved(Fresh(account), hours);
    if hours != [] {
      var n := |hours| - 1;
      var h := hours[n];
      assert h in hours;
      ServedIsPaid(account, hours[..n]);
      HourIsPaid(Run(Fresh(account), hours[..n]), h);
    }
  }

  lemma HourIsPaid(e: Engine, h: Hour)
    requires Billable(h) && AllListed(h.candidates, h.ads)
    requires Truncated(PostedTotal(e.posted), FactSpend(e.facts), |e.facts|)
    ensures var t := Serve(e, h); Truncated(PostedTotal(t.posted), FactSpend(t.facts), |t.facts|)
  {
    var served := HourServes(h, e.books, e.account.available);
    var facts, entries := AdFacts(served, h.ads, h.day), Entries(served, h.day);
    HourAccounted(h, e.books, e.account.available);
    FactSpendAppend(e.facts, facts);
    PostedAppend(e.posted, entries);
    TruncatedSum(PostedTotal(e.posted), FactSpend(e.facts), |e.facts|, PostedTotal(entries), FactSpend(facts), |facts|);
  }

  // ----- the daily bills -----

  function Count(bills: seq<Bill>, id: BillId): nat {
    if bills == [] then 0 else (if bills[0].id == id then 1 else 0) + Count(bills[1..], id)
  }

  function Due(bills: seq<Bill>, id: BillId): real {
    if bills == [] then 0.0 else (if bills[0].id == id then bills[0].amount else 0.0) + Due(bills[1..], id)
  }

  function DaySpend(facts: seq<Fact>, day: Day): real {
    if facts == [] then 0.0
    else DaySpend(facts[..|facts| - 1], day) + if facts[|facts| - 1].day == day then facts[|facts| - 1].spend else 0.0
  }

  lemma {:induction false} ChargeBills(bills: seq<Bill>, id: BillId, spend: real, other: BillId)
    ensures var r := Charge(bills, id, spend);
      && Due(r, other) == Due(bills, other) - (if other == id then spend else 0.0)
      && Count(r, other) == if other == id && Count(bills, id) == 0 then 1 else Count(bills, other)
  {
    if bills != [] && bills[0].id != id { ChargeBills(bills[1..], id, spend, other); }
  }

  lemma {:induction false} DaySpendAppend(fs: seq<Fact>, gs: seq<Fact>, today: Day, day: Day)
    requires forall g | g in gs :: g.day == today
    ensures DaySpend(fs + gs, day) == DaySpend(fs, day) + if day == today then FactSpend(gs) else 0.0
  {
    if gs == [] {
      assert fs + gs == fs;
    } else {
      DaySpendAppend(fs, gs[..|gs| - 1], today, day);
      assert (fs + gs)[..|fs + gs| - 1] == fs + gs[..|gs| - 1];
      assert gs[|gs| - 1] in gs;
    }
  }

  /** Each day that cost anything has exactly one bill, over exactly what that day's facts report;
      a day that cost nothing has none; every other bill is as it was. */
  lemma {:induction false} BillsMatchFacts(account: Prepaid, hours: seq<Hour>, id: BillId)
    requires account.available >= 0.0 && (forall h | h in hours :: Billable(h))
    requires id.Delivery? ==> Count(account.bills, id) == 0
    ensures var e := Run(Fresh(account), hours);
      if id.Delivery? then
        && DaySpend(e.facts, id.day) >= 0.0
        && Count(e.account.bills, id) == (if DaySpend(e.facts, id.day) > 0.0 then 1 else 0)
        && Due(e.account.bills, id) == -DaySpend(e.facts, id.day)
      else
        Count(e.account.bills, id) == Count(account.bills, id) && Due(e.account.bills, id) == Due(account.bills, id)
  {
    if hours == [] {
      if id.Delivery? { NoBill(account.bills, id); }
    } else {
      var n := |hours| - 1;
      var h := hours[n];
      assert h in hours;
      BillsMatchFacts(account, hours[..n], id);
      PrepaidIsConserved(Fresh(account), hours[..n]);
      var e := Run(Fresh(account), hours[..n]);
      HourReports(h, e.books, e.account.available);
      var facts := AdFacts(HourServes(h, e.books, e.account.available), h.ads, h.day);
      ChargeBills(e.account.bills, Delivery(h.day), FactSpend(facts), id);
      if id.Delivery? { DaySpendAppend(e.facts, facts, h.day, id.day); }
    }
  }

  lemma {:induction false} NoBill(bills: seq<Bill>, id: BillId)
    requires Count(bills, id) == 0
    ensures Due(bills, id) == 0.0
  {
    if bills != [] { NoBill(bills[1..], id); }
  }
}
