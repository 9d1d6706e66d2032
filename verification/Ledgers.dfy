/** The spend ledger that budgets are measured against (`recordSpend`, `remainingEntityBudget`),
    and the prepaid account that delivery is billed to (`settleSpend`). */
module Ledgers {
  import opened Decimals
  import opened Budgets

  type Day = int

  datatype Budget = Unlimited | Daily(cap: real) | Lifetime(cap: real)
  datatype Key = Key(day: Day, id: Id)
  datatype Books = Books(daily: map<Key, real>, lifetime: map<Id, real>)

  /** One candidate's spend, posted to its ad group and to its campaign. */
  datatype Entry = Entry(day: Day, group: Id, campaign: Id, amount: real)

  function Credit<K>(m: map<K, real>, k: K, x: real): map<K, real> { m[k := Look(m, k) + x] }

  function Prune(daily: map<Key, real>, cutoff: Day): map<Key, real> {
    map k | k in daily && k.day >= cutoff :: daily[k]
  }

  function Record(b: Books, e: Entry): Books {
    Books(Prune(Credit(Credit(b.daily, Key(e.day, e.group), e.amount), Key(e.day, e.campaign), e.amount), e.day - 2),
          Credit(Credit(b.lifetime, e.group, e.amount), e.campaign, e.amount))
  }

  function RecordAll(b: Books, es: seq<Entry>): Books {
    if es == [] then b else Record(RecordAll(b, es[..|es| - 1]), es[|es| - 1])
  }

  function Left(cap: real, spent: real): Limit { Finite(Max(0.0, cap - spent)) }

  function Remaining(budget: Budget, spentToday: real, spentEver: real): Limit {
    match budget
    case Unlimited => Infinite
    case Daily(cap) => Left(cap, spentToday)
    case Lifetime(cap) => Left(cap, spentEver)
  }

  function Limits(b: Books, budgets: Id -> Budget, day: Day): Id -> Limit {
    (id: Id) => Remaining(budgets(id), Look(b.daily, Key(day, id)), Look(b.lifetime, id))
  }

  class Ledger {
    var daily: map<Key, real>
    var lifetime: map<Id, real>

    function Value(): Books
      reads this
    {
      Books(daily, lifetime)
    }

    constructor ()
      ensures Value() == Books(map[], map[])
    {
      daily, lifetime := map[], map[];
    }

    method RecordSpend(group: Id, campaign: Id, day: Day, spend: real)
      modifies this
      ensures Value() == Record(old(Value()), Entry(day, group, campaign, spend))
    {
      daily := Credit(daily, Key(day, group), spend);
      daily := Credit(daily, Key(day, campaign), spend);
      lifetime := Credit(lifetime, group, spend);
      lifetime := Credit(lifetime, campaign, spend);
      ghost var full := daily;
      var keys := daily.Keys;
      while keys != {}
        invariant keys <= full.Keys
        invariant lifetime == Record(old(Value()), Entry(day, group, campaign, spend)).lifetime
        invariant forall k :: k in daily <==> k in full && (k in keys || k.day >= day - 2)
        invariant forall k | k in daily :: daily[k] == full[k]
        decreases keys
      {
        var key :| key in keys;
        if key.day < day - 2 { daily := daily - {key}; }
        keys := keys - {key};
      }
    }

    /** One hour's outcomes are posted candidate by candidate. */
    method PostHour(candidates: array<Candidate>, day: Day)
      modifies this
      ensures Value() == RecordAll(old(Value()), Entries(candidates[..], day))
    {
      ghost var es := Entries(candidates[..], day);
      for i := 0 to candidates.Length
        invariant Value() == RecordAll(old(Value()), es[..i])
      {
        var c := candidates[i];
        RecordSpend(c.group, c.campaign, day, Spend(c));
        assert es[i] == Entry(day, c.group, c.campaign, Spend(c));
        assert es[..i + 1][..i] == es[..i] && es[..i + 1][i] == es[i];
      }
      assert es[..candidates.Length] == es;
    }
  }

  function Entries(cs: seq<Candidate>, day: Day): (es: seq<Entry>)
    ensures |es| == |cs|
  {
    seq(|cs|, i requires 0 <= i < |cs| => Entry(day, cs[i].group, cs[i].campaign, Spend(cs[i])))
  }

  // ----- what the ledger remembers of everything ever posted -----

  function Posted(e: Entry, id: Id): real {
    (if e.group == id then e.amount else 0.0) + (if e.campaign == id then e.amount else 0.0)
  }

  /** All that was ever posted for an entity on a day. */
  function SpentOn(es: seq<Entry>, day: Day, id: Id): real {
    if es == [] then 0.0
    else SpentOn(es[..|es| - 1], day, id) + if es[|es| - 1].day == day then Posted(es[|es| - 1], id) else 0.0
  }

  function SpentEver(es: seq<Entry>, id: Id): real {
    if es == [] then 0.0 else SpentEver(es[..|es| - 1], id) + Posted(es[|es| - 1], id)
  }

  predicate InOrder(es: seq<Entry>) { forall i, j | 0 <= i < j < |es| :: es[i].day <= es[j].day }

  predicate Recent(es: seq<Entry>, day: Day) { es != [] ==> day >= es[|es| - 1].day - 2 }

  ghost predicate Faithful(b: Books, es: seq<Entry>) {
    && (forall day, id | Recent(es, day) :: Look(b.daily, Key(day, id)) == SpentOn(es, day, id))
    && forall id :: Look(b.lifetime, id) == SpentEver(es, id)
  }

  lemma SpentSnoc(es: seq<Entry>, e: Entry, day: Day, id: Id)
    ensures SpentOn(es + [e], day, id) == SpentOn(es, day, id) + if e.day == day then Posted(e, id) else 0.0
    ensures SpentEver(es + [e], id) == SpentEver(es, id) + Posted(e, id)
  {
    assert (es + [e])[..|es|] == es;
  }

  lemma RecordedOn(b: Books, es: seq<Entry>, e: Entry, day: Day, id: Id)
    requires Faithful(b, es) && (es != [] ==> es[|es| - 1].day <= e.day) && day >= e.day - 2
    ensures Look(Record(b, e).daily, Key(day, id)) == SpentOn(es + [e], day, id)
  {
    SpentSnoc(es, e, day, id);
    assert Recent(es, day);
  }

  lemma RecordedEver(b: Books, es: seq<Entry>, e: Entry, id: Id)
    requires Faithful(b, es)
    ensures Look(Record(b, e).lifetime, id) == SpentEver(es + [e], id)
  {
    SpentSnoc(es, e, e.day, id);
  }

  lemma RecordFaithful(b: Books, es: seq<Entry>, e: Entry)
    requires Faithful(b, es) && (es != [] ==> es[|es| - 1].day <= e.day)
    ensures Faithful(Record(b, e), es + [e])
  {
    var r, all := Record(b, e), es + [e];
    forall day, id | Recent(all, day) ensures Look(r.daily, Key(day, id)) == SpentOn(all, day, id) {
      assert all[|all| - 1] == e;
      RecordedOn(b, es, e, day, id);
    }
    forall id ensures Look(r.lifetime, id) == SpentEver(all, id) { RecordedEver(b, es, e, id); }
  }

  /** Deleting days older than two loses nothing a later hour could ask for: as long as time
      does not run backwards, the pruned ledger still answers every question about a recent
      day, and about whole lifetimes, as the complete history of postings would. */
  lemma {:induction false} LedgerIsFaithful(b: Books, before: seq<Entry>, es: seq<Entry>)
    requires Faithful(b, before) && InOrder(before + es)
    ensures Faithful(RecordAll(b, es), before + es)
  {
    if es == [] {
      assert before + es == before;
    } else {
      var n := |es| - 1;
      var earlier := before + es[..n];
      assert before + es == earlier + [es[n]];
      InOrderSnoc(earlier, es[n]);
      LedgerIsFaithful(b, before, es[..n]);
      RecordFaithful(RecordAll(b, es[..n]), earlier, es[n]);
    }
  }

  lemma InOrderSnoc(es: seq<Entry>, e: Entry)
    requires InOrder(es + [e])
    ensures InOrder(es) && (es != [] ==> es[|es| - 1].day <= e.day)
  {
    var all := es + [e];
    forall i, j | 0 <= i < j < |es| ensures es[i].day <= es[j].day { assert all[i].day <= all[j].day; }
    if es != [] { assert all[|es| - 1].day <= all[|es|].day; }
  }

  lemma {:induction false} SpentAppend(before: seq<Entry>, es: seq<Entry>, day: Day, id: Id)
    ensures SpentOn(before + es, day, id) == SpentOn(before, day, id) + SpentOn(es, day, id)
    ensures SpentEver(before + es, id) == SpentEver(before, id) + SpentEver(es, id)
  {
    if es == [] {
      assert before + es == before;
    } else {
      SpentAppend(before, es[..|es| - 1], day, id);
      assert (before + es)[..|before + es| - 1] == before + es[..|es| - 1];
    }
  }

  /** An hour posts to an entity exactly what its candidates cost as a group or as a campaign. */
  lemma {:induction false} HourSpent(cs: seq<Candidate>, today: Day, day: Day, id: Id)
    ensures SpentEver(Entries(cs, today), id) == Total(cs, GroupCost(id)) + Total(cs, CampaignCost(id))
    ensures SpentOn(Entries(cs, today), day, id) == if day == today then SpentEver(Entries(cs, today), id) else 0.0
  {
    if cs != [] {
      var n := |cs| - 1;
      HourSpent(cs[..n], today, day, id);
      assert Entries(cs, today)[..n] == Entries(cs[..n], today);
    }
  }

  // ----- the prepaid account -----

  datatype BillId = Delivery(day: Day) | Other(number: nat)
  datatype Bill = Bill(id: BillId, amount: real)
  datatype Fact = Fact(ad: Id, day: Day, spend: real)
  datatype Prepaid = Prepaid(cash: real, available: real, bills: seq<Bill>)

  function FactSpend(facts: seq<Fact>): real {
    if facts == [] then 0.0 else FactSpend(facts[..|facts| - 1]) + facts[|facts| - 1].spend
  }

  /** The day's bill grows, or is opened when there is none yet. */
  function Charge(bills: seq<Bill>, id: BillId, spend: real): seq<Bill> {
    if bills == [] then [Bill(id, -spend)]
    else if bills[0].id == id then [bills[0].(amount := bills[0].amount - spend)] + bills[1..]
    else [bills[0]] + Charge(bills[1..], id, spend)
  }

  function Settle(a: Prepaid, day: Day, facts: seq<Fact>): Prepaid {
    var spend := FactSpend(facts);
    if spend == 0.0 then a
    else Prepaid(a.cash - spend, a.available - spend, Charge(a.bills, Delivery(day), spend))
  }

  /** The first bill with the identifier is the one charged. */
  lemma {:induction false} ChargeAt(bills: seq<Bill>, i: nat, id: BillId, spend: real)
    requires i <= |bills| && forall k | 0 <= k < i :: bills[k].id != id
    requires i < |bills| ==> bills[i].id == id
    ensures Charge(bills, id, spend)
      == if i < |bills| then bills[i := bills[i].(amount := bills[i].amount - spend)] else bills + [Bill(id, -spend)]
  {
    if i > 0 { ChargeAt(bills[1..], i - 1, id, spend); }
  }

  class Account {
    var cash: real
    var available: real
    var transactions: seq<Bill>

    function Value(): Prepaid
      reads this
    {
      Prepaid(cash, available, transactions)
    }

    method SumSpend(facts: seq<Fact>) returns (spend: real)
      ensures spend == FactSpend(facts)
    {
      spend := 0.0;
      for i := 0 to |facts|
        invariant spend == FactSpend(facts[..i])
      {
        spend := spend + facts[i].spend;
        assert facts[..i + 1][..i] == facts[..i];
      }
      assert facts[..|facts|] == facts;
    }

    method SettleSpend(day: Day, facts: seq<Fact>)
      modifies this
      ensures Value() == Settle(old(Value()), day, facts)
    {
      var spend := SumSpend(facts);
      if spend == 0.0 { return; }
      cash := cash - spend;
      available := available - spend;
      var id := Delivery(day);
      ghost var was := transactions;
      for i := 0 to |transactions|
        invariant transactions == was && forall k | 0 <= k < i :: was[k].id != id
      {
        if transactions[i].id == id {
          ChargeAt(was, i, id, spend);
          transactions := transactions[i := transactions[i].(amount := transactions[i].amount - spend)];
          return;
        }
      }
      ChargeAt(was, |was|, id, spend);
      transactions := transactions + [Bill(id, -spend)];
    }
  }
}
