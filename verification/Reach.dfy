/** How many new people an hour reaches in each cohort, and which ads get the credit (the first
    half of `materializeCandidateOutcomes`). */
module Reach {
  import opened Decimals
  import opened Budgets
  import Allocation
  import Sums

  /** What the model remembers of a cohort. */
  datatype Audience = Audience(impressions: int, unique: real)

  /** One cohort's hour: the impressions of each candidate, and its ad. `novelty` stands for
      `1 - exp(-impressions / reachable)`, of which only the range is used. */
  datatype Exposure = Exposure(cohort: Id, finals: seq<nat>, ads: seq<Id>, novelty: real)

  predicate Sound(x: Exposure) { 0.0 <= x.novelty <= 1.0 && |x.ads| == |x.finals| }

  function NewPeople(impressions: int, left: real, novelty: real): int {
    Round(Min(impressions as real, Max(0.0, left) * novelty))
  }

  function Incremental(a: Audience, x: Exposure, reachable: nat): int {
    NewPeople(Allocation.Sum(x.finals), reachable as real - a.unique, x.novelty)
  }

  /** The new people, divided between candidates by their impressions. */
  function Credit(a: Audience, x: Exposure, reachable: nat): (r: seq<int>)
    ensures |r| == |x.finals|
  {
    var total := Allocation.Sum(x.finals);
    Allocation.Allocate(Incremental(a, x, reachable), x.finals, if total > 1 then total else 1)
  }

  function Grown(a: Audience, impressions: int, people: int, reachable: nat): Audience {
    Audience(a.impressions + impressions, Min(reachable as real, a.unique + people as real))
  }

  function Exposed(a: Audience, x: Exposure, reachable: nat): Audience {
    Grown(a, Allocation.Sum(x.finals), Incremental(a, x, reachable), reachable)
  }

  function Known(m: map<Id, Audience>, cohort: Id): Audience {
    if cohort in m then m[cohort] else Audience(0, 0.0)
  }

  class Model {
    var cohorts: map<Id, Audience>

    method Expose(x: Exposure, reachable: nat) returns (reach: array<int>)
      requires x.finals != []
      modifies this
      ensures fresh(reach) && reach[..] == Credit(Known(old(cohorts), x.cohort), x, reachable)
      ensures cohorts == old(cohorts)[x.cohort := Exposed(Known(old(cohorts), x.cohort), x, reachable)]
    {
      var total := 0;
      for i := 0 to |x.finals|
        invariant total == Allocation.Sum(x.finals[..i])
      {
        total := total + x.finals[i];
        assert x.finals[..i + 1][..i] == x.finals[..i];
      }
      assert x.finals[..|x.finals|] == x.finals;
      var state := Known(cohorts, x.cohort);
      var incremental := NewPeople(total, reachable as real - state.unique, x.novelty);
      assert incremental == Incremental(state, x, reachable);
      reach := Allocation.ProportionalIntegerAllocation(incremental, x.finals, if total > 1 then total else 1);
      cohorts := cohorts[x.cohort := Grown(state, total, incremental, reachable)];
    }
  }

  // ----- a run of exposures -----

  function Run(m: map<Id, Audience>, xs: seq<Exposure>, reachable: Id -> nat): map<Id, Audience> {
    if xs == [] then m
    else
      var earlier, x := Run(m, xs[..|xs| - 1], reachable), xs[|xs| - 1];
      earlier[x.cohort := Exposed(Known(earlier, x.cohort), x, reachable(x.cohort))]
  }

  /** People of a cohort whose reach is counted in the facts of an ad. */
  datatype Share = Share(cohort: Id, ad: Id, people: int)

  function SharesOf(x: Exposure, credit: seq<int>): seq<Share>
    requires |credit| == |x.finals| == |x.ads|
  {
    seq(|credit|, i requires 0 <= i < |credit| => Share(x.cohort, x.ads[i], credit[i]))
  }

  /** All the reach facts were ever given, from a fresh model on. */
  function Shares(xs: seq<Exposure>, reachable: Id -> nat): seq<Share>
    requires forall x | x in xs :: Sound(x)
  {
    if xs == [] then []
    else
      var before, x := xs[..|xs| - 1], xs[|xs| - 1];
      assert x in xs && Sound(x);
      Shares(before, reachable)
      + SharesOf(x, Credit(Known(Run(map[], before, reachable), x.cohort), x, reachable(x.cohort)))
  }

  const COUNTING: Sums.Adding<int> := Sums.Adding(0, (a: int, b: int) => a + b)
  const People: Share -> int := (s: Share) => s.people
  const CohortOf: Share -> Id := (s: Share) => s.cohort
  const AdOf: Share -> Id := (s: Share) => s.ad
  const All: Share -> bool := (s: Share) => true

  /** What the facts count of a cohort's people, and what the facts of an ad count. */
  function Credited(shares: seq<Share>, cohort: Id): int {
    Sums.Sum(COUNTING, shares, People, Sums.Class(All, CohortOf, cohort))
  }

  function FactReach(shares: seq<Share>, ad: Id): int {
    Sums.Sum(COUNTING, shares, People, Sums.Class(All, AdOf, ad))
  }

  lemma {:induction false} SharesAddUp(x: Exposure, credit: seq<int>, keep: Share -> bool, n: nat)
    requires |credit| == |x.finals| == |x.ads| && n <= |credit|
    requires forall s | s in SharesOf(x, credit) :: keep(s)
    ensures Sums.Sum(COUNTING, SharesOf(x, credit)[..n], People, keep) == Allocation.Sum(credit[..n])
  {
    if n > 0 {
      SharesAddUp(x, credit, keep, n - 1);
      assert SharesOf(x, credit)[..n] == SharesOf(x, credit)[..n - 1] + [SharesOf(x, credit)[n - 1]];
      Sums.SumSnoc(COUNTING, SharesOf(x, credit)[..n - 1], SharesOf(x, credit)[n - 1], People, keep);
      assert credit[..n][..n - 1] == credit[..n - 1];
    }
  }

  /** What one exposure adds to a cohort's credit. */
  lemma CreditedMore(shares: seq<Share>, x: Exposure, credit: seq<int>, cohort: Id)
    requires |credit| == |x.finals| == |x.ads|
    ensures Credited(shares + SharesOf(x, credit), cohort)
      == Credited(shares, cohort) + if x.cohort == cohort then Allocation.Sum(credit) else 0
  {
    CountingIsLawful();
    Sums.SumAppend(COUNTING, shares, SharesOf(x, credit), People, Sums.Class(All, CohortOf, cohort));
    CreditOfExposure(x, credit, cohort);
  }

  lemma CountingIsLawful()
    ensures Sums.Lawful(COUNTING)
  {}

  lemma CreditOfExposure(x: Exposure, credit: seq<int>, cohort: Id)
    requires |credit| == |x.finals| == |x.ads|
    ensures Credited(SharesOf(x, credit), cohort) == if x.cohort == cohort then Allocation.Sum(credit) else 0
  {
    var keep := Sums.Class(All, CohortOf, cohort);
    if x.cohort == cohort {
      SharesAddUp(x, credit, keep, |credit|);
      assert SharesOf(x, credit)[..|credit|] == SharesOf(x, credit) && credit[..|credit|] == credit;
    } else {
      Sums.SumNone(COUNTING, SharesOf(x, credit), People, keep);
    }
  }

  predicate Whole(x: real) { x == x.Floor as real }

  lemma RoundWithin(x: real, low: int, high: int)
    requires low as real <= x <= high as real && x >= 0.0
    ensures low <= Round(x) <= high
  {}

  lemma SharedPart(a: real, x: real)
    requires a >= 0.0 && 0.0 <= x <= 1.0
    ensures 0.0 <= a * x <= a
  {}

  predicate Plausible(a: Audience, reachable: nat) {
    Whole(a.unique) && 0.0 <= a.unique <= reachable as real && a.unique <= a.impressions as real
  }

  lemma NewPeopleBounds(impressions: nat, left: real, room: nat, novelty: real)
    requires left == room as real && 0.0 <= novelty <= 1.0
    ensures 0 <= NewPeople(impressions, left, novelty) <= impressions
    ensures NewPeople(impressions, left, novelty) <= room
  {
    SharedPart(left, novelty);
    var y := Min(impressions as real, left * novelty);
    RoundWithin(y, 0, impressions);
    RoundWithin(y, 0, room);
  }

  /** New people are never more than the impressions or than the people left. */
  lemma IncrementalBounds(a: Audience, x: Exposure, reachable: nat)
    requires Sound(x) && Plausible(a, reachable)
    ensures 0 <= Incremental(a, x, reachable) <= Allocation.Sum(x.finals)
    ensures Incremental(a, x, reachable) <= reachable - a.unique.Floor
  {
    Allocation.SumNonnegative(x.finals);
    NewPeopleBounds(Allocation.Sum(x.finals), reachable as real - a.unique, reachable - a.unique.Floor, x.novelty);
  }

  /** `n` is the impressions, or the new share of the people left, whichever is less, rounded to
      the nearest person. */
  predicate Nearest(n: int, impressions: int, left: real, novelty: real) {
    var share := left * novelty;
    var expected := if impressions as real <= share then impressions as real else share;
    expected - 0.5 <= n as real <= expected + 0.5
  }

  lemma PeopleNearest(impressions: nat, left: real, novelty: real)
    requires left >= 0.0 && 0.0 <= novelty
    ensures Nearest(NewPeople(impressions, left, novelty), impressions, left, novelty)
  {
    NonNegative(left, novelty);
    RoundNear(Min(impressions as real, left * novelty));
  }

  lemma IncrementalIsNearest(a: Audience, x: Exposure, reachable: nat)
    requires Sound(x) && Plausible(a, reachable)
    ensures Nearest(Incremental(a, x, reachable), Allocation.Sum(x.finals), reachable as real - a.unique, x.novelty)
  {
    Allocation.SumNonnegative(x.finals);
    PeopleNearest(Allocation.Sum(x.finals), reachable as real - a.unique, x.novelty);
  }

  lemma GrownPlausible(a: Audience, impressions: int, people: int, reachable: nat)
    requires Plausible(a, reachable) && 0 <= people <= impressions && people <= reachable - a.unique.Floor
    ensures Plausible(Grown(a, impressions, people, reachable), reachable)
    ensures Grown(a, impressions, people, reachable).unique == a.unique + people as real
  {
    var k := a.unique.Floor;
    WholeSum(a.unique, k, people);
    assert (k + people) as real <= reachable as real;
    assert Grown(a, impressions, people, reachable).unique == (k + people) as real;
  }

  lemma WholeSum(u: real, k: int, n: int)
    requires u == k as real
    ensures u + n as real == (k + n) as real && Whole((k + n) as real)
  {}

  lemma SharesExact(people: nat, finals: seq<nat>, total: nat)
    requires total == Allocation.Sum(finals) && total > 0 && people <= total
    ensures var r := Allocation.Allocate(people, finals, total);
      Allocation.Sum(r) == people && Allocation.LargestRemainder(people, finals, total, r)
      && forall i | 0 <= i < |r| :: 0 <= r[i] <= finals[i]
  {
    var r := Allocation.Allocate(people, finals, total);
    Allocation.AllocateIsLargestRemainder(people, finals, total);
    forall i | 0 <= i < |r| ensures 0 <= r[i] <= finals[i] {
      Allocation.ShareNearExact(people, finals, total, r, i);
      Allocation.ShareWithinCount(people, finals, total, r, i);
    }
  }

  /** The credit adds up to the new people, is in proportion to impressions in the largest-remainder
      way, and gives no candidate more people than it has impressions. */
  lemma CreditIsExact(a: Audience, x: Exposure, reachable: nat)
    requires Sound(x) && Plausible(a, reachable)
    ensures var r := Credit(a, x, reachable);
      && Allocation.Sum(r) == Incremental(a, x, reachable)
      && (Allocation.Sum(x.finals) > 0 && Incremental(a, x, reachable) >= 0 ==>
            Allocation.LargestRemainder(Incremental(a, x, reachable), x.finals, Allocation.Sum(x.finals), r))
      && forall i | 0 <= i < |r| :: 0 <= r[i] <= x.finals[i]
  {
    var total, people := Allocation.Sum(x.finals), Incremental(a, x, reachable);
    IncrementalBounds(a, x, reachable);
    Allocation.SumNonnegative(x.finals);
    if total == 0 {
      Allocation.SumZeros(|x.finals|);
    } else {
      SharesExact(people, x.finals, total);
    }
  }

  lemma ExposedPlausible(a: Audience, x: Exposure, reachable: nat)
    requires Sound(x) && Plausible(a, reachable)
    ensures Plausible(Exposed(a, x, reachable), reachable)
    ensures Exposed(a, x, reachable).unique == a.unique + Allocation.Sum(Credit(a, x, reachable)) as real
  {
    IncrementalBounds(a, x, reachable);
    CreditIsExact(a, x, reachable);
    GrownPlausible(a, Allocation.Sum(x.finals), Incremental(a, x, reachable), reachable);
  }

  /** Starting from a fresh model: a cohort's unique people never exceed its reachable people nor
      its impressions so far, and are exactly the reach credited to all its candidates. */
  lemma {:induction false} ReachIsConserved(xs: seq<Exposure>, reachable: Id -> nat, cohort: Id)
    requires forall x | x in xs :: Sound(x)
    ensures var a := Known(Run(map[], xs, reachable), cohort);
      Plausible(a, reachable(cohort)) && a.unique == Credited(Shares(xs, reachable), cohort) as real
  {
    if xs != [] {
      var n := |xs| - 1;
      var x := xs[n];
      assert x in xs;
      ReachIsConserved(xs[..n], reachable, cohort);
      var earlier := Known(Run(map[], xs[..n], reachable), x.cohort);
      CreditedMore(Shares(xs[..n], reachable), x, Credit(earlier, x, reachable(x.cohort)), cohort);
      if x.cohort == cohort { ExposedPlausible(earlier, x, reachable(cohort)); }
    }
  }

  /** The unique people of several cohorts, added up. */
  function UniqueOf(m: map<Id, Audience>, cohorts: seq<Id>): real {
    if cohorts == [] then 0.0 else UniqueOf(m, cohorts[..|cohorts| - 1]) + Known(m, cohorts[|cohorts| - 1]).unique
  }

  /** The reach in the facts of several ads, added up. */
  function ReachOf(shares: seq<Share>, ads: seq<Id>): int {
    if ads == [] then 0 else ReachOf(shares, ads[..|ads| - 1]) + FactReach(shares, ads[|ads| - 1])
  }

  lemma {:induction false} ReachIsGroups(shares: seq<Share>, ads: seq<Id>)
    ensures ReachOf(shares, ads) == Sums.SumGroups(COUNTING, shares, People, All, AdOf, ads)
  {
    if ads != [] { ReachIsGroups(shares, ads[..|ads| - 1]); }
  }

  lemma {:induction false} UniqueIsGroups(xs: seq<Exposure>, reachable: Id -> nat, cohorts: seq<Id>)
    requires forall x | x in xs :: Sound(x)
    ensures UniqueOf(Run(map[], xs, reachable), cohorts)
      == Sums.SumGroups(COUNTING, Shares(xs, reachable), People, All, CohortOf, cohorts) as real
  {
    if cohorts != [] {
      UniqueIsGroups(xs, reachable, cohorts[..|cohorts| - 1]);
      ReachIsConserved(xs, reachable, cohorts[|cohorts| - 1]);
    }
  }

  /** All impressions a cohort was ever shown. */
  function ShownTo(xs: seq<Exposure>, cohort: Id): int {
    if xs == [] then 0
    else
      var x := xs[|xs| - 1];
      ShownTo(xs[..|xs| - 1], cohort) + if x.cohort == cohort then Allocation.Sum(x.finals) else 0
  }

  /** The model counts every impression of a cohort. */
  lemma {:induction false} ImpressionsAreCounted(xs: seq<Exposure>, reachable: Id -> nat, cohort: Id)
    ensures Known(Run(map[], xs, reachable), cohort).impressions == ShownTo(xs, cohort)
  {
    if xs != [] { ImpressionsAreCounted(xs[..|xs| - 1], reachable, cohort); }
  }

  /** Over any run, the unique people of all cohorts are exactly the reach in the facts of all ads. */
  lemma FactsCarryTheReach(xs: seq<Exposure>, reachable: Id -> nat, cohorts: seq<Id>, ads: seq<Id>)
    requires forall x | x in xs :: Sound(x)
    requires Sums.NoRepeats(cohorts) && Sums.NoRepeats(ads)
    requires forall s | s in Shares(xs, reachable) :: s.cohort in cohorts && s.ad in ads
    ensures UniqueOf(Run(map[], xs, reachable), cohorts) == ReachOf(Shares(xs, reachable), ads) as real
  {
    var shares := Shares(xs, reachable);
    UniqueIsGroups(xs, reachable, cohorts);
    ReachIsGroups(shares, ads);
    Sums.GroupsMakeUpTotal(COUNTING, shares, People, All, CohortOf, cohorts);
    Sums.GroupsMakeUpTotal(COUNTING, shares, People, All, AdOf, ads);
  }
}
