/** The sampled auctions that price a cohort's hour (`resolveCohortAuctions`). Random draws are
    parameters: who entered each sample, with what score, and how strong the outside market was. */
module Auctions {
  import opened Options
  import opened Decimals
  import opened Budgets
  import Allocation

  datatype Contender = Contender(
    predicted: real, quality: real, bid: real,
    selected: int, wins: nat, clearing: real, marketScore: real, marketSamples: nat, rivals: int,
    desired: int, final: int, cost: real)

  datatype Bid = Bid(index: nat, score: real)

  /** One sample: at most one ad of each group enters, against the best outside score. */
  datatype Draw = Draw(entries: seq<Bid>, market: real)

  /** Price constants and `math.Expm1`, of which nothing else is assumed. */
  datatype Prices = Prices(floor: real, bidToCost: real, bidScale: real, expm1: real -> real)

  predicate Sound(p: Prices) { p.floor > 0.0 && p.bidToCost > 0.0 && p.bidScale > 0.0 }

  // ----- one sample -----

  datatype Standing = Standing(winner: Option<nat>, top: real, runner: real)

  function Decide(entries: seq<Bid>, market: real): Standing {
    if entries == [] then Standing(None, market, 0.0)
    else
      var s, e := Decide(entries[..|entries| - 1], market), entries[|entries| - 1];
      if e.score > s.top then Standing(Some(e.index), e.score, s.top)
      else if e.score > s.runner then s.(runner := e.score)
      else s
  }

  /** Entry `k` is the first of the best, and better than the market. */
  predicate Leads(entries: seq<Bid>, market: real, k: nat) {
    && k < |entries| && entries[k].score > market
    && (forall j | 0 <= j < k :: entries[j].score < entries[k].score)
    && forall j | k < j < |entries| :: entries[j].score <= entries[k].score
  }

  /** `price` is the best score among everyone but entry `k`, the market included. */
  predicate BestOfOthers(entries: seq<Bid>, market: real, k: nat, price: real) {
    && market <= price
    && (forall j | 0 <= j < |entries| && j != k :: entries[j].score <= price)
    && (price == market || exists j :: 0 <= j < |entries| && j != k && entries[j].score == price)
  }

  /** The market wins exactly when nobody beats it; otherwise the first best entry wins, against
      the best score among all others. */
  lemma {:induction false} SecondPrice(entries: seq<Bid>, market: real) returns (k: nat)
    requires market >= 0.0
    ensures var s := Decide(entries, market);
      if s.winner.None? then
        s.top == market && forall j | 0 <= j < |entries| :: entries[j].score <= market
      else
        Leads(entries, market, k) && s.winner == Some(entries[k].index) && s.top == entries[k].score
        && BestOfOthers(entries, market, k, s.runner)
    ensures Decide(entries, market).winner.None? ==> 0.0 <= Decide(entries, market).runner <= market
    ensures Decide(entries, market).runner <= Decide(entries, market).top
  {
    k := 0;
    if entries != [] {
      var n := |entries| - 1;
      var earlier := entries[..n];
      k := SecondPrice(earlier, market);
      var s, t := Decide(earlier, market), Decide(entries, market);
      if entries[n].score > s.top {
        if s.winner.Some? { assert entries[k].score == s.top; }
        k := n;
      } else if s.winner.Some? {
        assert entries[k] == earlier[k];
        if s.runner != market && !(entries[n].score > s.runner) {
          var j :| 0 <= j < |earlier| && j != k && earlier[j].score == s.runner;
          assert entries[j].score == t.runner;
        }
        if entries[n].score > s.runner { assert entries[n].score == t.runner && n != k; }
      }
    }
  }

  function Value(predicted: real, quality: real): (r: real)
    ensures r > 0.0
  {
    Max(predicted * quality, TINY)
  }

  function Worth(c: Contender): real { Value(c.predicted, c.quality) }

  function Utility(runner: real, worth: real): real
    requires worth != 0.0
  {
    runner / worth
  }

  /** The bid that would just have reached a utility. */
  function RequiredBid(p: Prices, utility: real): real
    requires Sound(p)
  {
    p.expm1(utility) / p.bidScale
  }

  function Charge(p: Prices, needed: real, bid: real): real {
    Clamp(p.floor + needed * p.bidToCost, p.floor, p.floor + bid * p.bidToCost)
  }

  /** What a win costs: the price of the bid that was needed, within bounds. */
  function Price(c: Contender, p: Prices, runner: real): real
    requires Sound(p)
  {
    Charge(p, RequiredBid(p, Utility(runner, Worth(c))), c.bid)
  }

  lemma Undo(x: real, d: real, r: real)
    requires d != 0.0 && r == x / d
    ensures r * d == x
  {}

  /** The price is a second price: with `log1p` undoing `expm1`, the required bid, scaled, gives a
      contender exactly the score of the runner-up. */
  lemma RequiredBidMatches(c: Contender, p: Prices, log1p: real -> real, runner: real, scaled: real)
    requires Sound(p) && forall x :: log1p(p.expm1(x)) == x
    requires scaled == RequiredBid(p, Utility(runner, Worth(c))) * p.bidScale
    ensures log1p(scaled) * Worth(c) == runner
  {
    var u := Utility(runner, Worth(c));
    var x := p.expm1(u);
    assert log1p(x) == u;
    Undo(x, p.bidScale, RequiredBid(p, u));
    assert scaled == x;
    Undo(runner, Worth(c), u);
    SameProduct(log1p(scaled), Worth(c), u, Worth(c));
  }

  // ----- tallies over samples -----

  function Selected(c: Contender): Contender { c.(selected := c.selected + 1) }

  function Watched(c: Contender, d: Draw): Contender {
    c.(marketScore := c.marketScore + d.market, marketSamples := c.marketSamples + 1,
       rivals := c.rivals + |d.entries| - 1)
  }

  function Entered(c: Contender, i: nat, entries: seq<Bid>, d: Draw): Contender {
    if entries == [] then c
    else
      var earlier := Entered(c, i, entries[..|entries| - 1], d);
      if entries[|entries| - 1].index == i then Watched(Selected(earlier), d) else earlier
  }

  function Won(c: Contender, p: Prices, runner: real): Contender
    requires Sound(p)
  {
    c.(wins := c.wins + 1, clearing := c.clearing + Price(c, p, runner))
  }

  function Sampled(c: Contender, i: nat, d: Draw, p: Prices): Contender
    requires Sound(p)
  {
    var s := Decide(d.entries, d.market);
    var entered := Entered(c, i, d.entries, d);
    if s.winner == Some(i) then Won(entered, p, s.runner) else entered
  }

  function Tallied(c: Contender, i: nat, draws: seq<Draw>, p: Prices): Contender
    requires Sound(p)
  {
    if draws == [] then c else Sampled(Tallied(c, i, draws[..|draws| - 1], p), i, draws[|draws| - 1], p)
  }

  function MarketWins(draws: seq<Draw>): nat {
    if draws == [] then 0
    else
      var d := draws[|draws| - 1];
      MarketWins(draws[..|draws| - 1]) + if Decide(d.entries, d.market).winner.None? then 1 else 0
  }

  predicate Within(indexes: seq<nat>, n: nat) { forall k | 0 <= k < |indexes| :: indexes[k] < n }

  function Counts(cs: seq<Contender>, indexes: seq<nat>, draws: seq<Draw>, p: Prices): (r: seq<nat>)
    requires Sound(p) && Within(indexes, |cs|)
    ensures |r| == |indexes| + 1
  {
    seq(|indexes|, k requires 0 <= k < |indexes| => Tallied(cs[indexes[k]], indexes[k], draws, p).wins)
    + [MarketWins(draws)]
  }

  function RoundShare(total: int, count: int, samples: nat): int {
    if samples == 0 then 0 else Round(ExactShare(total, count, samples))
  }

  function ExactShare(total: int, count: int, samples: nat): real
    requires samples > 0
  {
    total as real * count as real / samples as real
  }

  /** The contender once its cohort's opportunities have been divided. */
  function Finished(c: Contender, share: int, opportunities: int, samples: nat, p: Prices): Contender {
    c.(desired := share, final := share, selected := RoundShare(opportunities, c.selected, samples),
       cost := if c.wins > 0 then c.clearing / c.wins as real else p.floor)
  }

  function Shares(cs: seq<Contender>, indexes: seq<nat>, opportunities: int, draws: seq<Draw>, p: Prices): (r: seq<int>)
    requires Sound(p) && Within(indexes, |cs|)
    ensures |r| == |indexes| + 1
  {
    Allocation.Allocate(opportunities, Counts(cs, indexes, draws, p), |draws|)
  }

  // ----- the method -----

  ghost predicate Distinct(indexes: seq<nat>) { forall a, b | 0 <= a < b < |indexes| :: indexes[a] != indexes[b] }

  ghost predicate Among(d: Draw, indexes: seq<nat>) {
    d.market >= 0.0 && forall e | e in d.entries :: e.index in indexes
  }

  /** One sample, played on the candidates in place. */
  method PlaySample(candidates: array<Contender>, d: Draw, p: Prices) returns (marketWon: bool)
    requires Sound(p) && forall e | e in d.entries :: e.index < candidates.Length
    modifies candidates
    ensures forall i | 0 <= i < candidates.Length :: candidates[i] == Sampled(old(candidates[i]), i, d, p)
    ensures marketWon <==> Decide(d.entries, d.market).winner.None?
  {
    for k := 0 to |d.entries|
      invariant forall i | 0 <= i < candidates.Length ::
        candidates[i] == Entered(old(candidates[i]), i, d.entries[..k], d)
    {
      assert d.entries[k] in d.entries;
      assert d.entries[..k + 1][..k] == d.entries[..k];
      var i := d.entries[k].index;
      candidates[i] := Watched(Selected(candidates[i]), d);
    }
    assert d.entries[..|d.entries|] == d.entries;
    var winner: Option<nat> := None;
    var winning, runner := d.market, 0.0;
    for k := 0 to |d.entries|
      invariant Standing(winner, winning, runner) == Decide(d.entries[..k], d.market)
      invariant winner.Some? ==> winner.value < candidates.Length
    {
      var entry := d.entries[k];
      assert entry in d.entries && d.entries[..k + 1][..k] == d.entries[..k];
      if entry.score > winning {
        runner := winning;
        winning := entry.score;
        winner := Some(entry.index);
      } else if entry.score > runner {
        runner := entry.score;
      }
    }
    marketWon := winner.None?;
    if winner.Some? {
      candidates[winner.value] := Won(candidates[winner.value], p, runner);
    }
  }

  /** `draws` holds as many samples as the configuration asks for, or as there are opportunities. */
  method ResolveCohortAuctions(candidates: array<Contender>, indexes: seq<nat>, opportunities: int,
                               auctionSamples: nat, draws: seq<Draw>, p: Prices)
    requires Sound(p) && auctionSamples >= 1 && Distinct(indexes) && Within(indexes, candidates.Length)
    requires opportunities > 0 ==> |draws| == if opportunities < auctionSamples then opportunities else auctionSamples
    requires forall d | d in draws :: Among(d, indexes)
    modifies candidates
    ensures indexes == [] || opportunities <= 0 ==> candidates[..] == old(candidates[..])
    ensures indexes != [] && opportunities > 0 ==>
      forall k | 0 <= k < |indexes| :: candidates[indexes[k]]
        == Finished(Tallied(old(candidates[indexes[k]]), indexes[k], draws, p),
                    Shares(old(candidates[..]), indexes, opportunities, draws, p)[k], opportunities, |draws|, p)
    ensures forall i | 0 <= i < candidates.Length && i !in indexes :: candidates[i] == old(candidates[i])
  {
    if indexes == [] || opportunities <= 0 { return; }
    ghost var cs := candidates[..];
    var marketWins := PlaySamples(candidates, indexes, draws, p);
    var counts := ReadWins(candidates, indexes, marketWins);
    assert counts == Counts(cs, indexes, draws, p);
    var shares := Allocation.ProportionalIntegerAllocation(opportunities, counts, |draws|);
    FinishAll(candidates, indexes, shares, opportunities, |draws|, p);
  }

  method PlaySamples(candidates: array<Contender>, indexes: seq<nat>, draws: seq<Draw>, p: Prices)
    returns (marketWins: nat)
    requires Sound(p) && Within(indexes, candidates.Length) && forall d | d in draws :: Among(d, indexes)
    modifies candidates
    ensures forall i | 0 <= i < candidates.Length :: candidates[i] == Tallied(old(candidates[i]), i, draws, p)
    ensures forall i | 0 <= i < candidates.Length && i !in indexes :: candidates[i] == old(candidates[i])
    ensures marketWins == MarketWins(draws)
  {
    ghost var cs := candidates[..];
    marketWins := 0;
    for s := 0 to |draws|
      invariant forall i | 0 <= i < candidates.Length :: candidates[i] == Tallied(cs[i], i, draws[..s], p)
      invariant marketWins == MarketWins(draws[..s])
    {
      assert draws[s] in draws && draws[..s + 1][..s] == draws[..s];
      var marketWon := PlaySample(candidates, draws[s], p);
      if marketWon { marketWins := marketWins + 1; }
    }
    assert draws[..|draws|] == draws;
    forall i | 0 <= i < candidates.Length && i !in indexes ensures candidates[i] == cs[i] {
      Untouched(cs[i], i, indexes, draws, p);
    }
  }

  method ReadWins(candidates: array<Contender>, indexes: seq<nat>, marketWins: nat) returns (counts: seq<nat>)
    requires Within(indexes, candidates.Length)
    ensures |counts| == |indexes| + 1 && counts[|indexes|] == marketWins
    ensures forall k | 0 <= k < |indexes| :: counts[k] == candidates[indexes[k]].wins
  {
    counts := [];
    for k := 0 to |indexes|
      invariant |counts| == k && forall j | 0 <= j < k :: counts[j] == candidates[indexes[j]].wins
    {
      counts := counts + [candidates[indexes[k]].wins];
    }
    counts := counts + [marketWins];
  }

  method FinishAll(candidates: array<Contender>, indexes: seq<nat>, shares: array<int>, opportunities: int,
                   samples: nat, p: Prices)
    requires Distinct(indexes) && Within(indexes, candidates.Length) && shares.Length > |indexes|
    modifies candidates
    ensures forall k | 0 <= k < |indexes| ::
      candidates[indexes[k]] == Finished(old(candidates[indexes[k]]), old(shares[k]), opportunities, samples, p)
    ensures forall i | 0 <= i < candidates.Length && i !in indexes :: candidates[i] == old(candidates[i])
  {
    for k := 0 to |indexes|
      invariant forall j | 0 <= j < k ::
        candidates[indexes[j]] == Finished(old(candidates[indexes[j]]), old(shares[j]), opportunities, samples, p)
      invariant forall i | 0 <= i < candidates.Length && i !in indexes[..k] :: candidates[i] == old(candidates[i])
    {
      assert indexes[k] !in indexes[..k];
      candidates[indexes[k]] := Finished(candidates[indexes[k]], shares[k], opportunities, samples, p);
      assert indexes[..k + 1] == indexes[..k] + [indexes[k]];
    }
  }

  lemma {:induction false} NotEntered(c: Contender, i: nat, entries: seq<Bid>, d: Draw)
    requires forall e | e in entries :: e.index != i
    ensures Entered(c, i, entries, d) == c
  {
    if entries != [] {
      NotEntered(c, i, entries[..|entries| - 1], d);
      assert entries[|entries| - 1] in entries;
    }
  }

  lemma {:induction false} Untouched(c: Contender, i: nat, indexes: seq<nat>, draws: seq<Draw>, p: Prices)
    requires Sound(p) && i !in indexes && forall d | d in draws :: Among(d, indexes)
    ensures Tallied(c, i, draws, p) == c
  {
    if draws != [] {
      var d := draws[|draws| - 1];
      assert d in draws;
      Untouched(c, i, indexes, draws[..|draws| - 1], p);
      NotEntered(c, i, d.entries, d);
      WinnerEntered(d, indexes);
    }
  }

  lemma WinnerEntered(d: Draw, indexes: seq<nat>)
    requires Among(d, indexes)
    ensures var w := Decide(d.entries, d.market).winner; w.Some? ==> w.value in indexes
  {
    var k := SecondPrice(d.entries, d.market);
    if Decide(d.entries, d.market).winner.Some? { assert d.entries[k] in d.entries; }
  }

  // ----- every sample has one winner, so every opportunity goes somewhere -----

  function Bump(counts: seq<int>, indexes: seq<nat>, w: Option<nat>): (r: seq<int>)
    requires |counts| == |indexes| + 1
    ensures |r| == |counts|
  {
    seq(|counts|, k requires 0 <= k < |counts| =>
      counts[k] + if (if k < |indexes| then w == Some(indexes[k]) else w.None?) then 1 else 0)
  }

  /** A winner among distinct indexes is counted once. */
  lemma BumpSum(counts: seq<int>, indexes: seq<nat>, w: Option<nat>)
    requires |counts| == |indexes| + 1 && Distinct(indexes) && (w.Some? ==> w.value in indexes)
    ensures Allocation.Sum(Bump(counts, indexes, w)) == Allocation.Sum(counts) + 1
  {
    var at := if w.None? then |indexes| else var k :| 0 <= k < |indexes| && indexes[k] == w.value; k;
    assert Bump(counts, indexes, w) == counts[at := counts[at] + 1];
    Allocation.SumUpdate(counts, at, counts[at] + 1);
  }

  lemma {:induction false} EnteredWins(c: Contender, i: nat, entries: seq<Bid>, d: Draw)
    ensures var r := Entered(c, i, entries, d);
      r == c.(selected := r.selected, marketScore := r.marketScore, marketSamples := r.marketSamples,
              rivals := r.rivals)
  {
    if entries != [] { EnteredWins(c, i, entries[..|entries| - 1], d); }
  }

  predicate Blank(c: Contender) { c.wins == 0 && c.clearing == 0.0 && c.bid >= 0.0 }

  predicate AllBlank(cs: seq<Contender>, indexes: seq<nat>) {
    Within(indexes, |cs|) && forall k | 0 <= k < |indexes| :: Blank(cs[indexes[k]])
  }

  /** Each sample is won exactly once: by one contender or by the market. */
  lemma {:induction false} WinsAddUp(cs: seq<Contender>, indexes: seq<nat>, draws: seq<Draw>, p: Prices)
    requires Sound(p) && Distinct(indexes) && AllBlank(cs, indexes)
    requires forall d | d in draws :: Among(d, indexes)
    ensures Allocation.Sum(Counts(cs, indexes, draws, p)) == |draws|
  {
    if draws == [] {
      assert Counts(cs, indexes, draws, p) == seq(|indexes| + 1, _ => 0);
      Allocation.SumZeros(|indexes| + 1);
    } else {
      var n := |draws| - 1;
      var d := draws[n];
      assert d in draws;
      WinsAddUp(cs, indexes, draws[..n], p);
      WinnerEntered(d, indexes);
      var w := Decide(d.entries, d.market).winner;
      var earlier := Counts(cs, indexes, draws[..n], p);
      assert Counts(cs, indexes, draws, p) == Bump(earlier, indexes, w) by {
        forall k | 0 <= k < |indexes|
          ensures Counts(cs, indexes, draws, p)[k] == Bump(earlier, indexes, w)[k]
        {
          EnteredWins(Tallied(cs[indexes[k]], indexes[k], draws[..n], p), indexes[k], d.entries, d);
        }
      }
      BumpSum(earlier, indexes, w);
    }
  }

  /** The cohort's opportunities are divided completely between its contenders and the market, in
      the largest-remainder way by the samples each won; who won nothing gets nothing. */
  lemma OpportunitiesAreShared(cs: seq<Contender>, indexes: seq<nat>, opportunities: nat, draws: seq<Draw>, p: Prices)
    requires Sound(p) && Distinct(indexes) && AllBlank(cs, indexes)
    requires forall d | d in draws :: Among(d, indexes)
    requires draws != []
    ensures var counts, shares := Counts(cs, indexes, draws, p), Shares(cs, indexes, opportunities, draws, p);
      && Allocation.LargestRemainder(opportunities, counts, |draws|, shares)
      && Allocation.Sum(shares[..|indexes|]) + shares[|indexes|] == opportunities
      && forall k | 0 <= k < |shares| :: 0 <= shares[k] <= opportunities && (counts[k] == 0 ==> shares[k] == 0)
  {
    var counts, shares := Counts(cs, indexes, draws, p), Shares(cs, indexes, opportunities, draws, p);
    WinsAddUp(cs, indexes, draws, p);
    Allocation.AllocateIsLargestRemainder(opportunities, counts, |draws|);
    forall k | 0 <= k < |shares| ensures 0 <= shares[k] && (counts[k] == 0 ==> shares[k] == 0) {
      Allocation.ShareNearExact(opportunities, counts, |draws|, shares, k);
    }
    Allocation.SumNonnegative(shares);
    assert forall k | 0 <= k < |shares| :: shares[k] in shares;
  }

  // ----- prices -----

  predicate PricedWithin(c: Contender, p: Prices) {
    p.floor * c.wins as real <= c.clearing <= (p.floor + c.bid * p.bidToCost) * c.wins as real
  }

  lemma PriceBounds(c: Contender, p: Prices, runner: real)
    requires Sound(p) && c.bid >= 0.0
    ensures p.floor <= Price(c, p, runner) <= p.floor + c.bid * p.bidToCost
  {
    NonNegative(c.bid, p.bidToCost);
  }

  lemma OneMore(low: real, high: real, n: nat, total: real, x: real)
    requires low * n as real <= total <= high * n as real && low <= x <= high
    ensures low * (n + 1) as real <= total + x <= high * (n + 1) as real
  {
    assert low * (n + 1) as real == low * n as real + low && high * (n + 1) as real == high * n as real + high;
  }

  lemma WonWithin(c: Contender, p: Prices, runner: real)
    requires Sound(p) && c.bid >= 0.0 && PricedWithin(c, p)
    ensures PricedWithin(Won(c, p, runner), p)
  {
    PriceBounds(c, p, runner);
    OneMore(p.floor, p.floor + c.bid * p.bidToCost, c.wins, c.clearing, Price(c, p, runner));
  }

  lemma {:induction false} TalliedWithin(c: Contender, i: nat, draws: seq<Draw>, p: Prices)
    requires Sound(p) && Blank(c)
    ensures PricedWithin(Tallied(c, i, draws, p), p) && Tallied(c, i, draws, p).bid == c.bid
  {
    if draws != [] {
      var n := |draws| - 1;
      var d, t := draws[n], Tallied(c, i, draws[..n], p);
      TalliedWithin(c, i, draws[..n], p);
      EnteredWins(t, i, d.entries, d);
      var s := Decide(d.entries, d.market);
      if s.winner == Some(i) { WonWithin(Entered(t, i, d.entries, d), p, s.runner); }
    }
  }

  lemma Average(low: real, high: real, n: nat, total: real)
    requires n > 0 && low * n as real <= total <= high * n as real
    ensures low <= total / n as real <= high
  {
    var q := total / n as real;
    assert q * n as real == total;
    if q < low { Smaller(q, low, n as real); }
    if q > high { Smaller(high, q, n as real); }
  }

  lemma Smaller(a: real, b: real, n: real)
    requires a < b && n > 0.0
    ensures a * n < b * n
  {}

  /** What a contender pays for an impression is at least the floor, and never more than its own
      bid is worth. */
  lemma CostWithinBid(c: Contender, i: nat, draws: seq<Draw>, p: Prices, share: int, opportunities: int)
    requires Sound(p) && Blank(c)
    ensures var r := Finished(Tallied(c, i, draws, p), share, opportunities, |draws|, p);
      p.floor <= r.cost <= p.floor + c.bid * p.bidToCost && r.cost > 0.0
  {
    var t := Tallied(c, i, draws, p);
    TalliedWithin(c, i, draws, p);
    NonNegative(c.bid, p.bidToCost);
    if t.wins > 0 { Average(p.floor, p.floor + c.bid * p.bidToCost, t.wins, t.clearing); }
  }

  /** What all the samples a contender won charged it. */
  function Charged(c: Contender, i: nat, draws: seq<Draw>, p: Prices): real
    requires Sound(p)
  {
    if draws == [] then 0.0
    else
      var s := Decide(draws[|draws| - 1].entries, draws[|draws| - 1].market);
      Charged(c, i, draws[..|draws| - 1], p) + if s.winner == Some(i) then Price(c, p, s.runner) else 0.0
  }

  lemma {:induction false} ClearingIsCharged(c: Contender, i: nat, draws: seq<Draw>, p: Prices)
    requires Sound(p)
    ensures var r := Tallied(c, i, draws, p);
      && r.clearing == c.clearing + Charged(c, i, draws, p)
      && r.bid == c.bid && r.predicted == c.predicted && r.quality == c.quality
  {
    if draws != [] {
      var n := |draws| - 1;
      var d, t := draws[n], Tallied(c, i, draws[..n], p);
      ClearingIsCharged(c, i, draws[..n], p);
      EnteredWins(t, i, d.entries, d);
      EnteredSame(t, i, d, p, Decide(d.entries, d.market).runner);
    }
  }

  /** An impression costs the average of what the won samples charged, and the floor without a win. */
  lemma CostIsAverage(c: Contender, i: nat, draws: seq<Draw>, p: Prices, share: int, opportunities: int)
    requires Sound(p) && Blank(c)
    ensures var t := Tallied(c, i, draws, p); var r := Finished(t, share, opportunities, |draws|, p);
      && r.desired == share && r.final == share
      && r.cost == if t.wins > 0 then Charged(c, i, draws, p) / t.wins as real else p.floor
  {
    ClearingIsCharged(c, i, draws, p);
  }

  /** The samples a contender entered, once for every entry. */
  function EntriesOf(i: nat, entries: seq<Bid>, d: Draw): seq<Draw> {
    if entries == [] then []
    else EntriesOf(i, entries[..|entries| - 1], d) + if entries[|entries| - 1].index == i then [d] else []
  }

  function SamplesOf(i: nat, draws: seq<Draw>): seq<Draw> {
    if draws == [] then []
    else SamplesOf(i, draws[..|draws| - 1]) + EntriesOf(i, draws[|draws| - 1].entries, draws[|draws| - 1])
  }

  function Markets(ds: seq<Draw>): real { if ds == [] then 0.0 else Markets(ds[..|ds| - 1]) + ds[|ds| - 1].market }

  function Opponents(ds: seq<Draw>): int {
    if ds == [] then 0 else Opponents(ds[..|ds| - 1]) + |ds[|ds| - 1].entries| - 1
  }

  /** `r` is `c` after these samples, as far as entering them goes. */
  predicate Tallies(c: Contender, r: Contender, ds: seq<Draw>) {
    && r.selected == c.selected + |ds| && r.marketSamples == c.marketSamples + |ds|
    && r.marketScore == c.marketScore + Markets(ds) && r.rivals == c.rivals + Opponents(ds)
  }

  lemma TalliesOneMore(c: Contender, r: Contender, ds: seq<Draw>, d: Draw)
    requires Tallies(c, r, ds)
    ensures Tallies(c, Watched(Selected(r), d), ds + [d])
  {
    assert (ds + [d])[..|ds|] == ds;
  }

  lemma {:induction false} EntriesTallied(c: Contender, r: Contender, i: nat, entries: seq<Bid>, d: Draw, ds: seq<Draw>)
    requires Tallies(c, r, ds)
    ensures Tallies(c, Entered(r, i, entries, d), ds + EntriesOf(i, entries, d))
  {
    if entries == [] {
      assert ds + [] == ds;
    } else {
      var before := entries[..|entries| - 1];
      EntriesTallied(c, r, i, before, d, ds);
      var more := ds + EntriesOf(i, before, d);
      TalliesOneMore(c, Entered(r, i, before, d), more, d);
      assert ds + (EntriesOf(i, before, d) + [d]) == more + [d];
      assert EntriesOf(i, before, d) + [] == EntriesOf(i, before, d);
    }
  }

  /** A contender's tallies count the samples it entered, with their markets and their rivals. */
  lemma {:induction false} SamplesTallied(c: Contender, i: nat, draws: seq<Draw>, p: Prices)
    requires Sound(p)
    ensures Tallies(c, Tallied(c, i, draws, p), SamplesOf(i, draws))
  {
    if draws != [] {
      var n := |draws| - 1;
      SamplesTallied(c, i, draws[..n], p);
      EntriesTallied(c, Tallied(c, i, draws[..n], p), i, draws[n].entries, draws[n], SamplesOf(i, draws[..n]));
    }
  }

  /** A contender's samples are scaled to the cohort's opportunities, to the nearest whole number. */
  lemma SelectedIsScaled(total: nat, count: nat, samples: nat)
    requires samples > 0
    ensures var exact := ExactShare(total, count, samples);
      exact - 0.5 <= RoundShare(total, count, samples) as real <= exact + 0.5
  {
    NonNegative(total as real, count as real);
    NonNegativeQuotient(total as real * count as real, samples as real);
    RoundNear(ExactShare(total, count, samples));
  }

  // ----- what one win costs -----

  /** `log1p` undoes `expm1`, and both climb, where auctions use them. */
  ghost predicate Logarithm(p: Prices, log1p: real -> real) {
    && (forall u :: log1p(p.expm1(u)) == u) && (forall u | u >= 0.0 :: p.expm1(u) >= 0.0)
    && forall a, b | 0.0 <= a <= b :: log1p(a) <= log1p(b)
  }

  /** The score that a bid alone is good for. */
  function Scores(p: Prices, worth: real, log1p: real -> real): real -> real {
    (bid: real) => log1p(bid * p.bidScale) * worth
  }

  /** `x` is what a winner pays against `runner`: the price of the bid that scores just that, or,
      where no bid between nothing and its own does, the price at that end. */
  predicate SecondPriced(p: Prices, bid: real, score: real -> real, runner: real, x: real)
    requires Sound(p)
  {
    var top := p.floor + bid * p.bidToCost;
    && p.floor <= x <= top
    && (p.floor < x < top ==> score((x - p.floor) / p.bidToCost) == runner)
    && (x == p.floor && bid > 0.0 ==> runner <= score(0.0))
    && (x == top ==> score(bid) <= runner)
  }

  lemma Quotient(x: real, d: real, q: real)
    requires d > 0.0 && x == q * d
    ensures x / d == q
  {}

  lemma TimesWorth(a: real, b: real, worth: real)
    requires worth > 0.0 && a <= b
    ensures a * worth <= b * worth
  {}

  lemma Beyond(bid: real, needed: real, k: real)
    requires k > 0.0 && bid <= needed
    ensures bid * k <= needed * k
  {}

  lemma NonNegativeQuotient(a: real, b: real)
    requires a >= 0.0 && b > 0.0
    ensures a / b >= 0.0
  {
    var q := a / b;
    assert q * b == a;
  }

  /** The bid that was needed scores what the runner-up scored. */
  lemma NeededScores(c: Contender, p: Prices, log1p: real -> real, runner: real, needed: real)
    requires Sound(p) && Logarithm(p, log1p) && runner >= 0.0
    requires needed == RequiredBid(p, Utility(runner, Worth(c)))
    ensures Scores(p, Worth(c), log1p)(needed) == runner && needed >= 0.0
  {
    var u := Utility(runner, Worth(c));
    RequiredBidMatches(c, p, log1p, runner, needed * p.bidScale);
    assert u >= 0.0 by { NonNegativeQuotient(runner, Worth(c)); }
    NonNegativeQuotient(p.expm1(u), p.bidScale);
  }

  ghost predicate Climbs(score: real -> real) { forall a, b | 0.0 <= a <= b :: score(a) <= score(b) }

  /** A larger bid scores no less. */
  lemma ScoresClimb(p: Prices, worth: real, log1p: real -> real)
    requires Sound(p) && Logarithm(p, log1p) && worth > 0.0
    ensures Climbs(Scores(p, worth, log1p))
  {
    forall a, b | 0.0 <= a <= b ensures Scores(p, worth, log1p)(a) <= Scores(p, worth, log1p)(b) {
      ScoreClimbs(p, worth, log1p, a, b, a * p.bidScale, b * p.bidScale);
    }
  }

  lemma ScoreClimbs(p: Prices, worth: real, log1p: real -> real, a: real, b: real, x: real, y: real)
    requires Sound(p) && Logarithm(p, log1p) && worth > 0.0 && 0.0 <= a <= b
    requires x == a * p.bidScale && y == b * p.bidScale
    ensures Scores(p, worth, log1p)(a) <= Scores(p, worth, log1p)(b)
  {
    NonNegative(a, p.bidScale);
    Beyond(a, b, p.bidScale);
    assert log1p(x) <= log1p(y);
    TimesWorth(log1p(x), log1p(y), worth);
  }

  /** Bounding the price bounds the bid. */
  lemma Between(floor: real, needed: real, bid: real, k: real)
    requires needed >= 0.0 && bid >= 0.0 && k > 0.0
    ensures var x := Clamp(floor + needed * k, floor, floor + bid * k);
      && (floor < x < floor + bid * k ==> x - floor == needed * k)
      && (x == floor && bid > 0.0 ==> needed == 0.0)
      && (x == floor + bid * k ==> needed >= bid)
  {
    NonNegative(needed, k);
    NonNegative(bid, k);
    if needed < bid { Smaller(needed, bid, k); }
    if needed > 0.0 { Smaller(0.0, needed, k); }
    if bid > 0.0 { Smaller(0.0, bid, k); }
  }

  lemma ChargeBetween(p: Prices, needed: real, bid: real)
    requires Sound(p) && bid >= 0.0 && needed >= 0.0
    ensures var x, top := Charge(p, needed, bid), p.floor + bid * p.bidToCost;
      && p.floor <= x <= top
      && (p.floor < x < top ==> (x - p.floor) / p.bidToCost == needed)
      && (x == p.floor && bid > 0.0 ==> needed == 0.0)
      && (x == top ==> needed >= bid)
  {
    var x, top := Charge(p, needed, bid), p.floor + bid * p.bidToCost;
    NonNegative(bid, p.bidToCost);
    Between(p.floor, needed, bid, p.bidToCost);
    if p.floor < x < top { Quotient(x - p.floor, p.bidToCost, needed); }
  }

  lemma ChargeIsSecond(p: Prices, bid: real, score: real -> real, needed: real)
    requires Sound(p) && bid >= 0.0 && needed >= 0.0 && Climbs(score)
    ensures SecondPriced(p, bid, score, score(needed), Charge(p, needed, bid))
  {
    ChargeBetween(p, needed, bid);
  }

  lemma PriceIsSecond(c: Contender, p: Prices, log1p: real -> real, runner: real)
    requires Sound(p) && Logarithm(p, log1p) && runner >= 0.0 && c.bid >= 0.0
    ensures SecondPriced(p, c.bid, Scores(p, Worth(c), log1p), runner, Price(c, p, runner))
  {
    var needed := RequiredBid(p, Utility(runner, Worth(c)));
    NeededScores(c, p, log1p, runner, needed);
    ScoresClimb(p, Worth(c), log1p);
    ChargeIsSecond(p, c.bid, Scores(p, Worth(c), log1p), needed);
  }

  lemma EnteredSame(c: Contender, i: nat, d: Draw, p: Prices, runner: real)
    requires Sound(p)
    ensures var r := Entered(c, i, d.entries, d);
      r.wins == c.wins && r.clearing == c.clearing && Price(r, p, runner) == Price(c, p, runner)
  {
    EnteredWins(c, i, d.entries, d);
  }

  /** One sample charges its winner, and nobody else, a second price: against the best score among
      all others, the market included. */
  lemma WinnerPaysSecondPrice(c: Contender, i: nat, d: Draw, p: Prices, log1p: real -> real)
    returns (k: nat, runner: real)
    requires Sound(p) && Logarithm(p, log1p) && d.market >= 0.0 && c.bid >= 0.0
    ensures var r := Sampled(c, i, d, p);
      if Decide(d.entries, d.market).winner == Some(i) then
        && Leads(d.entries, d.market, k) && d.entries[k].index == i && BestOfOthers(d.entries, d.market, k, runner)
        && r.wins == c.wins + 1
        && SecondPriced(p, c.bid, Scores(p, Worth(c), log1p), runner, r.clearing - c.clearing)
      else r.wins == c.wins && r.clearing == c.clearing
  {
    k := SecondPrice(d.entries, d.market);
    runner := Decide(d.entries, d.market).runner;
    EnteredSame(c, i, d, p, runner);
    if Decide(d.entries, d.market).winner == Some(i) { PriceIsSecond(c, p, log1p, runner); }
  }

  predicate ExceedsPrice(p: Prices, bid: real, x: real) { x < p.floor + bid * p.bidToCost }

  /** A winner's own bid does not set its price: whoever bids more than it has to pay pays the same. */
  lemma OwnBidIsNoPrice(c: Contender, i: nat, d: Draw, p: Prices, bid: real)
    requires Sound(p) && d.market >= 0.0 && c.bid >= 0.0
    requires var x := Sampled(c, i, d, p).clearing - c.clearing; ExceedsPrice(p, c.bid, x) && ExceedsPrice(p, bid, x)
    ensures Sampled(c.(bid := bid), i, d, p).clearing == Sampled(c, i, d, p).clearing
  {
    SampledPays(c, i, d, p);
    SampledPays(c.(bid := bid), i, d, p);
    if Decide(d.entries, d.market).winner == Some(i) {
      BelowBoth(p, RequiredBid(p, Utility(Decide(d.entries, d.market).runner, Worth(c))), c.bid, bid);
    }
  }

  lemma SampledPays(c: Contender, i: nat, d: Draw, p: Prices)
    requires Sound(p)
    ensures var s := Decide(d.entries, d.market);
      Sampled(c, i, d, p).clearing == c.clearing + if s.winner == Some(i) then Price(c, p, s.runner) else 0.0
  {
    EnteredSame(c, i, d, p, Decide(d.entries, d.market).runner);
  }

  lemma BelowBoth(p: Prices, needed: real, a: real, b: real)
    requires Sound(p) && a >= 0.0
    requires ExceedsPrice(p, a, Charge(p, needed, a)) && ExceedsPrice(p, b, Charge(p, needed, a))
    ensures Charge(p, needed, a) == Charge(p, needed, b)
  {
    NonNegative(a, p.bidToCost);
  }
}
