/** Additive metrics (`Metrics.Add` in internal/ads/types.go). Reach is never added and is not a
    field here. A missing value makes every sum it enters missing. */
module Metrics {
  import opened Options
  import opened Sums

  datatype Metrics = Metrics(
    spend: real, impressions: int, clicks: int, conversions: Option<real>, revenue: Option<real>,
    landings: Option<int>, views2: Option<int>, views6: Option<int>, completes: Option<int>)

  const ZERO := Metrics(0.0, 0, 0, Some(0.0), Some(0.0), Some(0), Some(0), Some(0), Some(0))

  function AddReal(a: Option<real>, b: Option<real>): Option<real> {
    if a.None? || b.None? then None else Some(a.value + b.value)
  }

  function AddInt(a: Option<int>, b: Option<int>): Option<int> {
    if a.None? || b.None? then None else Some(a.value + b.value)
  }

  function Add(m: Metrics, n: Metrics): Metrics {
    Metrics(m.spend + n.spend, m.impressions + n.impressions, m.clicks + n.clicks,
            AddReal(m.conversions, n.conversions), AddReal(m.revenue, n.revenue),
            AddInt(m.landings, n.landings), AddInt(m.views2, n.views2), AddInt(m.views6, n.views6),
            AddInt(m.completes, n.completes))
  }

  const ADDITIVE: Adding<Metrics> := Adding(ZERO, (m: Metrics, n: Metrics) => Add(m, n))

  /** Adding is associative and commutative, and zero changes nothing, with missing values too. */
  lemma AddIsLawful()
    ensures Lawful(ADDITIVE)
  {
    var g := ADDITIVE;
    forall a: Metrics, b: Metrics, c: Metrics {:trigger Consider(a, b, c)} | Consider(a, b, c)
      ensures g.add(a, b) == g.add(b, a) && g.add(g.add(a, b), c) == g.add(a, g.add(b, c)) && g.add(a, g.zero) == a
    {
      AddLaws(a, b, c);
    }
  }

  lemma AddLaws(a: Metrics, b: Metrics, c: Metrics)
    ensures Add(a, b) == Add(b, a) && Add(Add(a, b), c) == Add(a, Add(b, c)) && Add(a, ZERO) == a
  {}

  // ----- order -----

  predicate LeqReal(a: Option<real>, b: Option<real>) { a == b || (a.Some? && b.Some? && a.value <= b.value) }
  predicate LeqInt(a: Option<int>, b: Option<int>) { a == b || (a.Some? && b.Some? && a.value <= b.value) }

  /** No component of `m` is larger than in `n`, and the same ones are missing. */
  predicate Leq(m: Metrics, n: Metrics) {
    && m.spend <= n.spend && m.impressions <= n.impressions && m.clicks <= n.clicks
    && LeqReal(m.conversions, n.conversions) && LeqReal(m.revenue, n.revenue)
    && LeqInt(m.landings, n.landings) && LeqInt(m.views2, n.views2) && LeqInt(m.views6, n.views6)
    && LeqInt(m.completes, n.completes)
  }

  lemma AddLeq(a: Metrics, b: Metrics, c: Metrics, d: Metrics)
    requires Leq(a, c) && Leq(b, d)
    ensures Leq(Add(a, b), Add(c, d))
  {}

  const AtMost: (Metrics, Metrics) -> bool := (m: Metrics, n: Metrics) => Leq(m, n)

  lemma AddIsOrdered()
    ensures Ordered(ADDITIVE, AtMost)
  {
    forall a: Metrics, b: Metrics, c: Metrics, d: Metrics {:trigger Compare(a, b, c, d)}
      | Compare(a, b, c, d) && AtMost(a, c) && AtMost(b, d)
      ensures AtMost(ADDITIVE.add(a, b), ADDITIVE.add(c, d))
    {
      AddLeq(a, b, c, d);
    }
  }
}
