/** Budget limits on every way a budget can begin or change (internal/ads/changes.go,
    internal/agenthost/operation_policy.go, internal/sandbox/rules.go). */
module Policies {
  import opened Options

  datatype Level = Campaign | AdGroup | Ad

  /** `rest` stands for the fields no change may touch. */
  datatype Entity = Entity(
    id: string, account: string, level: Level, status: string, budget: Option<real>, rest: string)

  datatype Policy = Policy(max: real, delta: real, min: real)

  datatype Kind = BudgetChange | StatusChange | OtherChange

  datatype Problem =
    | TargetMismatch | InvalidTarget | BudgetNotSupported | NoChange | NotConfigured
    | OutsideLimits | DeltaExceeded | UnsupportedChange | MultipleFields

  function Abs(x: real): real { if x < 0.0 then -x else x }

  function Validate(p: Policy, valid: Entity -> bool, before: Entity, after: Entity, kind: Kind): Option<Problem> {
    if before.id != after.id || before.account != after.account || before.level != after.level then Some(TargetMismatch)
    else if !valid(after) then Some(InvalidTarget)
    else
      match kind
      case BudgetChange =>
        if before.level == Ad || before.budget.None? || after.budget.None? then Some(BudgetNotSupported)
        else
          var b, a := before.budget.value, after.budget.value;
          if b == a then Some(NoChange)
          else if p.max <= 0.0 || p.delta <= 0.0 || p.min <= 0.0 then Some(NotConfigured)
          else if a > p.max || a < p.min then Some(OutsideLimits)
          else if b <= 0.0 || Abs(a - b) * 100.0 > b * p.delta then Some(DeltaExceeded)
          else if before.(budget := after.budget) != after then Some(MultipleFields)
          else None
      case StatusChange =>
        if before.status == after.status then Some(NoChange)
        else if before.(status := after.status) != after then Some(MultipleFields)
        else None
      case OtherChange => Some(UnsupportedChange)
  }

  function CheckNew(p: Policy, value: Option<real>): Option<Problem> {
    if value.None? then None
    else if p.min <= 0.0 || p.max <= 0.0 || p.delta <= 0.0 then Some(NotConfigured)
    else if value.value < p.min || value.value > p.max then Some(OutsideLimits)
    else None
  }

  function CheckUpdate(p: Policy, valid: Entity -> bool, before: Entity, budget: Option<real>): Option<Problem> {
    if budget.None? then None
    else if before.budget == budget then CheckNew(p, budget)
    else Validate(p, valid, before, before.(budget := budget), BudgetChange)
  }

  /** A change of a budget the policy allows. */
  predicate Allowed(p: Policy, b: real, a: real) {
    0.0 < p.min <= a <= p.max && b > 0.0 && p.delta > 0.0 && Abs(a - b) * 100.0 <= b * p.delta
  }

  /** Exactly the changes of one field within the limits are accepted. */
  lemma ValidateIff(p: Policy, valid: Entity -> bool, before: Entity, after: Entity)
    ensures Validate(p, valid, before, after, BudgetChange).None?
      <==> (after == before.(budget := after.budget) && valid(after) && before.level != Ad
            && before.budget.Some? && after.budget.Some? && before.budget != after.budget
            && Allowed(p, before.budget.value, after.budget.value))
  {}

  /** A status change is accepted when it changes the status alone; other kinds never are. */
  lemma ValidateStatusIff(p: Policy, valid: Entity -> bool, before: Entity, after: Entity)
    ensures Validate(p, valid, before, after, StatusChange).None?
      <==> after == before.(status := after.status) && before.status != after.status && valid(after)
    ensures Validate(p, valid, before, after, OtherChange).Some?
  {}

  /** A new budget passes exactly within limits that are configured. */
  lemma CheckNewIff(p: Policy, value: Option<real>)
    ensures CheckNew(p, value).None?
      <==> (value.Some? ==> p.min > 0.0 && p.max > 0.0 && p.delta > 0.0 && p.min <= value.value <= p.max)
  {}

  /** An ad group update may leave the budget alone, or give it again, or change it, but never give
      one outside the limits. */
  lemma CheckUpdateIff(p: Policy, valid: Entity -> bool, before: Entity, budget: Option<real>)
    ensures CheckUpdate(p, valid, before, budget).None?
      <==> (budget.Some? ==>
              if before.budget == budget
              then p.min > 0.0 && p.delta > 0.0 && p.min <= budget.value <= p.max
              else before.level != Ad && before.budget.Some? && valid(before.(budget := budget))
                   && Allowed(p, before.budget.value, budget.value))
  {}

  // ----- every way to change entities -----

  type Entities = map<string, Entity>

  predicate Named(s: Entities) { forall id | id in s :: s[id].id == id }

  /** Policies can be replaced between steps, so each step has its own. */
  datatype Step =
    | ApplyChange(policy: Policy, before: Entity, after: Entity, kind: Kind)
    | ApplyUpdate(policy: Policy, id: string, budget: Option<real>)
    | RunRule(policy: Policy, id: string, budget: Option<real>)
    | PauseByRule(id: string)
    | ApplyBundle(policy: Policy, campaign: Entity, group: Entity)
    | ApplyCreate(entity: Entity)

  function Apply(s: Entities, valid: Entity -> bool, step: Step): Entities {
    match step
    case ApplyChange(p, before, after, kind) =>
      if before.id !in s || s[before.id] != before || Validate(p, valid, before, after, kind).Some? then s
      else if kind.BudgetChange? then s[before.id := before.(budget := after.budget)]
      else s[before.id := before.(status := after.status)]
    case ApplyUpdate(p, id, budget) =>
      if id !in s || budget.None? || CheckUpdate(p, valid, s[id], budget).Some? then s
      else s[id := s[id].(budget := budget)]
    case RunRule(p, id, budget) =>
      if id !in s || budget.None? || s[id].budget == budget then s
      else if Validate(p, valid, s[id], s[id].(budget := budget), BudgetChange).Some? then s
      else s[id := s[id].(budget := budget)]
    case PauseByRule(id) => if id !in s then s else s[id := s[id].(status := "DISABLE")]
    case ApplyBundle(p, campaign, group) =>
      if CheckNew(p, campaign.budget).Some? || CheckNew(p, group.budget).Some? then s
      else if !Creatable(s, valid, campaign) then s
      else Added(Added(s, valid, campaign), valid, group)
    case ApplyCreate(entity) => Added(s, valid, entity)
  }

  /** Whether the sandbox accepts a new entity; it never asks the policy. */
  predicate Creatable(s: Entities, valid: Entity -> bool, entity: Entity) { entity.id !in s && valid(entity) }

  function Added(s: Entities, valid: Entity -> bool, entity: Entity): Entities {
    if Creatable(s, valid, entity) then s[entity.id := entity] else s
  }

  function Run(s: Entities, valid: Entity -> bool, steps: seq<Step>): Entities {
    if steps == [] then s else Apply(Run(s, valid, steps[..|steps| - 1]), valid, steps[|steps| - 1])
  }

  function PolicyOf(step: Step): Option<Policy> {
    match step
    case ApplyChange(p, _, _, _) => Some(p)
    case ApplyUpdate(p, _, _) => Some(p)
    case RunRule(p, _, _) => Some(p)
    case ApplyBundle(p, _, _) => Some(p)
    case _ => None
  }

  /** Whatever changes the budget of an existing entity keeps to the policy of that step. */
  lemma EveryPathIsLimited(s: Entities, valid: Entity -> bool, step: Step, id: string)
    requires id in s && Named(s)
    ensures var t := Apply(s, valid, step);
      && id in t
      && (t[id].budget != s[id].budget ==>
            && PolicyOf(step).Some? && s[id].budget.Some? && t[id].budget.Some?
            && Allowed(PolicyOf(step).value, s[id].budget.value, t[id].budget.value))
  {}

  /** What is accepted takes effect, and on nothing else. */
  lemma AcceptedTakesEffect(s: Entities, valid: Entity -> bool, step: Step)
    requires Named(s)
    ensures var t := Apply(s, valid, step);
      match step
      case ApplyChange(p, before, after, kind) =>
        t == if before.id in s && s[before.id] == before && Validate(p, valid, before, after, kind).None?
             then s[before.id := after] else s
      case ApplyUpdate(p, id, budget) =>
        t == if id in s && budget.Some? && CheckUpdate(p, valid, s[id], budget).None?
             then s[id := s[id].(budget := budget)] else s
      case RunRule(p, id, budget) =>
        t == if id in s && budget.Some? && s[id].budget != budget
                && Validate(p, valid, s[id], s[id].(budget := budget), BudgetChange).None?
             then s[id := s[id].(budget := budget)] else s
      case PauseByRule(id) => t == if id in s then s[id := s[id].(status := "DISABLE")] else s
      case ApplyBundle(p, campaign, group) =>
        && (Creatable(s, valid, campaign) && CheckNew(p, campaign.budget).None? && CheckNew(p, group.budget).None?
            <==> campaign.id !in s && campaign.id in t && t[campaign.id] == campaign)
        && forall id | id != campaign.id && id != group.id :: (id in t <==> id in s) && (id in s ==> t[id] == s[id])
      case ApplyCreate(entity) => t == if entity.id !in s && valid(entity) then s[entity.id := entity] else s
  {}

  lemma ApplyKeepsIds(s: Entities, valid: Entity -> bool, step: Step)
    requires Named(s)
    ensures Named(Apply(s, valid, step))
  {}

  // ----- how far a budget can get -----

  function Power(x: real, n: nat): real { if n == 0 then 1.0 else Power(x, n - 1) * x }

  /** How often the steps change the budget of an entity. */
  function Changes(s: Entities, valid: Entity -> bool, steps: seq<Step>, id: string): nat {
    if steps == [] then 0
    else
      var earlier := steps[..|steps| - 1];
      var before, after := Run(s, valid, earlier), Run(s, valid, steps);
      Changes(s, valid, earlier, id)
      + if id in before && id in after && before[id].budget != after[id].budget then 1 else 0
  }

  lemma ScaleBounds(b: real, a: real, delta: real, d: real)
    requires b > 0.0 && delta <= d && Abs(a - b) * 100.0 <= b * delta
    ensures b * (1.0 - d / 100.0) <= a <= b * (1.0 + d / 100.0)
  {
    assert b * delta <= b * d;
    assert b * (1.0 + d / 100.0) == b + b * d / 100.0;
    assert b * (1.0 - d / 100.0) == b - b * d / 100.0;
  }

  lemma Grow(b0: real, p: real, x: real, b: real, a: real)
    requires x >= 0.0 && b <= b0 * p && a <= b * x
    ensures a <= b0 * (p * x)
  {
    assert b * x <= (b0 * p) * x;
    assert (b0 * p) * x == b0 * (p * x);
  }

  lemma Shrink(b0: real, p: real, x: real, b: real, a: real)
    requires x >= 0.0 && b >= b0 * p && a >= b * x
    ensures a >= b0 * (p * x)
  {
    assert b * x >= (b0 * p) * x;
    assert (b0 * p) * x == b0 * (p * x);
  }

  predicate Within(b0: real, b: real, low: real, high: real) { b0 * low <= b <= b0 * high && b > 0.0 }

  /** After n changes, each of at most d percent, a budget lies between b0 (1 - d/100)^n and
      b0 (1 + d/100)^n, over every mixture of changes, operations and rules. */
  lemma {:induction false} BudgetDriftIsBounded(s: Entities, valid: Entity -> bool, steps: seq<Step>,
                                                id: string, d: real)
    requires Named(s) && id in s && s[id].budget.Some? && s[id].budget.value > 0.0
    requires 0.0 <= d <= 100.0
    requires forall i | 0 <= i < |steps| && PolicyOf(steps[i]).Some? :: PolicyOf(steps[i]).value.delta <= d
    ensures var t, n := Run(s, valid, steps), Changes(s, valid, steps, id);
      && Named(t) && id in t && t[id].budget.Some?
      && Within(s[id].budget.value, t[id].budget.value, Power(1.0 - d / 100.0, n), Power(1.0 + d / 100.0, n))
  {
    if steps != [] {
      var m := |steps| - 1;
      BudgetDriftIsBounded(s, valid, steps[..m], id, d);
      var before := Run(s, valid, steps[..m]);
      var after := Apply(before, valid, steps[m]);
      EveryPathIsLimited(before, valid, steps[m], id);
      ApplyKeepsIds(before, valid, steps[m]);
      if before[id].budget != after[id].budget {
        var n := Changes(s, valid, steps[..m], id);
        DriftStep(s[id].budget.value, before[id].budget.value, after[id].budget.value, n, d, PolicyOf(steps[m]).value);
      }
    }
  }

  lemma DriftStep(b0: real, b: real, a: real, n: nat, d: real, p: Policy)
    requires Within(b0, b, Power(1.0 - d / 100.0, n), Power(1.0 + d / 100.0, n))
    requires 0.0 <= d <= 100.0 && p.delta <= d && Allowed(p, b, a)
    ensures Within(b0, a, Power(1.0 - d / 100.0, n + 1), Power(1.0 + d / 100.0, n + 1))
  {
    ScaleBounds(b, a, p.delta, d);
    var down, up := 1.0 - d / 100.0, 1.0 + d / 100.0;
    NextPower(b0, b, a, down, up, Power(down, n), Power(up, n), Power(down, n + 1), Power(up, n + 1));
  }

  lemma NextPower(b0: real, b: real, a: real, down: real, up: real, low: real, high: real, low': real, high': real)
    requires down >= 0.0 && up >= 0.0 && low' == low * down && high' == high * up
    requires Within(b0, b, low, high) && b * down <= a <= b * up && a > 0.0
    ensures Within(b0, a, low', high')
  {
    Grow(b0, high, up, b, a);
    Shrink(b0, low, down, b, a);
  }

  // ----- where budgets begin -----

  predicate Keeps(p: Policy, e: Entity) { e.budget.Some? ==> p.min <= e.budget.value <= p.max }

  predicate Limited(s: Entities, p: Policy) { forall id | id in s :: Keeps(p, s[id]) }

  /** An entity that appears with a step keeps to the policy of that step, unless it is a plain
      creation: there it is what was requested, and keeps to a policy exactly when the request does. */
  lemma NewBudgets(s: Entities, valid: Entity -> bool, step: Step, id: string)
    requires id !in s && id in Apply(s, valid, step)
    ensures var t := Apply(s, valid, step);
      if step.ApplyCreate? then t[id] == step.entity && forall p :: Keeps(p, t[id]) <==> Keeps(p, step.entity)
      else PolicyOf(step).Some? && Keeps(PolicyOf(step).value, t[id])
  {}

  /** The one way out of the limits: a plain creation that is accepted with a budget outside. */
  predicate Escapes(s: Entities, valid: Entity -> bool, p: Policy, step: Step) {
    step.ApplyCreate? && Creatable(s, valid, step.entity) && !Keeps(p, step.entity)
  }

  lemma StepLimitedIff(s: Entities, valid: Entity -> bool, p: Policy, step: Step)
    requires Named(s) && Limited(s, p) && PolicyOf(step) in {None, Some(p)}
    ensures Limited(Apply(s, valid, step), p) <==> !Escapes(s, valid, p, step)
  {
    var t := Apply(s, valid, step);
    forall id | id in t && id in s ensures Keeps(p, t[id]) { EveryPathIsLimited(s, valid, step, id); }
    if Escapes(s, valid, p, step) { assert step.entity.id in t; }
    forall id | id in t && id !in s && !Escapes(s, valid, p, step) ensures Keeps(p, t[id]) {
      NewBudgets(s, valid, step, id);
    }
  }

  function Before(s: Entities, valid: Entity -> bool, steps: seq<Step>, n: nat): Entities
    requires n <= |steps|
  {
    Run(s, valid, steps[..n])
  }

  lemma {:induction false} NamedBefore(s: Entities, valid: Entity -> bool, steps: seq<Step>, n: nat)
    requires Named(s) && n <= |steps|
    ensures Named(Before(s, valid, steps, n))
    ensures n < |steps| ==> Before(s, valid, steps, n + 1) == Apply(Before(s, valid, steps, n), valid, steps[n])
  {
    if n < |steps| { assert steps[..n + 1][..n] == steps[..n]; }
    if n > 0 {
      NamedBefore(s, valid, steps, n - 1);
      ApplyKeepsIds(Before(s, valid, steps, n - 1), valid, steps[n - 1]);
    }
  }

  lemma {:induction false} LimitedBefore(s: Entities, valid: Entity -> bool, p: Policy, steps: seq<Step>, n: nat)
    requires Named(s) && Limited(s, p) && n <= |steps|
    requires forall i | 0 <= i < |steps| :: PolicyOf(steps[i]) in {None, Some(p)}
    requires forall i | 0 <= i < n :: !Escapes(Before(s, valid, steps, i), valid, p, steps[i])
    ensures Limited(Before(s, valid, steps, n), p)
  {
    if n > 0 {
      LimitedBefore(s, valid, p, steps, n - 1);
      NamedBefore(s, valid, steps, n - 1);
      StepLimitedIff(Before(s, valid, steps, n - 1), valid, p, steps[n - 1]);
    }
  }

  /** Under one policy all budgets are within its limits at every moment of a run exactly when no
      plain creation of the run brings a budget outside them. */
  lemma RunLimitedIff(s: Entities, valid: Entity -> bool, p: Policy, steps: seq<Step>)
    requires Named(s) && Limited(s, p)
    requires forall i | 0 <= i < |steps| :: PolicyOf(steps[i]) in {None, Some(p)}
    ensures (forall n | 0 <= n <= |steps| :: Limited(Before(s, valid, steps, n), p))
      <==> forall n | 0 <= n < |steps| :: !Escapes(Before(s, valid, steps, n), valid, p, steps[n])
  {
    forall n | 0 <= n < |steps|
      ensures Named(Before(s, valid, steps, n))
      ensures Before(s, valid, steps, n + 1) == Apply(Before(s, valid, steps, n), valid, steps[n])
    {
      NamedBefore(s, valid, steps, n);
    }
    if forall n | 0 <= n < |steps| :: !Escapes(Before(s, valid, steps, n), valid, p, steps[n]) {
      forall n | 0 <= n <= |steps| ensures Limited(Before(s, valid, steps, n), p) {
        LimitedBefore(s, valid, p, steps, n);
      }
    } else {
      var n :| 0 <= n < |steps| && Escapes(Before(s, valid, steps, n), valid, p, steps[n]);
      if Limited(Before(s, valid, steps, n), p) {
        StepLimitedIff(Before(s, valid, steps, n), valid, p, steps[n]);
        assert !Limited(Before(s, valid, steps, n + 1), p);
      }
    }
  }

  /** A plain creation may bring any budget above the maximum; a bundle with it does nothing. */
  lemma CreationIsNotLimited(s: Entities, valid: Entity -> bool, p: Policy, entity: Entity, amount: real)
    requires entity.id !in s && amount > p.max && valid(entity.(budget := Some(amount)))
    ensures var e := entity.(budget := Some(amount));
      && Apply(s, valid, ApplyCreate(e)) == s[entity.id := e] && Escapes(s, valid, p, ApplyCreate(e))
      && forall other :: Apply(s, valid, ApplyBundle(p, e, other)) == s == Apply(s, valid, ApplyBundle(p, other, e))
  {}
}
