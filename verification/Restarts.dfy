/** Saving the sandbox and loading it again (`load`, `Advance` and `persistAdvance` in
    internal/app/app.go, and what they call of backend.go, simulation.go and operations.go in
    internal/sandbox). JSON gives back what it encodes, and encodes everything but infinity. */
module Restarts {
  import opened Options
  import opened Sums
  import opened Facts
  import Orders
  import Learning

  datatype Level = Campaign | AdGroup | Ad

  /** `fixed` stands for the fields that never change after creation. */
  datatype Entity = Entity(
    id: string, account: string, level: Level, parent: string, fixed: string, status: string, budget: Option<real>)

  type Entities = map<string, Entity>

  /** The state of operations: whether all its tables are there, whose balance it keeps, the
      statuses of rules, and which rules have a definition. `rest` stands for everything else. */
  datatype Operations<O> = Operations(
    complete: bool, account: string, currency: string, rules: map<string, string>, defined: set<string>, rest: O)

  /** `M` is the delivery model. */
  datatype Sandbox<M, O> = Sandbox(
    entities: Entities, clock: int, model: M, facts: seq<Fact>, operations: Operations<O>)

  /** What is stored: entities that were ever saved, the last clock and model, all facts. */
  datatype Disk<M, O> = Disk(
    entities: Entities, simulation: Option<(int, M)>, facts: seq<Fact>, operations: Option<Operations<O>>)

  // ----- entities -----

  predicate Check(e: Entity, account: string) {
    && e.id != "" && e.account == account && (e.status == "ENABLE" || e.status == "DISABLE")
    && (e.budget.Some? ==> e.budget.value >= 0.0)
  }

  predicate ParentFits(m: Entities, e: Entity) {
    match e.level
    case Campaign => e.parent == ""
    case AdGroup => e.parent in m && m[e.parent].level == Campaign
    case Ad => e.parent in m && m[e.parent].level == AdGroup
  }

  /** Only the budget and the status of a known entity may differ. */
  predicate SameObject(known: Entity, e: Entity) { known.(budget := e.budget, status := e.status) == e }

  function Restore(m: Entities, e: Entity, account: string): Option<Entities> {
    if !Check(e, account) then None
    else if e.id !in m then (if ParentFits(m, e) then Some(m[e.id := e]) else None)
    else if SameObject(m[e.id], e) then Some(m[e.id := e])
    else None
  }

  function RestoreAll(m: Entities, es: seq<Entity>, account: string): Option<Entities> {
    if es == [] then Some(m)
    else
      match RestoreAll(m, es[..|es| - 1], account)
      case None => None
      case Some(t) => Restore(t, es[|es| - 1], account)
  }

  function AtLevel(level: Level): Entity -> bool { (e: Entity) => e.level == level }

  /** The stable sort by level. */
  function ByLevel(es: seq<Entity>): seq<Entity> {
    Filter(es, AtLevel(Campaign)) + Filter(es, AtLevel(AdGroup)) + Filter(es, AtLevel(Ad))
  }

  predicate Apart(es: seq<Entity>) { forall i, j | 0 <= i < j < |es| :: es[i].id != es[j].id }

  /** `es` lists the entities of a map, each once. */
  ghost predicate Lists(es: seq<Entity>, m: Entities) {
    && Apart(es)
    && (forall e :: e in es <==> e.id in m && m[e.id] == e)
  }

  // ----- facts -----

  predicate Earlier(a: Fact, b: Fact) { a.hour < b.hour || (a.hour == b.hour && Orders.Less(a.ad, b.ad)) }

  const InOrder: (Fact, Fact) -> bool := (a: Fact, b: Fact) => Earlier(a, b)

  function SortFacts(fs: seq<Fact>): seq<Fact> {
    if fs == [] then [] else Orders.Insert(InOrder, SortFacts(fs[..|fs| - 1]), fs[|fs| - 1])
  }

  predicate KnownFact(m: Entities, f: Fact, start: int, clock: int) {
    f.ad in m && m[f.ad].level == Ad && Valid(f, start, clock)
  }

  predicate Acceptable(m: Entities, fs: seq<Fact>, start: int, clock: int) {
    (forall i | 0 <= i < |fs| :: KnownFact(m, fs[i], start, clock)) && NoDuplicates(fs)
  }

  /** Only the first of two facts of the same ad and hour is acceptable. */
  lemma AcceptableSnoc(m: Entities, fs: seq<Fact>, f: Fact, start: int, clock: int)
    ensures Acceptable(m, fs + [f], start, clock)
      <==> Acceptable(m, fs, start, clock) && KnownFact(m, f, start, clock) && (f.ad, f.hour) !in Keys(fs)
  {
    var all := fs + [f];
    if Acceptable(m, all, start, clock) {
      forall i | 0 <= i < |fs| ensures KnownFact(m, fs[i], start, clock) && (fs[i].ad, fs[i].hour) != (f.ad, f.hour) {
        assert all[i] == fs[i] && all[|fs|] == f;
      }
      forall i, j | 0 <= i < j < |fs| ensures (fs[i].ad, fs[i].hour) != (fs[j].ad, fs[j].hour) {
        assert all[i] == fs[i] && all[j] == fs[j];
      }
      assert all[|fs|] == f;
    }
  }

  lemma {:induction false} AcceptablePrefix(m: Entities, fs: seq<Fact>, n: nat, start: int, clock: int)
    requires n <= |fs| && Acceptable(m, fs, start, clock)
    ensures Acceptable(m, fs[..n], start, clock)
  {
    forall i, j | 0 <= i < j < n ensures (fs[..n][i].ad, fs[..n][i].hour) != (fs[..n][j].ad, fs[..n][j].hour) {
      assert fs[..n][i] == fs[i] && fs[..n][j] == fs[j];
    }
  }

  function Keys(fs: seq<Fact>): set<(string, int)> { set i | 0 <= i < |fs| :: (fs[i].ad, fs[i].hour) }

  predicate NoDuplicates(fs: seq<Fact>) {
    forall i, j | 0 <= i < j < |fs| :: (fs[i].ad, fs[i].hour) != (fs[j].ad, fs[j].hour)
  }

  // ----- loading and saving -----

  /** Where every environment starts; `sound` is the check of a stored model, and `learning` what
      the model remembers of ad groups. */
  datatype Seed<!M, O> = Seed(
    account: string, currency: string, entities: Entities, clock: int, model: M, operations: Operations<O>,
    sound: M -> bool, learning: M -> map<string, Learning.State>)

  /** A rule without a definition is switched off. */
  function Disarmed(rules: map<string, string>, defined: set<string>): map<string, string> {
    map id | id in rules :: if id in defined then rules[id] else "DISABLED"
  }

  function RestoreOperations<M, O>(seed: Seed<M, O>, o: Operations<O>): Option<Operations<O>> {
    if !o.complete || o.account != seed.account || o.currency != seed.currency then None
    else Some(o.(rules := Disarmed(o.rules, o.defined)))
  }

  /** `listed` is the stored entities in the order the store lists them. */
  function Load<M, O>(seed: Seed<M, O>, disk: Disk<M, O>, listed: seq<Entity>): Option<Sandbox<M, O>> {
    match RestoreAll(seed.entities, ByLevel(listed), seed.account)
    case None => None
    case Some(entities) =>
      match RestoreSimulation(seed, Fresh(seed).(entities := entities), disk.simulation, disk.facts)
      case None => None
      case Some(s) =>
        if disk.operations.None? then Some(s)
        else
          match RestoreOperations(seed, disk.operations.value)
          case None => None
          case Some(o) => Some(s.(operations := o))
  }

  /** Saving an advance: refused when the model cannot be encoded, when the clock is no longer the
      one it started from, or when a fact of that ad and hour is stored already. */
  function Save<M, O>(seed: Seed<M, O>, disk: Disk<M, O>, previous: int, s: Sandbox<M, O>, created: seq<Fact>)
    : Option<Disk<M, O>>
  {
    if !Learning.Encodable(seed.learning(s.model)) then None
    else if disk.simulation.Some? && disk.simulation.value.0 != previous then None
    else if !NoDuplicates(disk.facts + created) then None
    else Some(Disk(disk.entities + s.entities, Some((s.clock, s.model)), disk.facts + created, Some(s.operations)))
  }

  function RestoreSimulation<M, O>(seed: Seed<M, O>, s: Sandbox<M, O>, state: Option<(int, M)>, stored: seq<Fact>)
    : Option<Sandbox<M, O>>
  {
    if state.Some? && (state.value.0 < s.clock || !seed.sound(state.value.1)) then None
    else
      var clock := if state.Some? then state.value.0 else s.clock;
      if !Acceptable(s.entities, stored, seed.clock, clock) then None
      else Some(s.(clock := clock, model := if state.Some? then state.value.1 else s.model, facts := SortFacts(stored)))
  }

  /** The backend of one process, filled in step by step. */
  class Backend<!M, O> {
    const seed: Seed<M, O>
    var entities: Entities
    var clock: int
    var model: M
    var facts: seq<Fact>
    var operations: Operations<O>

    function Value(): Sandbox<M, O>
      reads this
    {
      Sandbox(entities, clock, model, facts, operations)
    }

    constructor (seed: Seed<M, O>)
      ensures this.seed == seed && Value() == Fresh(seed)
    {
      this.seed := seed;
      entities, clock, model, facts, operations := seed.entities, seed.clock, seed.model, [], seed.operations;
    }

    method RestoreEntity(e: Entity) returns (ok: bool)
      modifies this`entities
      ensures var r := Restore(old(entities), e, seed.account);
        ok == r.Some? && entities == if ok then r.value else old(entities)
    {
      if !Check(e, seed.account) { return false; }
      if e.id !in entities {
        if !ParentFits(entities, e) { return false; }
      } else if !SameObject(entities[e.id], e) {
        return false;
      }
      entities := entities[e.id := e];
      return true;
    }

    method InstallFacts(stored: seq<Fact>) returns (ok: bool)
      requires facts == []
      modifies this`facts
      ensures ok == Acceptable(entities, stored, seed.clock, clock) && (ok ==> facts == SortFacts(stored))
    {
      var seen: set<(string, int)> := {};
      for i := 0 to |stored|
        invariant Acceptable(entities, stored[..i], seed.clock, clock)
        invariant facts == SortFacts(stored[..i]) && seen == Keys(stored[..i])
      {
        var f := stored[i];
        assert stored[..i + 1] == stored[..i] + [f];
        AcceptableSnoc(entities, stored[..i], f, seed.clock, clock);
        if !KnownFact(entities, f, seed.clock, clock) || (f.ad, f.hour) in seen {
          if Acceptable(entities, stored, seed.clock, clock) {
            AcceptablePrefix(entities, stored, i + 1, seed.clock, clock);
          }
          return false;
        }
        KeysSnoc(stored[..i], f);
        seen := seen + {(f.ad, f.hour)};
        facts := Orders.Insert(InOrder, facts, f);
      }
      assert stored[..|stored|] == stored;
      return true;
    }

    method InstallSimulation(state: Option<(int, M)>, stored: seq<Fact>) returns (ok: bool)
      requires facts == []
      modifies this
      ensures var r := RestoreSimulation(seed, old(Value()), state, stored);
        ok == r.Some? && (ok ==> Value() == r.value)
    {
      if state.Some? {
        if state.value.0 < clock || !seed.sound(state.value.1) { return false; }
        clock, model := state.value.0, state.value.1;
      }
      ok := InstallFacts(stored);
    }

    method RestoreEntities(ordered: seq<Entity>) returns (ok: bool)
      modifies this`entities
      ensures var r := RestoreAll(old(entities), ordered, seed.account);
        ok == r.Some? && (ok ==> entities == r.value)
    {
      for i := 0 to |ordered|
        invariant RestoreAll(old(entities), ordered[..i], seed.account) == Some(entities)
      {
        assert ordered[..i + 1][..i] == ordered[..i];
        ok := RestoreEntity(ordered[i]);
        if !ok {
          StaysRefused(old(entities), ordered, i + 1, seed.account);
          return;
        }
      }
      assert ordered[..|ordered|] == ordered;
      ok := true;
    }

    method LoadFrom(disk: Disk<M, O>, listed: seq<Entity>) returns (ok: bool)
      requires Value() == Fresh(seed)
      modifies this
      ensures var r := Load(seed, disk, listed);
        ok == r.Some? && (ok ==> Value() == r.value)
    {
      ok := RestoreEntities(ByLevel(listed));
      if !ok { return; }
      ok := InstallSimulation(disk.simulation, disk.facts);
      if ok && disk.operations.Some? { ok := InstallOperations(disk.operations.value); }
    }

    method InstallOperations(o: Operations<O>) returns (ok: bool)
      modifies this`operations
      ensures var r := RestoreOperations(seed, o);
        ok == r.Some? && operations == if ok then r.value else old(operations)
    {
      if !o.complete { return false; }
      if o.account != seed.account || o.currency != seed.currency { return false; }
      var rules := o.rules;
      var left := o.rules.Keys;
      while left != {}
        invariant left <= o.rules.Keys == rules.Keys
        invariant forall id | id in rules ::
          rules[id] == (if id in left then o.rules else Disarmed(o.rules, o.defined))[id]
      {
        var id :| id in left;
        if id !in o.defined { rules := rules[id := "DISABLED"]; }
        left := left - {id};
      }
      assert rules == Disarmed(o.rules, o.defined);
      operations := o.(rules := rules);
      ok := true;
    }

    method Advance(next: Sandbox<M, O> -> Sandbox<M, O>, hours: nat)
      modifies this
      ensures Value() == Simulate(next, old(Value()), hours)
    {
      for step := 0 to hours
        invariant Value() == Simulate(next, old(Value()), step)
      {
        var s := next(Value());
        entities, clock, model, facts, operations := s.entities, s.clock, s.model, s.facts, s.operations;
      }
    }

    /** One request to advance: load what is stored, simulate, and save. */
    method AdvanceStored(disk: Disk<M, O>, listed: seq<Entity>, next: Sandbox<M, O> -> Sandbox<M, O>, hours: nat)
      returns (saved: Option<Disk<M, O>>)
      requires Value() == Fresh(seed)
      modifies this
      ensures var loaded := Load(seed, disk, listed);
        saved == if loaded.None? then None
                 else
                   var t := Simulate(next, loaded.value, hours);
                   Save(seed, disk, loaded.value.clock, t, Created(loaded.value, t))
    {
      var ok := LoadFrom(disk, listed);
      if !ok { return None; }
      var previous := Value();
      Advance(next, hours);
      saved := Save(seed, disk, previous.clock, Value(), Created(previous, Value()));
    }
  }

  function Fresh<M, O>(seed: Seed<M, O>): Sandbox<M, O> {
    Sandbox(seed.entities, seed.clock, seed.model, [], seed.operations)
  }

  lemma KeysSnoc(fs: seq<Fact>, f: Fact)
    ensures Keys(fs + [f]) == Keys(fs) + {(f.ad, f.hour)}
  {
    var all := fs + [f];
    assert all[|fs|] == f && forall i | 0 <= i < |fs| :: all[i] == fs[i];
    forall k ensures k in Keys(all) <==> k in Keys(fs) || k == (f.ad, f.hour) {
      if k in Keys(fs) { var i :| 0 <= i < |fs| && (fs[i].ad, fs[i].hour) == k; assert all[i] == fs[i]; }
    }
  }

  lemma {:induction false} StaysRefused(m: Entities, es: seq<Entity>, i: nat, account: string)
    requires i <= |es| && RestoreAll(m, es[..i], account).None?
    ensures RestoreAll(m, es, account).None?
    decreases |es|
  {
    if i < |es| {
      assert es[..|es| - 1][..i] == es[..i];
      StaysRefused(m, es[..|es| - 1], i, account);
    } else {
      assert es[..i] == es;
    }
  }

  // ----- what a running sandbox keeps -----

  predicate Hierarchy(m: Entities, account: string) {
    forall id | id in m :: m[id].id == id && Check(m[id], account) && ParentFits(m, m[id])
  }

  /** A fact as an hour generates it: of an ad, a number of whole hours after the start. */
  predicate Plausible(m: Entities, f: Fact, start: int, clock: int) {
    && f.ad in m && m[f.ad].level == Ad && start < f.hour <= clock && (f.hour - start) % 60 == 0
    && f.available >= f.hour && Consistent(f.reported, f.actual)
  }

  /** Such a fact passes the restart's check exactly when the start was a whole hour. */
  lemma PlausibleKnownIff(m: Entities, f: Fact, start: int, clock: int)
    requires Plausible(m, f, start, clock)
    ensures KnownFact(m, f, start, clock) <==> start % 60 == 0
  {}

  ghost predicate Kept<M, O>(seed: Seed<M, O>, s: Sandbox<M, O>) {
    && Hierarchy(seed.entities, seed.account) && Hierarchy(s.entities, seed.account)
    && (forall id | id in seed.entities :: id in s.entities && SameObject(seed.entities[id], s.entities[id]))
    && seed.clock <= s.clock && (s.clock - seed.clock) % 60 == 0 && seed.sound(s.model)
    && RestoreOperations(seed, s.operations) == Some(s.operations)
    && Orders.Sorted(InOrder, s.facts)
    && forall i | 0 <= i < |s.facts| :: Plausible(s.entities, s.facts[i], seed.clock, s.clock)
  }

  /** The disk holds the sandbox: whatever it does not hold is still as in the seed. */
  ghost predicate Holds<M, O>(disk: Disk<M, O>, seed: Seed<M, O>, s: Sandbox<M, O>) {
    && (forall id | id in disk.entities :: id in s.entities && disk.entities[id] == s.entities[id])
    && (forall id | id in s.entities && id !in disk.entities ::
          id in seed.entities && seed.entities[id] == s.entities[id])
    && (disk.simulation.Some? ==> disk.simulation.value == (s.clock, s.model))
    && (disk.simulation.None? ==> s.clock == seed.clock && s.model == seed.model)
    && (forall f :: f in disk.facts <==> f in s.facts) && NoDuplicates(disk.facts)
    && s.operations == if disk.operations.Some? then disk.operations.value else seed.operations
  }

  // ----- what is refused -----

  /** A stored entity is installed exactly when it is one of the account, with a status and a budget
      there can be, and is either new below a parent of the level above, or known and unchanged but
      for status and budget. Nothing else is touched. */
  lemma RestoreIff(m: Entities, e: Entity, account: string)
    ensures var r := Restore(m, e, account);
      && (r.Some? <==>
            && e.id != "" && e.account == account && e.status in {"ENABLE", "DISABLE"}
            && (e.budget.Some? ==> e.budget.value >= 0.0)
            && (if e.id in m then
                  var k := m[e.id];
                  (k.id, k.account, k.level, k.parent, k.fixed) == (e.id, e.account, e.level, e.parent, e.fixed)
                else if e.level == Campaign then e.parent == ""
                else e.parent in m && m[e.parent].level == if e.level == Ad then AdGroup else Campaign))
      && (r.Some? ==> r.value == m[e.id := e])
  {}

  /** Valid facts of existing ads, no ad with two of an hour. */
  predicate AllValid(m: Entities, fs: seq<Fact>, start: int, clock: int) {
    && (forall i | 0 <= i < |fs| :: fs[i].ad in m && m[fs[i].ad].level == Ad && Valid(fs[i], start, clock))
    && forall i, j | 0 <= i < j < |fs| :: fs[i].ad != fs[j].ad || fs[i].hour != fs[j].hour
  }

  lemma AcceptableIff(m: Entities, fs: seq<Fact>, start: int, clock: int)
    ensures Acceptable(m, fs, start, clock) <==> AllValid(m, fs, start, clock)
  {
    if AllValid(m, fs, start, clock) {
      forall i | 0 <= i < |fs| ensures KnownFact(m, fs[i], start, clock) {}
    } else if Acceptable(m, fs, start, clock) {
      forall i | 0 <= i < |fs| ensures fs[i].ad in m && m[fs[i].ad].level == Ad && Valid(fs[i], start, clock) {
        assert KnownFact(m, fs[i], start, clock);
      }
    }
  }

  /** A stored simulation is installed exactly when its clock is not before the start, its model is
      sound and its facts are valid; then the facts are the stored ones, by hour and ad. */
  lemma RestoreSimulationIff<M, O>(seed: Seed<M, O>, s: Sandbox<M, O>, state: Option<(int, M)>, stored: seq<Fact>)
    ensures var r := RestoreSimulation(seed, s, state, stored);
      var clock := if state.Some? then state.value.0 else s.clock;
      var model := if state.Some? then state.value.1 else s.model;
      && (r.Some? <==>
            && (state.Some? ==> clock >= s.clock && seed.sound(model))
            && AllValid(s.entities, stored, seed.clock, clock))
      && (r.Some? ==>
            && r.value == s.(clock := clock, model := model, facts := r.value.facts)
            && Orders.Sorted(InOrder, r.value.facts) && forall f :: f in r.value.facts <==> f in stored)
  {
    AcceptableIff(s.entities, stored, seed.clock, if state.Some? then state.value.0 else s.clock);
    if RestoreSimulation(seed, s, state, stored).Some? { SortedFacts(stored); }
  }

  /** An advance is saved exactly when its model can be encoded, the stored clock is the one it
      started from, if there is one, and no fact is stored already; then all of it is stored. */
  lemma SaveIff<M, O>(seed: Seed<M, O>, disk: Disk<M, O>, previous: int, s: Sandbox<M, O>, created: seq<Fact>)
    ensures var r := Save(seed, disk, previous, s, created);
      && (r.Some? <==>
            && (forall id | id in seed.learning(s.model) :: seed.learning(s.model)[id].budget.Finite?)
            && (disk.simulation.Some? ==> disk.simulation.value.0 == previous)
            && NoDuplicates(disk.facts + created))
      && (r.Some? ==>
            && r.value.simulation == Some((s.clock, s.model)) && r.value.operations == Some(s.operations)
            && r.value.facts == disk.facts + created && r.value.entities == disk.entities + s.entities)
  {}

  /** The state of operations is installed exactly when it is complete and of this account; then
      rules without a definition are off, and all else is as stored. */
  lemma RestoreOperationsIff<M, O>(seed: Seed<M, O>, o: Operations<O>, id: string)
    ensures var r := RestoreOperations(seed, o);
      && (r.Some? <==> o.complete && o.account == seed.account && o.currency == seed.currency)
      && (r.Some? ==>
            && r.value == o.(rules := r.value.rules) && r.value.rules.Keys == o.rules.Keys
            && (id in o.rules ==> r.value.rules[id] == if id in o.defined then o.rules[id] else "DISABLED"))
  {}

  // ----- entities come back -----

  function MapOf(es: seq<Entity>): Entities {
    if es == [] then map[] else MapOf(es[..|es| - 1])[es[|es| - 1].id := es[|es| - 1]]
  }

  lemma ApartSnoc(es: seq<Entity>, e: Entity)
    requires Apart(es + [e])
    ensures Apart(es) && forall x | x in es :: x.id != e.id
  {
    var all := es + [e];
    forall i, j | 0 <= i < j < |es| ensures es[i].id != es[j].id { assert all[i].id != all[j].id; }
    forall i | 0 <= i < |es| ensures es[i].id != e.id { assert all[i].id != all[|es|].id; }
  }

  lemma {:induction false} MapOfListed(es: seq<Entity>)
    requires Apart(es)
    ensures forall id | id in MapOf(es) :: MapOf(es)[id] in es && MapOf(es)[id].id == id
    ensures forall e | e in es :: e.id in MapOf(es) && MapOf(es)[e.id] == e
  {
    if es != [] {
      var before, last := es[..|es| - 1], es[|es| - 1];
      assert es == before + [last];
      ApartSnoc(before, last);
      MapOfListed(before);
    }
  }

  ghost predicate Fit(m: Entities, es: seq<Entity>, account: string) {
    forall e | e in es :: Check(e, account) && ParentFits(m, e) && (e.id in m ==> SameObject(m[e.id], e))
  }

  /** Entities that fit what is there already can all be restored, in any order. */
  lemma {:induction false} RestoreLevel(m: Entities, es: seq<Entity>, account: string)
    requires Apart(es) && Fit(m, es, account)
    ensures RestoreAll(m, es, account) == Some(m + MapOf(es))
  {
    if es == [] {
      assert m + MapOf(es) == m;
    } else {
      var before, last := es[..|es| - 1], es[|es| - 1];
      assert es == before + [last] && last in es;
      ApartSnoc(before, last);
      RestoreLevel(m, before, account);
      RestoreOne(m, before, last, account);
    }
  }

  lemma RestoreOne(m: Entities, es: seq<Entity>, e: Entity, account: string)
    requires Apart(es) && Fit(m, es, account) && (forall x | x in es :: x.id != e.id)
    requires Check(e, account) && ParentFits(m, e) && (e.id in m ==> SameObject(m[e.id], e))
    ensures Restore(m + MapOf(es), e, account) == Some((m + MapOf(es))[e.id := e])
    ensures (m + MapOf(es))[e.id := e] == m + MapOf(es)[e.id := e]
  {
    MapOfListed(es);
    assert e.id !in MapOf(es);
    ParentStays(m, es, e, account);
  }

  lemma ParentStays(m: Entities, es: seq<Entity>, e: Entity, account: string)
    requires Apart(es) && Fit(m, es, account) && ParentFits(m, e)
    ensures ParentFits(m + MapOf(es), e)
  {
    MapOfListed(es);
  }

  lemma {:induction false} RestoreAppend(m: Entities, a: seq<Entity>, b: seq<Entity>, account: string)
    requires RestoreAll(m, a, account).Some?
    ensures RestoreAll(m, a + b, account) == RestoreAll(RestoreAll(m, a, account).value, b, account)
  {
    if b == [] {
      assert a + b == a;
    } else {
      RestoreAppend(m, a, b[..|b| - 1], account);
      assert (a + b)[..|a + b| - 1] == a + b[..|b| - 1];
    }
  }

  lemma {:induction false} FilterApart(es: seq<Entity>, keep: Entity -> bool)
    requires Apart(es)
    ensures Apart(Filter(es, keep)) && forall e :: e in Filter(es, keep) <==> e in es && keep(e)
  {
    if es != [] {
      var before, last := es[..|es| - 1], es[|es| - 1];
      assert es == before + [last];
      ApartSnoc(before, last);
      FilterApart(before, keep);
      var r := Filter(before, keep);
      forall i | 0 <= i < |r| ensures r[i].id != last.id { assert r[i] in r; }
    }
  }

  /** One level of the stored entities. */
  function Of(disk: Entities, level: Level): Entities { map id | id in disk && disk[id].level == level :: disk[id] }

  lemma LevelIsMap(disk: Entities, listed: seq<Entity>, level: Level)
    requires Lists(listed, disk) && (forall id | id in disk :: disk[id].id == id)
    ensures MapOf(Filter(listed, AtLevel(level))) == Of(disk, level)
  {
    var es := Filter(listed, AtLevel(level));
    FilterApart(listed, AtLevel(level));
    MapOfListed(es);
    forall id | id in Of(disk, level) ensures id in MapOf(es) && MapOf(es)[id] == disk[id] {
      assert disk[id] in listed;
    }
    forall id | id in MapOf(es) ensures id in Of(disk, level) { assert MapOf(es)[id] in es; }
  }

  lemma LevelRestores(m: Entities, disk: Entities, listed: seq<Entity>, level: Level, account: string)
    requires Lists(listed, disk) && (forall id | id in disk :: disk[id].id == id)
    requires forall id | id in disk && disk[id].level == level ::
      Check(disk[id], account) && ParentFits(m, disk[id]) && (id in m ==> SameObject(m[id], disk[id]))
    ensures RestoreAll(m, Filter(listed, AtLevel(level)), account) == Some(m + Of(disk, level))
  {
    var es := Filter(listed, AtLevel(level));
    FilterApart(listed, AtLevel(level));
    forall e | e in es ensures Check(e, account) && ParentFits(m, e) && (e.id in m ==> SameObject(m[e.id], e)) {
      assert disk[e.id] == e;
    }
    RestoreLevel(m, es, account);
    LevelIsMap(disk, listed, level);
  }

  /** `disk` holds everything of `s` that is not as in the seed. */
  ghost predicate Covers(seed: Entities, s: Entities, disk: Entities, account: string) {
    && Hierarchy(seed, account) && Hierarchy(s, account)
    && (forall id | id in seed :: id in s && SameObject(seed[id], s[id]))
    && (forall id | id in disk :: id in s && disk[id] == s[id])
    && (forall id | id in s && id !in disk :: id in seed && seed[id] == s[id])
  }

  /** When the levels above are complete, a level's stored entities fit. */
  lemma LevelFits(seed: Entities, s: Entities, disk: Entities, m: Entities, level: Level, account: string)
    requires Covers(seed, s, disk, account)
    requires forall id | id in m :: id in s && SameObject(m[id], s[id])
    requires forall id | id in s && s[id].level != level && (level == Ad || s[id].level == Campaign) :: id in m
    ensures forall id | id in disk && disk[id].level == level ::
      Check(disk[id], account) && ParentFits(m, disk[id]) && (id in m ==> SameObject(m[id], disk[id]))
  {}

  lemma LevelAdds(seed: Entities, s: Entities, disk: Entities, m: Entities, level: Level, account: string)
    requires Covers(seed, s, disk, account) && (forall id | id in seed :: id in m)
    requires forall id | id in m :: id in s && SameObject(m[id], s[id])
    ensures var t := m + Of(disk, level);
      && (forall id | id in t :: id in s && SameObject(t[id], s[id]))
      && (forall id | id in m :: id in t)
      && (forall id | id in s && s[id].level == level :: id in t)
  {}

  lemma LevelsAreAll(disk: Entities)
    ensures Of(disk, Campaign) + Of(disk, AdGroup) + Of(disk, Ad) == disk
  {
    var all := Of(disk, Campaign) + Of(disk, AdGroup) + Of(disk, Ad);
    forall id | id in disk ensures id in all && all[id] == disk[id] {}
    assert all.Keys == disk.Keys;
  }

  lemma Regroup(a: Entities, b: Entities, c: Entities, d: Entities)
    ensures a + b + c + d == a + (b + c + d)
  {}

  lemma SeedAndDisk(seed: Entities, s: Entities, disk: Entities, account: string)
    requires Covers(seed, s, disk, account)
    ensures seed + disk == s
  {}

  lemma LevelsTogether(seed: Entities, s: Entities, disk: Entities, account: string)
    requires Covers(seed, s, disk, account)
    ensures seed + Of(disk, Campaign) + Of(disk, AdGroup) + Of(disk, Ad) == s
  {
    LevelsAreAll(disk);
    SeedAndDisk(seed, s, disk, account);
    Regroup(seed, Of(disk, Campaign), Of(disk, AdGroup), Of(disk, Ad));
  }

  /** Restoring the stored entities, parents first, gives back the sandbox's entities, whatever
      the order they are listed in. */
  lemma EntitiesComeBack(seed: Entities, s: Entities, disk: Entities, listed: seq<Entity>, account: string)
    requires Covers(seed, s, disk, account) && Lists(listed, disk)
    ensures RestoreAll(seed, ByLevel(listed), account) == Some(s)
  {
    var m1 := seed + Of(disk, Campaign);
    var m2 := m1 + Of(disk, AdGroup);
    LevelFits(seed, s, disk, seed, Campaign, account);
    LevelRestores(seed, disk, listed, Campaign, account);
    LevelAdds(seed, s, disk, seed, Campaign, account);
    LevelFits(seed, s, disk, m1, AdGroup, account);
    LevelRestores(m1, disk, listed, AdGroup, account);
    LevelAdds(seed, s, disk, m1, AdGroup, account);
    LevelFits(seed, s, disk, m2, Ad, account);
    LevelRestores(m2, disk, listed, Ad, account);
    LevelsTogether(seed, s, disk, account);
    LevelOrder(seed, listed, m1, m2, s, account);
  }

  lemma LevelOrder(m: Entities, listed: seq<Entity>, m1: Entities, m2: Entities, m3: Entities, account: string)
    requires RestoreAll(m, Filter(listed, AtLevel(Campaign)), account) == Some(m1)
    requires RestoreAll(m1, Filter(listed, AtLevel(AdGroup)), account) == Some(m2)
    requires RestoreAll(m2, Filter(listed, AtLevel(Ad)), account) == Some(m3)
    ensures RestoreAll(m, ByLevel(listed), account) == Some(m3)
  {
    var a, b, c := Filter(listed, AtLevel(Campaign)), Filter(listed, AtLevel(AdGroup)), Filter(listed, AtLevel(Ad));
    RestoreAppend(m, a, b, account);
    RestoreAppend(m, a + b, c, account);
  }

  // ----- facts come back -----

  lemma {:induction false} SortedFacts(fs: seq<Fact>)
    requires NoDuplicates(fs)
    ensures Orders.Sorted(InOrder, SortFacts(fs)) && forall f :: f in SortFacts(fs) <==> f in fs
  {
    if fs != [] {
      var before, last := fs[..|fs| - 1], fs[|fs| - 1];
      assert fs == before + [last];
      forall i, j | 0 <= i < j < |before| ensures (before[i].ad, before[i].hour) != (before[j].ad, before[j].hour) {
        assert fs[i] == before[i] && fs[j] == before[j];
      }
      SortedFacts(before);
      var s := SortFacts(before);
      forall f | f in s ensures InOrder(f, last) || InOrder(last, f) {
        var i :| 0 <= i < |before| && before[i] == f;
        assert (fs[i].ad, fs[i].hour) != (fs[|before|].ad, fs[|before|].hour);
        Orders.LessTotal(f.ad, last.ad);
      }
      forall f, g | f in s && g in s && InOrder(f, g) && InOrder(g, last) ensures InOrder(f, last) {
        EarlierTransitive(f, g, last);
      }
      Orders.InsertSorted(InOrder, s, last);
      Orders.InsertMembers(InOrder, s, last);
    }
  }

  lemma EarlierTransitive(a: Fact, b: Fact, c: Fact)
    requires Earlier(a, b) && Earlier(b, c)
    ensures Earlier(a, c)
  {
    if a.hour == b.hour == c.hour { Orders.LessTransitive(a.ad, b.ad, c.ad); }
  }

  lemma EarlierIrreflexive(a: Fact, b: Fact)
    requires Earlier(a, b)
    ensures !Earlier(b, a) && a != b
  {
    Orders.LessIrreflexive(a.ad);
    if a.hour == b.hour && Orders.Less(b.ad, a.ad) { Orders.LessTransitive(a.ad, b.ad, a.ad); }
  }

  /** There is only one sorted list of the same facts. */
  lemma {:induction false} SortedIsUnique(a: seq<Fact>, b: seq<Fact>)
    requires Orders.Sorted(InOrder, a) && Orders.Sorted(InOrder, b) && forall f :: f in a <==> f in b
    ensures a == b
  {
    if a == [] {
      if b != [] { FirstMember(b); }
    } else {
      assert a[0] in b && b != [] && b[0] in a;
      FirstIsLeast(a, b[0]);
      FirstIsLeast(b, a[0]);
      if a[0] != b[0] { EarlierIrreflexive(a[0], b[0]); }
      forall f ensures f in a[1..] <==> f in b[1..] {
        TailMembers(a, f);
        TailMembers(b, f);
      }
      SortedIsUnique(a[1..], b[1..]);
      assert a == [a[0]] + a[1..] && b == [b[0]] + b[1..];
    }
  }

  lemma FirstMember(a: seq<Fact>)
    requires a != []
    ensures a[0] in a
  {}

  lemma FirstIsLeast(a: seq<Fact>, f: Fact)
    requires Orders.Sorted(InOrder, a) && f in a
    ensures f == a[0] || Earlier(a[0], f)
  {
    var i :| 0 <= i < |a| && a[i] == f;
    if i > 0 { assert InOrder(a[0], a[i]); }
  }

  lemma TailMembers(a: seq<Fact>, f: Fact)
    requires Orders.Sorted(InOrder, a) && a != []
    ensures f in a[1..] <==> f in a && f != a[0]
  {
    if f in a[1..] {
      var i :| 0 <= i < |a| - 1 && a[1..][i] == f;
      assert InOrder(a[0], a[i + 1]);
      EarlierIrreflexive(a[0], f);
    }
    assert a == [a[0]] + a[1..];
  }

  // ----- the whole sandbox comes back -----

  /** Facts can be loaded exactly when there are none or the start was a whole hour. */
  predicate Loadable<M, O>(seed: Seed<M, O>, s: Sandbox<M, O>) { s.facts == [] || seed.clock % 60 == 0 }

  /** Loading what is stored gives back the sandbox exactly: entities, clock, model, the facts in
      their order, and operations. */
  lemma LoadGivesBack<M, O>(seed: Seed<M, O>, s: Sandbox<M, O>, disk: Disk<M, O>, listed: seq<Entity>)
    requires Kept(seed, s) && Holds(disk, seed, s) && Lists(listed, disk.entities)
    ensures Load(seed, disk, listed) == if Loadable(seed, s) then Some(s) else None
  {
    EntitiesComeBack(seed.entities, s.entities, disk.entities, listed, seed.account);
    SimulationComesBack(seed, s, disk);
  }

  lemma SimulationComesBack<M, O>(seed: Seed<M, O>, s: Sandbox<M, O>, disk: Disk<M, O>)
    requires Kept(seed, s) && Holds(disk, seed, s)
    ensures RestoreSimulation(seed, Fresh(seed).(entities := s.entities), disk.simulation, disk.facts)
      == if Loadable(seed, s) then Some(s.(operations := seed.operations)) else None
  {
    StoredAcceptableIff(disk.facts, s.facts, s.entities, seed.clock, s.clock);
    FactsComeBack(disk.facts, s.facts);
  }

  lemma FactsComeBack(stored: seq<Fact>, fs: seq<Fact>)
    requires NoDuplicates(stored) && Orders.Sorted(InOrder, fs) && forall f :: f in stored <==> f in fs
    ensures SortFacts(stored) == fs
  {
    SortedFacts(stored);
    SortedIsUnique(SortFacts(stored), fs);
  }

  lemma StoredAcceptableIff(stored: seq<Fact>, fs: seq<Fact>, m: Entities, start: int, clock: int)
    requires NoDuplicates(stored) && forall f :: f in stored <==> f in fs
    requires forall i | 0 <= i < |fs| :: Plausible(m, fs[i], start, clock)
    ensures Acceptable(m, stored, start, clock) <==> fs == [] || start % 60 == 0
  {
    forall i | 0 <= i < |stored| ensures KnownFact(m, stored[i], start, clock) <==> start % 60 == 0 {
      assert stored[i] in fs;
      PlausibleKnownIff(m, stored[i], start, clock);
    }
    assert stored != [] ==> stored[0] in fs;
    if fs != [] {
      assert fs[0] in fs;
      var k :| 0 <= k < |stored| && stored[k] == fs[0];
      assert KnownFact(m, stored[k], start, clock) <==> start % 60 == 0;
    }
  }

  // ----- advancing -----

  function Simulate<M, O>(next: Sandbox<M, O> -> Sandbox<M, O>, s: Sandbox<M, O>, hours: nat): Sandbox<M, O> {
    if hours == 0 then s else next(Simulate(next, s, hours - 1))
  }

  // ----- the facts of an hour -----

  function HourFacts(ads: seq<string>, hour: int, delay: nat, outcomes: string -> seq<Outcome>): (fs: seq<Fact>)
    ensures |fs| == |ads|
  {
    seq(|ads|, i requires 0 <= i < |ads| => FactOf(ads[i], hour, delay, outcomes(ads[i])))
  }

  const ByName: (string, string) -> bool := (a: string, b: string) => Orders.Less(a, b)

  /** The ads of a sandbox in order of their names. */
  ghost predicate ListsAds(ads: seq<string>, m: Entities) {
    Orders.Sorted(ByName, ads) && forall id :: id in ads <==> id in m && m[id].level == Ad
  }

  ghost predicate AllPossible(outcomes: string -> seq<Outcome>) {
    forall ad, i | 0 <= i < |outcomes(ad)| :: Possible(outcomes(ad)[i])
  }

  /** Some outcomes of all ads' candidates account for these facts. */
  ghost predicate Generated(fs: seq<Fact>, m: Entities, hour: int) {
    exists ads, delay, outcomes ::
      ListsAds(ads, m) && AllPossible(outcomes) && fs == HourFacts(ads, hour, delay, outcomes)
  }

  /** One fact for each ad in order of names: sorted, and each acceptable after a restart exactly
      when the simulation began on a whole hour. */
  lemma HourFactsFit(m: Entities, fs: seq<Fact>, start: int, hour: int)
    requires Generated(fs, m, hour) && start < hour && (hour - start) % 60 == 0
    ensures Orders.Sorted(InOrder, fs)
    ensures forall i | 0 <= i < |fs| :: fs[i].hour == hour && Plausible(m, fs[i], start, hour)
    ensures forall i | 0 <= i < |fs| :: KnownFact(m, fs[i], start, hour) <==> start % 60 == 0
  {
    var ads, delay, outcomes :|
      ListsAds(ads, m) && AllPossible(outcomes) && fs == HourFacts(ads, hour, delay, outcomes);
    forall i, j | 0 <= i < j < |fs| ensures InOrder(fs[i], fs[j]) { assert ByName(ads[i], ads[j]); }
    forall i | 0 <= i < |fs|
      ensures fs[i].hour == hour && Plausible(m, fs[i], start, hour)
      ensures KnownFact(m, fs[i], start, hour) <==> start % 60 == 0
    {
      assert ads[i] in ads;
      GeneratedFactValidIff(ads[i], hour, delay, outcomes(ads[i]), start, hour);
      PlausibleKnownIff(m, fs[i], start, hour);
    }
  }

  // ----- hours -----

  /** What is assumed of an hour: of entities it changes budgets and statuses alone, of operations
      nothing that loading looks at, its model is sound, and its facts are generated. */
  ghost predicate HourStep<M, O>(seed: Seed<M, O>, s: Sandbox<M, O>, t: Sandbox<M, O>) {
    && t.clock == s.clock + 60 && seed.sound(t.model) && t.operations == s.operations.(rest := t.operations.rest)
    && s.entities.Keys == t.entities.Keys
    && (forall id | id in s.entities ::
          SameObject(s.entities[id], t.entities[id]) && Check(t.entities[id], seed.account))
    && s.facts <= t.facts && Generated(t.facts[|s.facts|..], t.entities, t.clock)
  }

  ghost predicate Lawful<M(!new), O(!new)>(seed: Seed<M, O>, next: Sandbox<M, O> -> Sandbox<M, O>) {
    forall s :: Kept(seed, s) ==> HourStep(seed, s, next(s))
  }

  lemma HierarchyStays(m: Entities, t: Entities, account: string)
    requires Hierarchy(m, account) && m.Keys == t.Keys
    requires forall id | id in m :: SameObject(m[id], t[id]) && Check(t[id], account)
    ensures Hierarchy(t, account)
  {}

  /** Plausible facts stay so when hours pass and ads stay ads. */
  lemma StillPlausible(m: Entities, t: Entities, f: Fact, start: int, clock: int, later: int)
    requires Plausible(m, f, start, clock) && clock <= later
    requires m.Keys == t.Keys && forall id | id in m :: SameObject(m[id], t[id])
    ensures Plausible(t, f, start, later)
  {}

  lemma AppendSorted(fs: seq<Fact>, added: seq<Fact>)
    requires Orders.Sorted(InOrder, fs) && Orders.Sorted(InOrder, added)
    requires forall i, j | 0 <= i < |fs| && 0 <= j < |added| :: fs[i].hour < added[j].hour
    ensures Orders.Sorted(InOrder, fs + added)
  {
    var all := fs + added;
    forall i, j | 0 <= i < j < |all| ensures InOrder(all[i], all[j]) {
      if j < |fs| {
        assert InOrder(fs[i], fs[j]);
      } else if i >= |fs| {
        assert InOrder(added[i - |fs|], added[j - |fs|]);
      }
    }
  }

  lemma HourKeeps<M, O>(seed: Seed<M, O>, s: Sandbox<M, O>, t: Sandbox<M, O>)
    requires Kept(seed, s) && HourStep(seed, s, t)
    ensures Kept(seed, t)
  {
    HierarchyStays(s.entities, t.entities, seed.account);
    HourKeepsFacts(s.entities, t.entities, s.facts, t.facts[|s.facts|..], seed.clock, s.clock);
    assert t.facts == s.facts + t.facts[|s.facts|..];
  }

  lemma HourKeepsFacts(m: Entities, t: Entities, fs: seq<Fact>, added: seq<Fact>, start: int, clock: int)
    requires m.Keys == t.Keys && forall id | id in m :: SameObject(m[id], t[id])
    requires Orders.Sorted(InOrder, fs) && forall i | 0 <= i < |fs| :: Plausible(m, fs[i], start, clock)
    requires start <= clock && (clock - start) % 60 == 0 && Generated(added, t, clock + 60)
    ensures Orders.Sorted(InOrder, fs + added)
    ensures forall i | 0 <= i < |fs + added| :: Plausible(t, (fs + added)[i], start, clock + 60)
  {
    HourFactsFit(t, added, start, clock + 60);
    AppendSorted(fs, added);
    forall i | 0 <= i < |fs + added| ensures Plausible(t, (fs + added)[i], start, clock + 60) {
      if i < |fs| { StillPlausible(m, t, fs[i], start, clock, clock + 60); }
      else { assert (fs + added)[i] == added[i - |fs|]; }
    }
  }

  lemma {:induction false} SimulateKeeps<M(!new), O(!new)>(seed: Seed<M, O>, next: Sandbox<M, O> -> Sandbox<M, O>,
                                                           s: Sandbox<M, O>, hours: nat)
    requires Lawful(seed, next) && Kept(seed, s)
    ensures var t := Simulate(next, s, hours);
      && Kept(seed, t) && t.clock == s.clock + 60 * hours && s.facts <= t.facts && s.entities.Keys == t.entities.Keys
  {
    if hours > 0 {
      SimulateKeeps(seed, next, s, hours - 1);
      HourKeeps(seed, Simulate(next, s, hours - 1), Simulate(next, s, hours));
    }
  }

  lemma {:induction false} SimulateOn<M, O>(next: Sandbox<M, O> -> Sandbox<M, O>, s: Sandbox<M, O>, a: nat, b: nat)
    ensures Simulate(next, Simulate(next, s, a), b) == Simulate(next, s, a + b)
  {
    if b > 0 { SimulateOn(next, s, a, b - 1); }
  }

  lemma SortedNoDuplicates(fs: seq<Fact>)
    requires Orders.Sorted(InOrder, fs)
    ensures NoDuplicates(fs)
  {
    forall i, j | 0 <= i < j < |fs| ensures (fs[i].ad, fs[i].hour) != (fs[j].ad, fs[j].hour) {
      assert InOrder(fs[i], fs[j]);
      Orders.LessIrreflexive(fs[i].ad);
    }
  }

  lemma StoredDifferFromNew(stored: seq<Fact>, earlier: seq<Fact>, all: seq<Fact>)
    requires NoDuplicates(stored) && NoDuplicates(all) && earlier <= all && forall f | f in stored :: f in earlier
    ensures NoDuplicates(stored + all[|earlier|..])
  {
    var created := all[|earlier|..];
    var whole := stored + created;
    forall i, j | 0 <= i < j < |whole| ensures (whole[i].ad, whole[i].hour) != (whole[j].ad, whole[j].hour) {
      if j < |stored| {
        assert whole[i] == stored[i] && whole[j] == stored[j];
      } else if i < |stored| {
        assert stored[i] in earlier;
        var k :| 0 <= k < |earlier| && earlier[k] == stored[i];
        assert all[k] == whole[i] && all[|earlier| + (j - |stored|)] == whole[j];
      } else {
        assert all[|earlier| + (i - |stored|)] == whole[i] && all[|earlier| + (j - |stored|)] == whole[j];
      }
    }
  }

  /** An advance can be saved by whoever loaded the stored state exactly when its model can be
      encoded, and then is stored. */
  lemma AdvanceIsStored<M, O>(seed: Seed<M, O>, s: Sandbox<M, O>, t: Sandbox<M, O>, disk: Disk<M, O>)
    requires Kept(seed, s) && Kept(seed, t) && Holds(disk, seed, s) && s.facts <= t.facts
    requires s.entities.Keys == t.entities.Keys
    ensures var saved := Save(seed, disk, s.clock, t, t.facts[|s.facts|..]);
      && (saved.Some? <==> Learning.Encodable(seed.learning(t.model)))
      && (saved.Some? ==> Holds(saved.value, seed, t))
  {
    var created := t.facts[|s.facts|..];
    SortedNoDuplicates(t.facts);
    StoredDifferFromNew(disk.facts, s.facts, t.facts);
    forall f ensures f in disk.facts + created <==> f in t.facts {
      assert t.facts == s.facts + created;
    }
  }

  function Created<M, O>(s: Sandbox<M, O>, t: Sandbox<M, O>): seq<Fact> {
    if |s.facts| <= |t.facts| then t.facts[|s.facts|..] else []
  }

  /** Advancing, saving, loading in a new process and advancing again: the advance can be saved
      exactly when its model can be encoded, what was saved can be loaded exactly when the start
      was a whole hour or there is no fact, and then nothing shows that there was a restart. */
  lemma RestartIsInvisible<M(!new), O(!new)>(seed: Seed<M, O>, next: Sandbox<M, O> -> Sandbox<M, O>, s: Sandbox<M, O>,
                                             disk: Disk<M, O>, listed: seq<Entity>, a: nat, b: nat)
    requires Lawful(seed, next) && Kept(seed, s) && Holds(disk, seed, s)
    requires Lists(listed, disk.entities + Simulate(next, s, a).entities)
    ensures var t := Simulate(next, s, a); var saved := Save(seed, disk, s.clock, t, Created(s, t));
      && (saved.Some? <==> Learning.Encodable(seed.learning(t.model)))
      && (saved.Some? ==>
            var loaded := Load(seed, saved.value, listed);
            && (loaded.Some? <==> Loadable(seed, t))
            && (loaded.Some? ==> loaded == Some(t) && Simulate(next, loaded.value, b) == Simulate(next, s, a + b)))
  {
    var t := Simulate(next, s, a);
    SimulateKeeps(seed, next, s, a);
    SavedLoads(seed, s, t, disk, listed);
    SimulateOn(next, s, a, b);
  }

  lemma SavedLoads<M, O>(seed: Seed<M, O>, s: Sandbox<M, O>, t: Sandbox<M, O>, disk: Disk<M, O>, listed: seq<Entity>)
    requires Kept(seed, s) && Kept(seed, t) && Holds(disk, seed, s) && s.facts <= t.facts
    requires s.entities.Keys == t.entities.Keys && Lists(listed, disk.entities + t.entities)
    ensures var saved := Save(seed, disk, s.clock, t, Created(s, t));
      && (saved.Some? <==> Learning.Encodable(seed.learning(t.model)))
      && (saved.Some? ==> Load(seed, saved.value, listed) == if Loadable(seed, t) then Some(t) else None)
  {
    AdvanceIsStored(seed, s, t, disk);
    var saved := Save(seed, disk, s.clock, t, Created(s, t));
    if saved.Some? { LoadGivesBack(seed, t, saved.value, listed); }
  }

  /** The last hour of an advance looks at every ad group with an ad, so the advance can be saved
      exactly when each of them has a daily budget. */
  lemma AdvanceSavedIff<M, O>(seed: Seed<M, O>, s: Sandbox<M, O>, t: Sandbox<M, O>, disk: Disk<M, O>,
                              c: Learning.Config, groups: map<string, Learning.Group>, earlier: M)
    requires Kept(seed, s) && Kept(seed, t) && Holds(disk, seed, s) && s.facts <= t.facts
    requires s.entities.Keys == t.entities.Keys
    requires Learning.Sound(c) && seed.learning(earlier).Keys <= groups.Keys
    requires Learning.Learned(c, groups, seed.learning(earlier), seed.learning(t.model))
    ensures Save(seed, disk, s.clock, t, t.facts[|s.facts|..]).Some?
      <==> forall id | id in groups :: groups[id].budget.Daily?
  {
    AdvanceIsStored(seed, s, t, disk);
    Learning.SavableIff(c, groups, seed.learning(earlier), seed.learning(t.model));
  }

  /** Of two advances that loaded the same stored clock, the second to save is refused. */
  lemma OneAdvanceCommits<M, O>(seed: Seed<M, O>, disk: Disk<M, O>, clock: int, s: Sandbox<M, O>, fs: seq<Fact>,
                                t: Sandbox<M, O>, gs: seq<Fact>)
    requires s.clock != clock && Save(seed, disk, clock, s, fs).Some?
    ensures Save(seed, Save(seed, disk, clock, s, fs).value, clock, t, gs).None?
  {}
}
