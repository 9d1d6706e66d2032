/** The change service as a state machine (internal/agenthost/changes.go, internal/app/app.go).
    Every call runs in its own execution, interleaved with all others at each store and
    backend access. An execution may return early with an error, or vanish at any point. */
module ChangeProtocol {
  import opened Options
  import opened ChangeRecords
  import opened ChangeStore

  const APPLY_LEASE_MS := 60_000
  const ADVANCE_LEASE_MS := 600_000
  const INTERRUPT_AFTER_MS := 60_000
  const MAX_ADVANCE_HOURS := 744
  const SEED_CLOCK := 0

  /** Where an execution stands, with its local copies. `basis` is the record it last wrote. */
  datatype Phase =
    | Expiring(c: Change)
    | Leasing(c: Change, operator: string)
    | Leased(c: Change, operator: string, until: int)
    | Claimed(c: Change, until: int)
    | Ready(c: Change, until: int)
    | Acked(basis: Change, c: Change, until: int)
    | Finishing(basis: Change, c: Change, until: int)
    | Releasing(source: nat, until: int)
    | Interrupting(c: Change)
    | Observing(c: Change)
    | Confirming(c: Change)
    | Discarding(c: Change)
    | AdvanceLeasing(source: nat)
    | AdvanceLeased(source: nat, until: int)
    | AdvanceLoaded(source: nat, until: int, previous: int)

  /** A request handed to the backend, how much of the audit log existed by then, and the answer. */
  datatype Sent = Sent(id: nat, attempt: nat, payload: Payload, acked: bool, at: nat, answer: Answer)

  /** What a claimed change was compared with before anything was sent: what a read of its target,
      its plan or its parent showed, and whether the policy of that moment allowed it. */
  datatype Check = Check(
    id: nat, attempt: nat, payload: Payload, observed: Option<Version>, policyOk: bool, at: nat)

  datatype ReadBack = ReadBack(id: nat, observed: Option<Version>, at: nat)
  datatype Advanced = Advanced(source: nat, previous: int, current: int)

  datatype World = World(
    now: int, db: Db, execs: map<nat, Phase>, nextExec: nat,
    checks: seq<Check>, sends: seq<Sent>, readbacks: seq<ReadBack>, advances: seq<Advanced>)

  /** What the outside world answers when an execution takes its next step. */
  datatype Answer = Answer(
    observed: Option<Version>, policyOk: bool, outcome: Outcome, created: Option<Version>, hours: nat)

  datatype Label =
    | Tick(ms: nat)
    | Stage(draft: Change)
    | BeginApply(id: nat, session: nat, operator: string, source: nat, writable: bool)
    | BeginReconcile(id: nat, session: nat, source: nat)
    | BeginDiscard(id: nat, session: nat)
    | BeginAdvance(source: nat)
    | Step(exec: nat, answer: Answer)
    | Return(exec: nat)  // an error return: deferred releases still run
    | Crash(exec: nat)   // nothing runs any more; a lease stays behind

  // ----- the service's decisions -----

  /** `None`: the request may be sent. Otherwise the record to finish with, nothing sent. */
  function Revalidate(c: Change, observed: Option<Version>, policyOk: bool): Option<Change> {
    match c.payload
    case Create(spec, parent) =>
      if spec.None? then Some(c.(state := Failed, note := "invalid_create_payload"))
      else if parent.Some? && observed != parent then Some(c.(state := Expired, note := "parent_changed"))
      else None
    case Operation(plan) =>
      if plan.None? then Some(c.(state := Failed, note := "invalid_operation_payload"))
      else if observed.None? then Some(c.(state := Failed, note := "operation_revalidation_failed; request not sent"))
      else if observed != plan then Some(c.(state := Expired, note := "operation_dependencies_changed"))
      else if !policyOk then Some(c.(state := Failed, note := "policy; request not sent"))
      else None
    case Write(before, after) =>
      if before.None? || after.None? then Some(c.(state := Failed, note := "invalid_change_payload"))
      else if observed.None? then Some(c.(state := Failed, note := "revalidation_read_failed; request not sent"))
      else if observed != before then Some(c.(state := Expired, note := "target_changed"))
      else if !policyOk then Some(c.(state := Failed, note := "policy"))
      else None
  }

  predicate Accepted(c: Change, a: Answer) {
    if c.payload.Create? then a.created.Some? else a.outcome.Acknowledged?
  }

  /** The record after the backend answered; still `Applying` when a read-back has to follow. */
  function Record(c: Change, a: Answer): Change {
    if c.payload.Create? then
      if a.created.None? then c.(state := Failed, note := "create_failed")
      else c.(created := a.created, outcome := Some(Acknowledged))
    else
      var c' := c.(outcome := Some(a.outcome));
      match a.outcome
      case NotSent => c'.(state := Failed)
      case Rejected => c'.(state := Failed)
      case Acknowledged => c'
      case Partial => c'.(state := Indeterminate, note := "operation partially completed; no automatic retry")
      case Unknown => c'.(state := Indeterminate, note := "remote outcome unknown; no automatic retry")
  }

  predicate Matches(c: Change, observed: Option<Version>) {
    observed.Some? && observed == Wanted(c)
  }

  function Judge(c: Change, observed: Option<Version>): Change {
    if Matches(c, observed) then c.(state := Applied, note := "acknowledged and read-back matched")
    else c.(state := Indeterminate, note := "read-back not confirmed")
  }

  predicate Reconcilable(c: Change) {
    match c.payload
    case Create(_, _) => c.created.Some?
    case Operation(plan) => plan.Some? && c.outcome.Some?
    case Write(before, after) => before.Some? && after.Some?
  }

  /** The approval: who, when and under which fresh attempt. */
  function Claim(w: World, e: nat, c: Change, operator: string): Change {
    c.(approvedAt := Some(w.now), approvedBy := operator, attempt := Some(e), state := Applying)
  }

  function Interrupted(c: Change): Change {
    c.(state := Indeterminate, note := "interrupted execution; request may have been sent")
  }

  function ConfirmedRecord(c: Change): Change {
    c.(state := Applied, note := "matches the request; execution attribution unconfirmed")
  }

  // ----- steps -----

  function ClockOf(db: Db, source: nat): int { if source in db.clocks then db.clocks[source] else SEED_CLOCK }

  function Spawn(w: World, p: Phase): World {
    w.(execs := w.execs[w.nextExec := p], nextExec := w.nextExec + 1)
  }

  function Goto(w: World, e: nat, p: Phase): World { w.(execs := w.execs[e := p]) }

  function Gone(w: World, e: nat): World { w.(execs := w.execs - {e}) }

  /** The lease an execution believes it holds, and its deadline. */
  function Section(p: Phase): Option<(nat, int)> {
    match p
    case Leased(c, _, until) => Some((c.source, until))
    case Claimed(c, until) => Some((c.source, until))
    case Ready(c, until) => Some((c.source, until))
    case Acked(_, c, until) => Some((c.source, until))
    case Finishing(_, c, until) => Some((c.source, until))
    case Releasing(source, until) => Some((source, until))
    case AdvanceLeased(source, until) => Some((source, until))
    case AdvanceLoaded(source, until, _) => Some((source, until))
    case _ => None
  }

  /** Try the swap; whether it lands decides where the execution goes. */
  function Swap(w: World, e: nat, from: ChangeState, c: Change, landed: Option<Phase>, lost: Option<Phase>): World {
    var next := if TransitionError(w.db, from, c).NoError? then landed else lost;
    var w' := w.(db := AfterTransition(w.db, from, c));
    if next.Some? then Goto(w', e, next.value) else Gone(w', e)
  }

  /** Take the account's lease up to a deadline and go on, or give up because it is busy. */
  function TakeLease(w: World, e: nat, source: nat, until: int, next: Phase): World {
    if LeaseFree(w.db, source, w.now)
    then Goto(w.(db := AfterLease(w.db, source, e, until, w.now)), e, next)
    else Gone(w, e)
  }

  function StepExec(w: World, e: nat, p: Phase, a: Answer): World {
    match p
    case Expiring(c) => Swap(w, e, Staged, c.(state := Expired), None, None)
    case Leasing(c, operator) =>
      var until := w.now + APPLY_LEASE_MS;
      TakeLease(w, e, c.source, until, Leased(c, operator, until))
    case Leased(c, operator, until) =>
      var claim := Claim(w, e, c, operator);
      Swap(w, e, Staged, claim, Some(Claimed(claim, until)), Some(Releasing(c.source, until)))
    case Claimed(c, until) =>
      var verdict := Revalidate(c, a.observed, a.policyOk);
      var k := Check(c.id, e, c.payload, a.observed, a.policyOk, |w.db.audit|);
      var w' := w.(checks := w.checks + [k]);
      Goto(w', e, if verdict.Some? then Finishing(c, verdict.value, until) else Ready(c, until))
    case Ready(c, until) =>
      var c' := Record(c, a);
      var w' := w.(sends := w.sends + [Sent(c.id, e, c.payload, Accepted(c, a), |w.db.audit|, a)]);
      Goto(w', e, if c'.state.Applying? then Acked(c, c', until) else Finishing(c, c', until))
    case Acked(basis, c, until) =>
      var w' := w.(readbacks := w.readbacks + [ReadBack(c.id, a.observed, |w.db.audit|)]);
      Goto(w', e, Finishing(basis, Judge(c, a.observed), until))
    case Finishing(_, c, until) =>
      Swap(w, e, Applying, c, Some(Releasing(c.source, until)), Some(Releasing(c.source, until)))
    case Releasing(source, _) => Gone(w.(db := AfterRelease(w.db, source, e)), e)
    case Interrupting(c) =>
      var c' := Interrupted(c);
      Swap(w, e, Applying, c', if Reconcilable(c') then Some(Observing(c')) else None, None)
    case Observing(c) =>
      var w' := w.(readbacks := w.readbacks + [ReadBack(c.id, a.observed, |w.db.audit|)]);
      if Matches(c, a.observed) then Goto(w', e, Confirming(c)) else Gone(w', e)
    case Confirming(c) =>
      Swap(w, e, Indeterminate, ConfirmedRecord(c), None, None)
    case Discarding(c) => Swap(w, e, Staged, c.(state := Discarded), None, None)
    case AdvanceLeasing(source) =>
      var until := w.now + ADVANCE_LEASE_MS;
      TakeLease(w, e, source, until, AdvanceLeased(source, until))
    case AdvanceLeased(source, until) => Goto(w, e, AdvanceLoaded(source, until, ClockOf(w.db, source)))
    case AdvanceLoaded(source, until, previous) =>
      var current := previous + a.hours;
      if a.hours < 1 || a.hours > MAX_ADVANCE_HOURS || !ClockError(w.db, source, previous).NoError?
      then Goto(w, e, Releasing(source, until))
      else
        var w' := w.(db := AfterAdvance(w.db, source, previous, current),
                     advances := w.advances + [Advanced(source, previous, current)]);
        Goto(w', e, Releasing(source, until))
  }

  function Next(w: World, l: Label): World {
    match l
    case Tick(ms) => w.(now := w.now + ms)
    case Stage(c) =>
      if Draft(c) && InsertError(w.db, c).NoError? then w.(db := Put(w.db, c)) else w
    case BeginApply(id, session, operator, source, writable) =>
      if id !in w.db.rows then w else
      var c := w.db.rows[id];
      if c.session != session || operator == "" || !c.state.Staged? then w
      else if c.expiresAt <= w.now then Spawn(w, Expiring(c))
      else if source != c.source || !writable then w
      else Spawn(w, Leasing(c, operator))
    case BeginReconcile(id, session, source) =>
      if id !in w.db.rows then w else
      var c := w.db.rows[id];
      if c.session != session || source != c.source then w
      else if c.state.Applying? then
        if c.approvedAt.None? || w.now - c.approvedAt.value < INTERRUPT_AFTER_MS then w
        else Spawn(w, Interrupting(c))
      else if c.state.Indeterminate? && Reconcilable(c) then Spawn(w, Observing(c))
      else w
    case BeginDiscard(id, session) =>
      if id !in w.db.rows then w else
      var c := w.db.rows[id];
      if c.session != session || !c.state.Staged? then w else Spawn(w, Discarding(c))
    case BeginAdvance(source) => Spawn(w, AdvanceLeasing(source))
    case Step(e, a) => if e in w.execs then StepExec(w, e, w.execs[e], a) else w
    case Return(e) =>
      if e !in w.execs then w
      else if Section(w.execs[e]).None? then Gone(w, e)
      else
        var (source, until) := Section(w.execs[e]).value;
        Goto(w, e, Releasing(source, until))
    case Crash(e) => Gone(w, e)
  }

  const START := World(0, Db(map[], [], map[], map[]), map[], 0, [], [], [], [])

  /** The world after a whole run from the empty database. */
  function Run(labels: seq<Label>): World {
    if labels == [] then START else Next(Run(labels[..|labels| - 1]), labels[|labels| - 1])
  }
}
