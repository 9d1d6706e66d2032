/** Why a change ended as it did. Two more invariants of all runs tie every send to a fresh read that
    matched and a policy that allowed it, and every verdict to what was read and answered: nothing
    is sent over a foreign edit, nothing that could be sent is turned away, and what the backend
    answered is what the record says. */
module ChangeChecks {
  import opened Options
  import opened ChangeRecords
  import opened ChangeStore
  import opened ChangeProtocol
  import opened ChangeSafety
  import opened ChangeTheorems
  import opened ChangeOutcomes

  // ----- what a check and an answer call for -----

  predicate WellFormed(p: Payload) {
    match p
    case Write(before, after) => before.Some? && after.Some?
    case Create(spec, _) => spec.Some?
    case Operation(plan) => plan.Some?
  }

  /** The request is still about the state it was staged for. A creation without a parent always is. */
  predicate Fresh(k: Check) {
    match k.payload
    case Write(before, _) => k.observed == before
    case Create(_, parent) => parent.Some? ==> k.observed == parent
    case Operation(plan) => k.observed == plan
  }

  /** Something else was read; of a missing parent it is enough that it was not read. */
  predicate Stale(k: Check) {
    WellFormed(k.payload) && !Fresh(k) && (k.payload.Create? || k.observed.Some?)
  }

  /** A request may be sent when it is complete, fresh and, unless it creates, within the policy. */
  predicate Passes(k: Check) { WellFormed(k.payload) && Fresh(k) && (k.payload.Create? || k.policyOk) }

  predicate Denied(s: Sent) {
    if s.payload.Create? then s.answer.created.None? else s.answer.outcome.NotSent? || s.answer.outcome.Rejected?
  }

  predicate Taken(s: Sent) {
    if s.payload.Create? then s.answer.created.Some? else s.answer.outcome.Acknowledged?
  }

  /** The record holds the answer: a creation's object, or the outcome. */
  predicate Holds(c: Change, s: Sent) {
    if s.payload.Create? then c.created == s.answer.created else c.outcome == Some(s.answer.outcome)
  }

  // ----- the invariant -----

  predicate CheckedSend(checks: seq<Check>, attempt: nat, id: nat, payload: Payload, at: nat) {
    exists k :: k in checks && k.attempt == attempt && k.id == id && k.payload == payload && k.at <= at && Passes(k)
  }

  /** The attempt's own check turned the request away: as stale, or otherwise. */
  predicate TurnedAway(checks: seq<Check>, c: Change, stale: bool) {
    exists k :: k in checks && Some(k.attempt) == c.attempt && k.id == c.id && k.payload == c.payload
                && !Passes(k) && (Stale(k) <==> stale)
  }

  predicate Missed(readbacks: seq<ReadBack>, c: Change) {
    exists r :: r in readbacks && r.id == c.id && !Matches(c, r.observed)
  }

  /** The one send of this attempt got an answer that calls for the record's state. */
  predicate Answered(w: World, c: Change) {
    exists s :: s in w.sends && s.id == c.id && Some(s.attempt) == c.attempt && Holds(c, s)
                && (Denied(s) <==> c.state.Failed?)
                && (Taken(s) && c.state.Indeterminate? ==> Missed(w.readbacks, c))
  }

  /** What a record's state tells about the checks and the answers of its attempt. */
  predicate Decided(w: World, c: Change) {
    match c.state
    case Expired => !Marked(c) && (c.attempt.Some? ==> TurnedAway(w.checks, c, true))
    case Failed => Answered(w, c) || (!Marked(c) && TurnedAway(w.checks, c, false))
    case Indeterminate => Marked(c) ==> Answered(w, c)
    case Applied => Marked(c) ==> Answered(w, c)
    case _ => !Marked(c)
  }

  predicate Checked(p: Phase) { p.Ready? || PostSend(p) }

  predicate PhaseOk(w: World, e: nat, p: Phase) {
    match p
    case Ready(c, _) => CheckedSend(w.checks, e, c.id, c.payload, |w.db.audit|)
    case Acked(_, c, _) =>
      exists s :: s in w.sends && s.id == c.id && s.attempt == e && Holds(c, s) && Taken(s) && !Denied(s)
    case Finishing(_, c, _) => Decided(w, c)
    case _ => true
  }

  predicate ChecksOk(w: World) {
    && (forall k | k in w.checks ::
          k.attempt < w.nextExec && (k.attempt in w.execs ==> Checked(w.execs[k.attempt])))
    && (forall k | k in w.checks :: ApprovedBefore(w.db.audit, k.at, k.id, Some(k.attempt)))
    && (forall i, j | 0 <= i < j < |w.checks| :: w.checks[i].attempt != w.checks[j].attempt)
  }

  predicate AllDecided(w: World) {
    && ChecksOk(w)
    && (forall s | s in w.sends :: CheckedSend(w.checks, s.attempt, s.id, s.payload, s.at))
    && (forall c | c in w.db.audit :: Decided(w, c))
    && (forall e | e in w.execs :: PhaseOk(w, e, w.execs[e]))
  }

  // ----- frames -----

  predicate Grows(w: World, w': World) {
    w.checks <= w'.checks && w.sends <= w'.sends && w.readbacks <= w'.readbacks && |w.db.audit| <= |w'.db.audit|
  }

  lemma CheckedSendStays(checks: seq<Check>, checks': seq<Check>, attempt: nat, id: nat, payload: Payload,
                         at: nat, at': nat)
    requires checks <= checks' && at <= at' && CheckedSend(checks, attempt, id, payload, at)
    ensures CheckedSend(checks', attempt, id, payload, at')
  {
    var k :| k in checks && k.attempt == attempt && k.id == id && k.payload == payload && k.at <= at && Passes(k);
    assert k in checks';
  }

  lemma TurnedAwayStays(checks: seq<Check>, checks': seq<Check>, c: Change, stale: bool)
    requires checks <= checks' && TurnedAway(checks, c, stale)
    ensures TurnedAway(checks', c, stale)
  {
    var k :| k in checks && Some(k.attempt) == c.attempt && k.id == c.id && k.payload == c.payload
             && !Passes(k) && (Stale(k) <==> stale);
    assert k in checks';
  }

  lemma MissedStays(readbacks: seq<ReadBack>, readbacks': seq<ReadBack>, c: Change)
    requires readbacks <= readbacks' && Missed(readbacks, c)
    ensures Missed(readbacks', c)
  {
    var r :| r in readbacks && r.id == c.id && !Matches(c, r.observed);
    assert r in readbacks';
  }

  lemma AnsweredStays(w: World, w': World, c: Change)
    requires Grows(w, w') && Answered(w, c)
    ensures Answered(w', c)
  {
    var s :| s in w.sends && s.id == c.id && Some(s.attempt) == c.attempt && Holds(c, s)
             && (Denied(s) <==> c.state.Failed?)
             && (Taken(s) && c.state.Indeterminate? ==> Missed(w.readbacks, c));
    assert s in w'.sends;
    if Missed(w.readbacks, c) { MissedStays(w.readbacks, w'.readbacks, c); }
  }

  lemma DecidedStays(w: World, w': World, c: Change)
    requires Grows(w, w') && Decided(w, c)
    ensures Decided(w', c)
  {
    if Answered(w, c) { AnsweredStays(w, w', c); }
    if TurnedAway(w.checks, c, true) { TurnedAwayStays(w.checks, w'.checks, c, true); }
    if TurnedAway(w.checks, c, false) { TurnedAwayStays(w.checks, w'.checks, c, false); }
  }

  lemma PhaseStays(w: World, w': World, e: nat, p: Phase)
    requires Grows(w, w') && PhaseOk(w, e, p)
    ensures PhaseOk(w', e, p)
  {
    match p
    case Ready(c, _) =>
      CheckedSendStays(w.checks, w'.checks, e, c.id, c.payload, |w.db.audit|, |w'.db.audit|);
    case Finishing(_, c, _) => DecidedStays(w, w', c);
    case _ =>
  }

  /** No check and no send is added, and at most one record, which is decided. */
  predicate Quiet(w: World, w': World) {
    && w'.checks == w.checks && w'.sends == w.sends && w.readbacks <= w'.readbacks && w.nextExec <= w'.nextExec
    && (w'.db.audit == w.db.audit
        || (w'.db.audit != [] && w'.db.audit[..|w'.db.audit| - 1] == w.db.audit
            && Decided(w', w'.db.audit[|w'.db.audit| - 1])))
  }

  /** The stepping execution goes where it may: one with a check behind it does not start over. */
  predicate Moves(w: World, e: nat, w': World) {
    e in w'.execs ==>
      PhaseOk(w', e, w'.execs[e]) && (e in w.execs && Checked(w.execs[e]) ==> Checked(w'.execs[e]))
  }

  predicate OthersSame(w: World, e: nat, w': World) {
    forall f | f in w'.execs && f != e :: f in w.execs && w'.execs[f] == w.execs[f]
  }

  lemma ChecksStay(w: World, e: nat, w': World)
    requires AllDecided(w) && w'.checks == w.checks && w.nextExec <= w'.nextExec && Moves(w, e, w')
    requires OthersSame(w, e, w') && (e in w.execs || e == w.nextExec) && w.db.audit <= w'.db.audit
    ensures ChecksOk(w')
  {
    ApprovalsStay(w, w');
    forall k | k in w'.checks
      ensures k.attempt < w'.nextExec && (k.attempt in w'.execs ==> Checked(w'.execs[k.attempt]))
    {
      assert k.attempt < w.nextExec;
    }
  }

  lemma ApprovalsStay(w: World, w': World)
    requires ChecksOk(w) && w.db.audit <= w'.db.audit && w'.checks == w.checks
    ensures forall k | k in w'.checks :: ApprovedBefore(w'.db.audit, k.at, k.id, Some(k.attempt))
  {
    forall k | k in w'.checks ensures ApprovedBefore(w'.db.audit, k.at, k.id, Some(k.attempt)) {
      assert ApprovedBefore(w.db.audit, k.at, k.id, Some(k.attempt));
      assert w'.db.audit[..k.at] == w.db.audit[..k.at];
    }
  }

  lemma QuietStays(w: World, e: nat, w': World)
    requires AllDecided(w) && Quiet(w, w') && Moves(w, e, w') && OthersSame(w, e, w')
    requires e in w.execs || e == w.nextExec
    ensures AllDecided(w')
  {
    ChecksStay(w, e, w');
    LogsStay(w, w');
    forall f | f in w'.execs && f != e ensures PhaseOk(w', f, w'.execs[f]) { PhaseStays(w, w', f, w.execs[f]); }
  }

  lemma LogsStay(w: World, w': World)
    requires AllDecided(w) && Quiet(w, w')
    ensures Grows(w, w')
    ensures forall s | s in w'.sends :: CheckedSend(w'.checks, s.attempt, s.id, s.payload, s.at)
    ensures forall c | c in w'.db.audit :: Decided(w', c)
  {
    forall c | c in w'.db.audit ensures Decided(w', c) {
      if c in w.db.audit { DecidedStays(w, w', c); }
    }
  }

  // ----- steps -----

  lemma SwapDecides(w: World, e: nat, from: ChangeState, c: Change, landed: Option<Phase>, lost: Option<Phase>)
    requires Decided(w, c) && e in w.execs
    requires landed.Some? ==> !landed.value.Ready? && !landed.value.Acked? && !landed.value.Finishing?
    requires landed.Some? && Checked(w.execs[e]) ==> landed.value.Releasing?
    requires lost.Some? ==> lost.value.Releasing?
    ensures var w' := Swap(w, e, from, c, landed, lost); Quiet(w, w') && Moves(w, e, w')
  {
    assert (w.db.audit + [c])[..|w.db.audit|] == w.db.audit;
    DecidedStays(w, w.(db := Put(w.db, c)), c);
    DecidedByLogs(w.(db := Put(w.db, c)), Swap(w, e, from, c, landed, lost), c);
  }

  lemma DecidedByLogs(w: World, w': World, c: Change)
    requires w'.checks == w.checks && w'.sends == w.sends && w'.readbacks == w.readbacks
    ensures Decided(w, c) <==> Decided(w', c)
  {}

  /** Swaps out of `Staged`: a withdrawn change was never attempted, and a claim holds no answer. */
  lemma StagedDecides(w: World, e: nat, a: Answer)
    requires Inv(w) && e in w.execs
    requires w.execs[e].Expiring? || w.execs[e].Leased? || w.execs[e].Discarding?
    ensures var w' := StepExec(w, e, w.execs[e], a); Quiet(w, w') && Moves(w, e, w')
  {
    SwapStepIs(w, e, a);
    assert ExecOk(w, e, w.execs[e]);
    var c := w.execs[e].c;
    DraftDecided(w, e, c);
    match w.execs[e]
    case Expiring(_) => SwapDecides(w, e, Staged, c.(state := Expired), None, None);
    case Discarding(_) => SwapDecides(w, e, Staged, c.(state := Discarded), None, None);
    case Leased(_, operator, until) =>
      var claim := Claim(w, e, c, operator);
      SwapDecides(w, e, Staged, claim, Some(Claimed(claim, until)), Some(Releasing(c.source, until)));
  }

  lemma DraftDecided(w: World, e: nat, c: Change)
    requires Inv(w) && c in w.db.audit && c.state.Staged?
    ensures Decided(w, c.(state := Expired)) && Decided(w, c.(state := Discarded))
    ensures forall operator :: Decided(w, Claim(w, e, c, operator))
  {
    assert RecordOk(c);
  }

  lemma FinishDecides(w: World, e: nat, a: Answer)
    requires AllDecided(w) && e in w.execs && w.execs[e].Finishing?
    ensures var w' := StepExec(w, e, w.execs[e], a); Quiet(w, w') && Moves(w, e, w')
  {
    SwapStepIs(w, e, a);
    assert PhaseOk(w, e, w.execs[e]);
    var Finishing(_, c, until) := w.execs[e];
    SwapDecides(w, e, Applying, c, Some(Releasing(c.source, until)), Some(Releasing(c.source, until)));
  }

  lemma InterruptDecides(w: World, e: nat, a: Answer)
    requires Inv(w) && AllDecided(w) && e in w.execs && w.execs[e].Interrupting?
    ensures var w' := StepExec(w, e, w.execs[e], a); Quiet(w, w') && Moves(w, e, w')
  {
    SwapStepIs(w, e, a);
    assert ExecOk(w, e, w.execs[e]);
    assert Decided(w, w.execs[e].c);
    var c := Interrupted(w.execs[e].c);
    SwapDecides(w, e, Applying, c, if Reconcilable(c) then Some(Observing(c)) else None, None);
  }

  lemma ConfirmDecides(w: World, e: nat, a: Answer)
    requires Inv(w) && AllDecided(w) && e in w.execs && w.execs[e].Confirming?
    ensures var w' := StepExec(w, e, w.execs[e], a); Quiet(w, w') && Moves(w, e, w')
  {
    SwapStepIs(w, e, a);
    assert ExecOk(w, e, w.execs[e]);
    var c := w.execs[e].c;
    assert Decided(w, c);
    if Marked(c) { ConfirmedAnswered(w, c); }
    SwapDecides(w, e, Indeterminate, ConfirmedRecord(c), None, None);
  }

  lemma ConfirmedAnswered(w: World, c: Change)
    requires c.state.Indeterminate? && Answered(w, c)
    ensures Answered(w, ConfirmedRecord(c))
  {
    var s :| s in w.sends && s.id == c.id && Some(s.attempt) == c.attempt && Holds(c, s)
             && (Denied(s) <==> c.state.Failed?)
             && (Taken(s) && c.state.Indeterminate? ==> Missed(w.readbacks, c));
    assert Holds(ConfirmedRecord(c), s);
  }

  lemma ObserveDecides(w: World, e: nat, a: Answer)
    requires e in w.execs && w.execs[e].Observing?
    ensures var w' := StepExec(w, e, w.execs[e], a); Quiet(w, w') && Moves(w, e, w')
  {}

  lemma LeaseDecides(w: World, e: nat, a: Answer)
    requires e in w.execs && (w.execs[e].Leasing? || w.execs[e].AdvanceLeasing? || w.execs[e].Releasing?)
    ensures var w' := StepExec(w, e, w.execs[e], a); Quiet(w, w') && Moves(w, e, w')
  {
    LeaseStepIs(w, e, a);
  }

  lemma AdvanceDecides(w: World, e: nat, a: Answer)
    requires e in w.execs && (w.execs[e].AdvanceLeased? || w.execs[e].AdvanceLoaded?)
    ensures var w' := StepExec(w, e, w.execs[e], a); Quiet(w, w') && Moves(w, e, w')
  {
    var w1, p := AdvanceStepIs(w, e, a);
  }

  // ----- the read-back -----

  lemma ReadBackDecides(w: World, e: nat, a: Answer)
    requires Inv(w) && AllDecided(w) && e in w.execs && w.execs[e].Acked?
    ensures var w' := StepExec(w, e, w.execs[e], a); Quiet(w, w') && Moves(w, e, w')
  {
    assert ExecOk(w, e, w.execs[e]) && PhaseOk(w, e, w.execs[e]);
    var Acked(basis, c, until) := w.execs[e];
    var r := ReadBack(c.id, a.observed, |w.db.audit|);
    ReadStepIs(w, e, basis, c, until, a, r);
    JudgeDecided(w, e, c, a.observed, r);
    FinishingMoves(w, e, w.(readbacks := w.readbacks + [r]), basis, Judge(c, a.observed), until);
  }

  lemma ReadStepIs(w: World, e: nat, basis: Change, c: Change, until: int, a: Answer, r: ReadBack)
    requires r == ReadBack(c.id, a.observed, |w.db.audit|)
    ensures StepExec(w, e, Acked(basis, c, until), a)
      == Goto(w.(readbacks := w.readbacks + [r]), e, Finishing(basis, Judge(c, a.observed), until))
  {}

  /** Going on with a decided record is a quiet move. */
  lemma FinishingMoves(w: World, e: nat, w1: World, basis: Change, c: Change, until: int)
    requires w1 == w.(readbacks := w1.readbacks) && w.readbacks <= w1.readbacks && Decided(w1, c)
    ensures var w' := Goto(w1, e, Finishing(basis, c, until)); Quiet(w, w') && Moves(w, e, w')
  {
    DecidedByLogs(w1, Goto(w1, e, Finishing(basis, c, until)), c);
  }

  lemma JudgeDecided(w: World, e: nat, c: Change, observed: Option<Version>, r: ReadBack)
    requires c.attempt == Some(e) && r.id == c.id && r.observed == observed
    requires exists s :: s in w.sends && s.id == c.id && s.attempt == e && Holds(c, s) && Taken(s) && !Denied(s)
    ensures Decided(w.(readbacks := w.readbacks + [r]), Judge(c, observed))
  {
    var w', c' := w.(readbacks := w.readbacks + [r]), Judge(c, observed);
    var s :| s in w.sends && s.id == c.id && s.attempt == e && Holds(c, s) && Taken(s) && !Denied(s);
    assert r in w'.readbacks && s in w'.sends && Holds(c', s);
    if c'.state.Indeterminate? {
      assert !Matches(c', r.observed);
      assert Missed(w'.readbacks, c');
    }
    assert Answered(w', c');
  }

  // ----- the check -----

  lemma CheckDecides(w: World, e: nat, c: Change, until: int, a: Answer)
    requires Inv(w) && AllDecided(w) && e in w.execs && w.execs[e] == Claimed(c, until)
    ensures AllDecided(StepExec(w, e, w.execs[e], a))
  {
    ClaimedIsApproval(w, e, c, until);
    assert Decided(w, c);
    var k := Check(c.id, e, c.payload, a.observed, a.policyOk, |w.db.audit|);
    CheckStepIs(w, e, c, until, a, k);
    assert k in w.(checks := w.checks + [k]).checks;
    VerdictIsRight(w.(checks := w.checks + [k]), e, c, until, a, k);
    CheckAppends(w, e, k, AfterCheck(c, until, a));
  }

  /** Where an execution goes once the check is made. */
  function AfterCheck(c: Change, until: int, a: Answer): Phase {
    var verdict := Revalidate(c, a.observed, a.policyOk);
    if verdict.Some? then Finishing(c, verdict.value, until) else Ready(c, until)
  }

  lemma CheckStepIs(w: World, e: nat, c: Change, until: int, a: Answer, k: Check)
    requires k == Check(c.id, e, c.payload, a.observed, a.policyOk, |w.db.audit|)
    ensures StepExec(w, e, Claimed(c, until), a) == Goto(w.(checks := w.checks + [k]), e, AfterCheck(c, until, a))
  {}

  /** The verdict of a revalidation is what its check calls for. */
  lemma VerdictIsRight(w: World, e: nat, c: Change, until: int, a: Answer, k: Check)
    requires k in w.checks && k == Check(c.id, e, c.payload, a.observed, a.policyOk, |w.db.audit|)
    requires c.attempt == Some(e) && c.state.Applying? && !Marked(c)
    ensures PhaseOk(w, e, AfterCheck(c, until, a))
  {
    RevalidateIff(c, a, k);
    var verdict := Revalidate(c, a.observed, a.policyOk);
    if verdict.Some? { assert TurnedAway(w.checks, verdict.value, verdict.value.state.Expired?); }
  }

  lemma ClaimedIsApproval(w: World, e: nat, c: Change, until: int)
    requires Inv(w) && e in w.execs && w.execs[e] == Claimed(c, until)
    ensures c in w.db.audit && c.state.Applying? && c.attempt == Some(e) && e < w.nextExec
    ensures ApprovedBefore(w.db.audit, |w.db.audit|, c.id, Some(e))
  {
    assert ExecOk(w, e, w.execs[e]);
    assert RecordOk(c) && w.db.audit[..|w.db.audit|] == w.db.audit;
  }

  lemma RevalidateIff(c: Change, a: Answer, k: Check)
    requires k.payload == c.payload && k.observed == a.observed && k.policyOk == a.policyOk
    ensures var verdict := Revalidate(c, a.observed, a.policyOk);
      && (verdict.None? <==> Passes(k))
      && (verdict.Some? ==>
            && verdict.value.(state := c.state, note := c.note) == c
            && verdict.value.state == (if Stale(k) then Expired else Failed))
  {}

  lemma CheckAppends(w: World, e: nat, k: Check, p: Phase)
    requires AllDecided(w) && e in w.execs && e < w.nextExec && !Checked(w.execs[e]) && k.attempt == e && Checked(p)
    requires ApprovedBefore(w.db.audit, k.at, k.id, Some(e))
    requires PhaseOk(w.(checks := w.checks + [k]), e, p)
    ensures AllDecided(Goto(w.(checks := w.checks + [k]), e, p))
  {
    var w1 := w.(checks := w.checks + [k]);
    var w' := Goto(w1, e, p);
    assert Grows(w, w');
    NewCheckOk(w, e, k, p);
    forall s | s in w'.sends ensures CheckedSend(w'.checks, s.attempt, s.id, s.payload, s.at) {
      CheckedSendStays(w.checks, w'.checks, s.attempt, s.id, s.payload, s.at, s.at);
    }
    forall c | c in w'.db.audit ensures Decided(w', c) { DecidedStays(w, w', c); }
    forall f | f in w'.execs ensures PhaseOk(w', f, w'.execs[f]) {
      if f == e { PhaseStays(w1, w', e, p); } else { PhaseStays(w, w', f, w.execs[f]); }
    }
  }

  lemma NewCheckOk(w: World, e: nat, k: Check, p: Phase)
    requires ChecksOk(w) && e in w.execs && e < w.nextExec && !Checked(w.execs[e]) && k.attempt == e && Checked(p)
    requires ApprovedBefore(w.db.audit, k.at, k.id, Some(e))
    ensures ChecksOk(Goto(w.(checks := w.checks + [k]), e, p))
  {
    var w' := Goto(w.(checks := w.checks + [k]), e, p);
    forall i, j | 0 <= i < j < |w'.checks| ensures w'.checks[i].attempt != w'.checks[j].attempt {
      if j == |w.checks| { assert w.checks[i] in w.checks; }
    }
  }

  // ----- the send -----

  lemma SendDecides(w: World, e: nat, c: Change, until: int, a: Answer)
    requires Inv(w) && AllDecided(w) && e in w.execs && w.execs[e] == Ready(c, until)
    ensures AllDecided(StepExec(w, e, w.execs[e], a))
  {
    assert ExecOk(w, e, w.execs[e]) && PhaseOk(w, e, w.execs[e]);
    var s := Sent(c.id, e, c.payload, Accepted(c, a), |w.db.audit|, a);
    SendStepIs(w, e, c, until, a, s);
    assert Decided(w, c);
    AnswerIsRight(w.(sends := w.sends + [s]), e, c, until, a, s);
    SendAppends(w, e, s, AfterSend(c, until, a));
  }

  /** The record says what the answer was, and its state what the answer calls for. */
  lemma AnswerIsRight(w: World, e: nat, c: Change, until: int, a: Answer, s: Sent)
    requires s in w.sends && s == Sent(c.id, e, c.payload, Accepted(c, a), s.at, a)
    requires c.state.Applying? && c.attempt == Some(e) && !Marked(c)
    ensures PhaseOk(w, e, AfterSend(c, until, a))
  {
    var c' := Record(c, a);
    assert Holds(c', s);
    if !c'.state.Applying? { assert Answered(w, c'); }
  }

  lemma SendAppends(w: World, e: nat, s: Sent, p: Phase)
    requires AllDecided(w) && e in w.execs && Checked(p)
    requires CheckedSend(w.checks, s.attempt, s.id, s.payload, s.at) && PhaseOk(w.(sends := w.sends + [s]), e, p)
    ensures AllDecided(w.(sends := w.sends + [s], execs := w.execs[e := p]))
  {
    var w1 := w.(sends := w.sends + [s]);
    var w' := w.(sends := w.sends + [s], execs := w.execs[e := p]);
    assert Grows(w, w') && Grows(w1, w');
    forall c | c in w'.db.audit ensures Decided(w', c) { DecidedStays(w, w', c); }
    forall f | f in w'.execs ensures PhaseOk(w', f, w'.execs[f]) {
      if f == e { PhaseStays(w1, w', e, p); } else { PhaseStays(w, w', f, w.execs[f]); }
    }
  }

  // ----- runs -----

  lemma OthersAreSame(w: World, e: nat, a: Answer)
    requires e in w.execs
    ensures var w' := StepExec(w, e, w.execs[e], a); OthersSame(w, e, w') && w'.nextExec == w.nextExec
  {
    var w' := StepExec(w, e, w.execs[e], a);
    forall f | f in w'.execs && f != e ensures f in w.execs && w'.execs[f] == w.execs[f] { OthersStay(w, e, a, f); }
    OthersStay(w, e, a, e + 1);
  }

  lemma QuietStep(w: World, e: nat, a: Answer)
    requires Inv(w) && AllDecided(w) && e in w.execs && !w.execs[e].Claimed? && !w.execs[e].Ready?
    ensures var w' := StepExec(w, e, w.execs[e], a); Quiet(w, w') && Moves(w, e, w')
  {
    match w.execs[e]
    case Expiring(_) => StagedDecides(w, e, a);
    case Leased(_, _, _) => StagedDecides(w, e, a);
    case Discarding(_) => StagedDecides(w, e, a);
    case Finishing(_, _, _) => FinishDecides(w, e, a);
    case Interrupting(_) => InterruptDecides(w, e, a);
    case Confirming(_) => ConfirmDecides(w, e, a);
    case Acked(_, _, _) => ReadBackDecides(w, e, a);
    case Observing(_) => ObserveDecides(w, e, a);
    case Leasing(_, _) => LeaseDecides(w, e, a);
    case AdvanceLeasing(_) => LeaseDecides(w, e, a);
    case Releasing(_, _) => LeaseDecides(w, e, a);
    case _ => AdvanceDecides(w, e, a);
  }

  lemma StepDecides(w: World, e: nat, a: Answer)
    requires Inv(w) && AllDecided(w) && e in w.execs
    ensures AllDecided(StepExec(w, e, w.execs[e], a))
  {
    match w.execs[e]
    case Claimed(c, until) => CheckDecides(w, e, c, until, a);
    case Ready(c, until) => SendDecides(w, e, c, until, a);
    case _ =>
      QuietStep(w, e, a);
      OthersAreSame(w, e, a);
      QuietStays(w, e, StepExec(w, e, w.execs[e], a));
  }

  /** Labels other than steps check nothing, send nothing, and record at most a draft. */
  lemma LabelIsQuiet(w: World, l: Label)
    requires !l.Step?
    ensures Quiet(w, Next(w, l)) && |Next(w, l).db.audit| >= |w.db.audit|
  {
    if l.Stage? { assert (w.db.audit + [l.draft])[..|w.db.audit|] == w.db.audit; }
  }

  /** They start executions that have checked nothing, and end or release others. */
  lemma LabelMoves(w: World, l: Label)
    requires !l.Step?
    ensures var w' := Next(w, l); forall f | f in w'.execs ::
      (f in w.execs && (w'.execs[f] == w.execs[f] || w'.execs[f].Releasing?))
      || (f == w.nextExec && !Checked(w'.execs[f]))
  {}

  lemma LabelDecides(w: World, l: Label)
    requires AllDecided(w) && !l.Step?
    requires forall e | e in w.execs :: e < w.nextExec
    ensures AllDecided(Next(w, l))
  {
    var w' := Next(w, l);
    LabelIsQuiet(w, l);
    LabelMoves(w, l);
    LogsStay(w, w');
    ApprovalsStay(w, w');
    forall k | k in w'.checks
      ensures k.attempt < w'.nextExec && (k.attempt in w'.execs ==> Checked(w'.execs[k.attempt])) {}
    forall f | f in w'.execs ensures PhaseOk(w', f, w'.execs[f]) {
      if f in w.execs && w'.execs[f] == w.execs[f] { PhaseStays(w, w', f, w.execs[f]); }
    }
  }

  lemma {:induction false} RunsAreDecided(labels: seq<Label>)
    ensures AllDecided(Run(labels))
  {
    if labels != [] {
      var before, l := labels[..|labels| - 1], labels[|labels| - 1];
      RunsAreDecided(before);
      RunsAreSafe(before);
      NextDecides(Run(before), l);
    }
  }

  lemma NextDecides(w: World, l: Label)
    requires Inv(w) && AllDecided(w)
    ensures AllDecided(Next(w, l))
  {
    if !l.Step? {
      LabelDecides(w, l);
    } else if l.exec in w.execs {
      StepDecides(w, l.exec, l.answer);
    }
  }

  // ----- what a user relies on -----

  /** Nothing is sent unless the same attempt, after its approval, had seen the target, the plan or the parent as
      they were when the change was staged, and a policy that allows it. */
  lemma SentAfterCheck(labels: seq<Label>, i: nat)
    requires i < |Run(labels).sends|
    ensures var w := Run(labels); var s := w.sends[i];
      exists k :: k in w.checks && k.attempt == s.attempt && k.id == s.id && k.payload == s.payload && k.at <= s.at
                  && ApprovedBefore(w.db.audit, k.at, s.id, Some(s.attempt))
                  && match s.payload
                     case Write(before, after) => before.Some? && after.Some? && k.observed == before && k.policyOk
                     case Operation(plan) => plan.Some? && k.observed == plan && k.policyOk
                     case Create(spec, parent) => spec.Some? && (parent.Some? ==> k.observed == parent)
  {
    RunsAreDecided(labels);
    var w := Run(labels);
    var s := w.sends[i];
    assert s in w.sends;
    var k :| k in w.checks && k.attempt == s.attempt && k.id == s.id && k.payload == s.payload && k.at <= s.at
             && Passes(k);
  }

  lemma OneCheck(w: World, k: Check, k': Check)
    requires ChecksOk(w) && k in w.checks && k' in w.checks && k.attempt == k'.attempt
    ensures k == k'
  {
    var i :| 0 <= i < |w.checks| && w.checks[i] == k;
    var j :| 0 <= j < |w.checks| && w.checks[j] == k';
  }

  /** An applied change was seen as requested, after its approval: the write's new version, the object
      that was created, or the operation's plan. */
  lemma AppliedWasSeen(labels: seq<Label>, id: nat)
    requires id in Run(labels).db.rows && Run(labels).db.rows[id].state.Applied?
    ensures var w := Run(labels); var c := w.db.rows[id];
      exists r :: r in w.readbacks && r.id == id && r.observed.Some? && ApprovedBefore(w.db.audit, r.at, id, c.attempt)
                  && match c.payload
                     case Write(_, after) => r.observed == after
                     case Create(_, _) => r.observed == c.created
                     case Operation(plan) => r.observed == plan
  {
    RunsAreSafe(labels);
    var w := Run(labels);
    var c := w.db.rows[id];
    assert StateOk(w, c);
    var r :| r in w.readbacks && r.id == c.id && Matches(c, r.observed)
             && ApprovedBefore(w.db.audit, r.at, c.id, c.attempt);
  }

  /** The one check of an attempt decides: if it fails, the attempt sends nothing, and its change can
      only expire or fail; if it passes, its change never expires and fails only by the answer of the
      backend. */
  lemma CheckIsDecisive(labels: seq<Label>, k: Check, c: Change)
    requires k in Run(labels).checks && c in Run(labels).db.audit && c.attempt == Some(k.attempt)
    ensures !Passes(k) ==> forall s | s in Run(labels).sends :: s.attempt != k.attempt
    ensures c.state.Expired? ==> Stale(k)
    ensures c.state.Failed? && !Passes(k) ==> !Stale(k)
    ensures c.state.Failed? && Passes(k) ==>
      exists s :: s in Run(labels).sends && s.id == c.id && s.attempt == k.attempt && Denied(s)
  {
    RunsAreDecided(labels);
    var w := Run(labels);
    if !Passes(k) { TurnedAwaySendsNothing(w, k); }
    assert Decided(w, c);
    if TurnedAway(w.checks, c, c.state.Expired?) { ReasonIs(w, k, c, c.state.Expired?); }
    else if c.state.Failed? { FailedWasDenied(w, c); }
  }

  lemma TurnedAwaySendsNothing(w: World, k: Check)
    requires AllDecided(w) && k in w.checks && !Passes(k)
    ensures forall s | s in w.sends :: s.attempt != k.attempt
  {
    forall s | s in w.sends ensures s.attempt != k.attempt {
      if s.attempt == k.attempt {
        var k' :| k' in w.checks && k'.attempt == s.attempt && k'.id == s.id && k'.payload == s.payload
                  && k'.at <= s.at && Passes(k');
        OneCheck(w, k, k');
        assert false;
      }
    }
  }

  lemma ReasonIs(w: World, k: Check, c: Change, stale: bool)
    requires ChecksOk(w) && k in w.checks && c.attempt == Some(k.attempt) && TurnedAway(w.checks, c, stale)
    ensures !Passes(k) && (Stale(k) <==> stale)
  {
    var k' :| k' in w.checks && Some(k'.attempt) == c.attempt && k'.id == c.id && k'.payload == c.payload
              && !Passes(k') && (Stale(k') <==> stale);
    OneCheck(w, k, k');
  }

  lemma FailedWasDenied(w: World, c: Change)
    requires Answered(w, c) && c.state.Failed?
    ensures exists s :: s in w.sends && s.id == c.id && Some(s.attempt) == c.attempt && Denied(s)
  {
    var s :| s in w.sends && s.id == c.id && Some(s.attempt) == c.attempt && Holds(c, s)
             && (Denied(s) <==> c.state.Failed?)
             && (Taken(s) && c.state.Indeterminate? ==> Missed(w.readbacks, c));
  }

  /** A record that holds an answer holds the answer to the one request that was sent, and failed
      exactly when that was a refusal; after an acceptance it stays in doubt only because what was
      read back differs. */
  lemma AnswerIsRecorded(labels: seq<Label>, c: Change, s: Sent)
    requires c in Run(labels).db.audit && (c.outcome.Some? || c.created.Some?)
    requires s in Run(labels).sends && s.id == c.id
    ensures if s.payload.Create? then c.created == s.answer.created else c.outcome == Some(s.answer.outcome)
    ensures c.state.Failed? <==> Denied(s)
    ensures c.state.Indeterminate? && Taken(s) ==>
      exists r :: r in Run(labels).readbacks && r.id == c.id && !Matches(c, r.observed)
  {
    RunsAreDecided(labels);
    RunsAreSafe(labels);
    var w := Run(labels);
    assert Decided(w, c) && RecordOk(c);
    AnswerIsKnown(w, c);
    var t :| t in w.sends && t.id == c.id && Some(t.attempt) == c.attempt && Holds(c, t)
             && (Denied(t) <==> c.state.Failed?)
             && (Taken(t) && c.state.Indeterminate? ==> Missed(w.readbacks, c));
    OneSend(w, s, t);
    if Missed(w.readbacks, c) { var r :| r in w.readbacks && r.id == c.id && !Matches(c, r.observed); }
  }

  lemma OneSend(w: World, s: Sent, t: Sent)
    requires SendsOk(w) && s in w.sends && t in w.sends && s.id == t.id
    ensures s == t
  {
    var i :| 0 <= i < |w.sends| && w.sends[i] == s;
    var j :| 0 <= j < |w.sends| && w.sends[j] == t;
  }

  lemma AnswerIsKnown(w: World, c: Change)
    requires Inv(w) && AllDecided(w) && c in w.db.audit && Marked(c)
    ensures Answered(w, c)
  {}
}
