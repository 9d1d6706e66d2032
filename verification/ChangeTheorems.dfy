/** The promises of the change service, over all runs: at most one send, and only after an
    approval; states that tell the truth; audit trails that are legal paths; no lost update;
    leases that exclude; committed advances that never overlap; and, in runs whose attempts keep to
    their time bounds, verdicts that are always stored. */
module ChangeTheorems {
  import opened Options
  import opened ChangeRecords
  import opened ChangeStore
  import opened ChangeProtocol
  import opened ChangeSafety

  /** Every reachable world satisfies the invariant. */
  lemma {:induction false} RunsAreSafe(labels: seq<Label>)
    ensures Inv(Run(labels))
  {
    if labels != [] {
      RunsAreSafe(labels[..|labels| - 1]);
      NextKeeps(Run(labels[..|labels| - 1]), labels[|labels| - 1]);
    }
  }

  /** No change reaches the backend twice, and none before its approval is on record. */
  lemma SentOnceAfterApproval(labels: seq<Label>, i: nat)
    requires i < |Run(labels).sends|
    ensures var w := Run(labels); var s := w.sends[i];
      && (forall j | 0 <= j < |w.sends| && w.sends[j].id == s.id :: j == i)
      && s.id in w.db.rows && s.payload == w.db.rows[s.id].payload
      && s.at <= |w.db.audit|
      && exists c :: c in w.db.audit[..s.at] && c.id == s.id && c.state.Applying?
                     && c.attempt == Some(s.attempt) && c.approvedBy != ""
  {
    RunsAreSafe(labels);
    var w := Run(labels);
    assert SendOk(w, w.sends[i]);
  }

  /** What the recorded state of a change tells about the backend. */
  lemma StateTellsTruth(labels: seq<Label>, id: nat)
    requires id in Run(labels).db.rows
    ensures var w := Run(labels); var c := w.db.rows[id];
      match c.state
      case Staged => c.approvedBy == "" && forall s | s in w.sends :: s.id != id
      case Discarded => forall s | s in w.sends :: s.id != id
      case Expired => forall s | s in w.sends :: s.id != id
      case Failed => c.approvedBy != "" && forall s | s in w.sends && s.id == id :: !s.acked
      case Applied => c.approvedBy != "" && Confirmed(w, c)
      case _ => c.approvedBy != "" && c.attempt.Some?
  {
    RunsAreSafe(labels);
    var w := Run(labels);
    assert StateOk(w, w.db.rows[id]);
    RowInAudit(w.db, id);
    assert RecordOk(w.db.rows[id]);
  }

  /** A change applied without an indeterminate stop was sent and acknowledged. */
  lemma DirectlyAppliedWasAccepted(labels: seq<Label>, id: nat)
    requires id in Run(labels).db.rows && Run(labels).db.rows[id].state.Applied?
    requires forall c | c in Run(labels).db.audit && c.id == id :: !c.state.Indeterminate?
    ensures exists s :: s in Run(labels).sends && s.id == id && s.acked
  {
    RunsAreSafe(labels);
    var w := Run(labels);
    var h := History(w.db.audit, id);
    HistoryOnlyOwn(w.db.audit, id);
    assert StateOk(w, w.db.rows[id]);
    PathIsShort(h);
    if |h| == 4 { ThirdOfFour(h); }
  }

  lemma ThirdOfFour(h: seq<Change>)
    requires LegalPath(h) && |h| == 4
    ensures h[2] in h && h[2].state.Indeterminate?
  {
    assert CanTransition(h[0].state, h[1].state) && CanTransition(h[1].state, h[2].state);
    assert CanTransition(h[2].state, h[3].state);
  }

  /** The audit trail of a change: a legal path of at most four records ending in the row. */
  lemma AuditIsLegalPath(labels: seq<Label>, id: nat)
    requires id in Run(labels).db.rows
    ensures var w := Run(labels); var h := History(w.db.audit, id);
      && LegalPath(h) && |h| <= 4 && h[|h| - 1] == w.db.rows[id]
      && (forall i, j | 0 <= i < j < |h| :: h[i].state != h[j].state && SameRequest(h[i], h[j]))
  {
    RunsAreSafe(labels);
    PathIsOneRequest(History(Run(labels).db.audit, id));
  }

  lemma PathIsOneRequest(h: seq<Change>)
    requires LegalPath(h)
    ensures |h| <= 4 && forall i, j | 0 <= i < j < |h| :: h[i].state != h[j].state && SameRequest(h[i], h[j])
  {
    PathIsShort(h);
    forall i, j | 0 <= i < j < |h| ensures SameRequest(h[i], h[j]) { PathClimbs(h, i, j); }
  }

  /** The record an execution believes to be stored when it swaps. */
  function LocalCopy(p: Phase): Option<Change> {
    match p
    case Expiring(c) => Some(c)
    case Leased(c, _, _) => Some(c)
    case Finishing(basis, _, _) => Some(basis)
    case Interrupting(c) => Some(c)
    case Confirming(c) => Some(c)
    case Discarding(c) => Some(c)
    case _ => None
  }

  predicate RowMoved(w: World, w': World, id: nat) {
    id in w.db.rows && (id !in w'.db.rows || w'.db.rows[id] != w.db.rows[id])
  }

  /** Steps that are no swap leave the change tables alone. */
  lemma OtherStepsKeepRows(w: World, e: nat, a: Answer)
    requires e in w.execs && LocalCopy(w.execs[e]).None?
    ensures StepExec(w, e, w.execs[e], a).db.rows == w.db.rows
  {
    match w.execs[e]
    case Leasing(_, _) => LeaseStepIs(w, e, a);
    case AdvanceLeasing(_) => LeaseStepIs(w, e, a);
    case Claimed(_, _) =>
    case Ready(_, _) =>
    case Acked(_, _, _) =>
    case _ =>
  }

  /** The swap an execution tries: from the state of its local copy to a record of that request. */
  lemma SwapRecord(w: World, e: nat, a: Answer) returns (from: ChangeState, c: Change)
    requires e in w.execs && LocalCopy(w.execs[e]).Some?
    ensures StepExec(w, e, w.execs[e], a).db == AfterTransition(w.db, from, c)
    ensures ExecOk(w, e, w.execs[e]) ==>
      var basis := LocalCopy(w.execs[e]).value; from == basis.state && SameRequest(basis, c)
  {
    SwapStepIs(w, e, a);
    match w.execs[e]
    case Expiring(d) => from, c := Staged, d.(state := Expired);
    case Leased(d, operator, _) => from, c := Staged, Claim(w, e, d, operator);
    case Finishing(_, d, _) => from, c := Applying, d;
    case Interrupting(d) => from, c := Applying, Interrupted(d);
    case Confirming(d) => from, c := Indeterminate, ConfirmedRecord(d);
    case Discarding(d) => from, c := Staged, d.(state := Discarded);
  }

  /** Only a swap moves a row, and it writes a legal successor. */
  lemma RowMove(w: World, l: Label, id: nat) returns (c: Change)
    requires RowMoved(w, Next(w, l), id)
    ensures l.Step? && l.exec in w.execs && LocalCopy(w.execs[l.exec]).Some?
    ensures Next(w, l).db == Put(w.db, c) && c.id == id
    ensures CanTransition(w.db.rows[id].state, c.state)
    ensures ExecOk(w, l.exec, w.execs[l.exec]) ==>
      var basis := LocalCopy(w.execs[l.exec]).value; w.db.rows[id].state == basis.state && SameRequest(basis, c)
  {
    OnlyStepsMoveRows(w, l, id);
    var from;
    from, c := SwapRecord(w, l.exec, l.answer);
  }

  lemma OnlyStepsMoveRows(w: World, l: Label, id: nat)
    requires RowMoved(w, Next(w, l), id)
    ensures l.Step? && l.exec in w.execs && LocalCopy(w.execs[l.exec]).Some?
  {
    if l.Step? && l.exec in w.execs && LocalCopy(w.execs[l.exec]).None? { OtherStepsKeepRows(w, l.exec, l.answer); }
  }

  /** Comparing the state column alone loses no update: whoever replaces a row was working
      from exactly the record it replaces, and leaves the request as it was. */
  lemma NoLostUpdate(labels: seq<Label>, l: Label, id: nat) returns (c: Change)
    requires RowMoved(Run(labels), Next(Run(labels), l), id)
    ensures l.Step? && l.exec in Run(labels).execs
    ensures LocalCopy(Run(labels).execs[l.exec]) == Some(Run(labels).db.rows[id])
    ensures CanTransition(Run(labels).db.rows[id].state, c.state) && SameRequest(Run(labels).db.rows[id], c)
    ensures Next(Run(labels), l).db == Put(Run(labels).db, c)
  {
    RunsAreSafe(labels);
    var w := Run(labels);
    c := RowMove(w, l, id);
    MoverHasRow(w, l.exec, id, c);
  }

  lemma MoverHasRow(w: World, e: nat, id: nat, c: Change)
    requires Inv(w) && e in w.execs && LocalCopy(w.execs[e]).Some? && id in w.db.rows && c.id == id
    requires var basis := LocalCopy(w.execs[e]).value; w.db.rows[id].state == basis.state && SameRequest(basis, c)
    ensures LocalCopy(w.execs[e]).value == w.db.rows[id]
  {
    assert ExecOk(w, e, w.execs[e]);
    CopyIsRow(w.db, LocalCopy(w.execs[e]).value);
  }

  // ----- leases -----

  /** An execution that thinks it holds a lease does hold it, unless its deadline has passed. */
  predicate LeaseOk(w: World, e: nat, p: Phase) {
    match Section(p)
    case Some(section) =>
      (section.0 in w.db.leases && w.db.leases[section.0] == LeaseRow(e, Unix(section.1))) || w.now > section.1
    case None => true
  }

  predicate LeasesOk(w: World) {
    forall e | e in w.execs :: e < w.nextExec && LeaseOk(w, e, w.execs[e])
  }

  lemma SwapOwn(w: World, e: nat, from: ChangeState, c: Change, landed: Option<Phase>, lost: Option<Phase>)
    ensures var w' := Swap(w, e, from, c, landed, lost);
      && w'.now == w.now && w'.db.leases == w.db.leases
      && (e in w'.execs ==> Some(w'.execs[e]) == landed || Some(w'.execs[e]) == lost)
  {}

  /** After a swap the execution is in the same section as before, or in none. */
  lemma SwapSection(w: World, e: nat, a: Answer)
    requires e in w.execs && LocalCopy(w.execs[e]).Some?
    ensures var w' := StepExec(w, e, w.execs[e], a);
      && w'.now == w.now && w'.db.leases == w.db.leases
      && (e in w'.execs ==> Section(w'.execs[e]) in {None, Section(w.execs[e])})
  {
    SwapStepIs(w, e, a);
    match w.execs[e]
    case Expiring(c) => SwapOwn(w, e, Staged, c.(state := Expired), None, None);
    case Discarding(c) => SwapOwn(w, e, Staged, c.(state := Discarded), None, None);
    case Leased(c, operator, until) =>
      var claim := Claim(w, e, c, operator);
      SwapOwn(w, e, Staged, claim, Some(Claimed(claim, until)), Some(Releasing(c.source, until)));
    case Finishing(_, c, until) =>
      SwapOwn(w, e, Applying, c, Some(Releasing(c.source, until)), Some(Releasing(c.source, until)));
    case Interrupting(c) =>
      var c' := Interrupted(c);
      SwapOwn(w, e, Applying, c', if Reconcilable(c') then Some(Observing(c')) else None, None);
    case Confirming(c) => SwapOwn(w, e, Indeterminate, ConfirmedRecord(c), None, None);
  }

  /** A working execution stays in its section and leaves the leases alone. */
  lemma WorkSection(w: World, e: nat, a: Answer)
    requires e in w.execs && LocalCopy(w.execs[e]).None?
    requires !w.execs[e].Leasing? && !w.execs[e].AdvanceLeasing? && !w.execs[e].Releasing?
    ensures var w' := StepExec(w, e, w.execs[e], a);
      && w'.now == w.now && w'.db.leases == w.db.leases
      && (e in w'.execs ==> Section(w'.execs[e]) == Section(w.execs[e]))
  {
    match w.execs[e]
    case Claimed(_, _) =>
    case Ready(_, _) =>
    case Acked(_, _, _) =>
    case Observing(_) =>
    case AdvanceLeased(_, _) =>
    case AdvanceLoaded(_, _, _) =>
  }

  lemma TakeOwn(w: World, e: nat, source: nat, until: int, p: Phase)
    requires Section(p) == Some((source, until))
    ensures var w' := TakeLease(w, e, source, until, p); e in w'.execs ==> LeaseOk(w', e, w'.execs[e])
  {}

  /** An execution's own step keeps its lease claim, gives it up, or has just taken it. */
  lemma OwnLeaseStep(w: World, e: nat, a: Answer)
    requires e in w.execs && LeaseOk(w, e, w.execs[e])
    ensures var w' := StepExec(w, e, w.execs[e], a); e in w'.execs ==> LeaseOk(w', e, w'.execs[e])
  {
    match w.execs[e]
    case Leasing(c, operator) =>
      LeaseStepIs(w, e, a);
      TakeOwn(w, e, c.source, w.now + APPLY_LEASE_MS, Leased(c, operator, w.now + APPLY_LEASE_MS));
    case AdvanceLeasing(source) =>
      LeaseStepIs(w, e, a);
      TakeOwn(w, e, source, w.now + ADVANCE_LEASE_MS, AdvanceLeased(source, w.now + ADVANCE_LEASE_MS));
    case Releasing(_, _) =>
    case _ => if LocalCopy(w.execs[e]).Some? { SwapSection(w, e, a); } else { WorkSection(w, e, a); }
  }

  lemma TakeForeign(w: World, e: nat, source: nat, until: int, next: Phase, f: nat, p: Phase)
    requires f != e && LeaseOk(w, f, p)
    ensures LeaseOk(TakeLease(w, e, source, until, next), f, p)
  {}

  lemma ReleaseForeign(w: World, e: nat, source: nat, f: nat, p: Phase)
    requires f != e && LeaseOk(w, f, p)
    ensures LeaseOk(Gone(w.(db := AfterRelease(w.db, source, e)), e), f, p)
  {}

  /** Nobody takes away or frees a lease that has not run out. */
  lemma ForeignLeaseStep(w: World, e: nat, a: Answer, f: nat, p: Phase)
    requires e in w.execs && f != e && LeaseOk(w, f, p)
    ensures LeaseOk(StepExec(w, e, w.execs[e], a), f, p)
  {
    match w.execs[e]
    case Leasing(c, operator) =>
      LeaseStepIs(w, e, a);
      TakeForeign(w, e, c.source, w.now + APPLY_LEASE_MS, Leased(c, operator, w.now + APPLY_LEASE_MS), f, p);
    case AdvanceLeasing(source) =>
      LeaseStepIs(w, e, a);
      TakeForeign(w, e, source, w.now + ADVANCE_LEASE_MS, AdvanceLeased(source, w.now + ADVANCE_LEASE_MS), f, p);
    case Releasing(source, _) => ReleaseForeign(w, e, source, f, p);
    case _ => if LocalCopy(w.execs[e]).Some? { SwapSection(w, e, a); } else { WorkSection(w, e, a); }
  }

  /** Executions other than `e` are the same in both worlds. */
  predicate Alone(w: World, e: nat, w': World) {
    w'.nextExec == w.nextExec && w'.execs - {e} == w.execs - {e}
  }

  lemma SwapAlone(w: World, e: nat, from: ChangeState, c: Change, landed: Option<Phase>, lost: Option<Phase>)
    ensures Alone(w, e, Swap(w, e, from, c, landed, lost))
  {}

  lemma SwapStepAlone(w: World, e: nat, a: Answer)
    requires e in w.execs && LocalCopy(w.execs[e]).Some?
    ensures Alone(w, e, StepExec(w, e, w.execs[e], a))
  {
    SwapStepIs(w, e, a);
    match w.execs[e]
    case Expiring(c) => SwapAlone(w, e, Staged, c.(state := Expired), None, None);
    case Discarding(c) => SwapAlone(w, e, Staged, c.(state := Discarded), None, None);
    case Leased(c, operator, until) =>
      var claim := Claim(w, e, c, operator);
      SwapAlone(w, e, Staged, claim, Some(Claimed(claim, until)), Some(Releasing(c.source, until)));
    case Finishing(_, c, until) =>
      SwapAlone(w, e, Applying, c, Some(Releasing(c.source, until)), Some(Releasing(c.source, until)));
    case Interrupting(c) =>
      var c' := Interrupted(c);
      SwapAlone(w, e, Applying, c', if Reconcilable(c') then Some(Observing(c')) else None, None);
    case Confirming(c) => SwapAlone(w, e, Indeterminate, ConfirmedRecord(c), None, None);
  }

  lemma OthersStay(w: World, e: nat, a: Answer, f: nat)
    requires e in w.execs && f != e
    ensures var w' := StepExec(w, e, w.execs[e], a);
      && (f in w'.execs <==> f in w.execs) && (f in w.execs ==> w'.execs[f] == w.execs[f])
      && w'.nextExec == w.nextExec
  {
    match w.execs[e]
    case Leasing(_, _) => LeaseStepIs(w, e, a);
    case AdvanceLeasing(_) => LeaseStepIs(w, e, a);
    case Claimed(_, _) =>
    case Ready(_, _) =>
    case Acked(_, _, _) =>
    case Observing(_) =>
    case Releasing(_, _) =>
    case AdvanceLeased(_, _) =>
    case AdvanceLoaded(_, _, _) =>
    case _ =>
      SwapStepAlone(w, e, a);
      var w' := StepExec(w, e, w.execs[e], a);
      assert f in w'.execs - {e} <==> f in w.execs - {e};
      assert f in w.execs ==> (w'.execs - {e})[f] == (w.execs - {e})[f];
  }

  lemma LeaseStep(w: World, e: nat, a: Answer)
    requires LeasesOk(w) && e in w.execs
    ensures LeasesOk(StepExec(w, e, w.execs[e], a))
  {
    var w' := StepExec(w, e, w.execs[e], a);
    assert LeaseOk(w, e, w.execs[e]);
    forall f | f in w'.execs ensures f < w'.nextExec && LeaseOk(w', f, w'.execs[f]) {
      OthersStay(w, e, a, if f == e then e + 1 else f);
      if f == e { OwnLeaseStep(w, e, a); }
      else {
        assert LeaseOk(w, f, w.execs[f]);
        ForeignLeaseStep(w, e, a, f, w.execs[f]);
      }
    }
  }

  lemma LeaseNext(w: World, l: Label)
    requires LeasesOk(w)
    ensures LeasesOk(Next(w, l))
  {
    if l.Step? {
      if l.exec in w.execs { LeaseStep(w, l.exec, l.answer); }
    } else {
      var w' := Next(w, l);
      forall f | f in w'.execs ensures f < w'.nextExec && LeaseOk(w', f, w'.execs[f]) {
        if f in w.execs { assert LeaseOk(w, f, w.execs[f]); }
      }
    }
  }

  lemma {:induction false} LeaseRuns(labels: seq<Label>)
    ensures LeasesOk(Run(labels))
  {
    if labels != [] {
      LeaseRuns(labels[..|labels| - 1]);
      LeaseNext(Run(labels[..|labels| - 1]), labels[|labels| - 1]);
    }
  }

  /** An execution gets the lease it asks for exactly when nobody holds one, or the last second of
      the one there is over; then it holds it to its deadline. Otherwise it is gone. */
  lemma LeaseIsGrantedIff(w: World, e: nat, a: Answer)
    requires e in w.execs && (w.execs[e].Leasing? || w.execs[e].AdvanceLeasing?)
    ensures var p, w' := w.execs[e], StepExec(w, e, w.execs[e], a);
      var source := if p.Leasing? then p.c.source else p.source;
      if source !in w.db.leases || w.db.leases[source].untilUnix * 1000 + 1000 <= w.now then
        && e in w'.execs
        && w'.execs[e] == (if p.Leasing? then Leased(p.c, p.operator, w.now + APPLY_LEASE_MS)
                           else AdvanceLeased(source, w.now + ADVANCE_LEASE_MS))
        && w'.db.leases == w.db.leases[source := LeaseRow(e, Section(w'.execs[e]).value.1 / 1000)]
      else w'.db == w.db && e !in w'.execs
  {
    LeaseStepIs(w, e, a);
  }

  /** At any moment, at most one execution is inside an account's section before its deadline:
      approvals and virtual-time advances of one account never overlap. */
  lemma SectionsExclude(labels: seq<Label>, e: nat, f: nat)
    requires var w := Run(labels); e in w.execs && f in w.execs
    requires var w := Run(labels); Section(w.execs[e]).Some? && Section(w.execs[f]).Some?
    requires var w := Run(labels); Section(w.execs[e]).value.0 == Section(w.execs[f]).value.0
    requires var w := Run(labels);
      w.now <= Section(w.execs[e]).value.1 && w.now <= Section(w.execs[f]).value.1
    ensures e == f
  {
    LeaseRuns(labels);
    var w := Run(labels);
    assert LeaseOk(w, e, w.execs[e]) && LeaseOk(w, f, w.execs[f]);
  }

  // ----- runs in which every holder stops in time -----

  predicate Prompt(w: World) {
    forall e | e in w.execs && Section(w.execs[e]).Some? :: w.now < Section(w.execs[e]).value.1
  }

  predicate PromptRun(labels: seq<Label>) {
    && Prompt(Run(labels))
    && (labels != [] ==> PromptRun(labels[..|labels| - 1]))
  }

  function ClaimedRecord(p: Phase): Option<Change> {
    match p
    case Claimed(c, _) => Some(c)
    case Ready(c, _) => Some(c)
    case Acked(basis, _, _) => Some(basis)
    case Finishing(basis, _, _) => Some(basis)
    case _ => None
  }

  predicate ClaimStands(w: World, p: Phase) {
    match ClaimedRecord(p)
    case Some(c) => c.id in w.db.rows && w.db.rows[c.id] == c
    case None => true
  }

  predicate ClaimsStand(w: World) { forall e | e in w.execs :: ClaimStands(w, w.execs[e]) }

  /** While a claim stands and its section is in time, another execution cannot move the row. */
  lemma RivalCannotMove(w: World, l: Label, f: nat, c: Change)
    requires Inv(w) && Prompt(w) && f in w.execs && ClaimedRecord(w.execs[f]) == Some(c)
    requires c.id in w.db.rows && w.db.rows[c.id] == c && !(l.Step? && l.exec == f)
    ensures !RowMoved(w, Next(w, l), c.id)
  {
    if RowMoved(w, Next(w, l), c.id) {
      assert ExecOk(w, l.exec, w.execs[l.exec]) by { var d := RowMove(w, l, c.id); }
      var d := RowMove(w, l, c.id);
      MoverHasRow(w, l.exec, c.id, d);
      RivalHasNoCopy(w, f, l.exec, c);
    }
  }

  lemma ClaimFacts(w: World, f: nat, c: Change)
    requires Inv(w) && Prompt(w) && f in w.execs && ClaimedRecord(w.execs[f]) == Some(c)
    ensures c.state.Applying? && c.attempt == Some(f)
    ensures c.approvedAt.Some? && w.now < c.approvedAt.value + APPLY_LEASE_MS
  {
    assert ExecOk(w, f, w.execs[f]);
  }

  lemma RivalHasNoCopy(w: World, f: nat, e: nat, c: Change)
    requires Inv(w) && Prompt(w) && f in w.execs && e in w.execs && e != f
    requires ClaimedRecord(w.execs[f]) == Some(c)
    ensures LocalCopy(w.execs[e]) != Some(c)
  {
    ClaimFacts(w, f, c);
    assert ExecOk(w, e, w.execs[e]);
  }

  /** What a claim or a finish leaves behind stands. */
  lemma OwnClaimSwap(w: World, e: nat, a: Answer)
    requires e in w.execs && LocalCopy(w.execs[e]).Some?
    ensures var w' := StepExec(w, e, w.execs[e], a); e in w'.execs ==> ClaimStands(w', w'.execs[e])
  {
    SwapStepIs(w, e, a);
    if w.execs[e].Leased? { ClaimLands(w, e, w.execs[e].c, w.execs[e].operator, w.execs[e].until); }
  }

  lemma ClaimLands(w: World, e: nat, c: Change, operator: string, until: int)
    ensures var claim := Claim(w, e, c, operator);
      var w' := Swap(w, e, Staged, claim, Some(Claimed(claim, until)), Some(Releasing(c.source, until)));
      e in w'.execs ==> ClaimStands(w', w'.execs[e])
  {}

  lemma OwnClaimStep(w: World, e: nat, a: Answer)
    requires e in w.execs && ClaimStands(w, w.execs[e])
    ensures var w' := StepExec(w, e, w.execs[e], a); e in w'.execs ==> ClaimStands(w', w'.execs[e])
  {
    match w.execs[e]
    case Leasing(_, _) => LeaseStepIs(w, e, a);
    case AdvanceLeasing(_) => LeaseStepIs(w, e, a);
    case Claimed(_, _) =>
    case Ready(_, _) =>
    case Acked(_, _, _) =>
    case _ => if LocalCopy(w.execs[e]).Some? { OwnClaimSwap(w, e, a); }
  }

  lemma RivalOf(w: World, l: Label, f: nat)
    requires Inv(w) && Prompt(w) && ClaimsStand(w) && f in w.execs && !(l.Step? && l.exec == f)
    ensures ClaimStands(Next(w, l), w.execs[f])
  {
    assert ClaimStands(w, w.execs[f]);
    if ClaimedRecord(w.execs[f]).Some? { RivalCannotMove(w, l, f, ClaimedRecord(w.execs[f]).value); }
  }

  lemma PromptOther(w: World, l: Label, f: nat)
    requires Inv(w) && Prompt(w) && ClaimsStand(w) && l.Step? && l.exec in w.execs && f != l.exec
    requires f in Next(w, l).execs
    ensures ClaimStands(Next(w, l), Next(w, l).execs[f])
  {
    OthersStay(w, l.exec, l.answer, f);
    RivalOf(w, l, f);
  }

  lemma PromptStep(w: World, e: nat, a: Answer)
    requires Inv(w) && Prompt(w) && ClaimsStand(w) && e in w.execs
    ensures ClaimsStand(Next(w, Step(e, a)))
  {
    var w' := Next(w, Step(e, a));
    if e in w'.execs {
      assert ClaimStands(w, w.execs[e]);
      OwnClaimStep(w, e, a);
    }
    forall f | f in w'.execs && f != e ensures ClaimStands(w', w'.execs[f]) { PromptOther(w, Step(e, a), f); }
  }

  /** Labels other than steps move no row and make no claim. */
  lemma QuietLabels(w: World, l: Label)
    requires !l.Step?
    ensures var w' := Next(w, l);
      && (forall id | id in w.db.rows :: id in w'.db.rows && w'.db.rows[id] == w.db.rows[id])
      && (forall f | f in w'.execs ::
            (f in w.execs && w'.execs[f] == w.execs[f]) || ClaimedRecord(w'.execs[f]).None?)
  {}

  lemma ClaimsFrame(w: World, w': World)
    requires ClaimsStand(w)
    requires forall id | id in w.db.rows :: id in w'.db.rows && w'.db.rows[id] == w.db.rows[id]
    requires forall f | f in w'.execs ::
      (f in w.execs && w'.execs[f] == w.execs[f]) || ClaimedRecord(w'.execs[f]).None?
    ensures ClaimsStand(w')
  {
    forall f | f in w'.execs ensures ClaimStands(w', w'.execs[f]) {
      if f in w.execs && w'.execs[f] == w.execs[f] { assert ClaimStands(w, w.execs[f]); }
    }
  }

  lemma PromptNext(w: World, l: Label)
    requires Inv(w) && Prompt(w) && ClaimsStand(w)
    ensures ClaimsStand(Next(w, l))
  {
    if l.Step? {
      if l.exec in w.execs { PromptStep(w, l.exec, l.answer); }
    } else {
      QuietLabels(w, l);
      ClaimsFrame(w, Next(w, l));
    }
  }

  /** When every holder stops before its deadline, no live attempt is ever marked interrupted. */
  lemma {:induction false} LiveAttemptsKeepTheirRow(labels: seq<Label>)
    requires PromptRun(labels)
    ensures ClaimsStand(Run(labels))
  {
    if labels != [] {
      var before := labels[..|labels| - 1];
      LiveAttemptsKeepTheirRow(before);
      RunsAreSafe(before);
      PromptNext(Run(before), labels[|labels| - 1]);
    }
  }

  lemma VerdictMoves(w: World, c: Change)
    requires VerdictOk(w, c)
    ensures CanTransition(Applying, c.state)
  {}

  lemma FinishLands(w: World, e: nat, a: Answer, basis: Change, c: Change, until: int)
    requires e in w.execs && w.execs[e] == Finishing(basis, c, until) && CanTransition(Applying, c.state)
    requires c.id in w.db.rows && w.db.rows[c.id].state.Applying?
    ensures Next(w, Step(e, a)).db == Put(w.db, c)
  {
    SwapStepIs(w, e, a);
  }

  /** In such a run, the verdict an attempt reaches is always the one that gets stored. */
  lemma VerdictIsStored(labels: seq<Label>, e: nat, a: Answer)
    requires PromptRun(labels) && e in Run(labels).execs && Run(labels).execs[e].Finishing?
    ensures var w := Run(labels); var c := w.execs[e].c;
      c.id in w.db.rows && Next(w, Step(e, a)).db == Put(w.db, c)
  {
    RunsAreSafe(labels);
    LiveAttemptsKeepTheirRow(labels);
    var w := Run(labels);
    var Finishing(basis, c, until) := w.execs[e];
    assert ExecOk(w, e, w.execs[e]) && ClaimStands(w, w.execs[e]);
    VerdictMoves(w, c);
    FinishLands(w, e, a, basis, c, until);
  }

  // ----- advancing virtual time -----

  /** The clock a source has reached after these committed advances. */
  function ClockAfter(advances: seq<Advanced>, source: nat): int {
    if advances == [] then SEED_CLOCK
    else
      var last := advances[|advances| - 1];
      if last.source == source then last.current else ClockAfter(advances[..|advances| - 1], source)
  }

  /** Each advance starts where the last one of its source ended. */
  predicate Chain(advances: seq<Advanced>) {
    forall i | 0 <= i < |advances| ::
      advances[i].previous == ClockAfter(advances[..i], advances[i].source)
      && advances[i].previous < advances[i].current <= advances[i].previous + MAX_ADVANCE_HOURS
  }

  ghost predicate AdvancesOk(w: World) {
    && (forall s: nat :: ClockOf(w.db, s) == ClockAfter(w.advances, s))
    && Chain(w.advances)
    && (forall e | e in w.execs && w.execs[e].AdvanceLoaded? ::
      w.execs[e].source in w.db.clocks || w.execs[e].previous == SEED_CLOCK)
  }

  lemma ChainSnoc(advances: seq<Advanced>, x: Advanced)
    requires Chain(advances) && x.previous == ClockAfter(advances, x.source)
    requires x.previous < x.current <= x.previous + MAX_ADVANCE_HOURS
    ensures Chain(advances + [x])
  {
    var all := advances + [x];
    forall i | 0 <= i < |all|
      ensures all[i].previous == ClockAfter(all[..i], all[i].source)
      ensures all[i].previous < all[i].current <= all[i].previous + MAX_ADVANCE_HOURS
    {
      assert all[..i] == advances[..i];
      if i == |advances| { assert advances[..i] == advances; }
    }
  }

  lemma ChainPrefix(advances: seq<Advanced>, n: nat)
    requires Chain(advances) && n <= |advances|
    ensures Chain(advances[..n])
  {
    var before := advances[..n];
    forall k | 0 <= k < n
      ensures before[k].previous == ClockAfter(before[..k], before[k].source)
      ensures before[k].previous < before[k].current <= before[k].previous + MAX_ADVANCE_HOURS
    {
      assert before[..k] == advances[..k] && before[k] == advances[k];
    }
  }

  lemma ClockSnoc(advances: seq<Advanced>, x: Advanced, source: nat)
    ensures ClockAfter(advances + [x], source) == if x.source == source then x.current else ClockAfter(advances, source)
  {
    assert (advances + [x])[..|advances|] == advances;
  }

  /** An advance is committed from the stored clock, or nothing is. */
  lemma CommitIs(w: World, e: nat, a: Answer) returns (x: Option<Advanced>)
    requires e in w.execs && w.execs[e].AdvanceLoaded?
    ensures var w' := StepExec(w, e, w.execs[e], a); w'.execs == w.execs[e := w'.execs[e]] && w'.execs[e].Releasing?
    ensures var w' := StepExec(w, e, w.execs[e], a);
      if x.None? then w'.advances == w.advances && w'.db == w.db
      else
        && w'.advances == w.advances + [x.value] && w'.db.clocks == w.db.clocks[x.value.source := x.value.current]
        && x.value.source == w.execs[e].source && x.value.previous == w.execs[e].previous < x.value.current
        && x.value.current <= x.value.previous + MAX_ADVANCE_HOURS
        && (x.value.source in w.db.clocks ==> w.db.clocks[x.value.source] == x.value.previous)
  {
    var w' := StepExec(w, e, w.execs[e], a);
    x := if |w'.advances| > |w.advances| then Some(w'.advances[|w.advances|]) else None;
  }

  lemma CommitAdvance(w: World, e: nat, a: Answer)
    requires AdvancesOk(w) && e in w.execs && w.execs[e].AdvanceLoaded?
    ensures AdvancesOk(StepExec(w, e, w.execs[e], a))
  {
    var w' := StepExec(w, e, w.execs[e], a);
    var x := CommitIs(w, e, a);
    if x.Some? {
      assert x.value.previous == ClockOf(w.db, x.value.source);
      ChainSnoc(w.advances, x.value);
      forall s: nat ensures ClockOf(w'.db, s) == ClockAfter(w'.advances, s) { ClockSnoc(w.advances, x.value, s); }
    }
  }

  lemma OtherStepsKeepClocks(w: World, e: nat, a: Answer)
    requires e in w.execs && !w.execs[e].AdvanceLoaded?
    ensures var w' := StepExec(w, e, w.execs[e], a);
      && w'.advances == w.advances && w'.db.clocks == w.db.clocks
      && (e in w'.execs && w'.execs[e].AdvanceLoaded? ==> w'.execs[e].previous == ClockOf(w.db, w'.execs[e].source))
  {
    LeaseStepIs(w, e, a);
    SwapStepIs(w, e, a);
    match w.execs[e]
    case Claimed(_, _) =>
    case Ready(_, _) =>
    case Acked(_, _, _) =>
    case Observing(_) =>
    case Releasing(_, _) =>
    case _ =>
  }

  lemma OtherAdvance(w: World, l: Label)
    requires AdvancesOk(w) && !(l.Step? && l.exec in w.execs && w.execs[l.exec].AdvanceLoaded?)
    ensures AdvancesOk(Next(w, l))
  {
    var w' := Next(w, l);
    if l.Step? && l.exec in w.execs {
      OtherStepsKeepClocks(w, l.exec, l.answer);
      forall f | f in w'.execs && w'.execs[f].AdvanceLoaded?
        ensures w'.execs[f].source in w'.db.clocks || w'.execs[f].previous == SEED_CLOCK
      {
        if f != l.exec { OthersStay(w, l.exec, l.answer, f); }
      }
    }
  }

  lemma {:induction false} AdvanceRuns(labels: seq<Label>)
    ensures AdvancesOk(Run(labels))
  {
    if labels != [] {
      var before := labels[..|labels| - 1];
      var l := labels[|labels| - 1];
      AdvanceRuns(before);
      var w := Run(before);
      if l.Step? && l.exec in w.execs && w.execs[l.exec].AdvanceLoaded? { CommitAdvance(w, l.exec, l.answer); }
      else { OtherAdvance(w, l); }
    }
  }

  lemma ClockGrows(advances: seq<Advanced>, i: nat, j: nat)
    requires i < j < |advances| && advances[i].source == advances[j].source && Chain(advances)
    ensures advances[i].current <= advances[j].previous
  {
    ChainPrefix(advances, j);
    ClockAtLeast(advances[..j], i);
  }

  lemma {:induction false} ClockAtLeast(advances: seq<Advanced>, i: nat)
    requires i < |advances| && Chain(advances)
    ensures advances[i].current <= ClockAfter(advances, advances[i].source)
  {
    var n := |advances| - 1;
    if i < n {
      ChainPrefix(advances, n);
      ClockAtLeast(advances[..n], i);
      assert advances[..n][i] == advances[i];
    }
  }

  /** Committed advances of one account form a chain: each starts exactly where the last one
      ended, so two advances loaded from the same clock never both commit. */
  lemma AdvancesNeverOverlap(labels: seq<Label>, i: nat, j: nat)
    requires i < j < |Run(labels).advances|
    requires Run(labels).advances[i].source == Run(labels).advances[j].source
    ensures var v := Run(labels).advances;
      && v[i].previous < v[i].current <= v[j].previous && v[i].current <= v[i].previous + MAX_ADVANCE_HOURS
      && v[j].previous == ClockAfter(v[..j], v[j].source)
  {
    AdvanceRuns(labels);
    ClockGrows(Run(labels).advances, i, j);
  }
}
