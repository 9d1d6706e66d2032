/** What `Applied` tells about sends. One more invariant of all runs shows which applied changes
    were certainly sent: those with an answer of the backend in their record, and all operations
    and creations. The last section plays a run, for any write with both versions, that ends
    applied although nothing was sent. */
module ChangeOutcomes {
  import opened Options
  import opened ChangeRecords
  import opened ChangeStore
  import opened ChangeProtocol
  import opened ChangeSafety
  import opened ChangeTheorems

  // ----- what was certainly sent -----

  /** The record holds something only the backend can have said. */
  predicate Marked(c: Change) { c.outcome.Some? || c.created.Some? }

  /** A write whose effect can be looked for without any record of it. */
  predicate FullWrite(c: Change) { c.payload.Write? && c.payload.before.Some? && c.payload.after.Some? }

  predicate Backed(sends: seq<Sent>, c: Change) {
    Marked(c) || (c.state.Applied? && !FullWrite(c)) ==> !Unsent(sends, c.id)
  }

  predicate TellsOk(sends: seq<Sent>, p: Phase) {
    match p
    case Finishing(_, c, _) => Backed(sends, c)
    case Observing(c) => Reconcilable(c)
    case Confirming(c) => Reconcilable(c)
    case _ => true
  }

  /** Every record with an answer, and every applied one that is no full write, has a send. */
  predicate Told(w: World) {
    && (forall c | c in w.db.audit :: Backed(w.sends, c))
    && (forall e | e in w.execs :: TellsOk(w.sends, w.execs[e]))
  }

  /** Sends are kept, and at most one record is added, which has its send. */
  predicate Adds(w: World, w': World) {
    && w.sends <= w'.sends
    && (w'.db.audit == w.db.audit
        || (w'.db.audit != [] && w'.db.audit[..|w'.db.audit| - 1] == w.db.audit
            && Backed(w'.sends, w'.db.audit[|w'.db.audit| - 1])))
  }

  lemma SentStays(sends: seq<Sent>, sends': seq<Sent>, id: nat)
    requires sends <= sends' && !Unsent(sends, id)
    ensures !Unsent(sends', id)
  {
    var s :| s in sends && s.id == id;
    assert s in sends';
  }

  lemma BackedStays(sends: seq<Sent>, sends': seq<Sent>, c: Change)
    requires sends <= sends' && Backed(sends, c)
    ensures Backed(sends', c)
  {
    if !Unsent(sends, c.id) { SentStays(sends, sends', c.id); }
  }

  lemma TellsStays(sends: seq<Sent>, sends': seq<Sent>, p: Phase)
    requires sends <= sends' && TellsOk(sends, p)
    ensures TellsOk(sends', p)
  {
    if p.Finishing? { BackedStays(sends, sends', p.c); }
  }

  lemma ToldStays(w: World, w': World)
    requires Told(w) && Adds(w, w')
    requires forall f | f in w'.execs :: (f in w.execs && w'.execs[f] == w.execs[f]) || TellsOk(w'.sends, w'.execs[f])
    ensures Told(w')
  {
    forall c | c in w'.db.audit ensures Backed(w'.sends, c) {
      if c in w.db.audit { BackedStays(w.sends, w'.sends, c); }
    }
    forall f | f in w'.execs ensures TellsOk(w'.sends, w'.execs[f]) {
      if f in w.execs && w'.execs[f] == w.execs[f] { TellsStays(w.sends, w'.sends, w.execs[f]); }
    }
  }

  /** What a step has to show. */
  predicate Tells(w: World, e: nat, w': World) {
    Adds(w, w') && (e in w'.execs ==> TellsOk(w'.sends, w'.execs[e]))
  }

  lemma SwapTells(w: World, e: nat, from: ChangeState, c: Change, landed: Option<Phase>, lost: Option<Phase>)
    requires Backed(w.sends, c) && (landed.Some? ==> TellsOk(w.sends, landed.value))
    requires lost.Some? ==> lost.value.Releasing?
    ensures Tells(w, e, Swap(w, e, from, c, landed, lost))
  {
    assert (w.db.audit + [c])[..|w.db.audit|] == w.db.audit;
  }

  /** Swaps out of `Staged` copy the marks of the record they replace. */
  lemma StagedTells(w: World, e: nat, a: Answer)
    requires Inv(w) && Told(w) && e in w.execs
    requires w.execs[e].Expiring? || w.execs[e].Leased? || w.execs[e].Discarding?
    ensures Tells(w, e, StepExec(w, e, w.execs[e], a))
  {
    SwapStepIs(w, e, a);
    assert ExecOk(w, e, w.execs[e]);
    match w.execs[e]
    case Expiring(c) => SwapTells(w, e, Staged, c.(state := Expired), None, None);
    case Discarding(c) => SwapTells(w, e, Staged, c.(state := Discarded), None, None);
    case Leased(c, operator, until) =>
      var claim := Claim(w, e, c, operator);
      SwapTells(w, e, Staged, claim, Some(Claimed(claim, until)), Some(Releasing(c.source, until)));
  }

  lemma FinishTells(w: World, e: nat, a: Answer)
    requires Told(w) && e in w.execs && w.execs[e].Finishing?
    ensures Tells(w, e, StepExec(w, e, w.execs[e], a))
  {
    SwapStepIs(w, e, a);
    assert TellsOk(w.sends, w.execs[e]);
    var Finishing(_, c, until) := w.execs[e];
    SwapTells(w, e, Applying, c, Some(Releasing(c.source, until)), Some(Releasing(c.source, until)));
  }

  lemma InterruptTells(w: World, e: nat, a: Answer)
    requires Inv(w) && Told(w) && e in w.execs && w.execs[e].Interrupting?
    ensures Tells(w, e, StepExec(w, e, w.execs[e], a))
  {
    SwapStepIs(w, e, a);
    assert ExecOk(w, e, w.execs[e]);
    var c := Interrupted(w.execs[e].c);
    SwapTells(w, e, Applying, c, if Reconcilable(c) then Some(Observing(c)) else None, None);
  }

  /** Reconciling needs a mark, unless a write can be looked for. */
  lemma ConfirmTells(w: World, e: nat, a: Answer)
    requires Inv(w) && Told(w) && e in w.execs && w.execs[e].Confirming?
    ensures Tells(w, e, StepExec(w, e, w.execs[e], a))
  {
    SwapStepIs(w, e, a);
    assert ExecOk(w, e, w.execs[e]) && TellsOk(w.sends, w.execs[e]);
    SwapTells(w, e, Indeterminate, ConfirmedRecord(w.execs[e].c), None, None);
  }

  lemma RevalidateTells(w: World, e: nat, a: Answer)
    requires Inv(w) && Told(w) && e in w.execs && w.execs[e].Claimed?
    ensures Tells(w, e, StepExec(w, e, w.execs[e], a))
  {
    assert ExecOk(w, e, w.execs[e]);
    var Claimed(c, until) := w.execs[e];
    assert Backed(w.sends, c);
    if Revalidate(c, a.observed, a.policyOk).Some? { VerdictMarks(c, a); }
  }

  lemma VerdictMarks(c: Change, a: Answer)
    requires Revalidate(c, a.observed, a.policyOk).Some?
    ensures var d := Revalidate(c, a.observed, a.policyOk).value;
      d.id == c.id && !d.state.Applied? && (Marked(d) <==> Marked(c))
  {}

  lemma ReadBackTells(w: World, e: nat, a: Answer)
    requires Inv(w) && e in w.execs && w.execs[e].Acked?
    ensures Tells(w, e, StepExec(w, e, w.execs[e], a))
  {
    assert ExecOk(w, e, w.execs[e]);
  }

  lemma ObserveTells(w: World, e: nat, a: Answer)
    requires Told(w) && e in w.execs && w.execs[e].Observing?
    ensures Tells(w, e, StepExec(w, e, w.execs[e], a))
  {
    assert TellsOk(w.sends, w.execs[e]);
  }

  lemma SendTells(w: World, e: nat, a: Answer)
    requires e in w.execs && w.execs[e].Ready?
    ensures Tells(w, e, StepExec(w, e, w.execs[e], a))
  {
    var Ready(c, until) := w.execs[e];
    var w' := StepExec(w, e, w.execs[e], a);
    assert w'.sends[|w.sends|].id == c.id && w'.sends[|w.sends|] in w'.sends;
  }

  lemma LeaseTells(w: World, e: nat, a: Answer)
    requires e in w.execs && (w.execs[e].Leasing? || w.execs[e].AdvanceLeasing? || w.execs[e].Releasing?)
    ensures Tells(w, e, StepExec(w, e, w.execs[e], a))
  {
    LeaseStepIs(w, e, a);
  }

  lemma AdvanceTells(w: World, e: nat, a: Answer)
    requires e in w.execs && (w.execs[e].AdvanceLeased? || w.execs[e].AdvanceLoaded?)
    ensures Tells(w, e, StepExec(w, e, w.execs[e], a))
  {
    var w1, p := AdvanceStepIs(w, e, a);
  }

  lemma StepTells(w: World, e: nat, a: Answer)
    requires Inv(w) && Told(w) && e in w.execs
    ensures Tells(w, e, StepExec(w, e, w.execs[e], a))
  {
    match w.execs[e]
    case Expiring(_) => StagedTells(w, e, a);
    case Leased(_, _, _) => StagedTells(w, e, a);
    case Discarding(_) => StagedTells(w, e, a);
    case Finishing(_, _, _) => FinishTells(w, e, a);
    case Interrupting(_) => InterruptTells(w, e, a);
    case Confirming(_) => ConfirmTells(w, e, a);
    case Claimed(_, _) => RevalidateTells(w, e, a);
    case Acked(_, _, _) => ReadBackTells(w, e, a);
    case Observing(_) => ObserveTells(w, e, a);
    case Ready(_, _) => SendTells(w, e, a);
    case Leasing(_, _) => LeaseTells(w, e, a);
    case AdvanceLeasing(_) => LeaseTells(w, e, a);
    case Releasing(_, _) => LeaseTells(w, e, a);
    case _ => AdvanceTells(w, e, a);
  }

  /** A call that passes its checks looks only for what can be looked for. */
  lemma BeginTells(w: World, l: Label)
    requires Told(w) && (l.BeginApply? || l.BeginReconcile? || l.BeginDiscard? || l.BeginAdvance?)
    ensures Told(Next(w, l))
  {
    ToldStays(w, Next(w, l));
  }

  lemma StepTold(w: World, e: nat, a: Answer)
    requires Inv(w) && Told(w) && e in w.execs
    ensures Told(StepExec(w, e, w.execs[e], a))
  {
    var w' := StepExec(w, e, w.execs[e], a);
    StepTells(w, e, a);
    forall f | f in w'.execs && f != e ensures f in w.execs && w'.execs[f] == w.execs[f] { OthersStay(w, e, a, f); }
    ToldStays(w, w');
  }

  lemma StageTold(w: World, c: Change)
    requires Told(w) && Draft(c)
    ensures Told(w.(db := Put(w.db, c)))
  {
    assert (w.db.audit + [c])[..|w.db.audit|] == w.db.audit;
    ToldStays(w, w.(db := Put(w.db, c)));
  }

  lemma NextTells(w: World, l: Label)
    requires Inv(w) && Told(w)
    ensures Told(Next(w, l))
  {
    match l
    case Step(e, a) => if e in w.execs { StepTold(w, e, a); }
    case Stage(c) => if Draft(c) { StageTold(w, c); }
    case Tick(_) => ToldStays(w, Next(w, l));
    case Return(_) => ToldStays(w, Next(w, l));
    case Crash(_) => ToldStays(w, Next(w, l));
    case _ => BeginTells(w, l);
  }

  lemma {:induction false} RunsTell(labels: seq<Label>)
    ensures Told(Run(labels))
  {
    if labels != [] {
      var before := labels[..|labels| - 1];
      RunsTell(before);
      RunsAreSafe(before);
      NextTells(Run(before), labels[|labels| - 1]);
    }
  }

  /** An applied change was sent if it holds an answer of the backend, or is an operation or a
      creation. */
  lemma AppliedWasSent(labels: seq<Label>, id: nat)
    requires id in Run(labels).db.rows && Run(labels).db.rows[id].state.Applied?
    requires var c := Run(labels).db.rows[id]; c.outcome.Some? || c.created.Some? || !c.payload.Write?
    ensures exists s :: s in Run(labels).sends && s.id == id
  {
    RunsAreSafe(labels);
    RunsTell(labels);
    RowInAudit(Run(labels).db, id);
  }

  // ----- what may not have been sent -----

  const GO := Step(0, Answer(None, true, Unknown, None, 0))

  function Look(d: Change): Label
    requires FullWrite(d)
  {
    Step(1, Answer(d.payload.after, true, Unknown, None, 0))
  }

  function ClaimedDraft(d: Change): Change {
    d.(approvedAt := Some(0), approvedBy := "operator", attempt := Some(0), state := Applying)
  }

  function Abandoned(d: Change): seq<Label> {
    [Stage(d), BeginApply(d.id, d.session, "operator", d.source, true), GO, GO, Crash(0), Tick(60_000)]
  }

  function Reconciled(d: Change): seq<Label>
    requires FullWrite(d)
  {
    [BeginReconcile(d.id, d.session, d.source), Look(d), Look(d), Look(d)]
  }

  function Play(w: World, labels: seq<Label>): World
    decreases |labels|
  {
    if labels == [] then w else Play(Next(w, labels[0]), labels[1..])
  }

  lemma {:induction false} PlayIsRun(before: seq<Label>, labels: seq<Label>)
    ensures Play(Run(before), labels) == Run(before + labels)
    decreases |labels|
  {
    if labels == [] {
      assert before + labels == before;
    } else {
      var next := before + [labels[0]];
      assert next[..|next| - 1] == before;
      PlayIsRun(next, labels[1..]);
      assert next + labels[1..] == before + labels;
    }
  }

  lemma PlayTwo(w: World, l: seq<Label>)
    requires |l| >= 2
    ensures Play(w, l) == Play(Next(Next(w, l[0]), l[1]), l[2..])
  {
    assert Play(w, l) == Play(Next(w, l[0]), l[1..]);
    assert l[1..][1..] == l[2..];
  }

  /** Staged, and an approval has begun. */
  function Begun(d: Change): World {
    START.(execs := map[0 := Leasing(d, "operator")], nextExec := 1, db := Put(START.db, d))
  }

  /** The process is gone; its claim stays. */
  predicate Crashed(w: World, d: Change, now: int) {
    && w.execs == map[] && w.nextExec == 1 && w.now == now && w.sends == []
    && w.db.rows == map[d.id := ClaimedDraft(d)] && d in w.db.audit
  }

  lemma FirstTwo(d: Change)
    requires Draft(d) && d.expiresAt > 0
    ensures Next(Next(START, Stage(d)), BeginApply(d.id, d.session, "operator", d.source, true)) == Begun(d)
  {
    assert Next(START, Stage(d)) == START.(db := Put(START.db, d));
  }

  lemma TakesLease(d: Change)
    ensures var w := Next(Begun(d), GO);
      && w.execs == map[0 := Leased(d, "operator", 60_000)] && w.nextExec == 1 && w.now == 0 && w.sends == []
      && w.db.rows == map[d.id := d] && w.db.audit == [d]
  {
    LeaseStepIs(Begun(d), 0, GO.answer);
  }

  lemma ClaimsAndCrashes(w: World, d: Change)
    requires Draft(d) && w.execs == map[0 := Leased(d, "operator", 60_000)] && w.nextExec == 1 && w.now == 0
    requires w.sends == [] && w.db.rows == map[d.id := d] && w.db.audit == [d]
    ensures Crashed(Next(Next(w, GO), Crash(0)), d, 0)
  {
    SwapStepIs(w, 0, GO.answer);
    assert Claim(w, 0, d, "operator") == ClaimedDraft(d);
  }

  lemma ClaimThenCrash(d: Change)
    requires Draft(d) && d.expiresAt > 0
    ensures Crashed(Play(START, Abandoned(d)), d, 60_000)
  {
    var l := Abandoned(d);
    PlayTwo(START, l);
    FirstTwo(d);
    PlayTwo(Begun(d), l[2..]);
    TakesLease(d);
    PlayTwo(Next(Next(Begun(d), GO), GO), l[2..][2..]);
    ClaimsAndCrashes(Next(Begun(d), GO), d);
  }

  lemma ReconcileUnsent(w: World, d: Change)
    requires FullWrite(d) && Crashed(w, d, 60_000)
    ensures var c := Interrupted(ClaimedDraft(d));
      var w' := Next(Next(w, BeginReconcile(d.id, d.session, d.source)), Look(d));
      w'.execs == map[1 := Observing(c)] && w'.sends == [] && w'.db.rows == map[d.id := c] && d in w'.db.audit
  {
    BeginInterrupting(w, d);
    Interrupts(Next(w, BeginReconcile(d.id, d.session, d.source)), d);
  }

  lemma BeginInterrupting(w: World, d: Change)
    requires Crashed(w, d, 60_000)
    ensures Next(w, BeginReconcile(d.id, d.session, d.source))
      == w.(execs := map[1 := Interrupting(ClaimedDraft(d))], nextExec := 2)
  {}

  /** A swap that finds its row lands. */
  lemma SwapLands(w: World, e: nat, from: ChangeState, c: Change, landed: Option<Phase>, lost: Option<Phase>)
    requires CanTransition(from, c.state) && c.id in w.db.rows && w.db.rows[c.id].state == from
    ensures var w' := w.(db := Put(w.db, c));
      Swap(w, e, from, c, landed, lost) == if landed.Some? then Goto(w', e, landed.value) else Gone(w', e)
  {}

  lemma InterruptLands(w: World, c: Change, a: Answer)
    requires w.execs == map[1 := Interrupting(c)] && FullWrite(c) && c.state.Applying? && w.db.rows == map[c.id := c]
    ensures var w' := StepExec(w, 1, w.execs[1], a); var c' := Interrupted(c);
      && w'.execs == map[1 := Observing(c')] && w'.sends == w.sends && w'.db == Put(w.db, c')
      && w'.db.rows == map[c.id := c']
  {
    SwapStepIs(w, 1, a);
    SwapLands(w, 1, Applying, Interrupted(c), Some(Observing(Interrupted(c))), None);
  }

  lemma Interrupts(w: World, d: Change)
    requires FullWrite(d) && w.execs == map[1 := Interrupting(ClaimedDraft(d))] && w.sends == []
    requires w.db.rows == map[d.id := ClaimedDraft(d)] && d in w.db.audit
    ensures var w' := Next(w, Look(d)); var c := Interrupted(ClaimedDraft(d));
      w'.execs == map[1 := Observing(c)] && w'.sends == [] && w'.db.rows == map[d.id := c] && d in w'.db.audit
  {
    InterruptLands(w, ClaimedDraft(d), Look(d).answer);
  }

  lemma ObserveUnsent(w: World, d: Change, c: Change)
    requires FullWrite(d) && w.execs == map[1 := Observing(c)] && c.payload == d.payload
    ensures Next(w, Look(d)).execs == map[1 := Confirming(c)]
    ensures Next(w, Look(d)).db == w.db && Next(w, Look(d)).sends == w.sends
  {}

  lemma ConfirmLands(w: World, c: Change, a: Answer)
    requires w.execs == map[1 := Confirming(c)] && c.state.Indeterminate? && w.db.rows == map[c.id := c]
    ensures var w' := StepExec(w, 1, w.execs[1], a);
      w'.sends == w.sends && w'.db == Put(w.db, ConfirmedRecord(c))
  {
    SwapStepIs(w, 1, a);
    SwapLands(w, 1, Indeterminate, ConfirmedRecord(c), None, None);
  }

  lemma ConfirmUnsent(w: World, d: Change, c: Change)
    requires FullWrite(d) && w.execs == map[1 := Confirming(c)] && w.sends == [] && c.state.Indeterminate?
    requires w.db.rows == map[d.id := c] && c.id == d.id && d in w.db.audit
    ensures var w' := Next(w, Look(d));
      d.id in w'.db.rows && w'.db.rows[d.id].state.Applied? && w'.sends == [] && d in w'.db.audit
  {
    ConfirmLands(w, c, Look(d).answer);
  }

  /** An approval whose process dies before sending, an unrelated edit that happens to produce the
      requested state, and a reconcile a minute later: any full write can end applied, unsent. */
  lemma AppliedMayBeUnsent(d: Change)
    requires Draft(d) && d.expiresAt > 0 && FullWrite(d)
    ensures AppliedUnsent(Abandoned(d) + Reconciled(d), d)
  {
    var tail := Reconciled(d);
    PlayIsRun([], Abandoned(d));
    assert [] + Abandoned(d) == Abandoned(d);
    PlayIsRun(Abandoned(d), tail);
    ClaimThenCrash(d);
    var w := Run(Abandoned(d));
    PlayTwo(w, tail);
    ReconcileUnsent(w, d);
    var w' := Next(Next(w, tail[0]), tail[1]);
    var c := Interrupted(ClaimedDraft(d));
    PlayTwo(w', tail[2..]);
    ObserveUnsent(w', d, c);
    ConfirmUnsent(Next(w', Look(d)), d, c);
  }

  /** The run staged this draft, and its change is applied although nothing was sent for it. */
  predicate AppliedUnsent(labels: seq<Label>, d: Change) {
    var w := Run(labels);
    d in w.db.audit && d.id in w.db.rows && w.db.rows[d.id].state.Applied? && Unsent(w.sends, d.id)
  }

  /** A draft that is not born expired can end applied without a send exactly when it is a full
      write. */
  lemma UnsentIff(d: Change)
    requires Draft(d) && d.expiresAt > 0
    ensures (exists labels :: AppliedUnsent(labels, d)) <==> FullWrite(d)
  {
    if FullWrite(d) { AppliedMayBeUnsent(d); }
    forall labels | AppliedUnsent(labels, d) ensures FullWrite(d) {
      var w := Run(labels);
      RunsAreSafe(labels);
      RunsTell(labels);
      RowInAudit(w.db, d.id);
      RequestNeverChanges(w.db, d);
      assert Backed(w.sends, w.db.rows[d.id]);
    }
  }
}
