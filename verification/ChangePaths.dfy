/** What a change can come to, told by runs from the empty database: every complete request can be
    applied, with one accepted send and the account's lease given back; every staged change can be
    discarded; and one that is approved too late expires without a send. And who may start what:
    calls from the change's own session and account, in a state that admits them. */
module ChangePaths {
  import opened Options
  import opened ChangeRecords
  import opened ChangeStore
  import opened ChangeProtocol
  import opened ChangeSafety
  import opened ChangeChecks
  import opened ChangeOutcomes

  // ----- an approval that goes well -----

  function Good(observed: Option<Version>): Answer { Answer(observed, true, Acknowledged, Some(0), 0) }

  /** What a read before sending has to show. */
  function Expected(d: Change): Option<Version> {
    match d.payload
    case Write(before, _) => before
    case Create(_, parent) => parent
    case Operation(plan) => plan
  }

  /** The claimed record with the answer of the backend. */
  function Recorded(d: Change): Change {
    var c := ClaimedDraft(d);
    if d.payload.Create? then c.(created := Some(0), outcome := Some(Acknowledged))
    else c.(outcome := Some(Acknowledged))
  }

  function Finished(d: Change): Change {
    Recorded(d).(state := Applied, note := "acknowledged and read-back matched")
  }

  const UNTIL := 60_000

  /** One execution, in its account's section, working on the one change there is. */
  predicate Working(w: World, d: Change, p: Phase, row: Change) {
    && w.execs == map[0 := p] && w.now == 0 && w.db.rows == map[d.id := row]
    && w.db.leases == map[d.source := LeaseRow(0, 60)]
  }

  lemma Leases(d: Change)
    ensures var w := Next(Begun(d), GO); Working(w, d, Leased(d, "operator", UNTIL), d) && w.sends == []
  {
    LeaseStepIs(Begun(d), 0, GO.answer);
  }

  lemma Claims(w: World, d: Change, a: Answer)
    requires Draft(d) && Working(w, d, Leased(d, "operator", UNTIL), d)
    ensures var w' := Next(w, Step(0, a));
      Working(w', d, Claimed(ClaimedDraft(d), UNTIL), ClaimedDraft(d)) && w'.sends == w.sends
  {
    SwapStepIs(w, 0, a);
    assert Claim(w, 0, d, "operator") == ClaimedDraft(d);
    SwapLands(w, 0, Staged, ClaimedDraft(d), Some(Claimed(ClaimedDraft(d), UNTIL)), Some(Releasing(d.source, UNTIL)));
  }

  lemma ChecksWell(w: World, d: Change)
    requires WellFormed(d.payload) && Working(w, d, Claimed(ClaimedDraft(d), UNTIL), ClaimedDraft(d))
    ensures var w' := Next(w, Step(0, Good(Expected(d))));
      Working(w', d, Ready(ClaimedDraft(d), UNTIL), ClaimedDraft(d)) && w'.sends == w.sends
  {}

  lemma SendsWell(w: World, d: Change, a: Answer)
    requires Working(w, d, Ready(ClaimedDraft(d), UNTIL), ClaimedDraft(d)) && a == Good(None)
    ensures var w' := Next(w, Step(0, a));
      && Working(w', d, Acked(ClaimedDraft(d), Recorded(d), UNTIL), ClaimedDraft(d))
      && |w'.sends| == |w.sends| + 1 && w'.sends[|w.sends|].id == d.id && w'.sends[|w.sends|].acked
  {}

  lemma ReadsWell(w: World, d: Change)
    requires WellFormed(d.payload) && Working(w, d, Acked(ClaimedDraft(d), Recorded(d), UNTIL), ClaimedDraft(d))
    ensures var w' := Next(w, Step(0, Good(Wanted(Recorded(d)))));
      Working(w', d, Finishing(ClaimedDraft(d), Finished(d), UNTIL), ClaimedDraft(d)) && w'.sends == w.sends
  {}

  lemma Finishes(w: World, d: Change, a: Answer)
    requires Working(w, d, Finishing(ClaimedDraft(d), Finished(d), UNTIL), ClaimedDraft(d))
    ensures var w' := Next(w, Step(0, a));
      Working(w', d, Releasing(d.source, UNTIL), Finished(d)) && w'.sends == w.sends
  {
    SwapStepIs(w, 0, a);
    SwapLands(w, 0, Applying, Finished(d), Some(Releasing(d.source, UNTIL)), Some(Releasing(d.source, UNTIL)));
  }

  lemma Releases(w: World, d: Change, a: Answer)
    requires Working(w, d, Releasing(d.source, UNTIL), Finished(d))
    ensures var w' := Next(w, Step(0, a));
      w'.execs == map[] && w'.db.rows == map[d.id := Finished(d)] && w'.db.leases == map[] && w'.sends == w.sends
  {}

  function Opening(d: Change): seq<Label> {
    [Stage(d), BeginApply(d.id, d.session, "operator", d.source, true), GO, GO]
  }

  function Closing(d: Change): seq<Label> {
    [Step(0, Good(Expected(d))), Step(0, Good(None)), Step(0, Good(Wanted(Recorded(d)))), GO, GO, Tick(0)]
  }

  lemma Opens(d: Change)
    requires Draft(d) && d.expiresAt > 0
    ensures var w := Play(START, Opening(d));
      Working(w, d, Claimed(ClaimedDraft(d), UNTIL), ClaimedDraft(d)) && w.sends == []
  {
    PlayTwo(START, Opening(d));
    FirstTwo(d);
    PlayTwo(Begun(d), Opening(d)[2..]);
    Leases(d);
    Claims(Next(Begun(d), GO), d, GO.answer);
  }

  lemma Closes(w: World, d: Change)
    requires WellFormed(d.payload) && Working(w, d, Claimed(ClaimedDraft(d), UNTIL), ClaimedDraft(d)) && w.sends == []
    ensures var t := Play(w, Closing(d));
      && t.execs == map[] && t.db.rows == map[d.id := Finished(d)] && t.db.leases == map[]
      && |t.sends| == 1 && t.sends[0].id == d.id && t.sends[0].acked
  {
    var l := Closing(d);
    PlayTwo(w, l);
    ChecksWell(w, d);
    var w1 := Next(w, l[0]);
    SendsWell(w1, d, Good(None));
    var w2 := Next(w1, l[1]);
    PlayTwo(w2, l[2..]);
    ReadsWell(w2, d);
    var w3 := Next(w2, l[2]);
    Finishes(w3, d, GO.answer);
    var w4 := Next(w3, GO);
    PlayTwo(w4, l[2..][2..]);
    Releases(w4, d, GO.answer);
  }

  /** Every complete request can be applied: sent once, accepted, read back, and the account's lease
      given back. */
  lemma CanApply(d: Change)
    requires Draft(d) && d.expiresAt > 0 && WellFormed(d.payload)
    ensures var w := Run(Opening(d) + Closing(d));
      && w.execs == map[] && d.id in w.db.rows && w.db.rows[d.id].state.Applied? && SameRequest(d, w.db.rows[d.id])
      && w.db.rows[d.id].approvedBy == "operator" && w.db.rows[d.id].approvedAt == Some(0)
      && w.db.leases == map[] && |w.sends| == 1 && w.sends[0].id == d.id && w.sends[0].acked
  {
    PlayIsRun([], Opening(d));
    assert [] + Opening(d) == Opening(d);
    PlayIsRun(Opening(d), Closing(d));
    Opens(d);
    Closes(Run(Opening(d)), d);
  }

  // ----- changes that are not approved -----

  lemma Withdraws(w: World, d: Change, p: Phase, state: ChangeState, a: Answer)
    requires w.execs == map[0 := p] && w.db.rows == map[d.id := d] && d.state.Staged?
    requires (p == Discarding(d) && state.Discarded?) || (p == Expiring(d) && state.Expired?)
    ensures var w' := StepExec(w, 0, p, a);
      w'.execs == map[] && w'.db.rows == map[d.id := d.(state := state)] && w'.sends == w.sends
  {
    SwapStepIs(w, 0, a);
    SwapLands(w, 0, Staged, d.(state := state), None, None);
  }

  /** Every staged change can be discarded. */
  lemma CanDiscard(d: Change)
    requires Draft(d)
    ensures var w := Run([Stage(d)] + [BeginDiscard(d.id, d.session), GO]);
      d.id in w.db.rows && w.db.rows[d.id] == d.(state := Discarded) && w.sends == []
  {
    PlayIsRun([Stage(d)], [BeginDiscard(d.id, d.session), GO]);
    OneStaged(d);
    var w := Run([Stage(d)]);
    PlayTwo(w, [BeginDiscard(d.id, d.session), GO]);
    Withdraws(Next(w, BeginDiscard(d.id, d.session)), d, Discarding(d), Discarded, GO.answer);
  }

  lemma OneStaged(d: Change)
    requires Draft(d)
    ensures Run([Stage(d)]) == START.(db := Put(START.db, d))
  {
    assert [Stage(d)][..0] == [];
  }

  /** An approval that comes too late sends nothing and expires the change. */
  lemma LateApprovalExpires(d: Change, ms: nat, operator: string, source: nat, writable: bool)
    requires Draft(d) && d.expiresAt <= ms && operator != ""
    ensures var w := Run([Stage(d)] + [Tick(ms), BeginApply(d.id, d.session, operator, source, writable), GO]);
      d.id in w.db.rows && w.db.rows[d.id] == d.(state := Expired) && w.sends == []
  {
    var l := [Tick(ms), BeginApply(d.id, d.session, operator, source, writable), GO];
    PlayIsRun([Stage(d)], l);
    OneStaged(d);
    var w := Run([Stage(d)]);
    PlayTwo(w, l);
    var w2 := Next(Next(w, l[0]), l[1]);
    assert w2.execs == map[0 := Expiring(d)];
    assert Play(w2, l[2..]) == Next(w2, GO);
    Withdraws(w2, d, Expiring(d), Expired, GO.answer);
  }

  // ----- who may call -----

  /** The call comes from the change's own session and account, and the change is in a state for it. */
  predicate Admitted(w: World, l: Label)
    requires l.BeginApply? || l.BeginReconcile? || l.BeginDiscard?
  {
    && l.id in w.db.rows && w.db.rows[l.id].session == l.session
    && var c := w.db.rows[l.id];
       match l
       case BeginApply(_, _, operator, source, writable) =>
         operator != "" && c.state.Staged? && (c.expiresAt <= w.now || (source == c.source && writable))
       case BeginReconcile(_, _, source) =>
         source == c.source
         && if c.state.Applying? then c.approvedAt.Some? && c.approvedAt.value + INTERRUPT_AFTER_MS <= w.now
            else c.state.Indeterminate? && Reconcilable(c)
       case _ => c.state.Staged?
  }

  /** Such a call starts the one execution it asks for; any other call does nothing. */
  lemma CallsAreScoped(w: World, l: Label)
    requires l.BeginApply? || l.BeginReconcile? || l.BeginDiscard?
    ensures !Admitted(w, l) ==> Next(w, l) == w
    ensures Admitted(w, l) ==>
      var c := w.db.rows[l.id];
      Next(w, l) == Spawn(w,
        match l
        case BeginApply(_, _, operator, _, _) => if c.expiresAt <= w.now then Expiring(c) else Leasing(c, operator)
        case BeginReconcile(_, _, _) => if c.state.Applying? then Interrupting(c) else Observing(c)
        case _ => Discarding(c))
  {}
}
