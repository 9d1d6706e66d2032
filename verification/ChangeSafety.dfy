/** What every interleaving, early return and crash of the change service keeps. The invariant
    has four parts: every row is the last record of a legal audit trail; everything sent was
    approved before and is sent once; the state of every row tells the truth about the logs of
    sends and reads; and what each execution remembers locally is still good enough for the next
    thing it may do. Each kind of step is shown to keep it in a lemma of its own, with small frame
    lemmas for the parts a step does not touch. */
module ChangeSafety {
  import opened Options
  import opened ChangeRecords
  import opened ChangeStore
  import opened ChangeProtocol

  // ----- the invariant -----

  predicate Unsent(sends: seq<Sent>, id: nat) { forall s | s in sends :: s.id != id }

  predicate NeverAccepted(sends: seq<Sent>, id: nat) { forall s | s in sends && s.id == id :: !s.acked }

  predicate SentAndAccepted(sends: seq<Sent>, id: nat) { exists s :: s in sends && s.id == id && s.acked }

  /** By the time `at`, the log held an approval of this attempt. */
  predicate ApprovedBefore(audit: seq<Change>, at: nat, id: nat, attempt: Option<nat>) {
    && at <= |audit|
    && exists c :: c in audit[..at] && c.id == id && c.state.Applying? && c.attempt == attempt && c.approvedBy != ""
  }

  /** Some read-back made after the approval saw exactly what was requested. */
  predicate Confirmed(w: World, c: Change) {
    exists r :: r in w.readbacks && r.id == c.id && Matches(c, r.observed)
                && ApprovedBefore(w.db.audit, r.at, c.id, c.attempt)
  }

  predicate RecordOk(c: Change) {
    && (c.state.Staged? ==> Draft(c))
    && (c.state.Discarded? ==> c.attempt.None?)
    && (c.state.Applying? || c.state.Indeterminate? || c.state.Applied? || c.state.Failed? ==>
      c.attempt.Some? && c.approvedAt.Some? && c.approvedBy != "")
  }

  predicate RowsOk(db: Db) {
    && (forall id | id in db.rows ::
      && db.rows[id].id == id
      && LegalPath(History(db.audit, id))
      && db.rows[id] == History(db.audit, id)[|History(db.audit, id)| - 1])
    && (forall c | c in db.audit ::
      c.id in db.rows && RecordOk(c) && (c.attempt.Some? ==> db.rows[c.id].attempt == c.attempt))
  }

  predicate PostSend(p: Phase) { p.Acked? || p.Finishing? || p.Releasing? }

  predicate SendOk(w: World, s: Sent) {
    && s.id in w.db.rows
    && w.db.rows[s.id].attempt == Some(s.attempt)
    && w.db.rows[s.id].payload == s.payload
    && ApprovedBefore(w.db.audit, s.at, s.id, Some(s.attempt))
    && s.attempt < w.nextExec
    && (s.attempt in w.execs ==> PostSend(w.execs[s.attempt]))
  }

  predicate SendsOk(w: World) {
    && (forall s | s in w.sends :: SendOk(w, s))
    && (forall i, j | 0 <= i < j < |w.sends| :: w.sends[i].id != w.sends[j].id)
  }

  /** What a state says about the outside world. */
  predicate StateOk(w: World, c: Change) {
    match c.state
    case Staged => Unsent(w.sends, c.id)
    case Discarded => Unsent(w.sends, c.id)
    case Expired => Unsent(w.sends, c.id)
    case Failed => NeverAccepted(w.sends, c.id)
    case Applied =>
      && Confirmed(w, c)
      && (|History(w.db.audit, c.id)| <= 3 ==> SentAndAccepted(w.sends, c.id))
    case _ => true
  }

  /** The row of a claimed change moves on without its executor only through Reconcile. */
  predicate Undecided(w: World, id: nat) {
    id in w.db.rows
    && var s := w.db.rows[id].state; s.Applying? || s.Indeterminate? || s.Applied?
  }

  predicate ClaimOk(w: World, e: nat, basis: Change, until: int) {
    && basis in w.db.audit && basis.state.Applying? && basis.attempt == Some(e)
    && basis.approvedAt.Some? && until <= basis.approvedAt.value + APPLY_LEASE_MS
    && Undecided(w, basis.id)
  }

  /** The local record differs from the claimed one only in what the attempt learned. */
  predicate SameAttempt(a: Change, b: Change) {
    SameRequest(a, b) && a.attempt == b.attempt && a.approvedAt == b.approvedAt && a.approvedBy == b.approvedBy
  }

  predicate VerdictOk(w: World, c: Change) {
    match c.state
    case Expired => Unsent(w.sends, c.id)
    case Failed => NeverAccepted(w.sends, c.id)
    case Applied => Confirmed(w, c) && SentAndAccepted(w.sends, c.id)
    case Indeterminate => !Unsent(w.sends, c.id)
    case _ => false
  }

  predicate ExecOk(w: World, e: nat, p: Phase) {
    match p
    case Expiring(c) => c in w.db.audit && c.state.Staged?
    case Leasing(c, operator) => c in w.db.audit && c.state.Staged? && operator != ""
    case Leased(c, operator, until) =>
      c in w.db.audit && c.state.Staged? && operator != "" && until <= w.now + APPLY_LEASE_MS
    case Claimed(c, until) => ClaimOk(w, e, c, until) && Unsent(w.sends, c.id)
    case Ready(c, until) => ClaimOk(w, e, c, until) && Unsent(w.sends, c.id)
    case Acked(basis, c, until) =>
      && ClaimOk(w, e, basis, until) && SameAttempt(basis, c)
      && c.state.Applying? && SentAndAccepted(w.sends, c.id)
    case Finishing(basis, c, until) =>
      ClaimOk(w, e, basis, until) && SameAttempt(basis, c) && VerdictOk(w, c)
    case Interrupting(c) =>
      && c in w.db.audit && c.state.Applying? && c.approvedAt.Some?
      && w.now >= c.approvedAt.value + INTERRUPT_AFTER_MS
    case Observing(c) => c in w.db.audit && c.state.Indeterminate?
    case Confirming(c) => c in w.db.audit && c.state.Indeterminate? && Confirmed(w, c)
    case Discarding(c) => c in w.db.audit && c.state.Staged?
    case _ => true
  }

  predicate Inv(w: World) {
    && RowsOk(w.db)
    && SendsOk(w)
    && (forall id | id in w.db.rows :: StateOk(w, w.db.rows[id]))
    && (forall e | e in w.execs :: e < w.nextExec && ExecOk(w, e, w.execs[e]))
  }

  // ----- records and rows -----

  lemma SameStateSameRecord(db: Db, a: Change, b: Change)
    requires RowsOk(db) && a in db.audit && b in db.audit && a.id == b.id && a.state == b.state
    ensures a == b
  {
    HistoryMember(db.audit, a);
    HistoryMember(db.audit, b);
    StateNamesRecord(History(db.audit, a.id), a, b);
  }

  lemma RowInAudit(db: Db, id: nat)
    requires RowsOk(db) && id in db.rows
    ensures db.rows[id] in db.audit
  {
    HistoryOnlyOwn(db.audit, id);
  }

  /** A local copy whose state is still the row's state is the row. */
  lemma CopyIsRow(db: Db, c: Change)
    requires RowsOk(db) && c in db.audit && db.rows[c.id].state == c.state
    ensures db.rows[c.id] == c
  {
    RowInAudit(db, c.id);
    SameStateSameRecord(db, c, db.rows[c.id]);
  }

  /** All records of a change carry the same request. */
  lemma RequestNeverChanges(db: Db, c: Change)
    requires RowsOk(db) && c in db.audit
    ensures SameRequest(c, db.rows[c.id])
  {
    var h := History(db.audit, c.id);
    HistoryMember(db.audit, c);
    var i :| 0 <= i < |h| && h[i] == c;
    if i < |h| - 1 { PathClimbs(h, i, |h| - 1); }
  }

  /** `Indeterminate` is always the third record. */
  lemma IndeterminateIsThird(h: seq<Change>)
    requires LegalPath(h) && h[|h| - 1].state.Indeterminate?
    ensures |h| == 3
  {
    assert |h| > 1;
    assert CanTransition(h[|h| - 2].state, h[|h| - 1].state);
    assert h[|h| - 2].state.Applying? && |h| > 2;
    assert CanTransition(h[|h| - 3].state, h[|h| - 2].state);
    PathClimbs(h, 0, |h| - 1);
  }

  // ----- what each part of the invariant reads -----

  lemma ConfirmedStays(w: World, w': World, c: Change)
    requires w.readbacks <= w'.readbacks && w.db.audit <= w'.db.audit
    ensures Confirmed(w, c) ==> Confirmed(w', c)
  {
    if Confirmed(w, c) {
      var r :| r in w.readbacks && r.id == c.id && Matches(c, r.observed)
               && ApprovedBefore(w.db.audit, r.at, c.id, c.attempt);
      assert w'.db.audit[..r.at] == w.db.audit[..r.at];
      assert r in w'.readbacks;
    }
  }

  lemma SendFrame(w: World, w': World, s: Sent)
    requires SendOk(w, s) && w.db.audit <= w'.db.audit && w.nextExec <= w'.nextExec
    requires s.id in w'.db.rows && SameRequest(w.db.rows[s.id], w'.db.rows[s.id])
    requires w'.db.rows[s.id].attempt == w.db.rows[s.id].attempt
    requires s.attempt in w'.execs ==> PostSend(w'.execs[s.attempt])
    ensures SendOk(w', s)
  {
    assert w'.db.audit[..s.at] == w.db.audit[..s.at];
  }

  lemma StateFrame(w: World, w': World, c: Change)
    requires StateOk(w, c) && w.sends == w'.sends && w.readbacks <= w'.readbacks && w.db.audit <= w'.db.audit
    requires History(w.db.audit, c.id) == History(w'.db.audit, c.id)
    ensures StateOk(w', c)
  {
    ConfirmedStays(w, w', c);
  }

  predicate BasisStaysUndecided(w': World, p: Phase) {
    match p
    case Claimed(c, _) => Undecided(w', c.id)
    case Ready(c, _) => Undecided(w', c.id)
    case Acked(basis, _, _) => Undecided(w', basis.id)
    case Finishing(basis, _, _) => Undecided(w', basis.id)
    case _ => true
  }

  lemma ExecFrame(w: World, w': World, f: nat, p: Phase)
    requires ExecOk(w, f, p) && w.sends == w'.sends && w.readbacks <= w'.readbacks
    requires w.db.audit <= w'.db.audit && w.now <= w'.now && BasisStaysUndecided(w', p)
    ensures ExecOk(w', f, p)
  {
    assert forall c | c in w.db.audit :: c in w'.db.audit;
    match p
    case Finishing(_, c, _) => ConfirmedStays(w, w', c);
    case Confirming(c) => ConfirmedStays(w, w', c);
    case _ =>
  }

  // ----- what each primitive change of the world keeps -----

  lemma GoneKeeps(w: World, e: nat)
    requires Inv(w)
    ensures Inv(Gone(w, e))
  {
    FrameKeeps(w, Gone(w, e));
  }

  /** Whatever leaves rows, audit and sends alone and only loses executions keeps the invariant. */
  lemma FrameKeeps(w: World, w': World)
    requires Inv(w) && w'.db.rows == w.db.rows && w'.db.audit == w.db.audit && w'.now >= w.now
    requires w'.nextExec >= w.nextExec && w'.sends == w.sends && w.readbacks <= w'.readbacks
    requires forall f | f in w'.execs :: f in w.execs && w'.execs[f] == w.execs[f]
    ensures Inv(w')
  {
    forall s | s in w'.sends ensures SendOk(w', s) { SendFrame(w, w', s); }
    forall id | id in w'.db.rows ensures StateOk(w', w'.db.rows[id]) { StateFrame(w, w', w.db.rows[id]); }
    forall f | f in w'.execs ensures f < w'.nextExec && ExecOk(w', f, w'.execs[f]) {
      assert ExecOk(w, f, w.execs[f]);
      ExecFrame(w, w', f, w.execs[f]);
    }
  }

  lemma GotoKeeps(w: World, e: nat, p: Phase)
    requires Inv(w) && e < w.nextExec && ExecOk(w, e, p)
    requires PostSend(p) || forall s | s in w.sends :: s.attempt != e
    ensures Inv(Goto(w, e, p))
  {
    var w' := Goto(w, e, p);
    forall s | s in w'.sends ensures SendOk(w', s) {
      assert SendOk(w, s);
      SendFrame(w, w', s);
    }
    forall id | id in w'.db.rows ensures StateOk(w', w'.db.rows[id]) { StateFrame(w, w', w.db.rows[id]); }
    forall f | f in w'.execs ensures f < w'.nextExec && ExecOk(w', f, w'.execs[f]) {
      if f != e { assert ExecOk(w, f, w.execs[f]); }
      ExecFrame(w, w', f, w'.execs[f]);
    }
  }

  lemma SpawnKeeps(w: World, p: Phase)
    requires Inv(w) && ExecOk(w, w.nextExec, p)
    ensures Inv(Spawn(w, p))
  {
    var w1 := w.(nextExec := w.nextExec + 1);
    FrameKeeps(w, w1);
    ExecFrame(w, w1, w.nextExec, p);
    forall s | s in w1.sends ensures s.attempt != w.nextExec { assert SendOk(w, s); }
    GotoKeeps(w1, w.nextExec, p);
  }

  /** No execution is between claiming this change and finishing it. */
  predicate NoWorker(w: World, id: nat) {
    forall f | f in w.execs :: !WorksOn(w.execs[f], id)
  }

  predicate WorksOn(p: Phase, id: nat) {
    match p
    case Claimed(c, _) => c.id == id
    case Ready(c, _) => c.id == id
    case Acked(basis, _, _) => basis.id == id
    case Finishing(basis, _, _) => basis.id == id
    case _ => false
  }

  /** Two claims of one change are one claim: dropping its execution leaves nobody at work. */
  lemma OnlyOneWorker(w: World, e: nat, basis: Change)
    requires Inv(w) && basis in w.db.audit && basis.state.Applying? && basis.attempt == Some(e)
    ensures NoWorker(Gone(w, e), basis.id)
  {
    forall f | f in w.execs && f != e ensures !WorksOn(w.execs[f], basis.id) {
      assert ExecOk(w, f, w.execs[f]);
      match w.execs[f]
      case Claimed(c, _) => if c.id == basis.id { SameStateSameRecord(w.db, c, basis); }
      case Ready(c, _) => if c.id == basis.id { SameStateSameRecord(w.db, c, basis); }
      case Acked(b, _, _) => if b.id == basis.id { SameStateSameRecord(w.db, b, basis); }
      case Finishing(b, _, _) => if b.id == basis.id { SameStateSameRecord(w.db, b, basis); }
      case _ =>
    }
  }

  /** While the row is still staged nobody can have claimed it. */
  lemma StagedHasNoWorker(w: World, id: nat)
    requires Inv(w) && id in w.db.rows && w.db.rows[id].state.Staged?
    ensures NoWorker(w, id)
  {
    forall f | f in w.execs ensures !WorksOn(w.execs[f], id) { assert ExecOk(w, f, w.execs[f]); }
  }

  /** `c` may follow the row it replaces, or start a new one. */
  predicate Follows(db: Db, c: Change) {
    if c.id in db.rows then
      && CanTransition(db.rows[c.id].state, c.state) && SameRequest(db.rows[c.id], c)
      && (db.rows[c.id].attempt.Some? ==> c.attempt == db.rows[c.id].attempt)
    else Draft(c)
  }

  lemma NoHistory(db: Db, id: nat)
    requires RowsOk(db) && id !in db.rows
    ensures History(db.audit, id) == []
  {
    HistoryOnlyOwn(db.audit, id);
    if History(db.audit, id) != [] {
      RowOfRecord(db, History(db.audit, id)[0]);
      assert false;
    }
  }

  lemma RowOfRecord(db: Db, c: Change)
    requires RowsOk(db) && c in db.audit
    ensures c.id in db.rows
  {}

  lemma PathGrows(h: seq<Change>, c: Change)
    requires LegalPath(h) && CanTransition(h[|h| - 1].state, c.state) && SameRequest(h[|h| - 1], c)
    ensures LegalPath(h + [c])
  {
    var h' := h + [c];
    forall i | 0 < i < |h'| ensures CanTransition(h'[i - 1].state, h'[i].state) && SameRequest(h'[i - 1], h'[i]) {
      if i < |h| { assert h'[i - 1] == h[i - 1] && h'[i] == h[i]; }
    }
  }

  lemma NewHistory(db: Db, c: Change)
    requires RowsOk(db) && c.id !in db.rows && Draft(c)
    ensures History(db.audit + [c], c.id) == [c] && LegalPath([c])
  {
    NoHistory(db, c.id);
    HistorySnoc(db.audit, c, c.id);
  }

  lemma PutHistory(db: Db, c: Change, id: nat)
    requires RowsOk(db) && Follows(db, c) && id in Put(db, c).rows
    ensures var h := History(db.audit + [c], id);
      LegalPath(h) && h[|h| - 1] == Put(db, c).rows[id] && h[|h| - 1].id == id
  {
    HistorySnoc(db.audit, c, id);
    if id != c.id {
      assert History(db.audit, id) + [] == History(db.audit, id);
    } else if id in db.rows {
      PathGrows(History(db.audit, id), c);
    } else {
      NewHistory(db, c);
    }
  }

  lemma PutRowsOk(db: Db, c: Change)
    requires RowsOk(db) && RecordOk(c) && Follows(db, c)
    ensures RowsOk(Put(db, c))
  {
    var db' := Put(db, c);
    forall id | id in db'.rows
      ensures db'.rows[id].id == id && LegalPath(History(db'.audit, id))
        && db'.rows[id] == History(db'.audit, id)[|History(db'.audit, id)| - 1]
    {
      PutHistory(db, c, id);
    }
    forall d | d in db'.audit
      ensures d.id in db'.rows && RecordOk(d) && (d.attempt.Some? ==> db'.rows[d.id].attempt == d.attempt)
    {
      if d != c { RowOfRecord(db, d); }
    }
  }

  lemma PutSend(w: World, c: Change, s: Sent)
    requires SendOk(w, s) && Follows(w.db, c)
    ensures SendOk(w.(db := Put(w.db, c)), s)
  {
    var w' := w.(db := Put(w.db, c));
    assert s.id in w'.db.rows && SameRequest(w.db.rows[s.id], w'.db.rows[s.id]);
    SendFrame(w, w', s);
  }

  lemma PutExec(w: World, c: Change, f: nat, p: Phase)
    requires ExecOk(w, f, p) && Follows(w.db, c)
    requires c.state.Applying? || c.state.Indeterminate? || c.state.Applied? || !WorksOn(p, c.id)
    ensures ExecOk(w.(db := Put(w.db, c)), f, p)
  {
    ExecFrame(w, w.(db := Put(w.db, c)), f, p);
  }

  lemma PutState(w: World, c: Change, d: Change)
    requires StateOk(w, d) && d.id != c.id
    ensures StateOk(w.(db := Put(w.db, c)), d)
  {
    HistorySnoc(w.db.audit, c, d.id);
    StateFrame(w, w.(db := Put(w.db, c)), d);
  }

  /** Writing a record keeps the invariant when the record's state tells the truth. */
  lemma PutKeeps(w: World, c: Change)
    requires Inv(w) && RecordOk(c) && Follows(w.db, c)
    requires c.state.Applying? || c.state.Indeterminate? || c.state.Applied? || NoWorker(w, c.id)
    requires StateOk(w.(db := Put(w.db, c)), c)
    ensures Inv(w.(db := Put(w.db, c)))
  {
    var w' := w.(db := Put(w.db, c));
    PutRowsOk(w.db, c);
    forall s | s in w'.sends ensures SendOk(w', s) { PutSend(w, c, s); }
    forall id | id in w'.db.rows ensures StateOk(w', w'.db.rows[id]) {
      if id != c.id { PutState(w, c, w.db.rows[id]); }
    }
    forall f | f in w'.execs ensures f < w'.nextExec && ExecOk(w', f, w'.execs[f]) {
      PutExec(w, c, f, w.execs[f]);
    }
  }

  // ----- steps -----

  /** A finished record's verdict becomes true of the row it is written to. */
  lemma VerdictHolds(w: World, c: Change)
    requires Inv(w) && Follows(w.db, c) && c.id in w.db.rows
    requires VerdictOk(w, c) || c.state.Applying? || c.state.Indeterminate?
      || (c.state.Applied? && Confirmed(w, c) && |History(w.db.audit, c.id)| >= 3)
      || ((c.state.Discarded? || c.state.Expired?) && Unsent(w.sends, c.id))
    ensures StateOk(w.(db := Put(w.db, c)), c)
  {
    var w' := w.(db := Put(w.db, c));
    HistorySnoc(w.db.audit, c, c.id);
    ConfirmedStays(w, w', c);
  }

  /** The landing half of a swap: the execution is dropped first, then the record is written. */
  lemma LandKeeps(w: World, e: nat, c: Change)
    requires Inv(w) && RecordOk(c) && Follows(w.db, c)
    requires c.state.Applying? || c.state.Indeterminate? || c.state.Applied? || NoWorker(Gone(w, e), c.id)
    requires StateOk(w.(db := Put(w.db, c)), c)
    ensures Inv(Gone(w, e).(db := Put(w.db, c)))
  {
    GoneKeeps(w, e);
    StateFrame(w.(db := Put(w.db, c)), Gone(w, e).(db := Put(w.db, c)), c);
    PutKeeps(Gone(w, e), c);
  }

  lemma ExecMoves(w: World, g: World, e: nat, p: Phase)
    requires ExecOk(w, e, p)
    requires w.sends == g.sends && w.readbacks == g.readbacks && w.db == g.db && w.now == g.now
    ensures ExecOk(g, e, p)
  {
    ExecFrame(w, g, e, p);
  }

  lemma ReappearKeeps(w: World, g: World, e: nat, p: Phase)
    requires Inv(g) && g.execs == w.execs - {e} && e < g.nextExec && ExecOk(w, e, p)
    requires w.sends == g.sends && w.readbacks == g.readbacks && w.db == g.db && w.now == g.now
    requires PostSend(p) || forall s | s in w.sends :: s.attempt != e
    ensures Inv(g.(execs := w.execs[e := p]))
  {
    PutBack(w.execs, g, e, p);
    ExecMoves(w, g, e, p);
    GotoKeeps(g, e, p);
  }

  lemma PutBack(execs: map<nat, Phase>, g: World, e: nat, p: Phase)
    requires g.execs == execs - {e}
    ensures Goto(g, e, p) == g.(execs := execs[e := p])
  {
    assert (execs - {e})[e := p] == execs[e := p];
  }

  /** A swap that lands, by an execution that is the only one at work on the change or leaves
      the row open. */
  lemma SwapKeeps(w: World, e: nat, from: ChangeState, c: Change, landed: Option<Phase>, lost: Option<Phase>)
    requires Inv(w) && e < w.nextExec
    requires TransitionError(w.db, from, c).NoError? ==> RecordOk(c) && Follows(w.db, c)
    requires TransitionError(w.db, from, c).NoError? ==>
      c.state.Applying? || c.state.Indeterminate? || c.state.Applied? || NoWorker(Gone(w, e), c.id)
    requires TransitionError(w.db, from, c).NoError? ==> StateOk(w.(db := Put(w.db, c)), c)
    requires TransitionError(w.db, from, c).NoError? && landed.Some? ==>
      ExecOk(w.(db := Put(w.db, c)), e, landed.value)
    requires TransitionError(w.db, from, c).NoError? && landed.Some? ==>
      PostSend(landed.value) || forall s | s in w.sends :: s.attempt != e
    requires lost.Some? ==> lost.value.Releasing?
    ensures Inv(Swap(w, e, from, c, landed, lost))
  {
    if TransitionError(w.db, from, c).NoError? {
      LandKeeps(w, e, c);
      if landed.Some? {
        ReappearKeeps(w.(db := Put(w.db, c)), Gone(w, e).(db := Put(w.db, c)), e, landed.value);
      }
    } else {
      GoneKeeps(w, e);
      if lost.Some? { ReappearKeeps(w, Gone(w, e), e, lost.value); }
    }
  }

  /** Swapping away from a state the local copy has means replacing exactly that copy. */
  lemma SwapBase(w: World, base: Change, c: Change)
    requires Inv(w) && base in w.db.audit && SameRequest(base, c) && CanTransition(base.state, c.state)
    requires TransitionError(w.db, base.state, c).NoError?
    requires base.attempt.Some? ==> c.attempt == base.attempt
    ensures w.db.rows[c.id] == base && Follows(w.db, c)
  {
    CopyIsRow(w.db, base);
  }

  lemma NotSentYet(w: World, e: nat)
    requires Inv(w) && e in w.execs && !PostSend(w.execs[e])
    ensures forall s | s in w.sends :: s.attempt != e
  {
    forall s | s in w.sends ensures s.attempt != e { assert SendOk(w, s); }
  }

  /** Swaps out of `Staged`: nothing has been sent, and nobody has claimed the change. */
  lemma StagedSwapKeeps(w: World, e: nat, base: Change, c: Change, landed: Option<Phase>, lost: Option<Phase>)
    requires Inv(w) && e in w.execs && base in w.db.audit && base.state.Staged?
    requires SameRequest(base, c) && RecordOk(c) && !PostSend(w.execs[e])
    requires c.state.Applying? || c.state.Discarded? || c.state.Expired?
    requires landed.Some? ==>
      && c.state.Applying? && c.attempt == Some(e) && c.approvedAt.Some?
      && landed.value.Claimed? && landed.value.c == c && landed.value.until <= c.approvedAt.value + APPLY_LEASE_MS
    requires lost.Some? ==> lost.value.Releasing?
    ensures Inv(Swap(w, e, Staged, c, landed, lost))
  {
    if TransitionError(w.db, Staged, c).NoError? {
      SwapBase(w, base, c);
      assert StateOk(w, w.db.rows[c.id]);
      VerdictHolds(w, c);
      StagedHasNoWorker(w, c.id);
      NotSentYet(w, e);
    }
    SwapKeeps(w, e, Staged, c, landed, lost);
  }

  /** Which swap an execution tries next. */
  lemma SwapStepIs(w: World, e: nat, a: Answer)
    requires e in w.execs
    ensures match w.execs[e]
      case Expiring(c) => StepExec(w, e, w.execs[e], a) == Swap(w, e, Staged, c.(state := Expired), None, None)
      case Discarding(c) => StepExec(w, e, w.execs[e], a) == Swap(w, e, Staged, c.(state := Discarded), None, None)
      case Leased(c, operator, until) =>
        var claim := Claim(w, e, c, operator);
        StepExec(w, e, w.execs[e], a)
        == Swap(w, e, Staged, claim, Some(Claimed(claim, until)), Some(Releasing(c.source, until)))
      case Finishing(_, c, until) =>
        StepExec(w, e, w.execs[e], a)
        == Swap(w, e, Applying, c, Some(Releasing(c.source, until)), Some(Releasing(c.source, until)))
      case Interrupting(c) =>
        StepExec(w, e, w.execs[e], a)
        == Swap(w, e, Applying, Interrupted(c),
                if Reconcilable(Interrupted(c)) then Some(Observing(Interrupted(c))) else None, None)
      case Confirming(c) =>
        StepExec(w, e, w.execs[e], a) == Swap(w, e, Indeterminate, ConfirmedRecord(c), None, None)
      case _ => true
  {}

  lemma FinishKeeps(w: World, e: nat, a: Answer)
    requires Inv(w) && e in w.execs && w.execs[e].Finishing?
    ensures Inv(StepExec(w, e, w.execs[e], a))
  {
    SwapStepIs(w, e, a);
    var Finishing(basis, c, until) := w.execs[e];
    assert ExecOk(w, e, w.execs[e]);
    if TransitionError(w.db, Applying, c).NoError? {
      SwapBase(w, basis, c);
      VerdictHolds(w, c);
      OnlyOneWorker(w, e, basis);
    }
    SwapKeeps(w, e, Applying, c, Some(Releasing(c.source, until)), Some(Releasing(c.source, until)));
  }

  lemma InterruptKeeps(w: World, e: nat, a: Answer)
    requires Inv(w) && e in w.execs && w.execs[e].Interrupting?
    ensures Inv(StepExec(w, e, w.execs[e], a))
  {
    SwapStepIs(w, e, a);
    var c := w.execs[e].c;
    assert ExecOk(w, e, w.execs[e]);
    var c' := Interrupted(c);
    if TransitionError(w.db, Applying, c').NoError? {
      SwapBase(w, c, c');
      VerdictHolds(w, c');
      NotSentYet(w, e);
    }
    SwapKeeps(w, e, Applying, c', if Reconcilable(c') then Some(Observing(c')) else None, None);
  }

  /** A confirmed third record makes a truthful fourth. */
  lemma ConfirmVerdict(w: World, c: Change)
    requires Inv(w) && c in w.db.audit && c.state.Indeterminate? && Confirmed(w, c)
    requires TransitionError(w.db, Indeterminate, ConfirmedRecord(c)).NoError?
    ensures RecordOk(ConfirmedRecord(c)) && Follows(w.db, ConfirmedRecord(c))
    ensures StateOk(w.(db := Put(w.db, ConfirmedRecord(c))), ConfirmedRecord(c))
  {
    var c' := ConfirmedRecord(c);
    assert RecordOk(c);
    SwapBase(w, c, c');
    IndeterminateIsThird(History(w.db.audit, c.id));
    var r :| r in w.readbacks && r.id == c.id && Matches(c, r.observed)
             && ApprovedBefore(w.db.audit, r.at, c.id, c.attempt);
    assert Matches(c', r.observed);
    VerdictHolds(w, c');
  }

  lemma ConfirmKeeps(w: World, e: nat, a: Answer)
    requires Inv(w) && e in w.execs && w.execs[e].Confirming?
    ensures Inv(StepExec(w, e, w.execs[e], a))
  {
    SwapStepIs(w, e, a);
    var c := w.execs[e].c;
    assert ExecOk(w, e, w.execs[e]);
    if TransitionError(w.db, Indeterminate, ConfirmedRecord(c)).NoError? { ConfirmVerdict(w, c); }
    SwapKeeps(w, e, Indeterminate, ConfirmedRecord(c), None, None);
  }

  lemma VerdictOfRevalidation(w: World, c: Change, a: Answer)
    requires Unsent(w.sends, c.id) && Revalidate(c, a.observed, a.policyOk).Some?
    ensures VerdictOk(w, Revalidate(c, a.observed, a.policyOk).value)
    ensures SameAttempt(c, Revalidate(c, a.observed, a.policyOk).value)
  {}

  /** After the one send, the record says no more than the answer did. */
  lemma VerdictOfSend(w: World, c: Change, a: Answer, s: Sent)
    requires c.state.Applying? && s in w.sends && s.id == c.id && s.acked == Accepted(c, a)
    requires forall t | t in w.sends && t.id == c.id :: t == s
    ensures SameAttempt(c, Record(c, a))
    ensures Record(c, a).state.Applying? ==> SentAndAccepted(w.sends, c.id)
    ensures !Record(c, a).state.Applying? ==> VerdictOk(w, Record(c, a))
  {}

  lemma RevalidateKeeps(w: World, e: nat, c: Change, until: int, a: Answer)
    requires Inv(w) && e in w.execs && w.execs[e] == Claimed(c, until)
    ensures Inv(StepExec(w, e, w.execs[e], a))
  {
    assert ExecOk(w, e, w.execs[e]);
    NotSentYet(w, e);
    var w' := w.(checks := w.checks + [Check(c.id, e, c.payload, a.observed, a.policyOk, |w.db.audit|)]);
    FrameKeeps(w, w');
    var verdict := Revalidate(c, a.observed, a.policyOk);
    if verdict.Some? {
      VerdictOfRevalidation(w, c, a);
      GotoKeeps(w', e, Finishing(c, verdict.value, until));
    } else {
      GotoKeeps(w', e, Ready(c, until));
    }
  }

  /** Appending the one send of a claimed change disturbs nobody else. */
  lemma SendKeeps(w: World, e: nat, c: Change, until: int, a: Answer)
    requires Inv(w) && e in w.execs && w.execs[e] == Ready(c, until)
    ensures Inv(StepExec(w, e, w.execs[e], a))
  {
    assert ExecOk(w, e, w.execs[e]);
    var s := Sent(c.id, e, c.payload, Accepted(c, a), |w.db.audit|, a);
    SendAppended(w, e, c, s);
    AfterSendOk(w, e, c, until, a, s);
    SendStepIs(w, e, c, until, a, s);
    ReappearKeeps(w.(sends := w.sends + [s]), Gone(w, e).(sends := w.sends + [s]), e, AfterSend(c, until, a));
  }

  lemma SendAppended(w: World, e: nat, c: Change, s: Sent)
    requires Inv(w) && e < w.nextExec && Unsent(w.sends, c.id) && Undecided(w, c.id)
    requires c in w.db.audit && c.state.Applying? && c.attempt == Some(e)
    requires s.id == c.id && s.attempt == e && s.payload == c.payload && s.at == |w.db.audit|
    ensures Inv(Gone(w, e).(sends := w.sends + [s]))
  {
    GoneKeeps(w, e);
    OnlyOneWorker(w, e, c);
    AppendSend(Gone(w, e), c, s);
  }

  lemma SendStepIs(w: World, e: nat, c: Change, until: int, a: Answer, s: Sent)
    requires s == Sent(c.id, e, c.payload, Accepted(c, a), |w.db.audit|, a)
    ensures StepExec(w, e, Ready(c, until), a)
      == w.(sends := w.sends + [s], execs := w.execs[e := AfterSend(c, until, a)])
  {}

  /** Where an execution stands once the backend has answered. */
  function AfterSend(c: Change, until: int, a: Answer): Phase {
    var c' := Record(c, a); if c'.state.Applying? then Acked(c, c', until) else Finishing(c, c', until)
  }

  lemma AfterSendOk(w: World, e: nat, c: Change, until: int, a: Answer, s: Sent)
    requires ClaimOk(w, e, c, until) && Unsent(w.sends, c.id) && s.id == c.id && s.acked == Accepted(c, a)
    ensures var w1 := w.(sends := w.sends + [s]); ExecOk(w1, e, AfterSend(c, until, a))
  {
    var w1 := w.(sends := w.sends + [s]);
    assert w1.sends[|w.sends|] == s;
    VerdictOfSend(w1, c, a, s);
  }

  lemma NewSendOk(g: World, c: Change, s: Sent)
    requires RowsOk(g.db) && c in g.db.audit && c.state.Applying? && c.attempt == Some(s.attempt)
    requires s.id == c.id && s.payload == c.payload && s.at == |g.db.audit|
    requires s.attempt < g.nextExec && s.attempt !in g.execs
    ensures SendOk(g.(sends := g.sends + [s]), s)
  {
    RequestNeverChanges(g.db, c);
    assert RecordOk(c);
    assert g.db.audit[..s.at] == g.db.audit;
  }

  lemma AppendSend(g: World, c: Change, s: Sent)
    requires Inv(g) && NoWorker(g, c.id) && Unsent(g.sends, c.id) && Undecided(g, c.id)
    requires c in g.db.audit && c.state.Applying? && c.attempt == Some(s.attempt)
    requires s.id == c.id && s.payload == c.payload && s.at == |g.db.audit|
    requires s.attempt < g.nextExec && s.attempt !in g.execs
    ensures Inv(g.(sends := g.sends + [s]))
  {
    var g' := g.(sends := g.sends + [s]);
    NewSendOk(g, c, s);
    SendFrame(g.(sends := g.sends + [s]), g', s);
    forall t | t in g'.sends ensures SendOk(g', t) {
      if t in g.sends { SendFrame(g, g', t); }
    }
    forall id | id in g'.db.rows ensures StateOk(g', g'.db.rows[id]) {
      assert StateOk(g, g.db.rows[id]);
      StateAfterSend(g, g.db.rows[id], s);
    }
    forall f | f in g'.execs ensures f < g'.nextExec && ExecOk(g', f, g'.execs[f]) {
      assert ExecOk(g, f, g.execs[f]);
      ExecAfterSend(g, f, g.execs[f], s);
    }
  }

  lemma SendsAfter(sends: seq<Sent>, s: Sent, id: nat)
    ensures SentAndAccepted(sends, id) ==> SentAndAccepted(sends + [s], id)
    ensures id != s.id && Unsent(sends, id) ==> Unsent(sends + [s], id)
    ensures !Unsent(sends, id) ==> !Unsent(sends + [s], id)
    ensures id != s.id && NeverAccepted(sends, id) ==> NeverAccepted(sends + [s], id)
  {
    assert forall t | t in sends :: t in sends + [s];
  }

  lemma StateAfterSend(g: World, c: Change, s: Sent)
    requires StateOk(g, c)
    requires c.id == s.id ==> c.state.Applying? || c.state.Indeterminate? || c.state.Applied?
    ensures StateOk(g.(sends := g.sends + [s]), c)
  {
    SendsAfter(g.sends, s, c.id);
  }

  lemma ExecAfterSend(g: World, f: nat, p: Phase, s: Sent)
    requires ExecOk(g, f, p) && !WorksOn(p, s.id)
    ensures ExecOk(g.(sends := g.sends + [s]), f, p)
  {
    match p
    case Claimed(c, _) => SendsAfter(g.sends, s, c.id);
    case Ready(c, _) => SendsAfter(g.sends, s, c.id);
    case Acked(_, c, _) => SendsAfter(g.sends, s, c.id);
    case Finishing(_, c, _) => SendsAfter(g.sends, s, c.id);
    case _ =>
  }

  /** A read-back that matches, made after the approval, confirms the record. */
  lemma ReadConfirms(w: World, basis: Change, c: Change, r: ReadBack)
    requires Inv(w) && basis in w.db.audit && basis.state.Applying? && basis.attempt == c.attempt && basis.id == c.id
    requires r.id == c.id && r.at == |w.db.audit| && Matches(c, r.observed)
    ensures Confirmed(w.(readbacks := w.readbacks + [r]), c)
  {
    var w' := w.(readbacks := w.readbacks + [r]);
    assert w.db.audit[..r.at] == w.db.audit;
    assert RecordOk(basis);
    assert r in w'.readbacks;
  }

  lemma ReadBackKeeps(w: World, e: nat, basis: Change, c: Change, until: int, a: Answer)
    requires Inv(w) && e in w.execs && w.execs[e] == Acked(basis, c, until)
    ensures Inv(StepExec(w, e, w.execs[e], a))
  {
    assert ExecOk(w, e, w.execs[e]);
    var r := ReadBack(c.id, a.observed, |w.db.audit|);
    var w' := w.(readbacks := w.readbacks + [r]);
    FrameKeeps(w, w');
    VerdictOfRead(w, basis, c, a.observed, r);
    GotoKeeps(w', e, Finishing(basis, Judge(c, a.observed), until));
  }

  /** What the read-back showed is what the record says. */
  lemma VerdictOfRead(w: World, basis: Change, c: Change, observed: Option<Version>, r: ReadBack)
    requires Inv(w) && basis in w.db.audit && basis.state.Applying? && SameAttempt(basis, c)
    requires SentAndAccepted(w.sends, c.id) && r == ReadBack(c.id, observed, |w.db.audit|)
    ensures var c' := Judge(c, observed);
      SameAttempt(basis, c') && VerdictOk(w.(readbacks := w.readbacks + [r]), c')
  {
    var c' := Judge(c, observed);
    if Matches(c, observed) { ReadConfirms(w, basis, c', r); }
  }

  /** The approval an indeterminate record descends from. */
  lemma ApprovalOf(db: Db, c: Change) returns (basis: Change)
    requires RowsOk(db) && c in db.audit && c.state.Indeterminate?
    ensures basis in db.audit && basis.state.Applying? && basis.attempt == c.attempt && basis.id == c.id
  {
    var h := History(db.audit, c.id);
    HistoryMember(db.audit, c);
    HistoryOnlyOwn(db.audit, c.id);
    var i :| 0 <= i < |h| && h[i] == c;
    assert i > 0 && CanTransition(h[i - 1].state, h[i].state);
    basis := h[i - 1];
    assert basis in h;
    assert RecordOk(basis);
  }

  lemma ObserveKeeps(w: World, e: nat, c: Change, a: Answer)
    requires Inv(w) && e in w.execs && w.execs[e] == Observing(c)
    ensures Inv(StepExec(w, e, w.execs[e], a))
  {
    assert ExecOk(w, e, w.execs[e]);
    var r := ReadBack(c.id, a.observed, |w.db.audit|);
    var w' := w.(readbacks := w.readbacks + [r]);
    FrameKeeps(w, w');
    NotSentYet(w, e);
    if Matches(c, a.observed) {
      var basis := ApprovalOf(w.db, c);
      ReadConfirms(w, basis, c, r);
      GotoKeeps(w', e, Confirming(c));
    } else {
      GoneKeeps(w', e);
    }
  }

  lemma LeaseStepKeeps(w: World, e: nat, w1: World, p: Phase)
    requires Inv(w) && e in w.execs && !PostSend(w.execs[e])
    requires w1 == w.(db := w.db.(leases := w1.db.leases, clocks := w1.db.clocks), advances := w1.advances)
    requires ExecOk(w1, e, p)
    ensures Inv(Goto(w1, e, p))
  {
    FrameKeeps(w, w1);
    NotSentYet(w, e);
    GotoKeeps(w1, e, p);
  }

  lemma TakeLeaseKeeps(w: World, e: nat, source: nat, until: int, p: Phase)
    requires Inv(w) && e in w.execs && !PostSend(w.execs[e]) && ExecOk(w, e, p) && !p.Claimed? && !p.Ready?
    ensures Inv(TakeLease(w, e, source, until, p))
  {
    if LeaseFree(w.db, source, w.now) {
      var w1 := w.(db := AfterLease(w.db, source, e, until, w.now));
      assert BasisStaysUndecided(w1, p);
      ExecFrame(w, w1, e, p);
      LeaseStepKeeps(w, e, w1, p);
    } else {
      GoneKeeps(w, e);
    }
  }

  /** Which lease step an execution takes next. */
  lemma LeaseStepIs(w: World, e: nat, a: Answer)
    requires e in w.execs
    ensures match w.execs[e]
      case Leasing(c, operator) =>
        StepExec(w, e, w.execs[e], a)
        == TakeLease(w, e, c.source, w.now + APPLY_LEASE_MS, Leased(c, operator, w.now + APPLY_LEASE_MS))
      case AdvanceLeasing(source) =>
        StepExec(w, e, w.execs[e], a)
        == TakeLease(w, e, source, w.now + ADVANCE_LEASE_MS, AdvanceLeased(source, w.now + ADVANCE_LEASE_MS))
      case _ => true
  {}

  lemma LeasingKeeps(w: World, e: nat, c: Change, operator: string, a: Answer)
    requires Inv(w) && e in w.execs && w.execs[e] == Leasing(c, operator)
    ensures Inv(StepExec(w, e, w.execs[e], a))
  {
    LeasedOk(w, e, c, operator);
    TakeLeaseKeeps(w, e, c.source, w.now + APPLY_LEASE_MS, Leased(c, operator, w.now + APPLY_LEASE_MS));
    LeaseStepIs(w, e, a);
  }

  lemma AdvanceLeasingKeeps(w: World, e: nat, source: nat, a: Answer)
    requires Inv(w) && e in w.execs && w.execs[e] == AdvanceLeasing(source)
    ensures Inv(StepExec(w, e, w.execs[e], a))
  {
    TakeLeaseKeeps(w, e, source, w.now + ADVANCE_LEASE_MS, AdvanceLeased(source, w.now + ADVANCE_LEASE_MS));
    LeaseStepIs(w, e, a);
  }

  lemma LeasedOk(w: World, e: nat, c: Change, operator: string)
    requires Inv(w) && e in w.execs && w.execs[e] == Leasing(c, operator)
    ensures ExecOk(w, e, Leased(c, operator, w.now + APPLY_LEASE_MS))
  {
    assert ExecOk(w, e, w.execs[e]);
  }

  lemma ClaimKeeps(w: World, e: nat, a: Answer)
    requires Inv(w) && e in w.execs && w.execs[e].Leased?
    ensures Inv(StepExec(w, e, w.execs[e], a))
  {
    SwapStepIs(w, e, a);
    assert ExecOk(w, e, w.execs[e]);
    var Leased(c, operator, until) := w.execs[e];
    var claim := Claim(w, e, c, operator);
    ClaimRecordOk(w, e, c, operator);
    StagedSwapKeeps(w, e, c, claim, Some(Claimed(claim, until)), Some(Releasing(c.source, until)));
  }

  lemma ClaimRecordOk(w: World, e: nat, c: Change, operator: string)
    requires operator != ""
    ensures var claim := Claim(w, e, c, operator);
      SameRequest(c, claim) && RecordOk(claim) && claim.state.Applying?
      && claim.attempt == Some(e) && claim.approvedAt == Some(w.now)
  {}

  lemma WithdrawKeeps(w: World, e: nat, a: Answer)
    requires Inv(w) && e in w.execs && (w.execs[e].Expiring? || w.execs[e].Discarding?)
    ensures Inv(StepExec(w, e, w.execs[e], a))
  {
    SwapStepIs(w, e, a);
    assert ExecOk(w, e, w.execs[e]);
    var c := w.execs[e].c;
    WithdrawnOk(w.db, c);
    StagedSwapKeeps(w, e, c, c.(state := if w.execs[e].Expiring? then Expired else Discarded), None, None);
  }

  lemma WithdrawnOk(db: Db, c: Change)
    requires RowsOk(db) && c in db.audit && c.state.Staged?
    ensures RecordOk(c.(state := Expired)) && RecordOk(c.(state := Discarded))
  {
    assert RecordOk(c);
  }

  /** Advance steps touch clocks and the advance log only. */
  lemma AdvanceStepIs(w: World, e: nat, a: Answer) returns (w1: World, p: Phase)
    requires e in w.execs && (w.execs[e].AdvanceLeased? || w.execs[e].AdvanceLoaded?)
    ensures StepExec(w, e, w.execs[e], a) == Goto(w1, e, p) && (p.AdvanceLoaded? || p.Releasing?)
    ensures w1 == w.(db := w.db.(leases := w1.db.leases, clocks := w1.db.clocks), advances := w1.advances)
  {
    var w' := StepExec(w, e, w.execs[e], a);
    w1, p := w'.(execs := w.execs), w'.execs[e];
  }

  lemma AdvanceStepKeeps(w: World, e: nat, a: Answer)
    requires Inv(w) && e in w.execs && (w.execs[e].AdvanceLeased? || w.execs[e].AdvanceLoaded?)
    ensures Inv(StepExec(w, e, w.execs[e], a))
  {
    var w1, p := AdvanceStepIs(w, e, a);
    LeaseStepKeeps(w, e, w1, p);
  }

  lemma ReleaseKeeps(w: World, e: nat, a: Answer)
    requires Inv(w) && e in w.execs && w.execs[e].Releasing?
    ensures Inv(StepExec(w, e, w.execs[e], a))
  {
    FrameKeeps(w, StepExec(w, e, w.execs[e], a));
  }

  lemma StepKeeps(w: World, e: nat, a: Answer)
    requires Inv(w) && e in w.execs
    ensures Inv(StepExec(w, e, w.execs[e], a))
  {
    match w.execs[e]
    case Claimed(c, until) => RevalidateKeeps(w, e, c, until, a);
    case Ready(c, until) => SendKeeps(w, e, c, until, a);
    case Acked(basis, c, until) => ReadBackKeeps(w, e, basis, c, until, a);
    case Finishing(basis, c, until) => FinishKeeps(w, e, a);
    case Interrupting(c) => InterruptKeeps(w, e, a);
    case Observing(c) => ObserveKeeps(w, e, c, a);
    case Confirming(c) => ConfirmKeeps(w, e, a);
    case Expiring(_) => WithdrawKeeps(w, e, a);
    case Discarding(_) => WithdrawKeeps(w, e, a);
    case Leased(_, _, _) => ClaimKeeps(w, e, a);
    case Releasing(_, _) => ReleaseKeeps(w, e, a);
    case Leasing(c, operator) => LeasingKeeps(w, e, c, operator, a);
    case AdvanceLeasing(source) => AdvanceLeasingKeeps(w, e, source, a);
    case _ => AdvanceStepKeeps(w, e, a);
  }

  lemma StageKeeps(w: World, c: Change)
    requires Inv(w) && Draft(c) && c.id !in w.db.rows
    ensures Inv(w.(db := Put(w.db, c)))
  {
    forall f | f in w.execs ensures !WorksOn(w.execs[f], c.id) { assert ExecOk(w, f, w.execs[f]); }
    forall s | s in w.sends ensures s.id != c.id { assert SendOk(w, s); }
    PutKeeps(w, c);
  }

  /** A call that passes its checks starts from the row it read. */
  lemma BeginIs(w: World, l: Label) returns (p: Option<Phase>, id: nat)
    requires l.BeginApply? || l.BeginReconcile? || l.BeginDiscard?
    ensures Next(w, l) == if p.Some? then Spawn(w, p.value) else w
    ensures p.Some? ==> id in w.db.rows
    ensures p.Some? && w.db.rows[id] in w.db.audit ==> ExecOk(w, w.nextExec, p.value)
  {
    if Next(w, l) == w { return None, 0; }
    id := l.id;
    p := Some(Next(w, l).execs[w.nextExec]);
  }

  lemma BeginKeeps(w: World, l: Label)
    requires Inv(w) && (l.BeginApply? || l.BeginReconcile? || l.BeginDiscard?)
    ensures Inv(Next(w, l))
  {
    var p, id := BeginIs(w, l);
    if p.Some? {
      RowInAudit(w.db, id);
      SpawnKeeps(w, p.value);
    }
  }

  lemma GotoReleasing(w: World, e: nat, section: (nat, int))
    requires Inv(w) && e in w.execs
    ensures Inv(Goto(w, e, Releasing(section.0, section.1)))
  {
    GotoKeeps(w, e, Releasing(section.0, section.1));
  }

  lemma ReturnIs(w: World, e: nat)
    requires e in w.execs
    ensures Next(w, Return(e)) ==
      match Section(w.execs[e])
      case None => Gone(w, e)
      case Some(section) => Goto(w, e, Releasing(section.0, section.1))
  {}

  lemma ReturnKeeps(w: World, e: nat)
    requires Inv(w) && e in w.execs
    ensures Inv(Next(w, Return(e)))
  {
    ReturnIs(w, e);
    var section := Section(w.execs[e]);
    if section.None? { GoneKeeps(w, e); } else { GotoReleasing(w, e, section.value); }
  }

  lemma NextKeeps(w: World, l: Label)
    requires Inv(w)
    ensures Inv(Next(w, l))
  {
    match l
    case Tick(ms) => FrameKeeps(w, Next(w, l));
    case Stage(c) => if Draft(c) && c.id !in w.db.rows { StageKeeps(w, c); }
    case BeginApply(_, _, _, _, _) => BeginKeeps(w, l);
    case BeginReconcile(_, _, _) => BeginKeeps(w, l);
    case BeginDiscard(_, _) => BeginKeeps(w, l);
    case BeginAdvance(source) => SpawnKeeps(w, AdvanceLeasing(source));
    case Step(e, a) => if e in w.execs { StepKeeps(w, e, a); }
    case Return(e) => if e in w.execs { ReturnKeeps(w, e); }
    case Crash(e) => GoneKeeps(w, e);
  }
}
