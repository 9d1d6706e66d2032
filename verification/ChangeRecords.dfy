/** Change records and the legal moves between their states (internal/ads/changes.go). */
module ChangeRecords {
  import opened Options

  datatype ChangeState =
    | Staged | Applying | Applied | Discarded | Expired | Failed | Indeterminate

  predicate CanTransition(from: ChangeState, to: ChangeState) {
    match from
    case Staged => to.Applying? || to.Discarded? || to.Expired?
    case Applying => to.Applied? || to.Failed? || to.Indeterminate? || to.Expired?
    case Indeterminate => to.Applied? || to.Failed?
    case _ => false
  }

  /** Where a state stands in the move graph; every legal move climbs. */
  function Rank(s: ChangeState): nat {
    match s
    case Staged => 0
    case Applying => 1
    case Indeterminate => 2
    case _ => 3
  }

  /** `Entity.Version()` hashes the whole entity; equal versions mean equal entities. */
  type Version = nat

  /** What was asked for. `None` stands for a nil pointer in the stored record. */
  datatype Payload =
    | Write(before: Option<Version>, after: Option<Version>)
    | Create(spec: Option<Version>, parent: Option<Version>)
    | Operation(plan: Option<Version>)

  datatype Outcome = NotSent | Rejected | Acknowledged | Partial | Unknown

  datatype Change = Change(
    id: nat, session: nat, source: nat, payload: Payload, expiresAt: int,
    state: ChangeState,
    approvedAt: Option<int>, approvedBy: string, attempt: Option<nat>,
    outcome: Option<Outcome>, created: Option<Version>, note: string)

  /** A record as the staging calls build it. */
  predicate Draft(c: Change) {
    && c.state.Staged? && c.approvedAt.None? && c.approvedBy == "" && c.attempt.None?
    && c.outcome.None? && c.created.None?
  }

  /** The fields a caller asked for, as opposed to those the change service fills in. */
  predicate SameRequest(a: Change, b: Change) {
    && a.id == b.id && a.session == b.session && a.source == b.source
    && a.payload == b.payload && a.expiresAt == b.expiresAt
  }

  /** What a read-back has to observe before a change may be called applied. */
  function Wanted(c: Change): Option<Version> {
    match c.payload
    case Write(_, after) => after
    case Create(_, _) => c.created
    case Operation(plan) => plan
  }

  /** One change's audit records, oldest first. */
  function History(audit: seq<Change>, id: nat): seq<Change> {
    if audit == [] then []
    else
      var last := audit[|audit| - 1];
      History(audit[..|audit| - 1], id) + if last.id == id then [last] else []
  }

  /** A path that starts with a draft and only makes legal moves of one request. */
  predicate LegalPath(h: seq<Change>) {
    && h != [] && Draft(h[0])
    && forall i | 0 < i < |h| ::
      CanTransition(h[i - 1].state, h[i].state) && SameRequest(h[i - 1], h[i])
  }

  lemma HistorySnoc(audit: seq<Change>, c: Change, id: nat)
    ensures History(audit + [c], id) == History(audit, id) + if c.id == id then [c] else []
  {
    assert (audit + [c])[..|audit|] == audit;
  }

  lemma {:induction false} HistoryMember(audit: seq<Change>, c: Change)
    requires c in audit
    ensures c in History(audit, c.id)
  {
    var n := |audit| - 1;
    if c != audit[n] {
      HistoryMember(audit[..n], c);
    }
  }

  lemma {:induction false} HistoryOnlyOwn(audit: seq<Change>, id: nat)
    ensures forall c | c in History(audit, id) :: c.id == id && c in audit
  {
    if audit != [] {
      HistoryOnlyOwn(audit[..|audit| - 1], id);
    }
  }

  /** Along a legal path the rank climbs, so each state is visited at most once. */
  lemma {:induction false} PathClimbs(h: seq<Change>, i: nat, j: nat)
    requires LegalPath(h) && i < j < |h|
    ensures Rank(h[i].state) + (j - i) <= Rank(h[j].state) && SameRequest(h[i], h[j])
  {
    if i + 1 < j {
      PathClimbs(h, i, j - 1);
    }
    assert CanTransition(h[j - 1].state, h[j].state) && SameRequest(h[j - 1], h[j]);
  }

  /** No change is moved more than three times. */
  lemma PathIsShort(h: seq<Change>)
    requires LegalPath(h)
    ensures |h| <= 4
    ensures forall i, j | 0 <= i < j < |h| :: h[i].state != h[j].state
  {
    forall i, j | 0 <= i < j < |h| ensures h[i].state != h[j].state {
      PathClimbs(h, i, j);
    }
    if |h| > 1 { PathClimbs(h, 0, |h| - 1); }
  }

  /** On a legal path the state alone tells which record it was. */
  lemma StateNamesRecord(h: seq<Change>, a: Change, b: Change)
    requires LegalPath(h) && a in h && b in h && a.state == b.state
    ensures a == b
  {
    var i :| 0 <= i < |h| && h[i] == a;
    var j :| 0 <= j < |h| && h[j] == b;
    PathIsShort(h);
  }
}
