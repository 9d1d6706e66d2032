/** The change, audit, lease and clock tables (internal/store/store.go). Each SQL transaction
    is one atomic step on these maps. Times are milliseconds; leases keep whole seconds. */
module ChangeStore {
  import opened ChangeRecords

  datatype LeaseRow = LeaseRow(owner: nat, untilUnix: int)

  datatype Db = Db(
    rows: map<nat, Change>, audit: seq<Change>, leases: map<nat, LeaseRow>, clocks: map<nat, int>)

  datatype StoreError = NoError | DuplicateChange | IllegalTransition | StateConflict | Busy | ClockConflict

  function Unix(t: int): int { t / 1000 }

  function Put(db: Db, c: Change): Db {
    db.(rows := db.rows[c.id := c], audit := db.audit + [c])
  }

  function InsertError(db: Db, c: Change): StoreError {
    if c.id in db.rows then DuplicateChange else NoError
  }

  /** The swap condition looks at the state column and nothing else. */
  function TransitionError(db: Db, from: ChangeState, c: Change): StoreError {
    if !CanTransition(from, c.state) then IllegalTransition
    else if c.id !in db.rows || db.rows[c.id].state != from then StateConflict
    else NoError
  }

  function AfterTransition(db: Db, from: ChangeState, c: Change): Db {
    if TransitionError(db, from, c).NoError? then Put(db, c) else db
  }

  /** A lease row is taken when absent, or when its last second lies strictly in the past. */
  predicate LeaseFree(db: Db, key: nat, now: int) {
    key !in db.leases || db.leases[key].untilUnix < Unix(now)
  }

  function AfterLease(db: Db, key: nat, owner: nat, until: int, now: int): Db {
    if LeaseFree(db, key, now) then db.(leases := db.leases[key := LeaseRow(owner, Unix(until))]) else db
  }

  function AfterRelease(db: Db, key: nat, owner: nat): Db {
    if key in db.leases && db.leases[key].owner == owner then db.(leases := db.leases - {key}) else db
  }

  /** A first advance inserts its clock unconditionally; later ones compare and swap. */
  function ClockError(db: Db, key: nat, previous: int): StoreError {
    if key in db.clocks && db.clocks[key] != previous then ClockConflict else NoError
  }

  function AfterAdvance(db: Db, key: nat, previous: int, current: int): Db {
    if ClockError(db, key, previous).NoError? then db.(clocks := db.clocks[key := current]) else db
  }

  class Store {
    var changes: map<nat, Change>
    var audit: seq<Change>
    var leases: map<nat, LeaseRow>
    var clocks: map<nat, int>

    function Tables(): Db reads this { Db(changes, audit, leases, clocks) }

    constructor ()
      ensures Tables() == Db(map[], [], map[], map[])
    {
      changes, audit, leases, clocks := map[], [], map[], map[];
    }

    method InsertChange(c: Change) returns (err: StoreError)
      modifies this
      ensures err == InsertError(old(Tables()), c)
      ensures Tables() == if err.NoError? then Put(old(Tables()), c) else old(Tables())
    {
      if c.id in changes { return DuplicateChange; }
      changes := changes[c.id := c];
      audit := audit + [c];
      err := NoError;
    }

    method Transition(from: ChangeState, c: Change) returns (err: StoreError)
      modifies this
      ensures err == TransitionError(old(Tables()), from, c)
      ensures Tables() == AfterTransition(old(Tables()), from, c)
      // A refused call changes nothing; a successful one moves the named row alone.
      ensures !err.NoError? ==> unchanged(this)
      ensures forall id | id in changes && id != c.id :: id in old(changes) && changes[id] == old(changes)[id]
    {
      if !CanTransition(from, c.state) { return IllegalTransition; }
      var updated := 0;
      if c.id in changes && changes[c.id].state == from {
        changes := changes[c.id := c];
        updated := 1;
      }
      if updated != 1 { return StateConflict; }
      audit := audit + [c];
      err := NoError;
    }

    method Lease(key: nat, owner: nat, until: int, now: int) returns (err: StoreError)
      modifies this
      ensures err == if LeaseFree(old(Tables()), key, now) then NoError else Busy
      ensures Tables() == AfterLease(old(Tables()), key, owner, until, now)
    {
      if key in leases && leases[key].untilUnix >= Unix(now) { return Busy; }
      leases := leases[key := LeaseRow(owner, Unix(until))];
      err := NoError;
    }

    method Release(key: nat, owner: nat)
      modifies this
      ensures Tables() == AfterRelease(old(Tables()), key, owner)
      // A stale owner's release never frees its successor's lease.
      ensures key in old(leases) && old(leases)[key].owner != owner ==> unchanged(this)
    {
      if key in leases && leases[key].owner == owner {
        leases := leases - {key};
      }
    }

    method SaveSandboxAdvance(key: nat, previous: int, current: int) returns (err: StoreError)
      modifies this
      ensures err == ClockError(old(Tables()), key, previous)
      ensures Tables() == AfterAdvance(old(Tables()), key, previous, current)
    {
      if key in clocks && clocks[key] != previous { return ClockConflict; }
      clocks := clocks[key := current];
      err := NoError;
    }
  }
}
