/**
 The `intakes` table of the marketing site and the statements that write it.

 Each function below is one SQL statement (or one atomic batch) applied to the
 whole table. UUIDs are numbered in the order they are drawn, so a fresh lease
 is a number that no earlier claim received; times are milliseconds.
 */
module IntakeTable {
  import opened Prelude

  type Id = nat
  type Lease = nat

  const DELIVERY_LEASE_MS := 10 * 60 * 1000
  const WORKER_FRESH_MS := 10 * 60 * 1000
  const BLOCKED_AFTER_MS := 30 * 60 * 1000
  const MAX_ATTEMPTS := 12
  const RATE_WINDOW_MS := 3600000
  const RATE_LIMIT := 5
  const RETENTION_MS := 90 * 86400000

  datatype Payload = Payload(company: string, email: string, application: string, message: string)

  datatype Status = Pending | Processing | Retry | Accepted | Uncertain
  datatype Fault = NoFault | AttemptLimit | AcceptanceUnknown | LocalRejected
  datatype Outcome = OutcomeAccepted | OutcomeRetry | OutcomeUncertain

  datatype Row = Row(
    payload: Payload, created: int, ipHash: nat,
    status: Status, attempts: nat, nextAttempt: int,
    token: Option<Lease>, leaseUntil: Option<int>, acceptedAt: Option<int>, fault: Fault)

  datatype Job = Job(id: Id, payload: Payload, attempt: nat, lease: Lease)

  type Table = map<Id, Row>

  function StatusOf(o: Outcome): Status {
    match o
    case OutcomeAccepted => Accepted
    case OutcomeRetry => Retry
    case OutcomeUncertain => Uncertain
  }

  /** `60000 * (1 << MIN(attempts, 6))`, capped at one hour. */
  function Backoff(attempts: nat): int {
    var shifted := 60000 * Shift(if attempts < 6 then attempts else 6);
    if shifted < 3600000 then shifted else 3600000
  }

  function Shift(n: nat): nat {
    if n == 0 then 1 else 2 * Shift(n - 1)
  }

  /** After a first claim the delay lies between two minutes and one hour and never shrinks. */
  lemma {:induction false} BackoffBounds(a: nat, b: nat)
    requires 1 <= a <= b
    ensures 120000 <= Backoff(a) <= Backoff(b) <= 3600000
  {
    ShiftMonotone(1, if a < 6 then a else 6);
    ShiftMonotone(if a < 6 then a else 6, if b < 6 then b else 6);
  }

  /** The delay starts at two minutes and doubles with every refused send, up to an hour. */
  lemma BackoffDoubles(a: nat)
    requires 1 <= a
    ensures Backoff(1) == 120000
    ensures Backoff(a + 1) == if 2 * Backoff(a) < 3600000 then 2 * Backoff(a) else 3600000
  {
    assert Shift(6) == 64;
    if a < 6 {
      assert Shift(a + 1) == 2 * Shift(a);
    }
  }

  lemma {:induction false} ShiftMonotone(a: nat, b: nat)
    requires a <= b
    ensures Shift(a) <= Shift(b)
    decreases b
  {
    if a < b {
      ShiftMonotone(a, b - 1);
    }
  }

  // ---- claimIntake ----

  /** Second statement of the batch: exhausted rows whose lease is over need a person. */
  function ExhaustedRow(row: Row, now: int): Row {
    if row.attempts >= MAX_ATTEMPTS && row.status in {Pending, Retry, Processing}
       && (row.leaseUntil.None? || row.leaseUntil.value <= now)
    then row.(status := Uncertain, leaseUntil := None, fault := AttemptLimit)
    else row
  }

  function Exhaust(rows: Table, now: int): Table {
    map id | id in rows :: ExhaustedRow(rows[id], now)
  }

  predicate Eligible(row: Row, now: int) {
    && row.attempts < MAX_ATTEMPTS
    && (|| (row.status in {Pending, Retry} && row.nextAttempt <= now)
        || (row.status == Processing && row.leaseUntil.Some? && row.leaseUntil.value <= now))
  }

  /** `ORDER BY created_at, id`. */
  predicate Before(rows: Table, a: Id, b: Id)
    requires a in rows && b in rows
  {
    rows[a].created < rows[b].created || (rows[a].created == rows[b].created && a <= b)
  }

  /** `id` is the row the claim selects. */
  ghost predicate Selected(rows: Table, now: int, id: Id) {
    && id in rows && Eligible(rows[id], now)
    && forall other :: other in rows && Eligible(rows[other], now) ==> Before(rows, id, other)
  }

  ghost predicate Selection(rows: Table, now: int, pick: Option<Id>) {
    match pick
    case Some(id) => Selected(rows, now, id)
    case None => forall id :: id in rows ==> !Eligible(rows[id], now)
  }

  function ClaimedRow(row: Row, lease: Lease, now: int): Row {
    row.(status := Processing, token := Some(lease), leaseUntil := Some(now + DELIVERY_LEASE_MS),
         attempts := row.attempts + 1)
  }

  /** The table after the whole claim batch, given the row it selected. */
  function Claimed(rows: Table, lease: Lease, now: int, pick: Option<Id>): Table
    requires pick.Some? ==> pick.value in rows
  {
    var swept := Exhaust(rows, now);
    if pick.None? then swept
    else swept[pick.value := ClaimedRow(swept[pick.value], lease, now)]
  }

  // ---- acknowledgeIntake ----

  predicate AckMatches(row: Row, lease: Lease, o: Outcome) {
    && row.token == Some(lease)
    && (row.status == Processing ||
        (row.status == Uncertain && row.fault == AttemptLimit && o == OutcomeAccepted))
  }

  function AckedRow(row: Row, o: Outcome, now: int): Row {
    row.(status := StatusOf(o),
         acceptedAt := if o == OutcomeAccepted then Some(now) else row.acceptedAt,
         nextAttempt := now + Backoff(row.attempts),
         leaseUntil := None,
         fault := match o case OutcomeAccepted => NoFault
                          case OutcomeUncertain => AcceptanceUnknown
                          case OutcomeRetry => LocalRejected)
  }

  function Acked(rows: Table, id: Id, lease: Lease, o: Outcome, now: int): Table {
    if id in rows && AckMatches(rows[id], lease, o) then rows[id := AckedRow(rows[id], o, now)] else rows
  }

  /** The Boolean the endpoint answers: changed now, or already in the requested state under this lease. */
  predicate AckConfirmed(rows: Table, id: Id, lease: Lease, o: Outcome) {
    id in rows &&
    (AckMatches(rows[id], lease, o) || (rows[id].status == StatusOf(o) && rows[id].token == Some(lease)))
  }

  // ---- the intake form ----

  predicate Removable(row: Row, now: int) {
    row.status == Accepted && row.acceptedAt.Some? && row.acceptedAt.value < now - RETENTION_MS
  }

  function Cleaned(rows: Table, now: int): Table {
    map id | id in rows && !Removable(rows[id], now) :: rows[id]
  }

  /** Stored rows of one sender created after `since`. */
  function Recent(rows: Table, ipHash: nat, since: int): set<Id> {
    set id | id in rows && rows[id].ipHash == ipHash && rows[id].created > since
  }

  predicate InsertAllowed(rows: Table, id: Id, ipHash: nat, now: int) {
    id !in rows && |Recent(rows, ipHash, now - RATE_WINDOW_MS)| < RATE_LIMIT
  }

  function NewRow(payload: Payload, ipHash: nat, now: int): Row {
    Row(payload, now, ipHash, Pending, 0, 0, None, None, None, NoFault)
  }

  /** `INSERT OR IGNORE ... WHERE (count of recent rows) < 5`. */
  function Inserted(rows: Table, id: Id, payload: Payload, ipHash: nat, now: int): Table {
    if InsertAllowed(rows, id, ipHash, now) then rows[id := NewRow(payload, ipHash, now)] else rows
  }

  /** `workerReady`: a fresh heartbeat, and no row that is uncertain or unaccepted for half an hour. */
  predicate Ready(rows: Table, lastSeen: Option<int>, now: int) {
    && lastSeen.Some? && lastSeen.value >= now - WORKER_FRESH_MS
    && forall id :: id in rows ==>
         !(rows[id].status == Uncertain ||
           (rows[id].status != Accepted && rows[id].created < now - BLOCKED_AFTER_MS))
  }

  // ---- the sender's rate limit ----

  /** Stored rows of one sender whose creation time lies in `[start, start + one hour)`. */
  function InWindow(rows: Table, ipHash: nat, start: int): set<Id> {
    set id | id in rows && rows[id].ipHash == ipHash && start <= rows[id].created < start + RATE_WINDOW_MS
  }

  ghost predicate RateBounded(rows: Table) {
    forall ipHash, start :: |InWindow(rows, ipHash, start)| <= RATE_LIMIT
  }

  /**
   An insert keeps every one-hour window at five rows or fewer, whatever creation
   times the other rows carry: requests may commit in any order.
   */
  lemma InsertKeepsRate(rows: Table, id: Id, payload: Payload, ipHash: nat, now: int)
    requires RateBounded(rows)
    ensures RateBounded(Inserted(rows, id, payload, ipHash, now))
  {
    forall h, start ensures |InWindow(Inserted(rows, id, payload, ipHash, now), h, start)| <= RATE_LIMIT {
      assert |InWindow(rows, h, start)| <= RATE_LIMIT;
      if InsertAllowed(rows, id, ipHash, now) {
        WindowAfterInsert(rows, id, payload, ipHash, now, h, start);
      }
    }
  }

  /** A window gains the new row only if the recent rows, which hold all its others, number fewer than five. */
  lemma WindowAfterInsert(rows: Table, id: Id, payload: Payload, ipHash: nat, now: int, h: nat, start: int)
    requires InsertAllowed(rows, id, ipHash, now) && |InWindow(rows, h, start)| <= RATE_LIMIT
    ensures |InWindow(rows[id := NewRow(payload, ipHash, now)], h, start)| <= RATE_LIMIT
  {
    var after := rows[id := NewRow(payload, ipHash, now)];
    if h == ipHash && start <= now < start + RATE_WINDOW_MS {
      assert InWindow(after, h, start) == InWindow(rows, h, start) + {id};
      SubsetSize(InWindow(rows, h, start), Recent(rows, h, now - RATE_WINDOW_MS));
    } else {
      assert InWindow(after, h, start) == InWindow(rows, h, start);
    }
  }

  /** A write that drops rows or leaves sender and creation time alone keeps the windows bounded. */
  lemma ShrinkKeepsRate(rows: Table, after: Table)
    requires RateBounded(rows)
    requires forall id :: id in after ==>
             id in rows && after[id].ipHash == rows[id].ipHash && after[id].created == rows[id].created
    ensures RateBounded(after)
  {
    forall h, start ensures |InWindow(after, h, start)| <= RATE_LIMIT {
      SubsetSize(InWindow(after, h, start), InWindow(rows, h, start));
    }
  }

  /** Another handler's insert of the same id. */
  datatype Rival = Rival(payload: Payload, ipHash: nat, at: int)

  function WithRival(rows: Table, id: Id, rival: Option<Rival>): Table {
    if rival.Some? then Inserted(rows, id, rival.value.payload, rival.value.ipHash, rival.value.at) else rows
  }

  lemma RivalKeepsRate(rows: Table, id: Id, rival: Option<Rival>)
    requires RateBounded(rows)
    ensures RateBounded(WithRival(rows, id, rival))
  {
    if rival.Some? {
      InsertKeepsRate(rows, id, rival.value.payload, rival.value.ipHash, rival.value.at);
    }
  }

  // ---- what the endpoints promise, apart from their statements ----

  /** When the worker may have the row: at its next attempt, or once the lease on it is over. */
  ghost function DueAt(row: Row): Option<int> {
    match row.status
    case Pending => Some(row.nextAttempt)
    case Retry => Some(row.nextAttempt)
    case Processing => row.leaseUntil
    case _ => None
  }

  ghost predicate Waiting(row: Row, now: int) {
    row.attempts < 12 && DueAt(row).Some? && DueAt(row).value <= now
  }

  /** Twelve attempts were made, none succeeded, and no lease is running. */
  ghost predicate UsedUp(row: Row, now: int) {
    row.attempts >= 12 && !row.status.Accepted? && !row.status.Uncertain?
    && (row.leaseUntil.Some? ==> row.leaseUntil.value <= now)
  }

  /** Five intakes of a sender within the last hour refuse a sixth, and nothing less refuses a new one. */
  lemma FiveRefuseTheSixth(rows: Table, id: Id, ipHash: nat, now: int, lastHour: set<Id>)
    requires forall k :: k in lastHour <==> k in rows && rows[k].ipHash == ipHash && now - rows[k].created < 3600000
    ensures id !in rows ==> (InsertAllowed(rows, id, ipHash, now) <==> |lastHour| <= 4)
    ensures id in rows ==> !InsertAllowed(rows, id, ipHash, now)
  {
    assert Recent(rows, ipHash, now - 3600000) == lastHour;
  }

  /** Clean-up takes exactly the intakes accepted more than ninety days ago, and leaves the others as they are. */
  lemma CleanupTakesOldOnes(rows: Table, now: int, id: Id)
    requires id in rows
    ensures id in Cleaned(rows, now) || (rows[id].status == Accepted && rows[id].acceptedAt.Some?
                                         && now - rows[id].acceptedAt.value > 90 * 24 * 3600 * 1000)
    ensures id in Cleaned(rows, now) ==>
              && Cleaned(rows, now)[id] == rows[id]
              && (rows[id].status == Accepted && rows[id].acceptedAt.Some? ==>
                    now - rows[id].acceptedAt.value <= 90 * 24 * 3600 * 1000)
  {
  }

  /** The database object the worker API and the form share. */
  class IntakeDb {
    var rows: Table
    var lastSeen: Option<int>

    constructor ()
      ensures rows == map[] && lastSeen == None
    {
      rows, lastSeen := map[], None;
    }

    /** Scans the table for the least eligible row. */
    method Select(now: int) returns (pick: Option<Id>)
      ensures Selection(rows, now, pick)
    {
      pick := None;
      var todo := rows.Keys;
      while todo != {}
        invariant todo <= rows.Keys
        invariant pick.Some? ==> pick.value in rows && Eligible(rows[pick.value], now)
        invariant forall id :: id in rows && id !in todo && Eligible(rows[id], now) ==>
                    pick.Some? && Before(rows, pick.value, id)
        decreases todo
      {
        var id :| id in todo;
        if Eligible(rows[id], now) && (pick.None? || Before(rows, id, pick.value)) {
          pick := Some(id);
        }
        todo := todo - {id};
      }
    }

    method Claim(lease: Lease, now: int) returns (job: Option<Job>)
      modifies this
      ensures lastSeen == Some(now)
      ensures exists pick ::
                && Selection(old(rows), now, pick)
                && rows == Claimed(old(rows), lease, now, pick)
                && (pick.None? ==> job == None)
                && (pick.Some? ==> job == Some(Job(pick.value, old(rows)[pick.value].payload,
                                                   old(rows)[pick.value].attempts + 1, lease)))
      // The row claimed was due and no older row was; it is leased for ten minutes.
      ensures job.Some? ==>
                var id := job.value.id;
                && id in old(rows) && Waiting(old(rows)[id], now) && rows.Keys == old(rows).Keys
                && (forall k :: k in old(rows) && Waiting(old(rows)[k], now) ==>
                      old(rows)[id].created < old(rows)[k].created
                          || (old(rows)[id].created == old(rows)[k].created && id <= k))
                && rows[id] == old(rows)[id].(status := Processing, token := Some(lease),
                                              leaseUntil := Some(now + 600000),
                                              attempts := old(rows)[id].attempts + 1)
      ensures job.None? ==> rows.Keys == old(rows).Keys && forall k :: k in old(rows) ==> !Waiting(old(rows)[k], now)
      // Any other row stays, but for those whose twelve attempts are used up.
      ensures forall k :: k in old(rows) && (job.None? || job.value.id != k) ==>
                rows[k] == if UsedUp(old(rows)[k], now)
                           then old(rows)[k].(status := Uncertain, leaseUntil := None, fault := AttemptLimit)
                           else old(rows)[k]
    {
      lastSeen := Some(now);
      ghost var before := rows;
      rows := map id | id in rows :: ExhaustedRow(rows[id], now);
      var pick := Select(now);
      ghost var swept := rows;
      assert Selection(before, now, pick) by { SweepKeepsSelection(before, now, pick); }
      if pick.Some? {
        var row := rows[pick.value];
        rows := rows[pick.value := ClaimedRow(row, lease, now)];
        job := Some(Job(pick.value, row.payload, row.attempts + 1, lease));
      } else {
        job := None;
      }
    }

    method Acknowledge(id: Id, lease: Lease, o: Outcome, now: int) returns (confirmed: bool)
      modifies this`rows
      ensures rows == Acked(old(rows), id, lease, o, now)
      ensures confirmed == AckConfirmed(old(rows), id, lease, o)
      // Under the row's lease an outcome takes effect once; a late "accepted" also after the attempts ran out.
      ensures rows.Keys == old(rows).Keys && forall k :: k in rows && k != id ==> rows[k] == old(rows)[k]
      ensures id in old(rows) && old(rows)[id].token == Some(lease)
              && (old(rows)[id].status == Processing || (o == OutcomeAccepted && old(rows)[id].fault == AttemptLimit
                                                         && old(rows)[id].status == Uncertain)) ==>
                && confirmed && rows[id].leaseUntil == None
                && rows[id].nextAttempt == now + Backoff(old(rows)[id].attempts)
                && (o == OutcomeAccepted ==> rows[id].status == Accepted && rows[id].acceptedAt == Some(now)
                                             && rows[id].fault == NoFault)
                && (o == OutcomeRetry ==> rows[id].status == Retry && rows[id].fault == LocalRejected)
                && (o == OutcomeUncertain ==> rows[id].status == Uncertain && rows[id].fault == AcceptanceUnknown)
                && rows[id].token == Some(lease) && rows[id].attempts == old(rows)[id].attempts
                && rows[id].payload == old(rows)[id].payload && rows[id].created == old(rows)[id].created
                && rows[id].ipHash == old(rows)[id].ipHash
      ensures id in old(rows) && (old(rows)[id].token != Some(lease)
                                  || old(rows)[id].status in {Pending, Retry, Accepted}
                                  || (old(rows)[id].status == Uncertain
                                      && !(o == OutcomeAccepted && old(rows)[id].fault == AttemptLimit))) ==>
                && rows == old(rows)
                && (confirmed <==> old(rows)[id].token == Some(lease) && match o
                                   case OutcomeAccepted => old(rows)[id].status == Accepted
                                   case OutcomeRetry => old(rows)[id].status == Retry
                                   case OutcomeUncertain => old(rows)[id].status == Uncertain)
      ensures id !in old(rows) ==> !confirmed && rows == old(rows)
    {
      if id in rows && AckMatches(rows[id], lease, o) {
        rows := rows[id := AckedRow(rows[id], o, now)];
        return true;
      }
      confirmed := id in rows && rows[id].status == StatusOf(o) && rows[id].token == Some(lease);
    }

    /**
     The form handler. `rival` is a request with the same id that another handler
     may insert before this one's insert runs. Whatever the answer, no stored intake
     changes and only accepted rows past retention disappear; a success answer
     means this very payload is stored under the id.
     */
    method Post(id: Id, payload: Payload, ipHash: nat, now: int, rival: Option<Rival>) returns (code: nat)
      modifies this`rows
      ensures var kept := Cleaned(old(rows), now);
              var met := if id in kept || !Ready(kept, lastSeen, now) then kept else WithRival(kept, id, rival);
              && (code == 200 <==> id in met && met[id].payload == payload)
              && (code == 409 <==> id in met && met[id].payload != payload)
              && (code == 503 <==> id !in kept && !Ready(kept, lastSeen, now))
              && (code == 201 <==> Ready(kept, lastSeen, now) && InsertAllowed(met, id, ipHash, now))
              && code in {200, 201, 409, 429, 503}
              && rows == if code == 201 then met[id := NewRow(payload, ipHash, now)] else met
      ensures code in {200, 201} ==> id in rows && rows[id].payload == payload
      // A new intake waits for the worker from now on.
      ensures code == 201 ==> rows[id] == Row(payload, now, ipHash, Pending, 0, 0, None, None, None, NoFault)
      ensures old(RateBounded(rows)) ==> RateBounded(rows)
    {
      rows := map k | k in rows && !Removable(rows[k], now) :: rows[k];
      ghost var cleaned := rows;
      if old(RateBounded(rows)) {
        ShrinkKeepsRate(old(rows), cleaned);
      }
      if id in rows {
        return if rows[id].payload == payload then 200 else 409;
      }
      var ready := CheckReady(now);
      if !ready {
        return 503;
      }
      if old(RateBounded(rows)) {
        RivalKeepsRate(rows, id, rival);
        InsertKeepsRate(WithRival(rows, id, rival), id, payload, ipHash, now);
      }
      rows := WithRival(rows, id, rival);
      if id !in rows && |Recent(rows, ipHash, now - RATE_WINDOW_MS)| < RATE_LIMIT {
        rows := rows[id := NewRow(payload, ipHash, now)];
        return 201;
      }
      if id in rows {
        return if rows[id].payload == payload then 200 else 409;
      }
      return 429;
    }

    method CheckReady(now: int) returns (ready: bool)
      ensures ready == Ready(rows, lastSeen, now)
      ensures ready <==> (lastSeen.Some? && now - lastSeen.value <= 600000) && forall id :: id in rows ==>
                match rows[id].status
                case Accepted => true
                case Uncertain => false
                case _ => now - rows[id].created <= 1800000
    {
      if lastSeen.None? || lastSeen.value < now - WORKER_FRESH_MS {
        return false;
      }
      var todo := rows.Keys;
      while todo != {}
        invariant todo <= rows.Keys
        invariant forall id :: id in rows && id !in todo ==>
                    !(rows[id].status == Uncertain ||
                      (rows[id].status != Accepted && rows[id].created < now - BLOCKED_AFTER_MS))
        decreases todo
      {
        var id :| id in todo;
        if rows[id].status == Uncertain || (rows[id].status != Accepted && rows[id].created < now - BLOCKED_AFTER_MS) {
          return false;
        }
        todo := todo - {id};
      }
      return true;
    }
  }

  /** Sweeping exhausted rows does not change which row is selected. */
  lemma SweepKeepsSelection(rows: Table, now: int, pick: Option<Id>)
    ensures Selection(rows, now, pick) <==> Selection(Exhaust(rows, now), now, pick)
  {
    var swept := Exhaust(rows, now);
    assert forall id :: id in rows ==> Eligible(swept[id], now) == Eligible(rows[id], now);
  }

  /** Two claims of the same table select the same row. */
  lemma SelectionUnique(rows: Table, now: int, a: Option<Id>, b: Option<Id>)
    requires Selection(rows, now, a) && Selection(rows, now, b)
    ensures a == b
  {
    if a.Some? && b.Some? {
      assert Before(rows, a.value, b.value) && Before(rows, b.value, a.value);
    }
  }
}
