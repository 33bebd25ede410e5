/**
 Intake delivery as one state machine: the table, the journal, the worker
 process and every message that may still be in flight.

 Any request may be executed late, repeatedly or never, and any answer may be
 lost: an acknowledgement that was ever sent may reach the table at any later
 moment, any number of times, and a claim may be executed although nobody waits
 for it any more. An answer belongs to a request, so a worker that waits for a
 job receives one claimed after it asked. The process may die between any two
 steps; only one process runs at a time (the lock file).
 */
module DeliveryProtocol {
  import opened Prelude
  import opened IntakeTable
  import opened MailWorker

  /** One executed claim: the answer it produced and when. */
  datatype Claim = Claim(job: Job, at: int)

  datatype Ack = Ack(id: Id, lease: Lease, o: Outcome)

  datatype Phase =
    | Idle
    | Waiting(floor: Lease)         // a claim request is out; leases below floor are older than it
    | Holding(job: Job)             // the answer arrived
    | Journalled(job: Job)          // the journal says "sending"
    | Mailing(job: Job)             // mail() was called
    | Answered(job: Job, queued: bool)

  datatype State = State(
    now: int,
    rows: Table,
    nextLease: Lease,
    claims: map<Lease, Claim>,
    retried: map<Lease, int>,       // leases whose retry acknowledgement took effect, and when
    journal: Journal,
    calls: map<Id, seq<Call>>,
    phase: Phase,
    acks: set<Ack>,                 // acknowledgements ever sent
    confirmed: set<Ack>)            // acknowledgements some execution of which answered true

  datatype Step =
    | Tick(later: int)
    | Cleanup(at: int)
    | Insert(id: Id, payload: Payload, ipHash: nat, at: int)
    | ClaimNext(pick: Option<Id>)
    | AckArrives(ack: Ack)
    | AskClaim
    | Receive(lease: Lease)
    | OpenReceipt
    | CallMail
    | MailAnswers(queued: bool)
    | RecordAnswer
    | SendAck(id: Id)
    | ReadConfirmation(id: Id)
    | Crash

  const START := State(0, map[], 0, map[], map[], map[], map[], Idle, {}, {})

  function CallsOf(s: State, id: Id): seq<Call> {
    if id in s.calls then s.calls[id] else []
  }

  function AckFor(s: State, id: Id): Ack
    requires id in s.journal
  {
    Ack(id, s.journal[id].lease, OutcomeOf(s.journal[id].mark))
  }

  ghost predicate Enabled(s: State, step: Step) {
    match step
    case Tick(later) => s.now <= later
    case Cleanup(at) => at <= s.now
    case Insert(_, _, _, at) => at <= s.now
    case ClaimNext(pick) => Selection(s.rows, s.now, pick)
    case AckArrives(ack) => ack in s.acks
    case AskClaim => s.phase == Idle
    case Receive(lease) => s.phase.Waiting? && s.phase.floor <= lease && lease in s.claims
    case OpenReceipt => s.phase.Holding?
    case CallMail => s.phase.Journalled?
    case MailAnswers(_) => s.phase.Mailing?
    case RecordAnswer => s.phase.Answered?
    case SendAck(id) => s.phase == Idle && id in s.journal && !s.journal[id].acknowledged
    case ReadConfirmation(id) => s.phase == Idle && id in s.journal && AckFor(s, id) in s.confirmed
    case Crash => true
  }

  function AfterOpen(s: State): State
    requires s.phase.Holding?
  {
    var job := s.phase.job;
    s.(journal := Opened(s.journal, job), phase := if Decide(s.journal, job) == Proceed then Journalled(job) else Idle)
  }

  function AfterCall(s: State): State
    requires s.phase.Journalled?
  {
    var job := s.phase.job;
    s.(calls := s.calls[job.id := CallsOf(s, job.id) + [Unknown]], phase := Mailing(job))
  }

  /** The open call gets its answer. */
  function AfterAnswer(s: State, queued: bool): State
    requires s.phase.Mailing?
  {
    var job := s.phase.job;
    var h := CallsOf(s, job.id);
    s.(calls := if h == [] then s.calls else s.calls[job.id := h[..|h| - 1] + [if queued then Queued else Refused]],
       phase := Answered(job, queued))
  }

  function AfterRecord(s: State): State
    requires s.phase.Answered?
  {
    s.(journal := Recorded(s.journal, s.phase.job, s.phase.queued), phase := Idle)
  }

  ghost function Apply(s: State, step: Step): State
    requires Enabled(s, step)
  {
    match step
    case Tick(later) => s.(now := later)
    case Cleanup(at) => s.(rows := Cleaned(s.rows, at))
    case Insert(id, payload, ipHash, at) => s.(rows := Inserted(s.rows, id, payload, ipHash, at))
    case ClaimNext(pick) =>
      var swept := s.(rows := Claimed(s.rows, s.nextLease, s.now, pick));
      if pick.None? then swept
      else
        var job := Job(pick.value, s.rows[pick.value].payload, s.rows[pick.value].attempts + 1, s.nextLease);
        swept.(nextLease := s.nextLease + 1, claims := s.claims[s.nextLease := Claim(job, s.now)])
    case AckArrives(a) =>
      var takes := a.id in s.rows && AckMatches(s.rows[a.id], a.lease, a.o);
      s.(rows := Acked(s.rows, a.id, a.lease, a.o, s.now),
         retried := if takes && a.o == OutcomeRetry then s.retried[a.lease := s.now] else s.retried,
         confirmed := if AckConfirmed(s.rows, a.id, a.lease, a.o) then s.confirmed + {a} else s.confirmed)
    case AskClaim => s.(phase := Waiting(s.nextLease))
    case Receive(lease) => s.(phase := Holding(s.claims[lease].job))
    case OpenReceipt => AfterOpen(s)
    case CallMail => AfterCall(s)
    case MailAnswers(queued) => AfterAnswer(s, queued)
    case RecordAnswer => AfterRecord(s)
    case SendAck(id) => s.(acks := s.acks + {AckFor(s, id)})
    case ReadConfirmation(id) => s.(journal := s.journal[id := ConfirmedReceipt(s.journal[id])])
    case Crash => s.(phase := Idle)
  }

  /** `states` is a run: it starts empty and every step was enabled. */
  ghost predicate IsRun(states: seq<State>, steps: seq<Step>) {
    && |states| == |steps| + 1
    && states[0] == START
    && forall i :: 0 <= i < |steps| ==> Enabled(states[i], steps[i]) && states[i + 1] == Apply(states[i], steps[i])
  }

  // ---- the inductive invariant ----

  predicate Closed(s: State, id: Id) {
    id in s.journal && s.journal[id].mark == MarkedAccepted
  }

  /** The worker is between writing "sending" for `id` and recording the answer. */
  predicate Busy(s: State, id: Id) {
    (s.phase.Journalled? || s.phase.Mailing? || s.phase.Answered?) && s.phase.job.id == id
  }

  predicate ClaimOf(s: State, lease: Lease, id: Id) {
    lease in s.claims && s.claims[lease].job.id == id
  }

  predicate AllRefused(h: seq<Call>) {
    forall i :: 0 <= i < |h| ==> h[i] == Refused
  }

  /** At most one call is not known to have been refused, and it is the last. */
  predicate AtMostOneOpen(h: seq<Call>) {
    forall i :: 0 <= i < |h| - 1 ==> h[i] == Refused
  }

  predicate EndsWith(h: seq<Call>, c: Call) {
    |h| > 0 && h[|h| - 1] == c
  }

  ghost predicate GlobalInv(s: State) {
    && (forall l :: l in s.claims ==> l < s.nextLease && s.claims[l].job.lease == l && s.claims[l].at <= s.now
                                      && 1 <= s.claims[l].job.attempt <= MAX_ATTEMPTS)
    && (s.phase.Waiting? ==> forall id :: id in s.journal ==> s.journal[id].lease < s.phase.floor)
    && (s.phase.Waiting? ==> s.phase.floor <= s.nextLease)
    && (s.phase.Holding? ==>
          && s.phase.job.lease in s.claims && s.claims[s.phase.job.lease].job == s.phase.job
          && forall id :: id in s.journal ==> s.journal[id].lease < s.phase.job.lease)
    && (s.phase.Journalled? || s.phase.Mailing? || s.phase.Answered? ==>
          && s.phase.job.lease in s.claims && s.claims[s.phase.job.lease].job == s.phase.job
          && s.phase.job.id in s.journal
          && s.journal[s.phase.job.id] == Receipt(s.phase.job.lease, s.phase.job.payload, Sending, false))
  }

  /** The journal knows at least as much about the calls for `id` as it says. */
  predicate JournalInv(s: State, id: Id) {
    var h := CallsOf(s, id);
    if id !in s.journal then h == []
    else
      var r := s.journal[id];
      && ClaimOf(s, r.lease, id)
      && AtMostOneOpen(h)
      && |h| <= MAX_ATTEMPTS
      && (r.mark == MarkedRetry ==> AllRefused(h))
      && (r.mark == MarkedAccepted ==> EndsWith(h, Queued))
      && (r.mark != MarkedAccepted ==> |h| <= s.claims[r.lease].job.attempt)
      && (Busy(s, id) && s.phase.Journalled? ==> AllRefused(h) && |h| < s.claims[r.lease].job.attempt)
      && (Busy(s, id) && s.phase.Mailing? ==> EndsWith(h, Unknown))
      && (Busy(s, id) && s.phase.Answered? ==> EndsWith(h, if s.phase.queued then Queued else Refused))
  }

  /** The row's token is the newest lease for `id`; until acceptance the row stays and its attempts count the claims. */
  ghost predicate RowInv(s: State, id: Id) {
    && (id in s.rows ==>
          var row := s.rows[id];
          && row.attempts <= MAX_ATTEMPTS
          && (row.token.None? ==> row.status == Pending && row.attempts == 0)
          && (row.token.Some? ==>
                && row.status != Pending
                && ClaimOf(s, row.token.value, id)
                && s.claims[row.token.value].job.attempt == row.attempts
                && forall l: Lease :: l in s.claims && s.claims[l].job.id == id ==> l <= row.token.value)
          && (row.status == Accepted ==> Closed(s, id))
          && (row.status == Retry ==> id in s.journal && s.journal[id].mark == MarkedRetry
                                      && row.token == Some(s.journal[id].lease)))
    && (!Closed(s, id) ==>
          forall l: Lease :: l in s.claims && s.claims[l].job.id == id ==>
            && id in s.rows && s.rows[id].token.Some?
            && (forall l': Lease :: l' in s.claims && s.claims[l'].job.id == id && l < l' ==>
                  s.claims[l].job.attempt < s.claims[l'].job.attempt))
  }

  /** What an acknowledgement that was ever sent says about the journal since. */
  predicate AckInv(s: State, a: Ack) {
    && a.id in s.journal
    && ClaimOf(s, a.lease, a.id)
    && a.lease <= s.journal[a.id].lease
    && (a.o == OutcomeAccepted ==> Closed(s, a.id))
    && (a.o == OutcomeRetry ==> a.lease < s.journal[a.id].lease || s.journal[a.id].mark == MarkedRetry)
    && (a.o == OutcomeUncertain ==> s.journal[a.id].mark in {Sending, MarkedUncertain} && !Busy(s, a.id))
  }

  predicate Agrees(row: Row, o: Outcome) {
    row.status == StatusOf(o) || (o == OutcomeRetry && row.status == Uncertain && row.fault == AttemptLimit)
  }

  /** A confirmed outcome is the row's outcome for as long as the row holds that lease. */
  predicate ConfirmedInv(s: State, a: Ack) {
    a in s.acks && (a.id in s.rows && s.rows[a.id].token == Some(a.lease) ==> Agrees(s.rows[a.id], a.o))
  }

  predicate ReceiptInv(s: State, id: Id) {
    id in s.journal && s.journal[id].acknowledged ==> AckFor(s, id) in s.confirmed
  }

  ghost predicate Inv(s: State) {
    && GlobalInv(s)
    && (forall id :: JournalInv(s, id))
    && (forall id :: RowInv(s, id))
    && (forall a :: a in s.acks ==> AckInv(s, a))
    && (forall a :: a in s.confirmed ==> ConfirmedInv(s, a))
    && (forall id :: ReceiptInv(s, id))
  }

  lemma StartInv()
    ensures Inv(START)
  {
  }

  lemma TickKeeps(s: State, later: int)
    requires Inv(s) && Enabled(s, Tick(later))
    ensures Inv(Apply(s, Tick(later)))
  {
    var t := Apply(s, Tick(later));
    forall k ensures RowInv(t, k) && JournalInv(t, k) && ReceiptInv(t, k) {
      assert RowInv(s, k) && JournalInv(s, k) && ReceiptInv(s, k);
    }
  }

  lemma CleanupKeepsRow(s: State, at: int, k: Id)
    requires Enabled(s, Cleanup(at)) && RowInv(s, k) && JournalInv(s, k) && ReceiptInv(s, k)
    ensures var t := Apply(s, Cleanup(at)); RowInv(t, k) && JournalInv(t, k) && ReceiptInv(t, k)
  {
  }

  lemma CleanupKeeps(s: State, at: int)
    requires Inv(s) && Enabled(s, Cleanup(at))
    ensures Inv(Apply(s, Cleanup(at)))
  {
    var t := Apply(s, Cleanup(at));
    forall id ensures RowInv(t, id) && JournalInv(t, id) && ReceiptInv(t, id) {
      CleanupKeepsRow(s, at, id);
    }
  }

  lemma InsertKeepsRow(s: State, id: Id, payload: Payload, ipHash: nat, at: int, k: Id)
    requires GlobalInv(s) && Enabled(s, Insert(id, payload, ipHash, at)) && RowInv(s, k) && JournalInv(s, k)
             && ReceiptInv(s, k)
    ensures var t := Apply(s, Insert(id, payload, ipHash, at)); RowInv(t, k) && JournalInv(t, k) && ReceiptInv(t, k)
  {
  }

  lemma InsertKeeps(s: State, id: Id, payload: Payload, ipHash: nat, at: int)
    requires Inv(s) && Enabled(s, Insert(id, payload, ipHash, at))
    ensures Inv(Apply(s, Insert(id, payload, ipHash, at)))
  {
    var t := Apply(s, Insert(id, payload, ipHash, at));
    forall k ensures RowInv(t, k) && JournalInv(t, k) && ReceiptInv(t, k) {
      InsertKeepsRow(s, id, payload, ipHash, at, k);
    }
  }

  lemma ClaimKeepsPickedRow(s: State, k: Id)
    requires GlobalInv(s) && RowInv(s, k) && Enabled(s, ClaimNext(Some(k)))
    ensures RowInv(Apply(s, ClaimNext(Some(k))), k)
  {
    assert Eligible(s.rows[k], s.now);
  }

  lemma ClaimKeepsOtherRow(s: State, pick: Option<Id>, k: Id)
    requires GlobalInv(s) && RowInv(s, k) && Enabled(s, ClaimNext(pick)) && pick != Some(k)
    ensures RowInv(Apply(s, ClaimNext(pick)), k)
  {
    hide Closed, CallsOf, Backoff;
    ClaimKeepsClosed(s, pick, k);
  }

  /** A claim calls nobody. */
  lemma ClaimKeepsClosed(s: State, pick: Option<Id>, k: Id)
    requires Enabled(s, ClaimNext(pick))
    ensures Closed(Apply(s, ClaimNext(pick)), k) <==> Closed(s, k)
  {
  }

  lemma ClaimKeepsJournal(s: State, pick: Option<Id>, k: Id)
    requires Inv(s) && Enabled(s, ClaimNext(pick))
    ensures JournalInv(Apply(s, ClaimNext(pick)), k) && ReceiptInv(Apply(s, ClaimNext(pick)), k)
  {
    assert JournalInv(s, k) && ReceiptInv(s, k);
  }

  lemma ClaimKeepsAcks(s: State, pick: Option<Id>, a: Ack)
    requires Inv(s) && Enabled(s, ClaimNext(pick))
    ensures a in s.acks ==> AckInv(Apply(s, ClaimNext(pick)), a)
    ensures a in s.confirmed ==> ConfirmedInv(Apply(s, ClaimNext(pick)), a)
  {
    assert a in s.acks ==> AckInv(s, a);
    assert a in s.confirmed ==> ConfirmedInv(s, a);
  }

  lemma ClaimKeeps(s: State, pick: Option<Id>)
    requires Inv(s) && Enabled(s, ClaimNext(pick))
    ensures Inv(Apply(s, ClaimNext(pick)))
  {
    var t := Apply(s, ClaimNext(pick));
    assert GlobalInv(t) by {
      if pick.Some? {
        assert Eligible(s.rows[pick.value], s.now);
      }
    }
    forall k: Id ensures RowInv(t, k) && JournalInv(t, k) && ReceiptInv(t, k) {
      assert RowInv(s, k);
      if pick == Some(k) {
        ClaimKeepsPickedRow(s, k);
      } else {
        ClaimKeepsOtherRow(s, pick, k);
      }
      ClaimKeepsJournal(s, pick, k);
    }
    forall a ensures (a in t.acks ==> AckInv(t, a)) && (a in t.confirmed ==> ConfirmedInv(t, a)) {
      ClaimKeepsAcks(s, pick, a);
    }
  }

  lemma AckKeepsRow(s: State, a: Ack, k: Id)
    requires Inv(s) && Enabled(s, AckArrives(a))
    ensures RowInv(Apply(s, AckArrives(a)), k)
  {
    assert AckInv(s, a) && RowInv(s, k) && JournalInv(s, k);
  }

  lemma AckKeepsConfirmed(s: State, a: Ack, b: Ack)
    requires Inv(s) && Enabled(s, AckArrives(a))
    requires b in Apply(s, AckArrives(a)).confirmed
    ensures ConfirmedInv(Apply(s, AckArrives(a)), b)
  {
    assert AckInv(s, a) && AckInv(s, b) && JournalInv(s, b.id) && RowInv(s, b.id);
    assert b in s.confirmed ==> ConfirmedInv(s, b);
  }

  lemma AckKeeps(s: State, a: Ack)
    requires Inv(s) && Enabled(s, AckArrives(a))
    ensures Inv(Apply(s, AckArrives(a)))
  {
    var t := Apply(s, AckArrives(a));
    forall k ensures RowInv(t, k) && JournalInv(t, k) && ReceiptInv(t, k) {
      AckKeepsRow(s, a, k);
      assert JournalInv(s, k) && ReceiptInv(s, k);
    }
    forall b | b in t.acks ensures AckInv(t, b) {
      assert AckInv(s, b);
    }
    forall b | b in t.confirmed ensures ConfirmedInv(t, b) {
      AckKeepsConfirmed(s, a, b);
    }
  }

  lemma OpenKeepsJournal(s: State, k: Id)
    requires GlobalInv(s) && Enabled(s, OpenReceipt) && RowInv(s, k) && JournalInv(s, k) && ReceiptInv(s, k)
    ensures JournalInv(Apply(s, OpenReceipt), k) && ReceiptInv(Apply(s, OpenReceipt), k)
  {
  }

  lemma OpenKeepsRow(s: State, k: Id)
    requires GlobalInv(s) && Enabled(s, OpenReceipt) && RowInv(s, k) && JournalInv(s, k)
    ensures RowInv(Apply(s, OpenReceipt), k)
  {
  }

  lemma OpenKeeps(s: State)
    requires Inv(s) && Enabled(s, OpenReceipt)
    ensures Inv(Apply(s, OpenReceipt))
  {
    var t := Apply(s, OpenReceipt);
    forall k ensures RowInv(t, k) && JournalInv(t, k) && ReceiptInv(t, k) {
      OpenKeepsJournal(s, k);
      OpenKeepsRow(s, k);
    }
    forall a | a in t.acks ensures AckInv(t, a) {
      assert AckInv(s, a);
    }
    forall a | a in t.confirmed ensures ConfirmedInv(t, a) {
      assert ConfirmedInv(s, a);
    }
  }

  lemma CallKeepsRow(s: State, k: Id)
    requires GlobalInv(s) && Enabled(s, CallMail) && RowInv(s, k) && JournalInv(s, k) && ReceiptInv(s, k)
    ensures var t := Apply(s, CallMail); RowInv(t, k) && JournalInv(t, k) && ReceiptInv(t, k)
  {
  }

  lemma CallKeeps(s: State)
    requires Inv(s) && Enabled(s, CallMail)
    ensures Inv(Apply(s, CallMail))
  {
    var t := Apply(s, CallMail);
    forall k ensures RowInv(t, k) && JournalInv(t, k) && ReceiptInv(t, k) {
      CallKeepsRow(s, k);
    }
    forall a | a in t.acks ensures AckInv(t, a) {
      assert AckInv(s, a);
    }
  }

  lemma AnswerKeepsRow(s: State, queued: bool, k: Id)
    requires GlobalInv(s) && Enabled(s, MailAnswers(queued)) && RowInv(s, k) && JournalInv(s, k) && ReceiptInv(s, k)
    ensures var t := Apply(s, MailAnswers(queued)); RowInv(t, k) && JournalInv(t, k) && ReceiptInv(t, k)
  {
  }

  lemma AnswerKeeps(s: State, queued: bool)
    requires Inv(s) && Enabled(s, MailAnswers(queued))
    ensures Inv(Apply(s, MailAnswers(queued)))
  {
    var t := Apply(s, MailAnswers(queued));
    forall k ensures RowInv(t, k) && JournalInv(t, k) && ReceiptInv(t, k) {
      AnswerKeepsRow(s, queued, k);
    }
    forall a | a in t.acks ensures AckInv(t, a) {
      assert AckInv(s, a);
    }
  }

  lemma RecordKeepsRow(s: State, k: Id)
    requires GlobalInv(s) && Enabled(s, RecordAnswer) && RowInv(s, k) && JournalInv(s, k) && ReceiptInv(s, k)
    ensures var t := Apply(s, RecordAnswer); RowInv(t, k) && JournalInv(t, k) && ReceiptInv(t, k)
  {
  }

  lemma RecordKeeps(s: State)
    requires Inv(s) && Enabled(s, RecordAnswer)
    ensures Inv(Apply(s, RecordAnswer))
  {
    var t := Apply(s, RecordAnswer);
    forall k ensures RowInv(t, k) && JournalInv(t, k) && ReceiptInv(t, k) {
      RecordKeepsRow(s, k);
    }
    forall a | a in t.acks ensures AckInv(t, a) {
      assert AckInv(s, a);
    }
  }

  lemma SendAckKeeps(s: State, id: Id)
    requires Inv(s) && Enabled(s, SendAck(id))
    ensures Inv(Apply(s, SendAck(id)))
  {
    var t := Apply(s, SendAck(id));
    forall k ensures RowInv(t, k) && JournalInv(t, k) && ReceiptInv(t, k) {
      assert RowInv(s, k) && JournalInv(s, k) && ReceiptInv(s, k);
    }
    forall a | a in t.acks ensures AckInv(t, a) {
      assert JournalInv(s, id);
      assert a in s.acks ==> AckInv(s, a);
    }
  }

  lemma ReadKeepsRow(s: State, id: Id, k: Id)
    requires GlobalInv(s) && Enabled(s, ReadConfirmation(id)) && RowInv(s, k) && JournalInv(s, k) && ReceiptInv(s, k)
    ensures var t := Apply(s, ReadConfirmation(id)); RowInv(t, k) && JournalInv(t, k) && ReceiptInv(t, k)
  {
  }

  lemma ReadKeeps(s: State, id: Id)
    requires Inv(s) && Enabled(s, ReadConfirmation(id))
    ensures Inv(Apply(s, ReadConfirmation(id)))
  {
    var t := Apply(s, ReadConfirmation(id));
    forall k ensures RowInv(t, k) && JournalInv(t, k) && ReceiptInv(t, k) {
      ReadKeepsRow(s, id, k);
    }
    forall a | a in t.acks ensures AckInv(t, a) {
      assert AckInv(s, a);
    }
  }

  lemma PhaseKeepsRow(s: State, step: Step, k: Id)
    requires step.AskClaim? || step.Receive? || step.Crash?
    requires Enabled(s, step) && RowInv(s, k) && JournalInv(s, k) && ReceiptInv(s, k)
    ensures RowInv(Apply(s, step), k) && JournalInv(Apply(s, step), k) && ReceiptInv(Apply(s, step), k)
  {
  }

  lemma PhaseKeeps(s: State, step: Step)
    requires step.AskClaim? || step.Receive? || step.Crash?
    requires Inv(s) && Enabled(s, step)
    ensures Inv(Apply(s, step))
  {
    var t := Apply(s, step);
    forall k ensures RowInv(t, k) && JournalInv(t, k) && ReceiptInv(t, k) {
      PhaseKeepsRow(s, step, k);
    }
    forall id | id in s.journal ensures s.journal[id].lease < s.nextLease {
      assert JournalInv(s, id);
    }
    forall a | a in t.acks ensures AckInv(t, a) {
      assert AckInv(s, a);
    }
  }

  lemma StepKeeps(s: State, step: Step)
    requires Inv(s) && Enabled(s, step)
    ensures Inv(Apply(s, step))
  {
    match step
    case Tick(later) => TickKeeps(s, later);
    case Cleanup(at) => CleanupKeeps(s, at);
    case Insert(id, payload, ipHash, at) => InsertKeeps(s, id, payload, ipHash, at);
    case ClaimNext(pick) => ClaimKeeps(s, pick);
    case AckArrives(ack) => AckKeeps(s, ack);
    case OpenReceipt => OpenKeeps(s);
    case CallMail => CallKeeps(s);
    case MailAnswers(queued) => AnswerKeeps(s, queued);
    case RecordAnswer => RecordKeeps(s);
    case SendAck(id) => SendAckKeeps(s, id);
    case ReadConfirmation(id) => ReadKeeps(s, id);
    case _ => PhaseKeeps(s, step);
  }

  // ---- what holds in every run ----

  lemma {:induction false} RunInv(states: seq<State>, steps: seq<Step>, n: nat)
    requires IsRun(states, steps) && n < |states|
    ensures Inv(states[n])
  {
    if n == 0 {
      StartInv();
    } else {
      RunInv(states, steps, n - 1);
      StepKeeps(states[n - 1], steps[n - 1]);
    }
  }

  /**
   Whatever crashes, losses, repetitions, expiries and cleanups a run contains,
   all calls of `mail()` for an intake but the last were refused, and there are
   at most twelve of them.
   */
  lemma AtMostOneMail(states: seq<State>, steps: seq<Step>, n: nat, id: Id)
    requires IsRun(states, steps) && n < |states|
    ensures |CallsOf(states[n], id)| <= 12
    ensures forall k :: 0 <= k < |CallsOf(states[n], id)| - 1 ==> CallsOf(states[n], id)[k] == Refused
  {
    RunInv(states, steps, n);
    assert JournalInv(states[n], id);
  }

  /**
   Table and journal agree: an accepted row means exactly one queued message,
   a row in retry means every call was refused (so once a message is queued no
   acknowledgement, however late, can bring the row back to retry), and a
   confirmed receipt names the row's state while the row keeps that lease.
   */
  lemma TableAgreesWithMail(states: seq<State>, steps: seq<Step>, n: nat, id: Id)
    requires IsRun(states, steps) && n < |states|
    requires id in states[n].rows
    ensures var s := states[n];
            var row, h := s.rows[id], CallsOf(s, id);
            && (row.status == Accepted ==> AtMostOneOpen(h) && EndsWith(h, Queued))
            && (row.status == Retry ==> AllRefused(h))
            && (id in s.journal && s.journal[id].acknowledged && row.token == Some(s.journal[id].lease)
                ==> match s.journal[id].mark
                    case MarkedAccepted => row.status == Accepted
                    case MarkedRetry => row.status == Retry || (row.status == Uncertain && row.fault == AttemptLimit)
                    case _ => row.status == Uncertain)
  {
    RunInv(states, steps, n);
    var s := states[n];
    assert RowInv(s, id) && JournalInv(s, id) && ReceiptInv(s, id);
    if id in s.journal && s.journal[id].acknowledged {
      assert ConfirmedInv(s, AckFor(s, id));
    }
  }

  /**
   Until an intake is accepted its claims carry strictly growing attempt numbers out of 1..12, so
   there are at most twelve.
   */
  lemma ClaimsAreNumbered(states: seq<State>, steps: seq<Step>, n: nat, a: Lease, b: Lease)
    requires IsRun(states, steps) && n < |states|
    requires a < b && a in states[n].claims && b in states[n].claims
    requires states[n].claims[a].job.id == states[n].claims[b].job.id
    requires !Closed(states[n], states[n].claims[a].job.id)
    ensures 1 <= states[n].claims[a].job.attempt < states[n].claims[b].job.attempt <= 12
  {
    RunInv(states, steps, n);
    assert RowInv(states[n], states[n].claims[a].job.id);
  }

  /** A claim uses up one of the row's remaining attempts and no step of the run gives one back while the row stays. */
  lemma AttemptsMeasure(s: State, step: Step, id: Id)
    requires Enabled(s, step) && id in s.rows && id in Apply(s, step).rows
    ensures Apply(s, step).rows[id].attempts >= s.rows[id].attempts
    ensures step == ClaimNext(Some(id)) ==>
              12 - Apply(s, step).rows[id].attempts < 12 - s.rows[id].attempts <= 12
  {
  }

  lemma StepKeepsStored(s: State, step: Step, id: Id)
    requires Enabled(s, step) && id in s.rows
    ensures (step.Cleanup? && Removable(s.rows[id], step.at) && id !in Apply(s, step).rows) ||
            (id in Apply(s, step).rows && SameIntake(Apply(s, step).rows[id], s.rows[id]))
  {
  }

  predicate SameIntake(a: Row, b: Row) {
    a.payload == b.payload && a.created == b.created && a.ipHash == b.ipHash
  }

  /**
   For as long as it is stored an intake keeps its content, time and sender; only an accepted one
   past retention disappears.
   */
  lemma {:induction false} StoredIntakesStay(states: seq<State>, steps: seq<Step>, m: nat, n: nat, id: Id)
    requires IsRun(states, steps) && m <= n < |states| && id in states[m].rows
    ensures || (id in states[n].rows && SameIntake(states[n].rows[id], states[m].rows[id]))
            || exists k ::
                 && m <= k < n && steps[k].Cleanup? && id in states[k].rows
                 && Removable(states[k].rows[id], steps[k].at)
                 && SameIntake(states[k].rows[id], states[m].rows[id])
    decreases n
  {
    hide Apply;
    if m < n {
      StoredIntakesStay(states, steps, m, n - 1, id);
      if id in states[n - 1].rows {
        StepKeepsStored(states[n - 1], steps[n - 1], id);
      }
    }
  }

  lemma StepKeepsRate(s: State, step: Step)
    requires Enabled(s, step) && RateBounded(s.rows)
    ensures RateBounded(Apply(s, step).rows)
  {
    if step.Insert? {
      InsertKeepsRate(s.rows, step.id, step.payload, step.ipHash, step.at);
    } else {
      var after := Apply(s, step).rows;
      forall id | id in after
        ensures id in s.rows && after[id].ipHash == s.rows[id].ipHash && after[id].created == s.rows[id].created
      {
      }
      ShrinkKeepsRate(s.rows, after);
    }
  }

  /** In every run no one-hour window ever holds more than five intakes of one sender. */
  lemma {:induction false} RateBoundedInEveryRun(states: seq<State>, steps: seq<Step>, n: nat)
    requires IsRun(states, steps) && n < |states|
    ensures RateBounded(states[n].rows)
  {
    if n == 0 {
      forall h, start ensures InWindow(states[0].rows, h, start) == {} {
      }
    } else {
      RateBoundedInEveryRun(states, steps, n - 1);
      StepKeepsRate(states[n - 1], steps[n - 1]);
    }
  }

  /** So of one sender's stored intakes no six were created within an hour. */
  lemma AtMostFiveAnHour(states: seq<State>, steps: seq<Step>, n: nat, ids: set<Id>, ipHash: nat, start: int)
    requires IsRun(states, steps) && n < |states|
    requires forall id :: id in ids ==>
               && id in states[n].rows && states[n].rows[id].ipHash == ipHash
               && start <= states[n].rows[id].created < start + 3600000
    ensures |ids| <= 5
  {
    RateBoundedInEveryRun(states, steps, n);
    SubsetSize(ids, InWindow(states[n].rows, ipHash, start));
  }

  // ---- time between claims ----

  /** `a` ran for its whole lease before `b`, or ended by a retry whose backoff was over when `b` was claimed. */
  predicate Spaced(s: State, a: Lease, b: Lease)
    requires a in s.claims && b in s.claims
  {
    || s.claims[a].at + DELIVERY_LEASE_MS <= s.claims[b].at
    || (&& a in s.retried
        && s.claims[a].at <= s.retried[a]
        && s.retried[a] + Backoff(s.claims[a].job.attempt) <= s.claims[b].at)
  }

  ghost predicate TimeInv(s: State, id: Id) {
    && (forall a: Lease, b: Lease ::
          a in s.claims && b in s.claims && a < b && s.claims[a].job.id == id && s.claims[b].job.id == id ==>
            Spaced(s, a, b))
    && (id in s.rows && s.rows[id].token.Some? && s.rows[id].token.value in s.claims ==>
          var row, lease := s.rows[id], s.rows[id].token.value;
          && (row.status == Processing ==> row.leaseUntil == Some(s.claims[lease].at + DELIVERY_LEASE_MS))
          && (row.status == Retry ==> lease in s.retried && s.claims[lease].at <= s.retried[lease]
                                      && row.nextAttempt == s.retried[lease] + Backoff(row.attempts))
          && (row.status == Accepted ==> row.acceptedAt.Some? && s.claims[lease].at <= row.acceptedAt.value))
    && (id !in s.rows || s.rows[id].token.None? ==>
          forall l: Lease :: l in s.claims && s.claims[l].job.id == id ==> s.claims[l].at + DELIVERY_LEASE_MS <= s.now)
  }

  lemma CleanupKeepsTime(s: State, at: int, id: Id)
    requires GlobalInv(s) && RowInv(s, id) && TimeInv(s, id) && Enabled(s, Cleanup(at))
    ensures TimeInv(Apply(s, Cleanup(at)), id)
  {
    hide Backoff, Closed, CallsOf;
    if id in s.rows && Removable(s.rows[id], at) {
      var newest := s.rows[id].token.value;
      forall l: Lease | l in s.claims && s.claims[l].job.id == id ensures s.claims[l].at <= s.claims[newest].at {
        if l < newest {
          assert Spaced(s, l, newest);
          BackoffBounds(s.claims[l].job.attempt, s.claims[l].job.attempt);
        }
      }
    }
  }

  /** The new claim of `id` is spaced from every earlier one. */
  lemma NewClaimSpaced(s: State, id: Id, l: Lease)
    requires GlobalInv(s) && RowInv(s, id) && TimeInv(s, id) && Enabled(s, ClaimNext(Some(id)))
    requires l in s.claims && s.claims[l].job.id == id
    ensures Spaced(Apply(s, ClaimNext(Some(id))), l, s.nextLease)
  {
    assert Eligible(s.rows[id], s.now);
    if s.rows[id].token.Some? {
      var newest := s.rows[id].token.value;
      if l < newest {
        assert Spaced(s, l, newest);
      }
    }
  }

  lemma OldClaimsStaySpaced(s: State, pick: Option<Id>, a: Lease, b: Lease)
    requires GlobalInv(s) && Enabled(s, ClaimNext(pick))
    requires a in s.claims && b in s.claims && Spaced(s, a, b)
    ensures var t := Apply(s, ClaimNext(pick)); a in t.claims && b in t.claims && Spaced(t, a, b)
  {
  }

  lemma ClaimOfOther(s: State, pick: Option<Id>, id: Id)
    requires GlobalInv(s) && RowInv(s, id) && TimeInv(s, id) && Enabled(s, ClaimNext(pick)) && pick != Some(id)
    ensures TimeInv(Apply(s, ClaimNext(pick)), id)
  {
    forall a: Lease, b: Lease | a in s.claims && b in s.claims && a < b && s.claims[a].job.id == id
        && s.claims[b].job.id == id
      ensures Spaced(Apply(s, ClaimNext(pick)), a, b)
    {
      OldClaimsStaySpaced(s, pick, a, b);
    }
  }

  lemma ClaimOfSame(s: State, id: Id)
    requires GlobalInv(s) && RowInv(s, id) && TimeInv(s, id) && Enabled(s, ClaimNext(Some(id)))
    ensures TimeInv(Apply(s, ClaimNext(Some(id))), id)
  {
    var t := Apply(s, ClaimNext(Some(id)));
    forall a: Lease, b: Lease | a in t.claims && b in t.claims && a < b && t.claims[a].job.id == id
        && t.claims[b].job.id == id
      ensures Spaced(t, a, b)
    {
      if b in s.claims {
        OldClaimsStaySpaced(s, Some(id), a, b);
      } else {
        NewClaimSpaced(s, id, a);
      }
    }
  }

  lemma AckKeepsTime(s: State, a: Ack, id: Id)
    requires GlobalInv(s) && RowInv(s, a.id) && RowInv(s, id) && TimeInv(s, id) && Enabled(s, AckArrives(a))
    ensures TimeInv(Apply(s, AckArrives(a)), id)
  {
    hide Backoff, Closed, CallsOf;
    var t := Apply(s, AckArrives(a));
    forall x: Lease, y: Lease | x in s.claims && y in s.claims && x < y && s.claims[x].job.id == id
        && s.claims[y].job.id == id
      ensures Spaced(t, x, y)
    {
      assert Spaced(s, x, y);
    }
  }

  lemma QuietStepKeepsTime(s: State, step: Step, id: Id)
    requires TimeInv(s, id) && Enabled(s, step) && !step.Cleanup? && !step.ClaimNext? && !step.AckArrives?
    ensures TimeInv(Apply(s, step), id)
  {
    forall a: Lease, b: Lease | a in s.claims && b in s.claims && a < b && s.claims[a].job.id == id
        && s.claims[b].job.id == id
      ensures Spaced(Apply(s, step), a, b)
    {
      assert Spaced(s, a, b);
    }
  }

  lemma StepKeepsTime(s: State, step: Step, id: Id)
    requires Inv(s) && TimeInv(s, id) && Enabled(s, step)
    ensures TimeInv(Apply(s, step), id)
  {
    hide Apply, TimeInv;
    assert RowInv(s, id);
    if step.Cleanup? {
      CleanupKeepsTime(s, step.at, id);
    } else if step.ClaimNext? {
      if step.pick == Some(id) {
        ClaimOfSame(s, id);
      } else {
        ClaimOfOther(s, step.pick, id);
      }
    } else if step.AckArrives? {
      assert RowInv(s, step.ack.id);
      AckKeepsTime(s, step.ack, id);
    } else {
      QuietStepKeepsTime(s, step, id);
    }
  }

  lemma {:induction false} RunTimeInv(states: seq<State>, steps: seq<Step>, n: nat, id: Id)
    requires IsRun(states, steps) && n < |states|
    ensures TimeInv(states[n], id)
  {
    if n > 0 {
      RunInv(states, steps, n - 1);
      RunTimeInv(states, steps, n - 1, id);
      StepKeepsTime(states[n - 1], steps[n - 1], id);
    }
  }

  /**
   Two claims of one intake less than ten minutes apart: between them a retry
   acknowledgement under the first lease took effect, and its backoff, between
   two minutes and one hour, had passed.
   */
  lemma EarlyReclaimNeedsRetry(states: seq<State>, steps: seq<Step>, n: nat, a: Lease, b: Lease)
    requires IsRun(states, steps) && n < |states|
    requires a < b && a in states[n].claims && b in states[n].claims
    requires states[n].claims[a].job.id == states[n].claims[b].job.id
    requires states[n].claims[b].at - states[n].claims[a].at < 600000
    ensures var s := states[n];
            && a in s.retried
            && s.claims[a].at <= s.retried[a]
            && s.retried[a] + Backoff(s.claims[a].job.attempt) <= s.claims[b].at
            && 120000 <= Backoff(s.claims[a].job.attempt) <= 3600000
  {
    var s := states[n];
    RunInv(states, steps, n);
    RunTimeInv(states, steps, n, s.claims[a].job.id);
    assert Spaced(s, a, b);
    BackoffBounds(s.claims[a].job.attempt, s.claims[a].job.attempt);
  }
}
