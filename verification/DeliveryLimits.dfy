/**
 What the intake protocol does not promise: some receipts are never acknowledged.
 Which ones, exactly, and runs that lead there.
 */
module DeliveryLimits {
  import opened Prelude
  import opened IntakeTable
  import opened MailWorker
  import opened DeliveryProtocol

  // ---- continuing a run ----

  ghost predicate CanRun(s: State, steps: seq<Step>)
    decreases |steps|
  {
    steps == [] || (Enabled(s, steps[0]) && CanRun(Apply(s, steps[0]), steps[1..]))
  }

  ghost function RunFrom(s: State, steps: seq<Step>): State
    requires CanRun(s, steps)
    decreases |steps|
  {
    if steps == [] then s else RunFrom(Apply(s, steps[0]), steps[1..])
  }

  lemma OneStep(s: State, step: Step)
    requires Enabled(s, step)
    ensures CanRun(s, [step]) && RunFrom(s, [step]) == Apply(s, step)
  {
    hide Apply, Enabled;
    assert [step][1..] == [];
    assert CanRun(Apply(s, step), []);
  }

  lemma {:induction false} RunConcat(s: State, a: seq<Step>, b: seq<Step>)
    requires CanRun(s, a) && CanRun(RunFrom(s, a), b)
    ensures CanRun(s, a + b) && RunFrom(s, a + b) == RunFrom(RunFrom(s, a), b)
    decreases |a|
  {
    hide Apply, Enabled;
    if a == [] {
      assert a + b == b;
    } else {
      assert (a + b)[1..] == a[1..] + b;
      RunConcat(Apply(s, a[0]), a[1..], b);
    }
  }

  ghost predicate Reaches(s: State, t: State) {
    exists steps :: CanRun(s, steps) && RunFrom(s, steps) == t
  }

  lemma ReachesSelf(s: State)
    ensures Reaches(s, s)
  {
    assert CanRun(s, []) && RunFrom(s, []) == s;
  }

  lemma StepReaches(s: State, step: Step)
    requires Enabled(s, step)
    ensures Reaches(s, Apply(s, step))
  {
    hide Apply, Enabled;
    OneStep(s, step);
  }

  lemma ReachesOn(s: State, t: State, u: State)
    requires Reaches(s, t) && Reaches(t, u)
    ensures Reaches(s, u)
  {
    var a :| CanRun(s, a) && RunFrom(s, a) == t;
    var b :| CanRun(t, b) && RunFrom(t, b) == u;
    hide CanRun, RunFrom;
    RunConcat(s, a, b);
  }

  /** The states of a run are the reachable ones. */
  lemma {:induction false} RunReaches(states: seq<State>, steps: seq<Step>, n: nat)
    requires IsRun(states, steps) && n < |states|
    ensures Reaches(START, states[n])
  {
    hide Apply, Reaches;
    if n == 0 {
      ReachesSelf(START);
    } else {
      RunReaches(states, steps, n - 1);
      StepReaches(states[n - 1], steps[n - 1]);
      ReachesOn(START, states[n - 1], states[n]);
    }
  }

  // ---- an acknowledgement refused once is refused for good ----

  predicate Confirmable(s: State, a: Ack) {
    AckConfirmed(s.rows, a.id, a.lease, a.o)
  }

  /**
   The row still has the lease, and is being processed, has the outcome, or ran out of attempts
   after the mail was accepted.
   */
  lemma ConfirmableIff(s: State, a: Ack)
    ensures Confirmable(s, a) <==>
            && a.id in s.rows && s.rows[a.id].token == Some(a.lease)
            && var row := s.rows[a.id];
            (row.status == Processing || row.status == StatusOf(a.o)
             || (row.status == Uncertain && row.fault == AttemptLimit && a.o == OutcomeAccepted))
  {
  }

  /** Sent at some time, or what the receipt reports now. */
  predicate Reported(s: State, a: Ack) {
    a in s.acks || (a.id in s.journal && a == AckFor(s, a.id))
  }

  /** The lease is an old one, or its row came to rest with another outcome. */
  predicate Stale(s: State, a: Ack) {
    && a.lease < s.nextLease
    && (a.id in s.rows && s.rows[a.id].token == Some(a.lease) ==>
          var row := s.rows[a.id];
          || (row.status == Uncertain && a.o != OutcomeUncertain
              && (row.fault == AttemptLimit ==> a.o != OutcomeAccepted))
          || (row.status == Accepted && a.o != OutcomeAccepted))
  }

  lemma StaleIsRefused(s: State, a: Ack)
    requires Stale(s, a)
    ensures !Confirmable(s, a)
  {
  }

  lemma ClaimKeepsStale(s: State, pick: Option<Id>, a: Ack)
    requires Enabled(s, ClaimNext(pick)) && Stale(s, a)
    ensures Stale(Apply(s, ClaimNext(pick)), a)
  {
  }

  lemma StepKeepsStale(s: State, step: Step, a: Ack)
    requires Enabled(s, step) && Stale(s, a)
    ensures Stale(Apply(s, step), a)
  {
    if step.ClaimNext? {
      ClaimKeepsStale(s, step.pick, a);
    }
  }

  lemma RefusedIsStale(s: State, a: Ack)
    requires Inv(s) && Reported(s, a) && !Confirmable(s, a)
    ensures Stale(s, a)
  {
    assert RowInv(s, a.id) && JournalInv(s, a.id);
    assert a in s.acks ==> AckInv(s, a);
  }

  lemma {:induction false} StaleForGood(states: seq<State>, steps: seq<Step>, m: nat, n: nat, a: Ack)
    requires IsRun(states, steps) && m <= n < |states| && Stale(states[m], a)
    ensures Stale(states[n], a)
    decreases n
  {
    hide Apply, Stale;
    if m < n {
      StaleForGood(states, steps, m, n - 1, a);
      StepKeepsStale(states[n - 1], steps[n - 1], a);
    }
  }

  /**
   In every run, an acknowledgement that was sent, or that a receipt reports, and
   that the table would refuse now is refused at every later time, whatever its
   outcome, and also after its row was cleaned up and the intake sent in again.
   */
  lemma RefusedForGood(states: seq<State>, steps: seq<Step>, m: nat, n: nat, a: Ack)
    requires IsRun(states, steps) && m <= n < |states|
    requires Reported(states[m], a) && !Confirmable(states[m], a)
    ensures !Confirmable(states[n], a)
  {
    hide Apply, Stale;
    RunInv(states, steps, m);
    RefusedIsStale(states[m], a);
    StaleForGood(states, steps, m, n, a);
    StaleIsRefused(states[n], a);
  }

  // ---- which receipts can still be acknowledged ----

  /**
   Accepted and uncertain rows hold the receipt's own lease, unless the attempts ran out; a
   processing row has a lease time.
   */
  predicate Fits(s: State, id: Id) {
    id in s.rows ==>
      var row := s.rows[id];
      && (row.status == Accepted ==> id in s.journal && row.token == Some(s.journal[id].lease))
      && (row.status == Uncertain && row.fault != AttemptLimit ==>
            && id in s.journal && row.token == Some(s.journal[id].lease)
            && s.journal[id].mark in {Sending, MarkedUncertain} && !Busy(s, id))
      && (row.status == Processing ==> row.leaseUntil.Some?)
  }

  lemma AckKeepsFits(s: State, a: Ack, id: Id)
    requires Inv(s) && Fits(s, id) && Enabled(s, AckArrives(a))
    ensures Fits(Apply(s, AckArrives(a)), id)
  {
    assert AckInv(s, a) && RowInv(s, id) && JournalInv(s, id);
  }

  lemma ClaimKeepsFits(s: State, pick: Option<Id>, id: Id)
    requires Fits(s, id) && Enabled(s, ClaimNext(pick))
    ensures Fits(Apply(s, ClaimNext(pick)), id)
  {
  }

  lemma OpenKeepsFits(s: State, id: Id)
    requires GlobalInv(s) && RowInv(s, id) && JournalInv(s, id) && Fits(s, id) && Enabled(s, OpenReceipt)
    ensures Fits(Apply(s, OpenReceipt), id)
  {
  }

  lemma OtherStepKeepsFits(s: State, step: Step, id: Id)
    requires GlobalInv(s) && RowInv(s, id) && Fits(s, id) && Enabled(s, step)
    requires !step.AckArrives? && !step.ClaimNext? && !step.OpenReceipt?
    ensures Fits(Apply(s, step), id)
  {
  }

  lemma StepKeepsFits(s: State, step: Step, id: Id)
    requires Inv(s) && Fits(s, id) && Enabled(s, step)
    ensures Fits(Apply(s, step), id)
  {
    hide Apply;
    assert RowInv(s, id) && JournalInv(s, id);
    if step.AckArrives? {
      AckKeepsFits(s, step.ack, id);
    } else if step.ClaimNext? {
      ClaimKeepsFits(s, step.pick, id);
    } else if step.OpenReceipt? {
      OpenKeepsFits(s, id);
    } else {
      OtherStepKeepsFits(s, step, id);
    }
  }

  lemma {:induction false} RunFits(s: State, steps: seq<Step>, id: Id)
    requires Inv(s) && Fits(s, id) && CanRun(s, steps)
    ensures Inv(RunFrom(s, steps)) && Fits(RunFrom(s, steps), id)
    decreases |steps|
  {
    hide Apply, Inv, Fits, Enabled;
    if steps != [] {
      StepKeeps(s, steps[0]);
      StepKeepsFits(s, steps[0], id);
      RunFits(Apply(s, steps[0]), steps[1..], id);
    }
  }

  lemma ReachableFits(s: State, id: Id)
    requires Reaches(START, s)
    ensures Inv(s) && Fits(s, id)
  {
    var steps :| CanRun(START, steps) && RunFrom(START, steps) == s;
    StartInv();
    StartFits(id);
    RunFits(START, steps, id);
  }

  lemma StartFits(id: Id)
    ensures Fits(START, id)
  {
  }

  /** The row can be claimed again, with the payload the receipt is about. */
  predicate Reclaimable(s: State, id: Id)
    requires id in s.journal
  {
    id in s.rows &&
    var row := s.rows[id];
    row.attempts < MAX_ATTEMPTS && row.status in {Pending, Retry, Processing} && row.payload == s.journal[id].payload
  }

  /** The worker has, or still waits for, the answer to the row's current claim. */
  predicate Answerable(s: State, id: Id)
    requires id in s.journal
  {
    id in s.rows && s.rows[id].token.Some? &&
    var lease := s.rows[id].token.value;
    && lease in s.claims && s.claims[lease].job.id == id && s.claims[lease].job.payload == s.journal[id].payload
    && ((s.phase.Waiting? && s.phase.floor <= lease) || (s.phase.Holding? && s.phase.job.lease == lease))
  }

  /**
   The row is gone (the form may send the intake in again), or the receipt's
   acknowledgement was or would be confirmed, or the receipt can still get the
   lease of a claim.
   */
  predicate CanSettle(s: State, id: Id)
    requires id in s.journal
  {
    || id !in s.rows
    || AckFor(s, id) in s.confirmed
    || Confirmable(s, AckFor(s, id))
    || Reclaimable(s, id)
    || Answerable(s, id)
  }

  predicate Acknowledged(s: State, id: Id) {
    id in s.journal && s.journal[id].acknowledged
  }

  /** An unacknowledged receipt that cannot be settled. */
  predicate Stuck(s: State, id: Id) {
    id in s.journal && !s.journal[id].acknowledged && !CanSettle(s, id)
  }

  // ---- a stuck receipt stays stuck ----

  lemma TableStepKeepsStuck(s: State, step: Step, id: Id)
    requires GlobalInv(s) && RowInv(s, id) && JournalInv(s, id) && Fits(s, id) && Stuck(s, id) && Enabled(s, step)
    requires step.Tick? || step.Cleanup? || step.Insert?
    ensures Stuck(Apply(s, step), id)
  {
  }

  lemma ClaimKeepsStuck(s: State, id: Id)
    requires GlobalInv(s) && RowInv(s, id) && JournalInv(s, id) && Stuck(s, id) && Enabled(s, ClaimNext(Some(id)))
    ensures Stuck(Apply(s, ClaimNext(Some(id))), id)
  {
    assert Eligible(s.rows[id], s.now);
  }

  lemma OtherClaimKeepsStuck(s: State, pick: Option<Id>, id: Id)
    requires GlobalInv(s) && RowInv(s, id) && Stuck(s, id) && Enabled(s, ClaimNext(pick)) && pick != Some(id)
    ensures Stuck(Apply(s, ClaimNext(pick)), id)
  {
  }

  lemma AckKeepsStuck(s: State, a: Ack, id: Id)
    requires GlobalInv(s) && RowInv(s, id) && JournalInv(s, id) && Fits(s, id) && Stuck(s, id)
             && Enabled(s, AckArrives(a))
    requires AckInv(s, a)
    ensures Stuck(Apply(s, AckArrives(a)), id)
  {
  }

  lemma OpenKeepsStuck(s: State, id: Id)
    requires GlobalInv(s) && RowInv(s, id) && JournalInv(s, id) && Fits(s, id) && Stuck(s, id)
             && Enabled(s, OpenReceipt)
    requires forall a :: a in s.confirmed ==> a in s.acks && AckInv(s, a)
    ensures Stuck(Apply(s, OpenReceipt), id)
  {
  }

  lemma RecordKeepsStuck(s: State, id: Id)
    requires GlobalInv(s) && RowInv(s, id) && JournalInv(s, id) && Fits(s, id) && Stuck(s, id)
             && Enabled(s, RecordAnswer)
    requires forall a :: a in s.confirmed ==> a in s.acks && AckInv(s, a)
    ensures Stuck(Apply(s, RecordAnswer), id)
  {
  }

  lemma ReceiveKeepsStuck(s: State, lease: Lease, id: Id)
    requires GlobalInv(s) && Stuck(s, id) && Enabled(s, Receive(lease))
    ensures Stuck(Apply(s, Receive(lease)), id)
  {
  }

  lemma FlushKeepsStuck(s: State, step: Step, id: Id)
    requires Stuck(s, id) && Enabled(s, step) && (step.SendAck? || step.ReadConfirmation?)
    ensures Stuck(Apply(s, step), id)
  {
  }

  lemma WorkKeepsStuck(s: State, step: Step, id: Id)
    requires GlobalInv(s) && RowInv(s, id) && Stuck(s, id) && Enabled(s, step)
    requires step.AskClaim? || step.CallMail? || step.MailAnswers? || step.Crash?
    ensures Stuck(Apply(s, step), id)
  {
  }

  lemma StepKeepsStuck(s: State, step: Step, id: Id)
    requires Inv(s) && Fits(s, id) && Stuck(s, id) && Enabled(s, step)
    ensures Stuck(Apply(s, step), id)
  {
    hide Apply, Stuck;
    assert RowInv(s, id) && JournalInv(s, id);
    forall a | a in s.confirmed ensures a in s.acks && AckInv(s, a) {
      assert ConfirmedInv(s, a);
    }
    match step
    case AckArrives(a) => AckKeepsStuck(s, a, id);
    case OpenReceipt => OpenKeepsStuck(s, id);
    case RecordAnswer => RecordKeepsStuck(s, id);
    case Tick(_) => TableStepKeepsStuck(s, step, id);
    case Cleanup(_) => TableStepKeepsStuck(s, step, id);
    case Insert(_, _, _, _) => TableStepKeepsStuck(s, step, id);
    case ClaimNext(pick) =>
      if pick == Some(id) {
        ClaimKeepsStuck(s, id);
      } else {
        OtherClaimKeepsStuck(s, pick, id);
      }
    case Receive(lease) => ReceiveKeepsStuck(s, lease, id);
    case SendAck(_) => FlushKeepsStuck(s, step, id);
    case ReadConfirmation(_) => FlushKeepsStuck(s, step, id);
    case _ => WorkKeepsStuck(s, step, id);
  }

  lemma {:induction false} StuckForGood(s: State, steps: seq<Step>, id: Id)
    requires Inv(s) && Fits(s, id) && Stuck(s, id) && CanRun(s, steps)
    ensures Stuck(RunFrom(s, steps), id)
    decreases |steps|
  {
    hide Apply, Inv, Fits, Stuck, Enabled;
    if steps != [] {
      StepKeeps(s, steps[0]);
      StepKeepsFits(s, steps[0], id);
      StepKeepsStuck(s, steps[0], id);
      StuckForGood(Apply(s, steps[0]), steps[1..], id);
    }
  }
}
