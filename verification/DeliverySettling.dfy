/**
 The other half: a receipt that can be settled is acknowledged in some continuation; and runs that
 end with a stuck receipt.
 */
module DeliverySettling {
  import opened Prelude
  import opened IntakeTable
  import opened MailWorker
  import opened DeliveryProtocol
  import opened DeliveryLimits

  /** Some continuation acknowledges the receipt. */
  ghost predicate Settles(s: State, id: Id) {
    exists steps :: CanRun(s, steps) && Acknowledged(RunFrom(s, steps), id)
  }

  lemma StepThenSettles(s: State, step: Step, id: Id)
    requires Enabled(s, step) && Settles(Apply(s, step), id)
    ensures Settles(s, id)
  {
    hide Apply, Enabled, Acknowledged;
    var steps :| CanRun(Apply(s, step), steps) && Acknowledged(RunFrom(Apply(s, step), steps), id);
    OneStep(s, step);
    RunConcat(s, [step], steps);
  }

  lemma SettledNow(s: State, id: Id)
    requires Acknowledged(s, id)
    ensures Settles(s, id)
  {
    assert CanRun(s, []) && RunFrom(s, []) == s;
  }

  /** The answer to an executed acknowledgement is read. */
  lemma ConfirmedSettles(s: State, id: Id)
    requires s.phase == Idle && id in s.journal && AckFor(s, id) in s.confirmed
    ensures Settles(s, id)
  {
    SettledNow(Apply(s, ReadConfirmation(id)), id);
    StepThenSettles(s, ReadConfirmation(id), id);
  }

  /** The acknowledgement is sent, arrives and is answered. */
  lemma ConfirmableSettles(s: State, id: Id)
    requires s.phase == Idle && id in s.journal && !s.journal[id].acknowledged && Confirmable(s, AckFor(s, id))
    ensures Settles(s, id)
  {
    var sent := Apply(s, SendAck(id));
    var arrived := Apply(sent, AckArrives(AckFor(s, id)));
    ConfirmedSettles(arrived, id);
    StepThenSettles(sent, AckArrives(AckFor(s, id)), id);
    StepThenSettles(s, SendAck(id), id);
  }

  lemma CrashSettles(s: State, id: Id)
    requires Settles(s.(phase := Idle), id)
    ensures Settles(s, id)
  {
    assert Apply(s, Crash) == s.(phase := Idle);
    StepThenSettles(s, Crash, id);
  }

  /** The row still honours its current lease: it is being processed, or its attempts ran out meanwhile. */
  predicate Honours(s: State, id: Id, lease: Lease) {
    id in s.rows && s.rows[id].token == Some(lease) &&
    (s.rows[id].status == Processing || (s.rows[id].status == Uncertain && s.rows[id].fault == AttemptLimit))
  }

  lemma MailedSettles(s: State, id: Id)
    requires s.phase.Journalled? && s.phase.job.id == id && Honours(s, id, s.phase.job.lease)
    ensures Settles(s, id)
  {
    var called := Apply(s, CallMail);
    var answered := Apply(called, MailAnswers(true));
    var recorded := Apply(answered, RecordAnswer);
    assert recorded.phase == Idle && recorded.rows == s.rows;
    ConfirmableSettles(recorded, id);
    StepThenSettles(answered, RecordAnswer, id);
    StepThenSettles(called, MailAnswers(true), id);
    StepThenSettles(s, CallMail, id);
  }

  /** A job for the receipt's payload is taken up. */
  lemma HeldSettles(s: State, id: Id)
    requires s.phase.Holding? && s.phase.job.id == id && id in s.journal && s.phase.job.payload == s.journal[id].payload
    requires Honours(s, id, s.phase.job.lease)
    ensures Settles(s, id)
  {
    var taken := Apply(s, OpenReceipt);
    if taken.phase == Idle {
      ConfirmableSettles(taken, id);
    } else {
      MailedSettles(taken, id);
    }
    StepThenSettles(s, OpenReceipt, id);
  }

  lemma AnswerableSettles(s: State, id: Id)
    requires GlobalInv(s) && id in s.journal && Answerable(s, id) && Honours(s, id, s.rows[id].token.value)
    ensures Settles(s, id)
  {
    if s.phase.Holding? {
      HeldSettles(s, id);
    } else {
      var lease := s.rows[id].token.value;
      HeldSettles(Apply(s, Receive(lease)), id);
      StepThenSettles(s, Receive(lease), id);
    }
  }

  /** A current claim's row honours it, unless the receipt has its lease already. */
  lemma CurrentClaimHonoured(s: State, id: Id)
    requires RowInv(s, id) && Fits(s, id) && id in s.rows && s.rows[id].token.Some?
    requires id in s.journal && s.rows[id].token != Some(s.journal[id].lease)
    ensures Honours(s, id, s.rows[id].token.value)
  {
  }

  // ---- a row that can be claimed gets its turn ----

  function EligibleIds(s: State): set<Id> {
    set id | id in s.rows && Eligible(s.rows[id], s.now)
  }

  lemma {:induction false} LeastEligible(s: State, ids: set<Id>) returns (least: Id)
    requires ids != {} && ids <= EligibleIds(s)
    ensures least in ids && forall id :: id in ids ==> Before(s.rows, least, id)
    decreases |ids|
  {
    var some :| some in ids;
    if ids == {some} {
      least := some;
    } else {
      var rest := LeastEligible(s, ids - {some});
      least := if Before(s.rows, rest, some) then rest else some;
      forall id | id in ids ensures Before(s.rows, least, id) {
        assert id == some || id in ids - {some};
      }
    }
  }

  /** The worker waits for a job; the row is eligible, but others may come first. */
  predicate Queued(s: State, id: Id) {
    && s.phase.Waiting? && s.phase.floor <= s.nextLease
    && id in s.journal && id in s.rows && s.rows[id].payload == s.journal[id].payload && Eligible(s.rows[id], s.now)
  }

  /** Claiming one row leaves the other eligible rows eligible, and itself not. */
  lemma ClaimShrinks(s: State, pick: Id, id: Id)
    requires Enabled(s, ClaimNext(Some(pick))) && pick != id && Queued(s, id)
    ensures var t := Apply(s, ClaimNext(Some(pick))); Queued(t, id) && EligibleIds(t) < EligibleIds(s)
  {
    var t := Apply(s, ClaimNext(Some(pick)));
    assert pick in EligibleIds(s) && pick !in EligibleIds(t);
    assert EligibleIds(t) <= EligibleIds(s);
  }

  lemma TurnSettles(s: State, id: Id)
    requires GlobalInv(s) && Queued(s, id) && Enabled(s, ClaimNext(Some(id)))
    requires GlobalInv(Apply(s, ClaimNext(Some(id))))
    ensures Settles(s, id)
  {
    var t := Apply(s, ClaimNext(Some(id)));
    assert Answerable(t, id) && Honours(t, id, t.rows[id].token.value);
    AnswerableSettles(t, id);
    StepThenSettles(s, ClaimNext(Some(id)), id);
  }

  lemma {:induction false} QueuedSettles(s: State, id: Id)
    requires Inv(s) && Queued(s, id)
    ensures Settles(s, id)
    decreases EligibleIds(s)
  {
    assert id in EligibleIds(s);
    var pick := LeastEligible(s, EligibleIds(s));
    assert Selected(s.rows, s.now, pick) by {
      forall other | other in s.rows && Eligible(s.rows[other], s.now) ensures Before(s.rows, pick, other) {
        assert other in EligibleIds(s);
      }
    }
    assert pick in EligibleIds(s);
    assert Enabled(s, ClaimNext(Some(pick)));
    StepKeeps(s, ClaimNext(Some(pick)));
    hide Apply, Enabled, Eligible, Settles, EligibleIds, GlobalInv, JournalInv, RowInv, AckInv, ReceiptInv,
        ConfirmedInv;
    if pick == id {
      TurnSettles(s, id);
    } else {
      ClaimShrinks(s, pick, id);
      QueuedSettles(Apply(s, ClaimNext(Some(pick))), id);
      StepThenSettles(s, ClaimNext(Some(pick)), id);
    }
  }

  function Later(a: int, b: int): int { if a < b then b else a }

  /** When the row becomes eligible. */
  function Due(row: Row): int {
    Later(row.nextAttempt, if row.leaseUntil.Some? then row.leaseUntil.value else row.nextAttempt)
  }

  lemma ReclaimableSettles(s: State, id: Id)
    requires Inv(s) && Fits(s, id) && s.phase == Idle && id in s.journal && Reclaimable(s, id)
    ensures Settles(s, id)
  {
    var later := Later(s.now, Due(s.rows[id]));
    var ticked := Apply(s, Tick(later));
    StepKeeps(s, Tick(later));
    var asking := Apply(ticked, AskClaim);
    StepKeeps(ticked, AskClaim);
    assert Queued(asking, id);
    hide Inv, Queued, Settles;
    QueuedSettles(asking, id);
    StepThenSettles(ticked, AskClaim, id);
    StepThenSettles(s, Tick(later), id);
  }

  // ---- a row that is gone can come back ----

  /** A sender without stored intakes. */
  lemma {:induction false} NewSender(rows: Table, ids: set<Id>) returns (hash: nat)
    requires ids <= rows.Keys
    ensures forall id :: id in ids ==> rows[id].ipHash < hash
    decreases |ids|
  {
    if ids == {} {
      hash := 0;
    } else {
      var some :| some in ids;
      var rest := NewSender(rows, ids - {some});
      hash := if rows[some].ipHash < rest then rest else rows[some].ipHash + 1;
    }
  }

  lemma AbsentSettles(s: State, id: Id)
    requires Inv(s) && s.phase == Idle && id in s.journal && id !in s.rows
    ensures Settles(s, id)
  {
    var hash := NewSender(s.rows, s.rows.Keys);
    var step := Insert(id, s.journal[id].payload, hash, s.now);
    assert Recent(s.rows, hash, s.now - RATE_WINDOW_MS) == {};
    var t := Apply(s, step);
    assert id in t.rows && t.rows[id] == NewRow(s.journal[id].payload, hash, s.now);
    assert Reclaimable(t, id) && Fits(t, id);
    StepKeeps(s, step);
    hide Inv, Reclaimable, Fits, Settles;
    ReclaimableSettles(t, id);
    StepThenSettles(s, step, id);
  }

  // ---- the exact condition ----

  lemma IdleKeeps(s: State, id: Id)
    requires Inv(s) && Fits(s, id)
    ensures Inv(s.(phase := Idle)) && Fits(s.(phase := Idle), id)
  {
    assert Apply(s, Crash) == s.(phase := Idle);
    StepKeeps(s, Crash);
    StepKeepsFits(s, Crash, id);
  }

  lemma CanSettleSettles(s: State, id: Id)
    requires Inv(s) && Fits(s, id) && id in s.journal && !s.journal[id].acknowledged && CanSettle(s, id)
    ensures Settles(s, id)
  {
    hide Settles;
    var idle := s.(phase := Idle);
    IdleKeeps(s, id);
    assert RowInv(s, id) && AckFor(idle, id) == AckFor(s, id);
    if AckFor(s, id) in s.confirmed {
      ConfirmedSettles(idle, id);
      CrashSettles(s, id);
    } else if Confirmable(s, AckFor(s, id)) {
      ConfirmableSettles(idle, id);
      CrashSettles(s, id);
    } else if id !in s.rows {
      AbsentSettles(idle, id);
      CrashSettles(s, id);
    } else if Reclaimable(s, id) {
      ReclaimableSettles(idle, id);
      CrashSettles(s, id);
    } else {
      UnsettledClaim(s, id);
      CurrentClaimHonoured(s, id);
      AnswerableSettles(s, id);
    }
  }

  /** A current claim whose receipt would not be confirmed is not the receipt's. */
  lemma UnsettledClaim(s: State, id: Id)
    requires GlobalInv(s) && id in s.journal && Answerable(s, id)
    ensures s.rows[id].token != Some(s.journal[id].lease)
  {
  }

  lemma SettlesMeansCanSettle(s: State, id: Id)
    requires Inv(s) && Fits(s, id) && id in s.journal && !s.journal[id].acknowledged && Settles(s, id)
    ensures CanSettle(s, id)
  {
    hide Inv, Fits, CanSettle;
    var steps :| CanRun(s, steps) && Acknowledged(RunFrom(s, steps), id);
    if !CanSettle(s, id) {
      StuckForGood(s, steps, id);
    }
  }

  /**
   In every reachable state, an unacknowledged receipt is acknowledged in some
   continuation if and only if its acknowledgement was or would be confirmed now,
   or it can still get the lease of a claim: its row is gone and may be sent in
   again, can be claimed again with the same payload, or has a current claim whose
   answer the worker may still receive.
   */
  lemma SettlesIff(s: State, id: Id)
    requires Reaches(START, s) && id in s.journal && !s.journal[id].acknowledged
    ensures Settles(s, id) <==> CanSettle(s, id)
  {
    hide Settles, CanSettle, Inv, Fits, Reaches;
    ReachableFits(s, id);
    if CanSettle(s, id) {
      CanSettleSettles(s, id);
    }
    if Settles(s, id) {
      SettlesMeansCanSettle(s, id);
    }
  }

  // ---- runs that leave a receipt stuck ----

  /** How the only call of `mail()` in the run below ends: with an answer, or with the process dying in it. */
  datatype Ending = Answer(queued: bool) | Dies

  function MarkAfter(e: Ending): Mark {
    if e.Dies? then Sending else if e.queued then MarkedAccepted else MarkedRetry
  }

  function CallAfter(e: Ending): Call {
    if e.Dies? then Unknown else if e.queued then MailWorker.Queued else Refused
  }

  /** One intake, claimed once for real and `lost` times with the answer lost, each time after the lease ran out. */
  function Story(p: Payload, e: Ending, lost: nat): State {
    State(600000 * lost,
          map[0 := Row(p, 0, 0, Processing, lost + 1, 0, Some(lost), Some(600000 * lost + 600000), None, NoFault)],
          lost + 1, StoryClaims(p, lost), map[], map[0 := Receipt(0, p, MarkAfter(e), false)],
              map[0 := [CallAfter(e)]], Idle, {}, {})
  }

  function StoryClaims(p: Payload, lost: nat): map<Lease, Claim> {
    map l: Lease | 0 <= l <= lost :: Claim(Job(0, p, l + 1, l), 600000 * l)
  }

  lemma StoryClaimsGrow(p: Payload, lost: nat)
    ensures StoryClaims(p, 0) == map[0 := Claim(Job(0, p, 1, 0), 0)]
    ensures StoryClaims(p, lost + 1) ==
            StoryClaims(p, lost)[lost + 1 := Claim(Job(0, p, lost + 2, lost + 1), 600000 * (lost + 1))]
  {
  }

  /** The state once the worker has the job of the first claim. */
  function StoryHeld(p: Payload): State {
    State(0, map[0 := Row(p, 0, 0, Processing, 1, 0, Some(0), Some(600000), None, NoFault)],
          1, StoryClaims(p, 0), map[], map[], map[], Holding(Job(0, p, 1, 0)), {}, {})
  }

  lemma StoryBegins(p: Payload)
    ensures Reaches(START, StoryHeld(p))
  {
    var s1 := Apply(START, Insert(0, p, 0, 0));
    assert Recent(START.rows, 0, -RATE_WINDOW_MS) == {};
    assert s1.rows == map[0 := NewRow(p, 0, 0)];
    var s2 := Apply(s1, AskClaim);
    assert Enabled(s2, ClaimNext(Some(0)));
    var s3 := Apply(s2, ClaimNext(Some(0)));
    assert s3.rows == StoryHeld(p).rows;
    StoryClaimsGrow(p, 0);
    assert Apply(s3, Receive(0)) == StoryHeld(p);
    hide Reaches;
    StepReaches(START, Insert(0, p, 0, 0));
    StepReaches(s1, AskClaim);
    StepReaches(s2, ClaimNext(Some(0)));
    StepReaches(s3, Receive(0));
    hide Apply, StoryHeld;
    ReachesOn(START, s1, s2);
    ReachesOn(START, s2, s3);
    ReachesOn(START, s3, StoryHeld(p));
  }

  /** The state inside the only call of `mail()`. */
  function StoryMailing(p: Payload): State {
    StoryHeld(p).(journal := map[0 := Receipt(0, p, Sending, false)], calls := map[0 := [Unknown]],
                  phase := Mailing(Job(0, p, 1, 0)))
  }

  lemma StoryCalls(p: Payload)
    ensures Reaches(START, StoryMailing(p))
  {
    StoryBegins(p);
    var held := StoryHeld(p);
    var journalled := Apply(held, OpenReceipt);
    assert journalled.journal == map[0 := Receipt(0, p, Sending, false)]
           && journalled.phase == Journalled(Job(0, p, 1, 0));
    assert CallsOf(journalled, 0) + [Unknown] == [Unknown];
    assert Apply(journalled, CallMail) == StoryMailing(p);
    hide Reaches;
    StepReaches(held, OpenReceipt);
    StepReaches(journalled, CallMail);
    ReachesOn(START, held, journalled);
    ReachesOn(START, journalled, StoryMailing(p));
  }

  /** The job is mailed, once, and the answer, if there is one, goes to the journal. */
  lemma StoryMailed(p: Payload, e: Ending)
    ensures Reaches(START, Story(p, e, 0))
  {
    StoryCalls(p);
    var mailing := StoryMailing(p);
    if e.Dies? {
      assert Apply(mailing, Crash) == Story(p, e, 0);
      hide Reaches;
      StepReaches(mailing, Crash);
      ReachesOn(START, mailing, Story(p, e, 0));
    } else {
      var answered := Apply(mailing, MailAnswers(e.queued));
      assert [Unknown][..0] + [CallAfter(e)] == [CallAfter(e)];
      assert answered.calls == map[0 := [CallAfter(e)]];
      assert Apply(answered, RecordAnswer) == Story(p, e, 0);
      hide Reaches;
      StepReaches(mailing, MailAnswers(e.queued));
      StepReaches(answered, RecordAnswer);
      ReachesOn(START, mailing, answered);
      ReachesOn(START, answered, Story(p, e, 0));
    }
  }

  /** The lease runs out and the next claim's answer is lost. */
  lemma StoryLoses(p: Payload, e: Ending, lost: nat)
    requires lost < 11
    ensures Reaches(Story(p, e, lost), Story(p, e, lost + 1))
  {
    var s := Story(p, e, lost);
    var ticked := Apply(s, Tick(600000 * (lost + 1)));
    assert Enabled(ticked, ClaimNext(Some(0)));
    StoryClaimsGrow(p, lost);
    var t := Apply(ticked, ClaimNext(Some(0)));
    assert t.rows == Story(p, e, lost + 1).rows;
    assert t == Story(p, e, lost + 1);
    hide Reaches, Story;
    StepReaches(s, Tick(600000 * (lost + 1)));
    StepReaches(ticked, ClaimNext(Some(0)));
    ReachesOn(s, ticked, t);
  }

  lemma {:induction false} StoryGoesOn(p: Payload, e: Ending, lost: nat)
    requires lost <= 11
    ensures Reaches(START, Story(p, e, lost))
  {
    hide Reaches, Story;
    if lost == 0 {
      StoryMailed(p, e);
    } else {
      StoryGoesOn(p, e, lost - 1);
      StoryLoses(p, e, lost - 1);
      ReachesOn(START, Story(p, e, lost - 1), Story(p, e, lost));
    }
  }

  /** The end of the story: the next poll finds the attempts used up. */
  function StoryEnd(p: Payload, e: Ending): State {
    Story(p, e, 11).(now := 7200000,
      rows := map[0 := Row(p, 0, 0, Uncertain, 12, 0, Some(11), None, None, AttemptLimit)])
  }

  lemma StoryEnds(p: Payload, e: Ending)
    ensures Reaches(START, StoryEnd(p, e))
  {
    StoryGoesOn(p, e, 11);
    var s := Story(p, e, 11);
    var ticked := Apply(s, Tick(7200000));
    assert Enabled(ticked, ClaimNext(None));
    var t := Apply(ticked, ClaimNext(None));
    assert t.rows == StoryEnd(p, e).rows;
    assert t == StoryEnd(p, e);
    hide Reaches, Story;
    StepReaches(s, Tick(7200000));
    StepReaches(ticked, ClaimNext(None));
    ReachesOn(START, s, ticked);
    ReachesOn(START, ticked, t);
  }

  /**
   Not every receipt is acknowledged in the end. An intake is mailed under its
   first lease; eleven later claims get lost, and the attempts run out. Whatever
   became of the one call of `mail()`, queued, refused or unknown, the receipt
   reports it under a lease the table no longer honours, in every continuation.
   */
  lemma SomeReceiptsAreStuck(p: Payload, e: Ending)
    ensures var s := StoryEnd(p, e);
            && Reaches(START, s) && 0 in s.journal && !s.journal[0].acknowledged
            && s.journal[0].mark == MarkAfter(e) && CallsOf(s, 0) == [CallAfter(e)]
            && !Confirmable(s, AckFor(s, 0)) && !Settles(s, 0)
  {
    hide Reaches, Settles;
    StoryEnds(p, e);
    assert !CanSettle(StoryEnd(p, e), 0);
    SettlesIff(StoryEnd(p, e), 0);
  }
}
