/** What deliveries do reach: a mail that is sent and acknowledged, and twelve refused calls for one intake. */
module DeliveryReached {
  import opened Prelude
  import opened IntakeTable
  import opened MailWorker
  import opened DeliveryProtocol
  import opened DeliveryLimits
  import opened DeliverySettling

  // ---- a delivery that completes mails ----

  /** Nothing is known of the intake, or its last mail was refused. */
  predicate Unsent(journal: Journal, job: Job) {
    job.id in journal ==> journal[job.id].payload == job.payload && journal[job.id].mark == MarkedRetry
  }

  /**
   The worker that holds a job for an intake that is not sent opens the receipt,
   calls `mail()` once and records its answer; it never stops before the call of its
   own accord.
   */
  lemma UnsentIsMailed(s: State, queued: bool)
    requires s.phase.Holding? && Unsent(s.journal, s.phase.job)
    ensures var job := s.phase.job;
            var steps := [OpenReceipt, CallMail, MailAnswers(queued), RecordAnswer];
            CanRun(s, steps) &&
            var t := RunFrom(s, steps);
            && CallsOf(t, job.id) == CallsOf(s, job.id) + [if queued then MailWorker.Queued else Refused]
            && job.id in t.journal && t.phase == Idle
            && t.journal[job.id] == Receipt(job.lease, job.payload, if queued then MarkedAccepted
                                            else MarkedRetry, false)
  {
    var job := s.phase.job;
    var journalled := Apply(s, OpenReceipt);
    assert journalled.phase == Journalled(job);
    var mailing := Apply(journalled, CallMail);
    var answered := Apply(mailing, MailAnswers(queued));
    assert CallsOf(mailing, job.id) == CallsOf(s, job.id) + [Unknown];
    assert (CallsOf(s, job.id) + [Unknown])[..|CallsOf(s, job.id)|] == CallsOf(s, job.id);
    FourSteps(s, OpenReceipt, CallMail, MailAnswers(queued), RecordAnswer);
  }

  lemma FourSteps(s: State, a: Step, b: Step, c: Step, d: Step)
    requires Enabled(s, a) && Enabled(Apply(s, a), b) && Enabled(Apply(Apply(s, a), b), c)
    requires Enabled(Apply(Apply(Apply(s, a), b), c), d)
    ensures CanRun(s, [a, b, c, d]) && RunFrom(s, [a, b, c, d]) == Apply(Apply(Apply(Apply(s, a), b), c), d)
  {
    hide Apply, Enabled;
    var s1 := Apply(s, a);
    var s2 := Apply(s1, b);
    var s3 := Apply(s2, c);
    OneStep(s, a);
    OneStep(s1, b);
    OneStep(s2, c);
    OneStep(s3, d);
    RunConcat(s2, [c], [d]);
    RunConcat(s1, [b], [c] + [d]);
    RunConcat(s, [a], [b] + ([c] + [d]));
    assert [a] + ([b] + ([c] + [d])) == [a, b, c, d];
  }

  // ---- twelve refused calls ----

  /** The intake was claimed and mailed `k` times, each time refused; each lease ran out before the next claim. */
  function Refusals(p: Payload, k: nat): State
    requires k >= 1
  {
    State(600000 * (k - 1),
          map[0 := Row(p, 0, 0, Processing, k, 0, Some(k - 1), Some(600000 * k), None, NoFault)],
          k, StoryClaims(p, k - 1), map[], map[0 := Receipt(k - 1, p, MarkedRetry, false)],
          map[0 := seq(k, i => Refused)], Idle, {}, {})
  }

  /** The worker has the next job. */
  function NextHeld(p: Payload, k: nat): State
    requires k >= 1
  {
    State(600000 * k,
          map[0 := Row(p, 0, 0, Processing, k + 1, 0, Some(k), Some(600000 * (k + 1)), None, NoFault)],
          k + 1, StoryClaims(p, k), map[], map[0 := Receipt(k - 1, p, MarkedRetry, false)],
          map[0 := seq(k, i => Refused)], Holding(Job(0, p, k + 1, k)), {}, {})
  }

  lemma NextIsHeld(p: Payload, k: nat)
    requires 1 <= k < 12
    ensures Reaches(Refusals(p, k), NextHeld(p, k))
  {
    var s := Refusals(p, k);
    var ticked := Apply(s, Tick(600000 * k));
    var asked := Apply(ticked, AskClaim);
    assert Enabled(asked, ClaimNext(Some(0)));
    StoryClaimsGrow(p, k - 1);
    var claimed := Apply(asked, ClaimNext(Some(0)));
    assert claimed.rows == NextHeld(p, k).rows;
    assert Apply(claimed, Receive(k)) == NextHeld(p, k);
    hide Reaches;
    StepReaches(s, Tick(600000 * k));
    StepReaches(ticked, AskClaim);
    StepReaches(asked, ClaimNext(Some(0)));
    StepReaches(claimed, Receive(k));
    hide Apply, Refusals, NextHeld;
    ReachesOn(s, ticked, asked);
    ReachesOn(s, asked, claimed);
    ReachesOn(s, claimed, NextHeld(p, k));
  }

  lemma NextIsRefused(p: Payload, k: nat)
    requires 1 <= k < 12
    ensures Reaches(NextHeld(p, k), Refusals(p, k + 1))
  {
    var s := NextHeld(p, k);
    UnsentIsMailed(s, false);
    var steps := [OpenReceipt, CallMail, MailAnswers(false), RecordAnswer];
    MailKeepsRest(s, false);
    var t := RunFrom(s, steps);
    assert seq(k + 1, i => Refused) == seq(k, i => Refused) + [Refused];
    assert t.journal == Refusals(p, k + 1).journal && t.calls == Refusals(p, k + 1).calls;
    assert t == Refusals(p, k + 1);
  }

  /** A delivery touches nothing but the intake's receipt and calls. */
  lemma MailKeepsRest(s: State, queued: bool)
    requires s.phase.Holding? && Unsent(s.journal, s.phase.job)
    ensures var steps := [OpenReceipt, CallMail, MailAnswers(queued), RecordAnswer];
            CanRun(s, steps) &&
            var t := RunFrom(s, steps);
            && t == s.(journal := t.journal, calls := t.calls, phase := Idle)
            && (forall id :: id != s.phase.job.id ==> (id in t.journal <==> id in s.journal)
                                                      && (id in t.calls <==> id in s.calls))
            && (forall id :: id != s.phase.job.id && id in t.journal ==> t.journal[id] == s.journal[id])
            && (forall id :: id != s.phase.job.id && id in t.calls ==> t.calls[id] == s.calls[id])
            && s.phase.job.id in t.calls
  {
    UnsentIsMailed(s, queued);
    FourSteps(s, OpenReceipt, CallMail, MailAnswers(queued), RecordAnswer);
  }

  lemma {:induction false} RefusalsAreReached(p: Payload, k: nat)
    requires 1 <= k <= 12
    ensures Reaches(START, Refusals(p, k))
  {
    hide Reaches, NextHeld;
    if k == 1 {
      StoryMailed(p, Answer(false));
      FirstRefusal(p);
    } else {
      RefusalsAreReached(p, k - 1);
      NextIsHeld(p, k - 1);
      NextIsRefused(p, k - 1);
      hide Refusals;
      ReachesOn(Refusals(p, k - 1), NextHeld(p, k - 1), Refusals(p, k));
      ReachesOn(START, Refusals(p, k - 1), Refusals(p, k));
    }
  }

  lemma FirstRefusal(p: Payload)
    ensures Refusals(p, 1) == Story(p, Answer(false), 0)
  {
    assert seq(1, i => Refused) == [Refused];
  }

  /** The bound of twelve calls is reached: every claim of an intake whose mails are refused leads to another call. */
  lemma TwelveCallsHappen(p: Payload)
    ensures var s := Refusals(p, 12);
            && Reaches(START, s) && |CallsOf(s, 0)| == 12 && (forall i :: 0 <= i < 12 ==> CallsOf(s, 0)[i] == Refused)
            && s.rows[0].attempts == 12
  {
    RefusalsAreReached(p, 12);
  }

  // ---- a mail that is sent, acknowledged and accepted ----

  function Acknowledgement(p: Payload, queued: bool): Ack {
    Ack(0, 0, if queued then OutcomeAccepted else OutcomeRetry)
  }

  /** The intake after its first mail was answered, the table told so, and the receipt settled. */
  function Told(p: Payload, queued: bool): State {
    State(0, map[0 := if queued then Row(p, 0, 0, Accepted, 1, 120000, Some(0), None, Some(0), NoFault)
                      else Row(p, 0, 0, Retry, 1, 120000, Some(0), None, None, LocalRejected)],
          1, StoryClaims(p, 0), if queued then map[] else map[0 := 0],
          map[0 := Receipt(0, p, if queued then MarkedAccepted else MarkedRetry, true)],
          map[0 := [if queued then MailWorker.Queued else Refused]], Idle,
          {Acknowledgement(p, queued)}, {Acknowledgement(p, queued)})
  }

  /**
   The whole way of an intake: sent in, claimed, mailed and acknowledged. A queued
   mail makes its row accepted; a refused one makes it wait two minutes.
   */
  lemma AnIntakeIsSettled(p: Payload, queued: bool)
    ensures Reaches(START, Told(p, queued))
  {
    var s := Story(p, Answer(queued), 0);
    var a := Acknowledgement(p, queued);
    StoryMailed(p, Answer(queued));
    var sent := Apply(s, SendAck(0));
    assert sent.acks == {a};
    BackoffDoubles(1);
    var taken := Apply(sent, AckArrives(a));
    assert taken.rows == Told(p, queued).rows;
    assert taken.confirmed == {a};
    assert Apply(taken, ReadConfirmation(0)) == Told(p, queued);
    hide Reaches;
    StepReaches(s, SendAck(0));
    StepReaches(sent, AckArrives(a));
    StepReaches(taken, ReadConfirmation(0));
    hide Apply, Story, Told;
    ReachesOn(START, s, sent);
    ReachesOn(START, sent, taken);
    ReachesOn(START, taken, Told(p, queued));
  }
}
