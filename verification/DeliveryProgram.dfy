/** The worker's methods are runs of the delivery machine. */
module DeliveryProgram {
  import opened Prelude
  import opened IntakeTable
  import opened MailWorker
  import opened DeliveryProtocol
  import opened DeliveryLimits

  // ---- deliver ----

  /** `OpenReceipt`, `CallMail`, `MailAnswers`, `RecordAnswer` in this order, cut short by `Crash` at `stop`. */
  function DeliverRun(s: State, queued: bool, stop: Stop): State
    requires s.phase.Holding?
  {
    if stop == BeforeJournal then s.(phase := Idle)
    else
      var s1 := AfterOpen(s);
      if s1.phase == Idle then s1
      else if stop == BeforeMail then s1.(phase := Idle)
      else
        var s2 := AfterCall(s1);
        if stop == InMail then s2.(phase := Idle)
        else
          var s3 := AfterAnswer(s2, queued);
          if stop == AfterMail then s3.(phase := Idle) else AfterRecord(s3)
  }

  lemma RecordedAfterOpening(journal: Journal, job: Job, queued: bool)
    requires Decide(journal, job) == Proceed
    ensures Recorded(Opened(journal, job), job, queued) == Recorded(journal, job, queued)
  {
  }

  /** The journal after a delivery that goes ahead and mails. */
  lemma MailedJournal(s: State, queued: bool)
    requires s.phase.Journalled?
    ensures AfterRecord(AfterAnswer(AfterCall(s), queued)).journal == Recorded(s.journal, s.phase.job, queued)
  {
  }

  /** A delivery ends idle and touches neither the table nor the acknowledgements. */
  lemma DeliverKeepsTable(s: State, queued: bool, stop: Stop)
    requires s.phase.Holding?
    ensures var t := DeliverRun(s, queued, stop);
            t.phase == Idle && t.rows == s.rows && t.acks == s.acks
  {
    if stop != BeforeJournal && AfterOpen(s).phase != Idle {
      var called := AfterCall(AfterOpen(s));
      assert called.rows == s.rows && called.acks == s.acks;
    }
  }

  lemma CalledJournal(s: State, queued: bool)
    requires s.phase.Journalled?
    ensures AfterAnswer(AfterCall(s), queued).journal == s.journal
  {
  }

  /** `Worker.Deliver` promises of the journal what those steps leave on disk, wherever the process dies. */
  lemma DeliverJournalIsARun(s: State, queued: bool, stop: Stop)
    requires s.phase.Holding?
    ensures DeliverRun(s, queued, stop).journal ==
              if stop == BeforeJournal then s.journal
              else if Decide(s.journal, s.phase.job) == Proceed && stop == Completes
              then Recorded(s.journal, s.phase.job, queued)
              else Opened(s.journal, s.phase.job)
  {
    if stop != BeforeJournal && Decide(s.journal, s.phase.job) == Proceed {
      if stop == Completes {
        RecordedAfterOpening(s.journal, s.phase.job, queued);
        MailedJournal(AfterOpen(s), queued);
      } else if stop == AfterMail {
        CalledJournal(AfterOpen(s), queued);
      }
    }
  }

  /** And of the calls of `mail()` what those steps did. */
  lemma DeliverCallsAreARun(s: State, queued: bool, stop: Stop)
    requires s.phase.Holding?
    ensures DeliverRun(s, queued, stop).calls ==
            if Decide(s.journal, s.phase.job) != Proceed || stop in {BeforeJournal, BeforeMail} then s.calls
            else s.calls[s.phase.job.id := CallsOf(s, s.phase.job.id) +
                   [if stop == InMail then Unknown else if queued then Queued else Refused]]
  {
    var job := s.phase.job;
    if Decide(s.journal, job) == Proceed {
      var h := CallsOf(s, job.id);
      var c := if queued then Queued else Refused;
      assert (h + [Unknown])[..|h|] == h;
      assert s.calls[job.id := h + [Unknown]][job.id := h + [c]] == s.calls[job.id := h + [c]];
    }
  }

  /** The steps a delivery performs, ended by the process's death where it stops early. */
  function DeliverSteps(s: State, queued: bool, stop: Stop): seq<Step>
    requires s.phase.Holding?
  {
    if stop == BeforeJournal then [Crash]
    else if Decide(s.journal, s.phase.job) != Proceed then [OpenReceipt]
    else if stop == BeforeMail then [OpenReceipt, Crash]
    else if stop == InMail then [OpenReceipt, CallMail, Crash]
    else if stop == AfterMail then [OpenReceipt, CallMail, MailAnswers(queued), Crash]
    else [OpenReceipt, CallMail, MailAnswers(queued), RecordAnswer]
  }

  lemma TwoSteps(s: State, a: Step, b: Step)
    requires Enabled(s, a) && Enabled(Apply(s, a), b)
    ensures CanRun(s, [a, b]) && RunFrom(s, [a, b]) == Apply(Apply(s, a), b)
  {
    hide Apply, Enabled;
    OneStep(s, a);
    OneStep(Apply(s, a), b);
    RunConcat(s, [a], [b]);
    assert [a] + [b] == [a, b];
  }

  lemma DeliverStepsRun(s: State, queued: bool, stop: Stop)
    requires s.phase.Holding?
    ensures CanRun(s, DeliverSteps(s, queued, stop))
            && RunFrom(s, DeliverSteps(s, queued, stop)) == DeliverRun(s, queued, stop)
  {
    var open := Apply(s, OpenReceipt);
    if stop == BeforeJournal {
      OneStep(s, Crash);
    } else if Decide(s.journal, s.phase.job) != Proceed {
      OneStep(s, OpenReceipt);
    } else if stop == BeforeMail {
      TwoSteps(s, OpenReceipt, Crash);
    } else {
      TwoSteps(s, OpenReceipt, CallMail);
      MailStepsRun(Apply(open, CallMail), queued, stop);
      var rest := MailSteps(queued, stop);
      RunConcat(s, [OpenReceipt, CallMail], rest);
      assert [OpenReceipt, CallMail] + rest == DeliverSteps(s, queued, stop);
    }
  }

  function MailSteps(queued: bool, stop: Stop): seq<Step> {
    if stop == InMail then [Crash] else [MailAnswers(queued), if stop == AfterMail then Crash else RecordAnswer]
  }

  lemma MailStepsRun(s: State, queued: bool, stop: Stop)
    requires s.phase.Mailing?
    ensures CanRun(s, MailSteps(queued, stop))
    ensures RunFrom(s, MailSteps(queued, stop)) ==
              if stop == InMail then s.(phase := Idle)
              else if stop == AfterMail then AfterAnswer(s, queued).(phase := Idle)
              else AfterRecord(AfterAnswer(s, queued))
  {
    if stop == InMail {
      OneStep(s, Crash);
    } else {
      TwoSteps(s, MailAnswers(queued), if stop == AfterMail then Crash else RecordAnswer);
    }
  }

  /**
   `Worker.Deliver` is a run: its steps are enabled one after another, and journal
   and calls end as the method's contract says, wherever the process dies.
   */
  lemma DeliverIsARun(s: State, queued: bool, stop: Stop)
    requires s.phase.Holding?
    ensures CanRun(s, DeliverSteps(s, queued, stop))
    ensures var t := RunFrom(s, DeliverSteps(s, queued, stop));
            var job := s.phase.job;
            && t.phase == Idle && t.rows == s.rows && t.acks == s.acks
            && t.journal == (if stop == BeforeJournal then s.journal
                             else if Decide(s.journal, job) == Proceed && stop == Completes
                                 then Recorded(s.journal, job, queued)
                             else Opened(s.journal, job))
            && t.calls == if Decide(s.journal, job) != Proceed || stop in {BeforeJournal, BeforeMail} then s.calls
                          else s.calls[job.id := CallsOf(s, job.id) +
                                 [if stop == InMail then Unknown else if queued then Queued else Refused]]
  {
    hide DeliverRun;
    DeliverStepsRun(s, queued, stop);
    DeliverKeepsTable(s, queued, stop);
    DeliverJournalIsARun(s, queued, stop);
    DeliverCallsAreARun(s, queued, stop);
  }

  // ---- flush ----

  /** One receipt's acknowledgement is sent and executed, and a confirmation read. */
  ghost function FlushedFile(s: State, id: Id): State
    requires s.phase == Idle && id in s.journal
  {
    if s.journal[id].acknowledged then s
    else
      var arrived := Apply(Apply(s, SendAck(id)), AckArrives(AckFor(s, id)));
      if Confirmable(s, AckFor(s, id)) then Apply(arrived, ReadConfirmation(id)) else arrived
  }

  lemma FlushFileRuns(s: State, id: Id)
    requires s.phase == Idle && id in s.journal
    ensures var t := FlushedFile(s, id);
            && Reaches(s, t) && t.phase == Idle && t.journal.Keys == s.journal.Keys
            && t.journal == if !s.journal[id].acknowledged && Confirmable(s, AckFor(s, id))
                            then s.journal[id := ConfirmedReceipt(s.journal[id])] else s.journal
  {
    if s.journal[id].acknowledged {
      ReachesSelf(s);
    } else {
      var a := AckFor(s, id);
      var sent := Apply(s, SendAck(id));
      var arrived := Apply(sent, AckArrives(a));
      StepReaches(s, SendAck(id));
      StepReaches(sent, AckArrives(a));
      if Confirmable(s, a) {
        assert AckFor(arrived, id) in arrived.confirmed;
        StepReaches(arrived, ReadConfirmation(id));
      }
      hide Reaches;
      ReachesOn(s, sent, arrived);
      if Confirmable(s, a) {
        ReachesOn(s, arrived, Apply(arrived, ReadConfirmation(id)));
      }
    }
  }

  /** The machine's state after the first `n` files. */
  ghost function FlushRun(s: State, files: seq<Id>, n: nat): (t: State)
    requires n <= |files| && s.phase == Idle && forall id :: id in files ==> id in s.journal
    ensures t.phase == Idle && t.journal.Keys == s.journal.Keys
  {
    if n == 0 then s
    else
      var before := FlushRun(s, files, n - 1);
      FlushFileRuns(before, files[n - 1]);
      FlushedFile(before, files[n - 1])
  }

  /** The answers are those the table gives when the worker asks. */
  ghost predicate AnswersTable(s: State, files: seq<Id>, replies: map<Id, Reply>, n: nat)
    requires n <= |files| && s.phase == Idle && forall id :: id in files ==> id in s.journal
  {
    forall k :: 0 <= k < n ==>
      var before := FlushRun(s, files, k);
      files[k] in replies && (replies[files[k]] == Confirmed <==> Confirmable(before, AckFor(before, files[k])))
  }

  /** `Worker.Flush` is a run: against the table's own answers it leaves the journal that the machine's steps leave. */
  lemma {:induction false} FlushIsARun(s: State, files: seq<Id>, replies: map<Id, Reply>, n: nat)
    requires n <= |files| && s.phase == Idle && (forall id :: id in files ==> id in s.journal)
    requires AnswersTable(s, files, replies, n)
    ensures Reaches(s, FlushRun(s, files, n))
    ensures FlushRun(s, files, n).journal == Flushed(s.journal, files, replies, n)
    decreases n
  {
    hide Reaches;
    if n == 0 {
      ReachesSelf(s);
    } else {
      FlushIsARun(s, files, replies, n - 1);
      var before := FlushRun(s, files, n - 1);
      FlushFileRuns(before, files[n - 1]);
      ReachesOn(s, before, FlushRun(s, files, n));
      hide FlushedFile;
    }
  }
}
