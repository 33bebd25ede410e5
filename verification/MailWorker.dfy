/**
 The cron mail worker's journal: one file per intake, replaced atomically.

 A receipt keeps the payload where the program keeps its SHA-256 digest (the
 hash is taken to be injective). `mail()` answering false means the message was
 definitely not queued; a process that dies inside `mail()` leaves the result
 unknown.
 */
module MailWorker {
  import opened Prelude
  import opened IntakeTable

  datatype Mark = Sending | MarkedRetry | MarkedAccepted | MarkedUncertain

  datatype Receipt = Receipt(lease: Lease, payload: Payload, mark: Mark, acknowledged: bool)

  type Journal = map<Id, Receipt>

  /** What is known about one call of `mail()`. */
  datatype Call = Unknown | Refused | Queued

  /** What `deliver` decides before it may call `mail()`. */
  datatype Decision = Conflict | Settled(o: Outcome) | Proceed

  function Decide(journal: Journal, job: Job): Decision {
    if job.id !in journal then Proceed
    else if journal[job.id].payload != job.payload then Conflict
    else match journal[job.id].mark
      case MarkedAccepted => Settled(OutcomeAccepted)
      case Sending => Settled(OutcomeUncertain)
      case MarkedUncertain => Settled(OutcomeUncertain)
      case MarkedRetry => Proceed
  }

  /** The journal once the decision is on disk. */
  function Opened(journal: Journal, job: Job): Journal {
    match Decide(journal, job)
    case Conflict => journal
    case Settled(OutcomeAccepted) => journal[job.id := journal[job.id].(lease := job.lease, acknowledged := false)]
    case Settled(_) => journal[job.id := journal[job.id].(lease := job.lease, mark := MarkedUncertain,
                                                          acknowledged := false)]
    case Proceed => journal[job.id := Receipt(job.lease, job.payload, Sending, false)]
  }

  /** The journal once the answer of `mail()` is on disk. */
  function Recorded(journal: Journal, job: Job, queued: bool): Journal {
    journal[job.id := Receipt(job.lease, job.payload, if queued then MarkedAccepted else MarkedRetry, false)]
  }

  /** The outcome a receipt reports; an interrupted send is reported as uncertain. */
  function OutcomeOf(mark: Mark): Outcome {
    match mark
    case MarkedAccepted => OutcomeAccepted
    case MarkedRetry => OutcomeRetry
    case Sending => OutcomeUncertain
    case MarkedUncertain => OutcomeUncertain
  }

  function MarkOf(o: Outcome): Mark {
    match o
    case OutcomeAccepted => MarkedAccepted
    case OutcomeRetry => MarkedRetry
    case OutcomeUncertain => MarkedUncertain
  }

  function ConfirmedReceipt(r: Receipt): Receipt {
    r.(acknowledged := true, mark := MarkOf(OutcomeOf(r.mark)))
  }

  /** A confirmed receipt says what was confirmed; only an interrupted send is rewritten, to "uncertain". */
  lemma ConfirmedSays(r: Receipt)
    ensures OutcomeOf(r.mark) == OutcomeAccepted <==> r.mark == MarkedAccepted
    ensures OutcomeOf(r.mark) == OutcomeRetry <==> r.mark == MarkedRetry
    ensures ConfirmedReceipt(r) == Receipt(r.lease, r.payload, if r.mark == Sending then MarkedUncertain
                                           else r.mark, true)
  {
  }

  /** The API's answer to one acknowledgement; a lost answer ends the run. */
  datatype Reply = Confirmed | Denied | Lost

  /** The journal after the files `files[..n]` were flushed against these answers. */
  function Flushed(journal: Journal, files: seq<Id>, replies: map<Id, Reply>, n: nat): Journal
    requires n <= |files|
  {
    if n == 0 then journal
    else
      var j := Flushed(journal, files, replies, n - 1);
      var id := files[n - 1];
      if id in j && !j[id].acknowledged && id in replies && replies[id] == Confirmed
      then j[id := ConfirmedReceipt(j[id])] else j
  }

  /** Flushing touches only unacknowledged receipts whose acknowledgement was confirmed, each exactly once. */
  lemma {:induction false} FlushedAt(journal: Journal, files: seq<Id>, replies: map<Id, Reply>, n: nat, id: Id)
    requires n <= |files|
    ensures Flushed(journal, files, replies, n).Keys == journal.Keys
    ensures id in journal ==>
              (Flushed(journal, files, replies, n)[id] ==
               if !journal[id].acknowledged && id in files[..n] && id in replies && replies[id] == Confirmed
               then ConfirmedReceipt(journal[id]) else journal[id])
  {
    if n > 0 {
      FlushedAt(journal, files, replies, n - 1, id);
      FlushedAt(journal, files, replies, n - 1, files[n - 1]);
      assert files[..n] == files[..n - 1] + [files[n - 1]];
    }
  }

  /** The point at which the process is killed, if it is. */
  datatype Stop = BeforeJournal | BeforeMail | InMail | AfterMail | Completes

  class Worker {
    var journal: Journal
    /** Every call of `mail()`, per intake, with what is known of its answer. */
    var calls: map<Id, seq<Call>>

    ghost predicate Valid()
      reads this
    {
      forall id :: id in calls ==> id in journal
    }

    function CallsOf(id: Id): seq<Call>
      reads this
    {
      if id in calls then calls[id] else []
    }

    /**
     `deliver`, killed at `stop` or run to its end. `mail()` is called only when
     the receipt saying so is already on disk, and its answer is recorded only
     after it is known.
     */
    method Deliver(job: Job, queued: bool, stop: Stop) returns (o: Option<Outcome>)
      requires Valid()
      modifies this
      ensures Valid()
      ensures var d := Decide(old(journal), job);
              && (stop == BeforeJournal || d == Conflict ==>
                  o == None && journal == old(journal) && calls == old(calls))
              && (stop != BeforeJournal && d.Settled? ==>
                    o == Some(d.o) && journal == Opened(old(journal), job) && calls == old(calls))
              && (stop != BeforeJournal && d == Proceed ==>
                    && journal == (if stop == Completes then Recorded(old(journal), job, queued)
                                   else Opened(old(journal), job))
                    && calls == (if stop == BeforeMail then old(calls) else
                         old(calls)[job.id := old(CallsOf(job.id)) +
                           [if stop == InMail then Unknown else if queued then Queued else Refused]])
                    && o == if stop != Completes then None
                            else if queued then Some(OutcomeAccepted) else Some(OutcomeRetry))
      // A new intake, or one whose last mail was refused, is mailed: a delivery that completes makes one call.
      ensures stop == Completes && (job.id in old(journal) ==> old(journal)[job.id].payload == job.payload
                                                               && old(journal)[job.id].mark == MarkedRetry) ==>
                && calls == old(calls)[job.id := old(CallsOf(job.id)) + [if queued then Queued else Refused]]
                && o == Some(if queued then OutcomeAccepted else OutcomeRetry)
                && job.id in journal && journal[job.id].mark == (if queued then MarkedAccepted else MarkedRetry)
      // One whose mail is queued, or may be, is not mailed again; the receipt gets the new lease.
      ensures stop != BeforeJournal && job.id in old(journal) && old(journal)[job.id].payload == job.payload
              && old(journal)[job.id].mark != MarkedRetry ==>
                && calls == old(calls)
                && o == Some(if old(journal)[job.id].mark == MarkedAccepted then OutcomeAccepted else OutcomeUncertain)
                && job.id in journal
                && journal[job.id].mark == (if old(journal)[job.id].mark == MarkedAccepted then MarkedAccepted
                                            else MarkedUncertain)
      ensures o.Some? ==> journal[job.id].lease == job.lease && journal[job.id].payload == job.payload
                          && !journal[job.id].acknowledged
      // Nothing is overwritten for another payload, and no other intake is touched.
      ensures job.id in old(journal) && old(journal)[job.id].payload != job.payload ==>
                o == None && journal == old(journal) && calls == old(calls)
      ensures forall id :: id != job.id ==>
                && (id in journal <==> id in old(journal)) && (id in journal ==> journal[id] == old(journal)[id])
                && CallsOf(id) == old(CallsOf(id))
    {
      if stop == BeforeJournal {
        return None;
      }
      if job.id in journal {
        var previous := journal[job.id];
        if previous.payload != job.payload {
          return None;
        }
        if previous.mark == MarkedAccepted {
          journal := journal[job.id := previous.(lease := job.lease, acknowledged := false)];
          return Some(OutcomeAccepted);
        }
        if previous.mark == Sending || previous.mark == MarkedUncertain {
          journal := journal[job.id := previous.(lease := job.lease, mark := MarkedUncertain, acknowledged := false)];
          return Some(OutcomeUncertain);
        }
      }
      var receipt := Receipt(job.lease, job.payload, Sending, false);
      journal := journal[job.id := receipt];
      if stop == BeforeMail {
        return None;
      }
      var earlier := CallsOf(job.id);
      if stop == InMail {
        calls := calls[job.id := earlier + [Unknown]];
        return None;
      }
      calls := calls[job.id := earlier + [if queued then Queued else Refused]];
      if stop == AfterMail {
        return None;
      }
      journal := journal[job.id := receipt.(mark := if queued then MarkedAccepted else MarkedRetry)];
      o := Some(if queued then OutcomeAccepted else OutcomeRetry);
    }

    /** `flushAcknowledgements` over the journal files in directory order; stops at the first lost answer. */
    method Flush(files: seq<Id>, replies: map<Id, Reply>) returns (done: nat)
      requires Valid()
      requires forall id :: id in files ==> id in journal && id in replies
      modifies this`journal
      ensures Valid()
      ensures done <= |files| && journal == Flushed(old(journal), files, replies, done)
      ensures done < |files| ==> old(journal)[files[done]].acknowledged == false && replies[files[done]] == Lost
    {
      done := 0;
      ghost var start := journal;
      while done < |files|
        invariant done <= |files|
        invariant journal == Flushed(start, files, replies, done)
        invariant journal.Keys == start.Keys
      {
        var id := files[done];
        FlushedAt(start, files, replies, done, id);
        assert !journal[id].acknowledged ==> !start[id].acknowledged;
        if !journal[id].acknowledged {
          match replies[id] {
            case Lost => return;
            case Denied =>
            case Confirmed =>
              journal := journal[id := ConfirmedReceipt(journal[id])];
          }
        }
        done := done + 1;
      }
    }
  }
}
