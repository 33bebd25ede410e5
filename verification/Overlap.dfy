/**
 The other direction: whatever rows a run of whole steps reaches, transactions one
 after the other reach too. And a run in which a validation overlaps a byte check and
 leaves an item wanting that is not.
 */
module Overlap {
  import opened Prelude
  import opened Catalogue
  import opened Readiness
  import opened PassportValues
  import opened PassportTables
  import opened PassportSteps
  import opened Footprint
  import opened Stability
  import opened Transactions
  import opened Interleaving
  import PS = PassportStory
  import PI = PassportInvariant
  import PR = PassportRuns
  import LO = LockOrder
  import Applicability

  ghost predicate Reachable(env: Env, s: State) {
    exists states, moves :: IsRun(env, states, moves) && states[|moves|] == s
  }

  lemma StartIsReachable(env: Env)
    ensures Reachable(env, State(PR.EMPTY, map[]))
  {
    assert IsRun(env, [State(PR.EMPTY, map[])], []);
  }

  lemma OneMore(env: Env, s: State, move: Move)
    requires Reachable(env, s) && Enabled(env, s, move)
    ensures Reachable(env, Apply(env, s, move))
  {
    hide Enabled, Apply;
    var states, moves :| IsRun(env, states, moves) && states[|moves|] == s;
    var more, longer := states + [Apply(env, s, move)], moves + [move];
    assert IsRun(env, more, longer);
    assert more[|longer|] == Apply(env, s, move);
  }

  // ---- one transaction alone ----

  /** A writer takes locks that nobody else holds, one by one. */
  lemma {:induction false} TakeAll(env: Env, s: State, t: Id, locks: set<Lock>)
    requires Reachable(env, s) && t in s.txs && s.txs[t].Writer? && s.txs[t].seen.None?
    requires forall l :: l in locks ==> Free(s.txs, t, l)
    ensures Reachable(env, s.(txs := s.txs[t := s.txs[t].(locks := s.txs[t].locks + locks)]))
    decreases locks
  {
    hide Reachable;
    if locks == {} {
      assert s.txs[t].locks + {} == s.txs[t].locks;
      assert s.txs[t := s.txs[t].(locks := s.txs[t].locks + {})] == s.txs;
    } else {
      var l :| l in locks;
      var w := s.txs[t].(locks := s.txs[t].locks + {l});
      var next := s.(txs := s.txs[t := w]);
      LockTaken(env, s, t, l);
      TakeAll(env, next, t, locks - {l});
      assert w.locks + (locks - {l}) == s.txs[t].locks + locks;
      assert next.txs[t := w.(locks := w.locks + (locks - {l}))] ==
             s.txs[t := s.txs[t].(locks := s.txs[t].locks + locks)];
    }
  }

  lemma LockTaken(env: Env, s: State, t: Id, l: Lock)
    requires Reachable(env, s) && t in s.txs && s.txs[t].Writer? && s.txs[t].seen.None? && Free(s.txs, t, l)
    ensures Reachable(env, s.(txs := s.txs[t := s.txs[t].(locks := s.txs[t].locks + {l})]))
    ensures forall k :: Free(s.txs, t, k) ==> Free(s.txs[t := s.txs[t].(locks := s.txs[t].locks + {l})], t, k)
  {
    hide Reachable, PR.Attempt, PR.Enabled, PR.Apply, Needs;
    OneMore(env, s, TakeLock(t, l));
  }

  /** A new transaction with the locks its step needs, if nobody else holds them. */
  lemma Locked(env: Env, s: State, t: Id, step: PR.Step, locks: set<Lock>)
    requires Reachable(env, s) && t !in s.txs && !step.StepRejectEvidence?
    requires forall l :: l in locks ==> Free(s.txs, t, l)
    ensures Reachable(env, s.(txs := s.txs[t := Writer(step, locks, None)]))
  {
    hide Reachable, PR.Attempt, PR.Enabled, PR.Apply, Needs;
    OneMore(env, s, BeginWrite(t, step));
    var begun := s.(txs := s.txs[t := Writer(step, {}, None)]);
    assert forall l :: l in locks ==> Free(begun.txs, t, l);
    TakeAll(env, begun, t, locks);
    assert {} + locks == locks;
    assert begun.txs[t := Writer(step, locks, None)] == s.txs[t := Writer(step, locks, None)];
  }

  lemma Decided1(env: Env, s: State, t: Id, step: PR.Step, locks: set<Lock>)
    requires Reachable(env, s) && t in s.txs && s.txs[t] == Writer(step, locks, None) && !IsStatement(step)
    requires PR.Enabled(s.db, step) && Needs(s.db, step) <= locks && PR.Attempt(env, s.db, step).Done?
    ensures Reachable(env, s.(txs := s.txs[t := Writer(step, locks, Some(s.db))]))
  {
    hide Reachable, PR.Attempt, PR.Enabled, PR.Apply, Needs;
    OneMore(env, s, Decide(t));
  }

  /** A statement writes when its row's lock is held. */
  lemma StatementWrites(env: Env, s: State, t: Id, step: PR.Step, locks: set<Lock>)
    requires Reachable(env, s) && t in s.txs && s.txs[t] == Writer(step, locks, None) && IsStatement(step)
    requires Needs(s.db, step) <= locks
    ensures PR.Enabled(s.db, step) && Reachable(env, State(PR.Apply(env, s.db, step), s.txs - {t}))
  {
    hide Reachable, PR.Attempt, PR.Apply, Needs, Written;
    OneMore(env, s, FinishWrite(t));
  }

  /** Written at once, a decision is the step. */
  lemma WrittenAtOnce(env: Env, db: Db, step: PR.Step)
    requires PR.Enabled(db, step) && PR.Attempt(env, db, step).Done?
    ensures Fits(db, db) && Written(env, db, db, step) == PR.Attempt(env, db, step).db
  {
    hide Publishable, UsableEvidence, Invalidate, NextDocument, WithVersion, Noted, AcceptAll, WithPosted, FirstProblem;
  }

  lemma NotTaken(env: Env, db: Db, step: PR.Step)
    requires step.StepPublish? && PR.Enabled(db, step) && PR.Attempt(env, db, step).Done?
    ensures !UpiTaken(db, step.item, UpiOf(env, db.items[step.item]))
  {
    hide Publishable, NextDocument, WithVersion, UpiTaken;
  }

  lemma DecisionWrites(env: Env, s: State, t: Id, step: PR.Step, locks: set<Lock>)
    requires Reachable(env, s) && t in s.txs && s.txs[t] == Writer(step, locks, Some(s.db)) && !IsStatement(step)
    requires PR.Enabled(s.db, step) && PR.Attempt(env, s.db, step).Done?
    ensures Reachable(env, State(PR.Apply(env, s.db, step), s.txs - {t}))
  {
    hide Reachable, PR.Attempt, PR.Enabled, Needs, Written, UpiTaken;
    WrittenAtOnce(env, s.db, step);
    if step.StepPublish? {
      NotTaken(env, s.db, step);
    }
    OneMore(env, s, FinishWrite(t));
  }

  lemma WriterAlone(env: Env, db: Db, step: PR.Step)
    requires Reachable(env, State(db, map[])) && PR.Enabled(db, step) && PR.Attempt(env, db, step).Done?
    requires !step.StepRejectEvidence?
    ensures Reachable(env, State(PR.Apply(env, db, step), map[]))
  {
    hide Reachable, PR.Attempt, PR.Enabled, PR.Apply, Needs;
    var locks := Needs(db, step);
    Locked(env, State(db, map[]), 0, step, locks);
    var locked := State(db, map[0 := Writer(step, locks, None)]);
    assert map[][0 := Writer(step, locks, None)] == locked.txs;
    if IsStatement(step) {
      StatementWrites(env, locked, 0, step, locks);
    } else {
      Decided1(env, locked, 0, step, locks);
      var decided := State(db, map[0 := Writer(step, locks, Some(db))]);
      assert locked.txs[0 := Writer(step, locks, Some(db))] == decided.txs;
      DecisionWrites(env, decided, 0, step, locks);
      assert decided.txs - {0} == map[];
    }
    assert locked.txs - {0} == map[];
  }

  /** The only transaction, in a phase of its rejection. */
  function Rejecting(db: Db, target: Id, phase: Phase): State
    requires target in db.evidence
  {
    State(db, map[0 := Rejecter(target, db.evidence[target].status, 0, phase)])
  }

  lemma {:induction false} LockModels(env: Env, db: Db, target: Id, seen: map<Id, Owner>, todo: seq<Id>,
                                      models: set<Id>)
    requires target in db.evidence && Reachable(env, Rejecting(db, target, Locking(seen, todo, models)))
    ensures Reachable(env, Rejecting(db, target, Locking(seen, [], models + SetOf(todo))))
    decreases |todo|
  {
    hide Reachable, PR.Attempt, PR.Enabled, PR.Apply, Needs;
    if todo == [] {
      assert models + SetOf(todo) == models;
    } else {
      var s := Rejecting(db, target, Locking(seen, todo, models));
      OneMore(env, s, LockNextModel(0));
      assert Apply(env, s, LockNextModel(0)) == Rejecting(db, target, Locking(seen, todo[1..], models + {todo[0]}));
      LockModels(env, db, target, seen, todo[1..], models + {todo[0]});
      assert todo == [todo[0]] + todo[1..];
      assert models + {todo[0]} + SetOf(todo[1..]) == models + SetOf(todo);
    }
  }

  lemma LinksAreRead(env: Env, db: Db, target: Id, order: seq<Id>)
    requires Reachable(env, State(db, map[])) && RejectEvidence(db, target).Done?
    requires Lists(order, GuardsOf(db, Linked(db.table, target)))
    ensures target in db.evidence
    ensures Reachable(env, Rejecting(db, target, Locking(Linked(db.table, target), order, {})))
  {
    hide Reachable, PR.Attempt, PR.Enabled, PR.Apply, Needs, Linked, Invalidate, GuardsOf, Lists;
    OneMore(env, State(db, map[]), BeginReject(0, target));
    OneMore(env, Rejecting(db, target, Loaded), ReadLinks(0, order));
    assert Apply(env, Rejecting(db, target, Loaded), ReadLinks(0, order)) ==
           Rejecting(db, target, Locking(Linked(db.table, target), order, {}));
  }

  lemma LinksAreTheSame(env: Env, db: Db, target: Id, models: set<Id>)
    requires target in db.evidence && Reachable(env,
                                                Rejecting(db, target, Locking(Linked(db.table, target), [], models)))
    ensures Reachable(env, Rejecting(db, target, Checked(Linked(db.table, target), models)))
  {
    hide Reachable, PR.Attempt, PR.Enabled, PR.Apply, Needs, Linked, Invalidate, GuardsOf, Lists;
    var seen := Linked(db.table, target);
    OneMore(env, Rejecting(db, target, Locking(seen, [], models)), LockEvidence(0));
    assert Apply(env, Rejecting(db, target, Locking(seen, [], models)), LockEvidence(0)) ==
           Rejecting(db, target, Holding(seen, models));
    OneMore(env, Rejecting(db, target, Holding(seen, models)), Recheck(0));
    assert Apply(env, Rejecting(db, target, Holding(seen, models)), Recheck(0)) ==
           Rejecting(db, target, Checked(seen, models));
  }

  lemma RejectionAlone(env: Env, db: Db, target: Id)
    requires Reachable(env, State(db, map[])) && RejectEvidence(db, target).Done?
    ensures Reachable(env, State(RejectEvidence(db, target).db, map[]))
  {
    hide Reachable, PR.Attempt, PR.Enabled, PR.Apply, Needs, Linked, Invalidate, GuardsOf, LO.SortedOnce, LinkedOwners;
    var seen := Linked(db.table, target);
    var order := LO.SortedOnce(Listing(GuardsOf(db, seen)));
    LO.SortedOnceSorts(Listing(GuardsOf(db, seen)));
    LinksAreRead(env, db, target, order);
    LockModels(env, db, target, seen, order, {});
    LinksAreTheSame(env, db, target, {} + SetOf(order));
    RejectedAtOnce(env, db, target, seen, {} + SetOf(order));
    LinkedIsSeen(db, target);
    OwnersAreLinked(db, target, seen);
  }

  lemma RejectedAtOnce(env: Env, db: Db, target: Id, seen: map<Id, Owner>, models: set<Id>)
    requires target in db.evidence && Reachable(env, Rejecting(db, target, Checked(seen, models)))
    ensures Reachable(env, State(RejectedRows(db, target, seen), map[]))
  {
    hide Reachable, PR.Attempt, PR.Enabled, PR.Apply, Needs, Invalidate;
    var s := Rejecting(db, target, Checked(seen, models));
    OneMore(env, s, CommitRejection(0));
    assert s.txs - {0} == map[];
  }

  /** Every step of a run of whole steps can be done by a transaction that runs alone. */
  lemma StepAlone(env: Env, db: Db, step: PR.Step)
    requires Reachable(env, State(db, map[])) && PR.Enabled(db, step)
    ensures Reachable(env, State(PR.Apply(env, db, step), map[]))
  {
    hide Reachable, PR.Enabled, Needs, CreateValue, ValidateValue, RejectValue, LinkEvidence, Accept, Submit,
        OpenPortal;
    hide ChangeEvidence, RecordEvent, Ingest, ReviewApplicability, Validate, Publish, AddModel, AddItem, AddEvidence;
    hide AddRequest, RejectEvidence;
    if PR.Attempt(env, db, step).Done? {
      if step.StepRejectEvidence? {
        RejectionAlone(env, db, step.evidence);
      } else {
        WriterAlone(env, db, step);
      }
    }
  }

  /**
   Whatever rows a run of whole steps reaches, a run of transactions reaches, with
   nobody under way; so both kinds of runs reach the same rows.
   */
  lemma {:induction false} RunsAreInterleavings(env: Env, dbs: seq<Db>, steps: seq<PR.Step>, n: nat)
    requires PR.IsRun(env, dbs, steps) && n < |dbs|
    ensures Reachable(env, State(dbs[n], map[]))
  {
    hide Reachable, PR.Enabled, PR.Apply;
    if n == 0 {
      StartIsReachable(env);
    } else {
      RunsAreInterleavings(env, dbs, steps, n - 1);
      StepAlone(env, dbs[n - 1], steps[n - 1]);
    }
  }

  // ---- a validation and a byte check ----

  const REJECTED := PS.CLEAN.(status := RejectedEvidence, scanned := false)
  const UPLOADED := PS.CLEAN.(status := Uploaded, scanned := false)

  /** The story's rows before its validation, with other evidence and links. */
  function Rows(s: PS.Story, evidence: map<Id, Evidence>, links: set<Link>): Db {
    PS.StateAt(s, 13).(evidence := evidence, table := Table(PS.ValuesAt(s, 13), links))
  }

  const FIRST_LINKS: set<Link> := {Link(0, 0), Link(0, 1)}
  const BOTH_LINKS: set<Link> := {Link(0, 0), Link(0, 1), Link(1, 0), Link(1, 1)}

  /** The first evidence was rejected, the second is linked and not verified yet. */
  function Waiting(s: PS.Story): Db {
    Rows(s, map[0 := REJECTED, 1 := UPLOADED], BOTH_LINKS)
  }

  function VerifiedSince(s: PS.Story): Db {
    Rows(s, map[0 := REJECTED, 1 := PS.CLEAN], BOTH_LINKS)
  }

  lemma {:induction false} StoryReaches(s: PS.Story, n: nat)
    requires PS.Apt(s) && n <= 13
    ensures Reachable(s.env, State(PS.StateAt(s, n), map[]))
  {
    hide Reachable, PR.Enabled, PR.Apply, PS.StepAt, PS.StateAt, PS.Apt;
    if n == 0 {
      StoryStarts(s);
      StartIsReachable(s.env);
    } else {
      StoryReaches(s, n - 1);
      PS.EachStepLeads(s, n - 1);
      StepAlone(s.env, PS.StateAt(s, n - 1), PS.StepAt(s, n - 1));
    }
  }

  lemma StoryStarts(s: PS.Story)
    ensures PS.StateAt(s, 0) == PR.EMPTY
  {
  }

  /** What the step makes of the rows. */
  lemma StepLeads(env: Env, db: Db, step: PR.Step, after: Db)
    requires Reachable(env, State(db, map[])) && PR.Enabled(db, step) && PR.Attempt(env, db, step) == Done(after)
    ensures Reachable(env, State(after, map[]))
  {
    hide Reachable, PR.Attempt, PR.Enabled;
    StepAlone(env, db, step);
  }

  lemma FirstIsRejected(s: PS.Story)
    requires Reachable(s.env, State(PS.StateAt(s, 13), map[]))
    ensures Reachable(s.env, State(Rows(s, map[0 := REJECTED], FIRST_LINKS), map[]))
  {
    hide Reachable, CreateValue, ValidateValue, RejectValue, LinkEvidence, Accept, Submit, OpenPortal, ChangeEvidence;
    hide RecordEvent, Ingest, ReviewApplicability, Validate, Publish, AddModel, AddItem, AddEvidence, AddRequest;
    hide LinkedOwners, PS.ValuesAt;
    assert Invalidate(PS.ItemsAt(13), LinkedOwners(PS.StateAt(s, 13).table, 0)) == PS.ItemsAt(13);
    StepLeads(s.env, PS.StateAt(s, 13), PR.StepRejectEvidence(0), Rows(s, map[0 := REJECTED], FIRST_LINKS));
  }

  const PENDING := PS.CLEAN.(status := PendingUpload, scanned := false)

  lemma SecondIsAdded(s: PS.Story)
    requires Reachable(s.env, State(Rows(s, map[0 := REJECTED], FIRST_LINKS), map[]))
    ensures Reachable(s.env, State(Rows(s, map[0 := REJECTED, 1 := PENDING], FIRST_LINKS), map[]))
  {
    hide Reachable, CreateValue, ValidateValue, RejectValue, LinkEvidence, Accept, Submit, OpenPortal, RejectEvidence;
    hide RecordEvent, Ingest, ReviewApplicability, Validate, Publish, AddModel, AddItem, AddRequest, PS.ValuesAt;
    hide ChangeEvidence, PS.StateAt;
    StepLeads(s.env, Rows(s, map[0 := REJECTED], FIRST_LINKS), PR.StepAddEvidence(1),
              Rows(s, map[0 := REJECTED, 1 := PENDING], FIRST_LINKS));
  }

  lemma SecondIsUploaded(s: PS.Story)
    requires Reachable(s.env, State(Rows(s, map[0 := REJECTED, 1 := PENDING], FIRST_LINKS), map[]))
    ensures Reachable(s.env, State(Rows(s, map[0 := REJECTED, 1 := UPLOADED], FIRST_LINKS), map[]))
  {
    hide Reachable, CreateValue, ValidateValue, RejectValue, LinkEvidence, Accept, Submit, OpenPortal, RejectEvidence;
    hide RecordEvent, Ingest, ReviewApplicability, Validate, Publish, AddModel, AddItem, AddRequest, PS.ValuesAt;
    hide AddEvidence, PS.StateAt;
    StepLeads(s.env, Rows(s, map[0 := REJECTED, 1 := PENDING], FIRST_LINKS), PR.StepChangeEvidence(1, UPLOADED),
              Rows(s, map[0 := REJECTED, 1 := UPLOADED], FIRST_LINKS));
  }

  lemma SecondIsLinked(s: PS.Story, links: set<Link>, k: nat)
    requires k < 2 && Reachable(s.env, State(Rows(s, map[0 := REJECTED, 1 := UPLOADED], links), map[]))
    ensures Reachable(s.env, State(Rows(s, map[0 := REJECTED, 1 := UPLOADED], links + {Link(1, k)}), map[]))
  {
    hide Reachable, CreateValue, ValidateValue, RejectValue, Accept, Submit, OpenPortal, RejectEvidence, ChangeEvidence;
    hide RecordEvent, Ingest, ReviewApplicability, Validate, Publish, AddModel, AddItem, AddRequest, AddEvidence;
    PS.DraftStays(s, 13, OfModel(0));
    PS.DraftStays(s, 13, OfItem(0));
    hide Invalidate;
    StepLeads(s.env, Rows(s, map[0 := REJECTED, 1 := UPLOADED], links), PR.StepLink(1, k),
              Rows(s, map[0 := REJECTED, 1 := UPLOADED], links + {Link(1, k)}));
  }

  lemma WaitingIsReachable(s: PS.Story)
    requires PS.Apt(s)
    ensures Reachable(s.env, State(Waiting(s), map[]))
  {
    hide Reachable, PS.Apt, PS.ValuesAt;
    StoryReaches(s, 13);
    FirstIsRejected(s);
    SecondIsAdded(s);
    SecondIsUploaded(s);
    SecondIsLinked(s, FIRST_LINKS, 0);
    SecondIsLinked(s, FIRST_LINKS + {Link(1, 0)}, 1);
    assert FIRST_LINKS + {Link(1, 0)} + {Link(1, 1)} == BOTH_LINKS;
  }

  /** Nothing required is supported while the second evidence waits. */
  lemma WaitingIsWanting(s: PS.Story)
    requires PS.Apt(s)
    ensures HasModel(Waiting(s), 0) && !Publishable(s.env, Waiting(s), 0, s.now)
  {
    hide Publishable, Applicability.Complete, Applicability.Reviewed, Applicability.Parses;
    PS.ReviewIsComplete(s);
    if Publishable(s.env, Waiting(s), 0, s.now) {
      PublishableIsSupported(s.env, Waiting(s), 0, s.now, PS.BRAND);
    }
  }

  /** Verified, it supports both required fields. */
  lemma VerifiedIsPublishable(s: PS.Story)
    requires PS.Apt(s)
    ensures HasModel(VerifiedSince(s), 0) && Publishable(s.env, VerifiedSince(s), 0, s.now)
  {
    hide Applicability.Complete, Applicability.Reviewed, Inputs, MergedId, Missing, Unproven, Applicability.Parses;
    var db := VerifiedSince(s);
    PS.ReviewIsComplete(s);
    PS.Merged(s, 13);
    var inputs := Inputs(s.env, db, PS.HOLDER, s.now, FIELDS);
    forall f | f in s.env.rules.fields && RequiredNow(f, EV, {3}) ensures Proven(ValueOf(inputs, f.id)) {
      VerifiedIsProven(s, f);
    }
    ReadyMeansProven(s.env.rules.fields, EV, inputs, {3});
  }

  lemma VerifiedIsProven(s: PS.Story, f: Field)
    requires PS.Apt(s) && f in s.env.rules.fields && RequiredNow(f, EV, {3})
    ensures Proven(ValueOf(Inputs(s.env, VerifiedSince(s), PS.HOLDER, s.now, FIELDS), f.id))
  {
    var db := VerifiedSince(s);
    PS.Merged(s, 13);
    InputsByField(s.env, db, PS.HOLDER, s.now, FIELDS, f.id);
    var k := if f == PS.BRAND then 0 else 1;
    assert 1 in UsableEvidence(s.env, db.table.links, db.evidence, k, s.now) by {
      assert Link(1, k) in BOTH_LINKS && Usable(s.env, PS.CLEAN, s.now);
    }
  }

  /** The validation has found the item wanting; the check has verified the evidence since. */
  function Overlapping(s: PS.Story): State {
    State(VerifiedSince(s), map[0 := Writer(PR.StepValidate(0, s.now), {LO.ModelRow(0)}, Some(Waiting(s)))])
  }

  lemma ValidationDecides(s: PS.Story)
    requires PS.Apt(s) && Reachable(s.env, State(Waiting(s), map[]))
    ensures Reachable(s.env, State(Waiting(s), Overlapping(s).txs))
  {
    hide Reachable, PR.Apply, Needs, Waiting, PS.Apt, CreateValue, Accept, Publish, Submit, Publishable;
    var step, locks := PR.StepValidate(0, s.now), {LO.ModelRow(0)};
    WaitingIsOpen(s);
    Locked(s.env, State(Waiting(s), map[]), 0, step, locks);
    assert map[][0 := Writer(step, locks, None)] == map[0 := Writer(step, locks, None)];
    var locked := State(Waiting(s), map[0 := Writer(step, locks, None)]);
    Decided1(s.env, locked, 0, step, locks);
    assert locked.txs[0 := Writer(step, locks, Some(Waiting(s)))] == Overlapping(s).txs;
  }

  lemma WaitingIsOpen(s: PS.Story)
    ensures var step := PR.StepValidate(0, s.now);
            && LockItem(Waiting(s), 0).None? && PR.Enabled(Waiting(s), step)
            && PR.Attempt(s.env, Waiting(s), step).Done? && Needs(Waiting(s), step) <= {LO.ModelRow(0)}
  {
    hide Needs, Publishable, CreateValue, Accept, Publish, Submit, PS.ValuesAt;
    NeedsAre(Waiting(s), PR.StepValidate(0, s.now));
  }

  lemma EvidenceIsVerified(s: PS.Story)
    requires Reachable(s.env, State(Waiting(s), Overlapping(s).txs))
    ensures Reachable(s.env, Overlapping(s))
  {
    hide Reachable, Needs, PS.ValuesAt, PS.ModelsAt, PS.ItemsAt, Publishable, CreateValue, Accept, Publish, Submit;
    var step, locks := PR.StepChangeEvidence(1, PS.CLEAN), {LO.EvidenceRow(1)};
    var waiting := State(Waiting(s), Overlapping(s).txs);
    NeedsAre(Waiting(s), step);
    Locked(s.env, waiting, 1, step, locks);
    var locked := waiting.(txs := waiting.txs[1 := Writer(step, locks, None)]);
    StatementWrites(s.env, locked, 1, step, locks);
    assert locked.txs - {1} == Overlapping(s).txs;
    assert Waiting(s).evidence[1 := PS.CLEAN] == VerifiedSince(s).evidence;
  }

  /**
   Transactions need not take effect in the order of their commits: there is a run in
   which a validation is about to write that an item is wanting which is publishable
   by now, because a byte check verified the missing evidence in between.
   */
  lemma ValidationMayBeStale(s: PS.Story)
    requires PS.Apt(s)
    ensures Reachable(s.env, Overlapping(s)) && Enabled(s.env, Overlapping(s), FinishWrite(0))
    ensures Stale(s.env, Overlapping(s).db, Overlapping(s).txs[0])
    ensures Finished(s.env, Overlapping(s), 0) != PR.Apply(s.env, Overlapping(s).db, PR.StepValidate(0, s.now))
  {
    hide Reachable, PR.Apply, PR.Attempt, PR.Enabled, Needs, Waiting, VerifiedSince, PS.Apt, Publishable, Written,
        IsRun;
    hide Finished, PI.Inv, OwnersKnown, Decided;
    WaitingIsReachable(s);
    ValidationDecides(s);
    EvidenceIsVerified(s);
    WaitingIsWanting(s);
    VerifiedIsPublishable(s);
    var states, moves := ReachedBy(s.env, Overlapping(s));
    DecidedCanFinish(s.env, states, moves, |moves|, 0);
    RunInv(s.env, states, moves, |moves|);
    ValidationIsWholeIff(s.env, Overlapping(s), 0);
  }

  lemma ReachedBy(env: Env, s: State) returns (states: seq<State>, moves: seq<Move>)
    requires Reachable(env, s)
    ensures IsRun(env, states, moves) && |states| == |moves| + 1 && states[|moves|] == s
  {
    states, moves :| IsRun(env, states, moves) && states[|moves|] == s;
  }
}
